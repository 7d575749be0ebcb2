/**
 * Sorting as the repository uses it: one stable insertion sort, what it returns, and the strictly
 * ascending list of a set of texts.
 */
module Sorting {
  import opened Text

  /** The order of Go strings. */
  predicate Less(a: string, b: string) {
    if b == "" then false
    else if a == "" then true
    else if a[0] != b[0] then a[0] < b[0]
    else Less(a[1..], b[1..])
  }

  lemma {:induction false} LessTotal(a: string, b: string)
    ensures a == b || Less(a, b) || Less(b, a)
  {
    if a != "" && b != "" && a[0] == b[0] {
      LessTotal(a[1..], b[1..]);
      assert a == [a[0]] + a[1..] && b == [b[0]] + b[1..];
    }
  }

  lemma {:induction false} LessAsymmetric(a: string, b: string)
    ensures !(Less(a, b) && Less(b, a))
  {
    if a != "" && b != "" && a[0] == b[0] {
      LessAsymmetric(a[1..], b[1..]);
    }
  }

  lemma {:induction false} LessTransitive(a: string, b: string, c: string)
    requires Less(a, b) && Less(b, c)
    ensures Less(a, c)
  {
    if a != "" && a[0] == b[0] == c[0] {
      LessTransitive(a[1..], b[1..], c[1..]);
    }
  }

  // --- sorting by an order ------------------------------------------------------------------

  type Order<!T> = (T, T) -> bool

  ghost predicate TotalOrder<T(!new)>(leq: Order<T>) {
    && (forall a, b :: leq(a, b) || leq(b, a))
    && (forall a, b, c :: leq(a, b) && leq(b, c) ==> leq(a, c))
  }

  predicate Ordered<T>(leq: Order<T>, s: seq<T>) {
    forall i, j | 0 <= i < j < |s| :: leq(s[i], s[j])
  }

  function Insert<T>(leq: Order<T>, s: seq<T>, x: T): seq<T>
    decreases |s|
  {
    if s == [] || leq(s[|s| - 1], x) then s + [x]
    else Insert(leq, s[..|s| - 1], x) + [s[|s| - 1]]
  }

  function Sort<T>(leq: Order<T>, s: seq<T>): seq<T>
    decreases |s|
  {
    if s == [] then [] else Insert(leq, Sort(leq, s[..|s| - 1]), s[|s| - 1])
  }

  lemma {:induction false} InsertPermutes<T>(leq: Order<T>, s: seq<T>, x: T)
    ensures multiset(Insert(leq, s, x)) == multiset(s) + multiset{x}
    decreases |s|
  {
    if !(s == [] || leq(s[|s| - 1], x)) {
      InsertPermutes(leq, s[..|s| - 1], x);
      assert s == s[..|s| - 1] + [s[|s| - 1]];
    }
  }

  lemma {:induction false} SortPermutes<T>(leq: Order<T>, s: seq<T>)
    ensures multiset(Sort(leq, s)) == multiset(s)
    ensures |Sort(leq, s)| == |s|
    decreases |s|
  {
    if s != [] {
      SortPermutes(leq, s[..|s| - 1]);
      InsertPermutes(leq, Sort(leq, s[..|s| - 1]), s[|s| - 1]);
      assert s == s[..|s| - 1] + [s[|s| - 1]];
    }
    assert |multiset(Sort(leq, s))| == |multiset(s)|;
  }

  lemma {:induction false} SameElements<T>(s: seq<T>, t: seq<T>)
    requires multiset(s) == multiset(t)
    ensures forall x :: x in s <==> x in t
  {
    assert forall x :: x in s <==> x in multiset(s);
  }

  lemma {:induction false} OrderedSnoc<T>(leq: Order<T>, s: seq<T>, x: T)
    requires Ordered(leq, s) && forall a | a in s :: leq(a, x)
    ensures Ordered(leq, s + [x])
  {
    assert forall i | 0 <= i < |s| :: s[i] in s;
  }

  lemma {:induction false} InsertOrders<T(!new)>(leq: Order<T>, s: seq<T>, x: T)
    requires TotalOrder(leq) && Ordered(leq, s)
    ensures Ordered(leq, Insert(leq, s, x))
    decreases |s|
  {
    if s == [] {
    } else {
      var front, last := s[..|s| - 1], s[|s| - 1];
      assert s == front + [last];
      assert forall a | a in front :: leq(a, last);
      if leq(last, x) {
        OrderedSnoc(leq, s, x) by {
          assert forall a | a in s :: a in front || a == last;
          assert leq(last, last);
        }
      } else {
        InsertOrders(leq, front, x);
        InsertPermutes(leq, front, x);
        assert multiset(Insert(leq, front, x)) == multiset(front + [x]);
        SameElements(Insert(leq, front, x), front + [x]);
        OrderedSnoc(leq, Insert(leq, front, x), last);
      }
    }
  }

  lemma {:induction false} SortOrders<T(!new)>(leq: Order<T>, s: seq<T>)
    requires TotalOrder(leq)
    ensures Ordered(leq, Sort(leq, s))
    decreases |s|
  {
    if s != [] {
      SortOrders(leq, s[..|s| - 1]);
      InsertOrders(leq, Sort(leq, s[..|s| - 1]), s[|s| - 1]);
    }
  }

  ghost predicate Antisymmetric<T>(leq: Order<T>, s: seq<T>) {
    forall a, b | a in s && b in s && leq(a, b) && leq(b, a) :: a == b
  }

  lemma {:induction false} LastIsLargest<T>(leq: Order<T>, s: seq<T>, a: T)
    requires Ordered(leq, s) && a in s && leq(a, a)
    ensures leq(a, s[|s| - 1])
  {
    var i :| 0 <= i < |s| && s[i] == a;
  }

  lemma {:induction false} LastsAgree<T(!new)>(leq: Order<T>, s: seq<T>, t: seq<T>)
    requires TotalOrder(leq) && Ordered(leq, s) && Ordered(leq, t) && multiset(s) == multiset(t)
    requires Antisymmetric(leq, s) && s != [] && t != []
    ensures s[|s| - 1] == t[|t| - 1]
  {
    hide Ordered;
    SameElements(s, t);
    var x, y := s[|s| - 1], t[|t| - 1];
    LastIsLargest(leq, s, y);
    LastIsLargest(leq, t, x);
  }

  lemma {:induction false} OrderedFront<T>(leq: Order<T>, s: seq<T>)
    requires Ordered(leq, s) && s != []
    ensures Ordered(leq, s[..|s| - 1])
    ensures Antisymmetric(leq, s) ==> Antisymmetric(leq, s[..|s| - 1])
  {
    assert forall a | a in s[..|s| - 1] :: a in s;
  }

  lemma {:induction false} FrontsAgree<T>(s: seq<T>, t: seq<T>, x: T)
    requires multiset(s + [x]) == multiset(t + [x])
    ensures multiset(s) == multiset(t)
  {
    assert multiset(s) == multiset(s + [x]) - multiset{x};
    assert multiset(t) == multiset(t + [x]) - multiset{x};
  }

  lemma {:induction false} SameLength<T>(s: seq<T>, t: seq<T>)
    requires multiset(s) == multiset(t)
    ensures |s| == |t|
  {
    assert |s| == |multiset(s)| == |multiset(t)| == |t|;
  }

  /** There is only one ordered arrangement, so any sort at all returns it, stable or not. */
  lemma {:induction false} OrderedIsUnique<T(!new)>(leq: Order<T>, s: seq<T>, t: seq<T>)
    requires TotalOrder(leq) && Ordered(leq, s) && Ordered(leq, t) && multiset(s) == multiset(t)
    requires Antisymmetric(leq, s)
    ensures s == t
    decreases |s|
  {
    SameLength(s, t);
    if s != [] {
      LastsAgree(leq, s, t);
      OrderedFront(leq, s);
      OrderedFront(leq, t);
      hide TotalOrder, Ordered, Antisymmetric;
      var x, s0, t0 := s[|s| - 1], s[..|s| - 1], t[..|t| - 1];
      assert s == s0 + [x] && t == t0 + [x];
      FrontsAgree(s0, t0, x);
      OrderedIsUnique(leq, s0, t0);
    }
  }

  /** Two lists sort alike exactly when they are arrangements of the same elements. */
  lemma {:induction false} SortsAlike<T(!new)>(leq: Order<T>, s: seq<T>, t: seq<T>)
    requires TotalOrder(leq) && Antisymmetric(leq, s)
    ensures Sort(leq, s) == Sort(leq, t) <==> multiset(s) == multiset(t)
  {
    SortPermutes(leq, s);
    SortPermutes(leq, t);
    SortOrders(leq, s);
    SortOrders(leq, t);
    SameElements(Sort(leq, s), s);
    if multiset(s) == multiset(t) {
      OrderedIsUnique(leq, Sort(leq, s), Sort(leq, t));
    }
  }

  lemma {:induction false} SortOfOrdered<T(!new)>(leq: Order<T>, s: seq<T>)
    requires Ordered(leq, s)
    ensures Sort(leq, s) == s
    decreases |s|
  {
    if s != [] {
      var n := |s| - 1;
      assert n > 0 ==> leq(s[n - 1], s[n]);
      assert Ordered(leq, s[..n]) by {
        assert forall i | 0 <= i < n :: s[..n][i] == s[i];
      }
      hide Ordered;
      SortOfOrdered(leq, s[..n]);
      assert s == s[..n] + [s[n]];
    }
  }

  /** The place where Insert puts x: everything above it moves up by one. */
  lemma {:induction false} InsertAt<T>(leq: Order<T>, s: seq<T>, x: T, j: nat)
    requires j <= |s| && (j > 0 ==> leq(s[j - 1], x))
    requires forall k | j <= k < |s| :: !leq(s[k], x)
    ensures Insert(leq, s, x) == s[..j] + [x] + s[j..]
    decreases |s|
  {
    if j == |s| {
      assert s[..j] == s && s[j..] == [];
    } else {
      var n := |s| - 1;
      InsertAt(leq, s[..n], x, j);
      assert s[..n][..j] == s[..j] && s[..n][j..] + [s[n]] == s[j..];
    }
  }

  lemma {:induction false} Assembled<T>(s: seq<T>, x: T, j: nat, r: seq<T>)
    requires j <= |s| && |r| == |s| + 1 && r[j] == x
    requires forall k | 0 <= k < j :: r[k] == s[k]
    requires forall k | j < k <= |s| :: r[k] == s[k - 1]
    ensures r == s[..j] + [x] + s[j..]
  {
  }

  /** One pass of the inner loop of sortTranscript: swaps neighbours until the item has its place. */
  method Sink<T>(leq: Order<T>, items: array<T>, i: nat)
    requires i < items.Length
    modifies items
    ensures items[..i + 1] == Insert(leq, old(items[..i]), old(items[i]))
    ensures items[i + 1..] == old(items[i + 1..])
  {
    ghost var s, x := items[..i], items[i];
    var j := i;
    while j > 0
      invariant 0 <= j <= i && items[j] == x
      invariant forall k | 0 <= k < j :: items[k] == s[k]
      invariant forall k | j < k <= i :: items[k] == s[k - 1]
      invariant forall k | i < k < items.Length :: items[k] == old(items[k])
      invariant forall k | j <= k < i :: !leq(s[k], x)
    {
      if leq(items[j - 1], items[j]) {
        break;
      }
      items[j - 1], items[j] := items[j], items[j - 1];
      j := j - 1;
    }
    InsertAt(leq, s, x, j);
    Assembled(s, x, j, items[..i + 1]);
  }

  /** The insertion sort of internal/corequery/session.go. */
  method InsertionSort<T>(leq: Order<T>, items: array<T>)
    modifies items
    ensures items[..] == Sort(leq, old(items[..]))
  {
    hide Insert;
    ghost var was := items[..];
    var i := 0;
    while i < items.Length
      invariant 0 <= i <= items.Length
      invariant items[..i] == Sort(leq, was[..i])
      invariant items[i..] == was[i..]
    {
      assert items[i] == items[i..][0] == was[i];
      assert items[i + 1..] == items[i..][1..] == was[i + 1..];
      assert was[..i + 1][..i] == was[..i];
      Sink(leq, items, i);
      i := i + 1;
    }
    assert was[..i] == was && items[..i] == items[..];
  }

  /** Equal items keep their order: the sort moves nothing across an item it is not above. */
  lemma {:induction false} SortIsStable<T(!new)>(leq: Order<T>, s: seq<T>, same: T -> bool)
    requires forall a, b | same(a) && same(b) :: leq(a, b)
    ensures Filter(same, Sort(leq, s)) == Filter(same, s)
    decreases |s|
  {
    hide Insert, Filter;
    if s == [] {
      assert Sort(leq, s) == s;
    } else {
      var front, x := s[..|s| - 1], s[|s| - 1];
      SortIsStable(leq, front, same);
      InsertIsStable(leq, Sort(leq, front), x, same);
      FilterOneMore(same, front, x);
      assert s == front + [x];
    }
  }

  lemma {:induction false} InsertIsStable<T(!new)>(leq: Order<T>, s: seq<T>, x: T, same: T -> bool)
    requires forall a, b | same(a) && same(b) :: leq(a, b)
    ensures Filter(same, Insert(leq, s, x)) == Filter(same, s) + (if same(x) then [x] else [])
    decreases |s|
  {
    hide Filter;
    if s == [] || leq(s[|s| - 1], x) {
      FilterOneMore(same, s, x);
      assert Filter(same, s) + [] == Filter(same, s);
    } else {
      var front, last := s[..|s| - 1], s[|s| - 1];
      assert s == front + [last] && Insert(leq, s, x) == Insert(leq, front, x) + [last];
      InsertIsStable(leq, front, x, same);
      hide Insert;
      FilterOneMore(same, Insert(leq, front, x), last);
      FilterOneMore(same, front, last);
      assert !(same(x) && same(last));
    }
  }

  // --- sorted texts without repetition ------------------------------------------------------

  const TEXT_ORDER: Order<string> := (a, b) => !Less(b, a)

  lemma {:induction false} TextOrderIsTotal()
    ensures TotalOrder(TEXT_ORDER)
  {
    forall a, b
      ensures TEXT_ORDER(a, b) || TEXT_ORDER(b, a)
    {
      LessAsymmetric(a, b);
    }
    forall a, b, c | TEXT_ORDER(a, b) && TEXT_ORDER(b, c)
      ensures TEXT_ORDER(a, c)
    {
      LessTotal(a, b);
      LessTotal(b, c);
      LessAsymmetric(a, c);
      if Less(a, b) && Less(b, c) {
        LessTransitive(a, b, c);
      }
    }
  }

  predicate Ascending(s: seq<string>) {
    forall i, j | 0 <= i < j < |s| :: Less(s[i], s[j])
  }

  /** Neighbours that repeat are dropped. */
  function Squeeze(s: seq<string>): (r: seq<string>)
    ensures s != [] ==> r != [] && r[|r| - 1] == s[|s| - 1]
    ensures |r| <= |s|
    decreases |s|
  {
    if |s| <= 1 then s
    else if s[|s| - 1] == s[|s| - 2] then Squeeze(s[..|s| - 1])
    else Squeeze(s[..|s| - 1]) + [s[|s| - 1]]
  }

  function SortedUnique(s: seq<string>): seq<string> {
    Squeeze(Sort(TEXT_ORDER, s))
  }

  lemma {:induction false} SqueezeSnoc(s: seq<string>, x: string)
    requires s != []
    ensures Squeeze(s + [x]) == if x == s[|s| - 1] then Squeeze(s) else Squeeze(s) + [x]
  {
    assert (s + [x])[..|s|] == s;
  }

  lemma {:induction false} AscendingSnoc(r: seq<string>, x: string)
    requires Ascending(r) && forall a | a in r :: Less(a, x)
    ensures Ascending(r + [x])
  {
    assert forall i | 0 <= i < |r| :: r[i] in r;
  }

  lemma {:induction false} SqueezeIsAscending(s: seq<string>)
    requires Ordered(TEXT_ORDER, s)
    ensures Ascending(Squeeze(s))
    ensures forall x :: x in Squeeze(s) <==> x in s
    decreases |s|
  {
    if |s| > 1 {
      var front, x := s[..|s| - 1], s[|s| - 1];
      assert s == front + [x];
      SqueezeIsAscending(front);
      SqueezeSnoc(front, x);
      hide Squeeze, Ascending, Less;
      var r := Squeeze(front);
      if x != front[|front| - 1] {
        forall a | a in r
          ensures Less(a, x)
        {
          BelowLast(front, a, x);
        }
        AscendingSnoc(r, x);
      }
    }
  }

  lemma {:induction false} BelowLast(front: seq<string>, a: string, x: string)
    requires a in front && Ordered(TEXT_ORDER, front + [x]) && front[|front| - 1] != x
    ensures Less(a, x)
  {
    var s := front + [x];
    var last := front[|front| - 1];
    var i :| 0 <= i < |front| && front[i] == a;
    assert s[i] == a && s[|front| - 1] == last && s[|front|] == x;
    LessTotal(last, x);
    LessTotal(a, last);
    if i < |front| - 1 {
      assert TEXT_ORDER(a, last);
      if a != last {
        LessTransitive(a, last, x);
      }
    }
  }

  /** The result ascends strictly and has exactly the given elements. */
  lemma {:induction false} SortedUniqueIs(s: seq<string>)
    ensures Ascending(SortedUnique(s))
    ensures forall x :: x in SortedUnique(s) <==> x in s
  {
    TextOrderIsTotal();
    SortOrders(TEXT_ORDER, s);
    SortPermutes(TEXT_ORDER, s);
    SameElements(Sort(TEXT_ORDER, s), s);
    SqueezeIsAscending(Sort(TEXT_ORDER, s));
  }

  lemma {:induction false} AscendingLast(s: seq<string>, x: string)
    requires Ascending(s) && x in s
    ensures x == s[|s| - 1] || Less(x, s[|s| - 1])
  {
    var i :| 0 <= i < |s| && s[i] == x;
  }

  lemma {:induction false} AscendingFront(front: seq<string>, last: string)
    requires Ascending(front + [last])
    ensures Ascending(front)
    ensures forall x :: x in front <==> x in front + [last] && x != last
  {
    var s := front + [last];
    assert forall i | 0 <= i < |front| :: s[i] == front[i] && Less(s[i], s[|front|]);
    LessAsymmetric(last, last);
    assert forall x :: x in s <==> x in front || x == last;
  }

  /** A set of texts has one ascending list. */
  lemma {:induction false} AscendingIsUnique(s: seq<string>, t: seq<string>)
    requires Ascending(s) && Ascending(t)
    requires forall x :: x in s <==> x in t
    ensures s == t
    decreases |s|
  {
    assert |t| > 0 ==> t[0] in s;
    if s != [] {
      assert s[0] in t;
      var x, y := s[|s| - 1], t[|t| - 1];
      AscendingLast(s, y);
      AscendingLast(t, x);
      LessAsymmetric(x, y);
      var s0, t0 := s[..|s| - 1], t[..|t| - 1];
      assert s == s0 + [x] && t == t0 + [y];
      AscendingFront(s0, x);
      AscendingFront(t0, y);
      AscendingIsUnique(s0, t0);
    }
  }

  /** sortedUnique of internal/approval/plan.go: sorts in place, then moves the kept texts to the front. */
  method SortUniqueInPlace(values: array<string>) returns (kept: nat)
    modifies values
    ensures kept <= values.Length
    ensures values[..kept] == SortedUnique(old(values[..]))
  {
    InsertionSort(TEXT_ORDER, values);
    if values.Length == 0 {
      return 0;
    }
    kept := Compact(values);
  }

  method Compact(values: array<string>) returns (kept: nat)
    requires values.Length > 0
    modifies values
    ensures kept <= values.Length
    ensures values[..kept] == Squeeze(old(values[..]))
  {
    ghost var sorted := values[..];
    kept := 1;
    var i := 1;
    assert values[..1] == sorted[..1] == Squeeze(sorted[..1]);
    hide Squeeze, Less;
    while i < values.Length
      invariant 1 <= kept <= i <= values.Length
      invariant values[..kept] == Squeeze(sorted[..i])
      invariant forall k | i <= k < values.Length :: values[k] == sorted[k]
    {
      assert sorted[..i + 1] == sorted[..i] + [sorted[i]];
      SqueezeSnoc(sorted[..i], sorted[i]);
      assert values[kept - 1] == values[..kept][kept - 1] == sorted[i - 1];
      if values[i] != values[kept - 1] {
        values[kept] := values[i];
        assert values[..kept + 1] == values[..kept] + [sorted[i]];
        kept := kept + 1;
      }
      i := i + 1;
    }
    assert sorted[..i] == sorted;
  }
}
