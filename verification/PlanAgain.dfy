/** Normalising texts and capabilities that are already in canonical form. */
module PlanAgain {
  import opened Text
  import opened Sorting
  import opened Plan
  import opened PlanMeaning

  /**
   * What the library promises: path.Clean is idempotent and never lengthens,
   * and lower case is taken character by character.
   */
  ghost predicate Library(ops: Ops) {
    (forall x :: CleanFine(ops, x)) && (forall c :: LowerFine(ops, c))
  }

  predicate CleanFine(ops: Ops, x: string) {
    && (x != "" ==> 0 < |ops.clean(x)| <= |x| && ops.clean(ops.clean(x)) == ops.clean(x))
    && ('\\' !in x ==> '\\' !in ops.clean(x))
  }

  predicate LowerFine(ops: Ops, c: char) {
    ops.lower(ops.lower(c)) == ops.lower(c) && IsSpace(ops.lower(c)) == IsSpace(c)
        && (ops.lower(c) == '.' <==> c == '.')
  }

  // --- sums over lists ----------------------------------------------------------------------

  function Sum<T>(w: T -> nat, s: seq<T>): nat
    decreases |s|
  {
    if s == [] then 0 else Sum(w, s[..|s| - 1]) + w(s[|s| - 1])
  }

  lemma {:induction false} SumConcat<T>(w: T -> nat, s: seq<T>, t: seq<T>)
    ensures Sum(w, s + t) == Sum(w, s) + Sum(w, t)
    decreases |t|
  {
    if t == [] {
      assert s + t == s;
    } else {
      assert (s + t)[..|s| + |t| - 1] == s + t[..|t| - 1];
      SumConcat(w, s, t[..|t| - 1]);
    }
  }

  lemma {:induction false} SumOne<T>(w: T -> nat, x: T)
    ensures Sum(w, [x]) == w(x)
  {
    assert [x][..0] == [];
  }

  lemma {:induction false} SumPermutes<T>(w: T -> nat, s: seq<T>, t: seq<T>)
    requires multiset(s) == multiset(t)
    ensures Sum(w, s) == Sum(w, t)
    decreases |s|
  {
    assert |multiset(s)| == |s| && |multiset(t)| == |t|;
    if s == [] {
      assert t == [];
    } else {
      var n := |s| - 1;
      var x := s[n];
      assert s == s[..n] + [x];
      assert x in multiset(t);
      var j :| 0 <= j < |t| && t[j] == x;
      assert t == t[..j] + [x] + t[j + 1..];
      Cancel(multiset(s[..n]), multiset(t[..j] + t[j + 1..]), x);
      SumPermutes(w, s[..n], t[..j] + t[j + 1..]);
      SumConcat(w, t[..j], t[j + 1..]);
      SumConcat(w, t[..j] + [x], t[j + 1..]);
      SumConcat(w, t[..j], [x]);
      SumOne(w, x);
    }
  }

  lemma {:induction false} SumSnoc<T>(w: T -> nat, s: seq<T>, x: T)
    ensures Sum(w, s + [x]) == Sum(w, s) + w(x)
  {
    assert (s + [x])[..|s|] == s;
  }

  /** If no element gains, the sum keeps its value only when every element does. */
  lemma {:induction false} SumOfMap<T>(w: T -> nat, f: T -> T, s: seq<T>)
    requires forall x | x in s :: w(f(x)) <= w(x)
    ensures Sum(w, Map(f, s)) <= Sum(w, s)
    ensures Sum(w, Map(f, s)) == Sum(w, s) ==> forall x | x in s :: w(f(x)) == w(x)
    decreases |s|
  {
    if s != [] {
      var front, x := s[..|s| - 1], s[|s| - 1];
      assert s == front + [x];
      SumOfMap(w, f, front);
      assert Map(f, s) == Map(f, front) + [f(x)];
      SumConcat(w, Map(f, front), [f(x)]);
      SumOne(w, f(x));
    }
  }

  // --- lists of texts -----------------------------------------------------------------------

  const WEIGHT: string -> nat := s => |s| + 1

  /** A pick that leaves a text alone, shortens it or drops it. */
  ghost predicate Shrinks(pick: Pick, x: string) {
    pick(x) == Some(x) || pick(x).None? || |pick(x).value| < |x|
  }

  lemma {:induction false} PickedWeighs(pick: Pick, s: seq<string>)
    requires forall x | x in s :: Shrinks(pick, x)
    ensures Sum(WEIGHT, Picked(pick, s)) <= Sum(WEIGHT, s)
    ensures Sum(WEIGHT, Picked(pick, s)) == Sum(WEIGHT, s) ==> forall x | x in s :: pick(x) == Some(x)
    decreases |s|
  {
    if s != [] {
      var front, x := s[..|s| - 1], s[|s| - 1];
      assert s == front + [x];
      PickedWeighs(pick, front);
      assert Shrinks(pick, x);
      SumSnoc(WEIGHT, front, x);
      if pick(x).Some? {
        SumSnoc(WEIGHT, Picked(pick, front), pick(x).value);
        assert Picked(pick, s) == Picked(pick, front) + [pick(x).value];
      } else {
        assert Picked(pick, s) == Picked(pick, front);
      }
      hide Sum, Picked, Shrinks;
    }
  }

  lemma {:induction false} PickedAll(pick: Pick, s: seq<string>)
    requires forall x | x in s :: pick(x) == Some(x)
    ensures Picked(pick, s) == s
    decreases |s|
  {
    if s != [] {
      assert s == s[..|s| - 1] + [s[|s| - 1]];
      PickedAll(pick, s[..|s| - 1]);
    }
  }

  lemma {:induction false} SqueezeWeighs(s: seq<string>)
    ensures Sum(WEIGHT, Squeeze(s)) <= Sum(WEIGHT, s)
    decreases |s|
  {
    if |s| > 1 {
      SqueezeWeighs(s[..|s| - 1]);
      SumConcat(WEIGHT, Squeeze(s[..|s| - 1]), [s[|s| - 1]]);
      SumOne(WEIGHT, s[|s| - 1]);
    }
  }

  /**
   * Normalising a canonical list again: it loses weight unless every text in it is left alone,
   * and then nothing changes.
   */
  lemma {:induction false} ListAgain(pick: Pick, s: seq<string>)
    requires Ascending(s) && forall x | x in s :: Shrinks(pick, x)
    ensures Sum(WEIGHT, NormalList(pick, s)) <= Sum(WEIGHT, s)
    ensures (forall x | x in s :: pick(x) == Some(x)) <==> NormalList(pick, s) == s
    ensures Sum(WEIGHT, NormalList(pick, s)) == Sum(WEIGHT, s) ==> NormalList(pick, s) == s
  {
    PickedWeighs(pick, s);
    SqueezeWeighs(Sort(TEXT_ORDER, Picked(pick, s)));
    SortPermutes(TEXT_ORDER, Picked(pick, s));
    SumPermutes(WEIGHT, Sort(TEXT_ORDER, Picked(pick, s)), Picked(pick, s));
    hide Ascending, Squeeze, Sort, Shrinks, Sum;
    if forall x | x in s :: pick(x) == Some(x) {
      PickedAll(pick, s);
      SortedUniqueIs(s);
      AscendingIsUnique(SortedUnique(s), s);
    }
  }

  // --- the three kinds of texts -------------------------------------------------------------

  lemma {:induction false} TrimNeverLengthens(s: string)
    ensures |Trim(s)| <= |s|
    ensures |Trim(s)| == |s| ==> Trim(s) == s
  {
    TrimLeftShortens(s);
  }

  lemma {:induction false} TrimLeftShortens(s: string)
    ensures |TrimLeft(s)| <= |s|
    ensures |TrimLeft(s)| == |s| ==> TrimLeft(s) == s
  {
    if s != "" && IsSpace(s[0]) {
      TrimLeftShortens(s[1..]);
    }
  }

  lemma {:induction false} PathAgain(ops: Ops, v: string)
    requires Library(ops) && PathPick(ops)(v).Some?
    ensures var x := PathPick(ops)(v).value;
      Shrinks(PathPick(ops), x) && (PathPick(ops)(x) == Some(x) <==> Trim(x) == x)
  {
    hide Trim;
    var t := Trim(Each(SLASHED, v));
    var x := ops.clean(t);
    assert CleanFine(ops, t);
    assert Trim(x) != "" ==> CleanFine(ops, Trim(x));
    assert '\\' !in Each(SLASHED, v);
    TrimKeeps(Each(SLASHED, v), '\\');
    assert Each(SLASHED, x) == x;
    TrimNeverLengthens(x);
  }

  lemma {:induction false} TrimKeeps(s: string, c: char)
    requires c !in s
    ensures c !in Trim(s)
  {
    TrimLeftKeeps(s, c);
  }

  lemma {:induction false} TrimLeftKeeps(s: string, c: char)
    requires c !in s
    ensures c !in TrimLeft(s)
  {
    if s != "" && IsSpace(s[0]) {
      TrimLeftKeeps(s[1..], c);
    }
  }

  predicate EndsInDot(s: string) {
    s != "" && s[|s| - 1] == '.'
  }

  predicate EdgesAreBare(s: string) {
    s != "" ==> !IsSpace(s[0]) && !IsSpace(s[|s| - 1])
  }

  lemma {:induction false} TrimmedByEdges(s: string)
    ensures Trim(s) == s <==> EdgesAreBare(s)
  {
    if EdgesAreBare(s) {
      assert TrimLeft(s) == s;
    }
  }

  /** What a caller can check before the first normalisation. */
  predicate PathSettled(ops: Ops, v: string) {
    var t := Trim(Each(SLASHED, v));
    t == "" || EdgesAreBare(ops.clean(t))
  }

  predicate DomainSettled(v: string) {
    var t := WithoutDot(Trim(v));
    EdgesAreBare(t) && !EndsInDot(t)
  }

  lemma {:induction false} LowerKeepsEdges(ops: Ops, t: string)
    requires Library(ops)
    ensures var x := Each(ops.lower, t);
      EdgesAreBare(x) == EdgesAreBare(t) && EndsInDot(x) == EndsInDot(t) && Each(ops.lower, x) == x
  {
    hide IsSpace, Each;
    var x := Each(ops.lower, t);
    forall i | 0 <= i < |t|
      ensures IsSpace(x[i]) == IsSpace(t[i]) && (x[i] == '.' <==> t[i] == '.') && ops.lower(x[i]) == x[i]
    {
      assert LowerFine(ops, t[i]);
    }
    assert Each(ops.lower, x) == x;
  }

  lemma {:induction false} BareText(x: string)
    ensures if EdgesAreBare(x) && !EndsInDot(x) then WithoutDot(Trim(x)) == x else |WithoutDot(Trim(x))| < |x|
  {
    TrimmedByEdges(x);
    TrimNeverLengthens(x);
  }

  lemma {:induction false} DomainAgain(ops: Ops, v: string)
    requires Library(ops)
    ensures DomainText(ops, v) == "" ==> DomainSettled(v)
    ensures var x := DomainText(ops, v);
      if DomainSettled(v) then DomainText(ops, x) == x else |DomainText(ops, x)| < |x|
  {
    var t := WithoutDot(Trim(v));
    var x := Each(ops.lower, t);
    LowerKeepsEdges(ops, t);
    BareText(x);
    hide Library, Trim, WithoutDot, IsSpace;
  }

  lemma {:induction false} TextAgain(v: string)
    requires TEXT_PICK(v).Some?
    ensures TEXT_PICK(TEXT_PICK(v).value) == TEXT_PICK(v)
  {
    TrimIdempotent(v);
  }

  // --- capabilities -------------------------------------------------------------------------

  function PathTest(ops: Ops): string -> bool {
    v => PathSettled(ops, v)
  }

  const DOMAIN_TEST: string -> bool := v => DomainSettled(v)

  predicate SettledCapability(ops: Ops, c: Capability) {
    (forall v | v in c.paths :: PathTest(ops)(v)) && (forall v | v in c.domains :: DOMAIN_TEST(v))
  }

  /** The test tells whether what was picked from a text is left alone by a second pick. */
  ghost predicate Tells(pick: Pick, test: string -> bool, v: string) {
    if pick(v).None? then test(v)
    else Shrinks(pick, pick(v).value) && (pick(pick(v).value) == pick(v) <==> test(v))
  }

  lemma {:induction false} ValuesSettle(pick: Pick, test: string -> bool, values: seq<string>, s: seq<string>)
    requires forall x :: x in s <==> x in Image(pick, values)
    requires forall v | v in values :: Tells(pick, test, v)
    ensures (forall x | x in s :: pick(x) == Some(x)) <==> forall v | v in values :: test(v)
    ensures forall x | x in s :: Shrinks(pick, x)
  {
    hide Shrinks;
    forall x | x in s
      ensures exists v :: v in values && pick(v) == Some(x)
    {
      assert x in Image(pick, values);
    }
    forall v | v in values && pick(v).Some?
      ensures pick(v).value in s
    {
      assert pick(v).value in Image(pick, values);
    }
  }

  lemma {:induction false} ValuesAgain(pick: Pick, test: string -> bool, values: seq<string>)
    requires forall v | v in values :: Tells(pick, test, v)
    ensures var s := NormalList(pick, values);
      && (NormalList(pick, s) == s <==> forall v | v in values :: test(v))
      && Sum(WEIGHT, NormalList(pick, s)) <= Sum(WEIGHT, s)
      && (Sum(WEIGHT, NormalList(pick, s)) == Sum(WEIGHT, s) ==> NormalList(pick, s) == s)
  {
    SortedUniqueIs(Picked(pick, values));
    PickedIsImage(pick, values);
    var s := SortedUnique(Picked(pick, values));
    hide SortedUnique, Picked, Ascending, Tells, Sum;
    ValuesSettle(pick, test, values, s);
    ListAgain(pick, s);
  }

  lemma {:induction false} PathsTold(ops: Ops, v: string)
    requires Library(ops)
    ensures Tells(PathPick(ops), PathTest(ops), v)
  {
    hide Library, Trim, Shrinks;
    var t := Trim(Each(SLASHED, v));
    if t != "" {
      PathAgain(ops, v);
      TrimmedByEdges(ops.clean(t));
    }
  }

  lemma {:induction false} DomainsTold(ops: Ops, v: string)
    requires Library(ops)
    ensures Tells(DomainPick(ops), DOMAIN_TEST, v)
  {
    DomainAgain(ops, v);
    hide Library, DomainSettled, DomainText;
  }

  const CAPABILITY_WEIGHT: Capability -> nat := (c: Capability) => Sum(WEIGHT, c.paths) + Sum(WEIGHT, c.domains)

  lemma {:induction false} CapabilityTwice(ops: Ops, c: Capability)
    ensures var n := CapabilityFields(ops, c);
      && n.paths == NormalList(PathPick(ops), c.paths)
      && n.domains == NormalList(DomainPick(ops), c.domains)
      && CapabilityFields(ops, n).paths == NormalList(PathPick(ops), n.paths)
      && CapabilityFields(ops, n).domains == NormalList(DomainPick(ops), n.domains)
      && (CapabilityFields(ops, n) == n <==>
          NormalList(PathPick(ops), n.paths) == n.paths && NormalList(DomainPick(ops), n.domains) == n.domains)
  {
    hide Trim, NormalList, PathPick, DomainPick;
    TrimIdempotent(c.name);
    TrimIdempotent(c.command);
  }

  lemma {:induction false} CapabilityAgain(ops: Ops, c: Capability)
    requires Library(ops)
    ensures var n := CapabilityFields(ops, c);
      && (CapabilityFields(ops, n) == n <==> SettledCapability(ops, c))
      && CAPABILITY_WEIGHT(CapabilityFields(ops, n)) <= CAPABILITY_WEIGHT(n)
      && (CAPABILITY_WEIGHT(CapabilityFields(ops, n)) == CAPABILITY_WEIGHT(n) ==> CapabilityFields(ops, n) == n)
  {
    forall v | v in c.paths
      ensures Tells(PathPick(ops), PathTest(ops), v)
    {
      PathsTold(ops, v);
    }
    forall v | v in c.domains
      ensures Tells(DomainPick(ops), DOMAIN_TEST, v)
    {
      DomainsTold(ops, v);
    }
    hide Library, Trim, NormalList, Tells, PathTest, PathPick, DomainPick, Sum;
    ValuesAgain(PathPick(ops), PathTest(ops), c.paths);
    ValuesAgain(DomainPick(ops), DOMAIN_TEST, c.domains);
    CapabilityTwice(ops, c);
    hide CapabilityFields;
  }

  lemma {:induction false} TextsAgain(values: seq<string>)
    ensures NormalList(TEXT_PICK, NormalList(TEXT_PICK, values)) == NormalList(TEXT_PICK, values)
  {
    var test: string -> bool := v => true;
    forall v | v in values
      ensures Tells(TEXT_PICK, test, v)
    {
      if TEXT_PICK(v).Some? {
        TextAgain(v);
      }
    }
    ValuesAgain(TEXT_PICK, test, values);
  }

  // --- lists of capabilities ----------------------------------------------------------------

  lemma {:induction false} MapFixed<T>(f: T -> T, s: seq<T>)
    ensures Map(f, s) == s <==> forall x | x in s :: f(x) == x
  {
    if Map(f, s) == s {
      forall x | x in s
        ensures f(x) == x
      {
        var i :| 0 <= i < |s| && s[i] == x;
        assert Map(f, s)[i] == f(s[i]);
      }
    }
  }

  lemma {:induction false} MapMembers<A, B>(f: A -> B, s: seq<A>)
    ensures forall y :: y in Map(f, s) <==> exists x :: x in s && f(x) == y
  {
    forall y | y in Map(f, s)
      ensures exists x :: x in s && f(x) == y
    {
      var i :| 0 <= i < |s| && Map(f, s)[i] == y;
      assert s[i] in s;
    }
    forall x | x in s
      ensures f(x) in Map(f, s)
    {
      var i :| 0 <= i < |s| && s[i] == x;
      assert Map(f, s)[i] == f(x);
    }
  }

  /** The capabilities of a canonical step come out again as they are exactly when each of them does. */
  lemma {:induction false} CapabilitiesAgain(ops: Ops, capabilities: seq<Capability>)
    requires Library(ops)
    ensures var f, leq := CapabilityFn(ops), CapabilityOrder(ops);
      var sorted := Sort(leq, Map(f, capabilities));
      Sort(leq, Map(f, sorted)) == sorted <==> forall c | c in capabilities :: SettledCapability(ops, c)
  {
    hide Library, Map, Sort, CapabilityFields, SettledCapability;
    var f, leq, w := CapabilityFn(ops), CapabilityOrder(ops), CAPABILITY_WEIGHT;
    var sorted := Sort(leq, Map(f, capabilities));
    SortPermutes(leq, Map(f, capabilities));
    SameElements(sorted, Map(f, capabilities));
    MapMembers(f, capabilities);
    CapabilityOrderIsTotal(ops);
    SortOrders(leq, Map(f, capabilities));
    forall c | c in capabilities
      ensures f(c) in sorted && (f(f(c)) == f(c) <==> SettledCapability(ops, c))
    {
      CapabilityAgain(ops, c);
    }
    forall n | n in sorted
      ensures w(f(n)) <= w(n) && (w(f(n)) == w(n) ==> f(n) == n)
    {
      var c :| c in capabilities && f(c) == n;
      CapabilityAgain(ops, c);
    }
    hide CapabilityFn, CapabilityOrder, Sum, TotalOrder, Ordered;
    SortedAgain(leq, w, f, sorted);
  }

  lemma {:induction false} SortedAgain<T(!new)>(leq: Order<T>, w: T -> nat, f: T -> T, sorted: seq<T>)
    requires Ordered(leq, sorted)
    requires forall n | n in sorted :: w(f(n)) <= w(n) && (w(f(n)) == w(n) ==> f(n) == n)
    ensures Sort(leq, Map(f, sorted)) == sorted <==> forall n | n in sorted :: f(n) == n
  {
    hide Sort, Map, Sum, Ordered;
    MapFixed(f, sorted);
    SortOfOrdered(leq, sorted);
    if Sort(leq, Map(f, sorted)) == sorted {
      SortPermutes(leq, Map(f, sorted));
      SumPermutes(w, sorted, Map(f, sorted));
      SumOfMap(w, f, sorted);
    }
  }
}
