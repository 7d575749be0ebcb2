/** clearOldToolResults (internal/contextpack/pack.go): the bodies of old tool results give way to a placeholder. */
module Clear {
  import opened Text
  import opened Messages
  import opened Estimate

  function Placeholder(m: Message): string {
    var id := Trim(m.toolCallId);
    "[cleared tool result: id=" + (if id == "" then "?" else id) + "; full output retained in local history]"
  }

  /** Tokens of the tool results at position i and later, that is, of the newest ones. */
  function ToolTokensFrom(ms: seq<Message>, i: nat): (n: nat)
    requires i <= |ms|
    decreases |ms| - i
  {
    if i == |ms| then 0 else ToolTokensFrom(ms, i + 1) + if ms[i].role.Tool? then TextTokens(ms[i].content) else 0
  }

  /** A result is old when the results after it already fill the protected amount. */
  predicate Old(ms: seq<Message>, i: nat, protect: int)
    requires i < |ms|
  {
    ms[i].role.Tool? && ToolTokensFrom(ms, i + 1) >= protect
  }

  /** Clearing must save more than four tokens. */
  predicate WorthClearing(m: Message) {
    TextTokens(m.content) > TextTokens(Placeholder(m)) + 4
  }

  /** Tokens of the old results at position i and later. */
  function OldTokensFrom(ms: seq<Message>, i: nat, protect: int): nat
    requires i <= |ms|
    decreases |ms| - i
  {
    if i == |ms| then 0
    else OldTokensFrom(ms, i + 1, protect) + if Old(ms, i, protect) then TextTokens(ms[i].content) else 0
  }

  predicate IsCleared(ms: seq<Message>, i: nat, protect: int, reclaimMin: int)
    requires i < |ms|
  {
    OldTokensFrom(ms, 0, protect) >= reclaimMin && Old(ms, i, protect) && WorthClearing(ms[i])
  }

  function ClearedAt(ms: seq<Message>, i: nat, protect: int, reclaimMin: int): Message
    requires i < |ms|
  {
    if IsCleared(ms, i, protect, reclaimMin) then ms[i].(content := Placeholder(ms[i])) else ms[i]
  }

  function Cleared(ms: seq<Message>, protect: int, reclaimMin: int): (r: seq<Message>)
    ensures SameShape(r, ms)
  {
    seq(|ms|, i requires 0 <= i < |ms| => ClearedAt(ms, i, protect, reclaimMin))
  }

  function ClearedCountFrom(ms: seq<Message>, i: nat, protect: int, reclaimMin: int): nat
    requires i <= |ms|
    decreases |ms| - i
  {
    if i == |ms| then 0
    else ClearedCountFrom(ms, i + 1, protect, reclaimMin) + if IsCleared(ms, i, protect, reclaimMin) then 1 else 0
  }

  // ----- the source's three loops -----

  /** Position and estimate of one tool result. */
  datatype Entry = Entry(i: nat, est: nat)

  /** The tool results from position i on, newest first. */
  function ToolsFrom(ms: seq<Message>, i: nat): seq<Entry>
    requires i <= |ms|
    decreases |ms| - i
  {
    if i == |ms| then [] else
      ToolsFrom(ms, i + 1) + if ms[i].role.Tool? then [Entry(i, TextTokens(ms[i].content))] else []
  }

  function Sum(tools: seq<Entry>): nat {
    if tools == [] then 0 else Sum(tools[..|tools| - 1]) + tools[|tools| - 1].est
  }

  function Reclaim(tools: seq<Entry>, protect: int): nat {
    if tools == [] then 0 else
      var last := |tools| - 1;
      Reclaim(tools[..last], protect) + if Sum(tools[..last]) >= protect then tools[last].est else 0
  }

  lemma {:induction false} ToolsSums(ms: seq<Message>, i: nat, protect: int)
    requires i <= |ms|
    ensures Sum(ToolsFrom(ms, i)) == ToolTokensFrom(ms, i)
    ensures Reclaim(ToolsFrom(ms, i), protect) == OldTokensFrom(ms, i, protect)
    decreases |ms| - i
  {
    if i < |ms| {
      ToolsSums(ms, i + 1, protect);
      var tools := ToolsFrom(ms, i);
      if ms[i].role.Tool? {
        assert tools[..|tools| - 1] == ToolsFrom(ms, i + 1);
      } else {
        assert tools == ToolsFrom(ms, i + 1);
      }
    }
  }

  /** The first n entries are the results after the n-th one. */
  lemma {:induction false} ToolsPrefix(ms: seq<Message>, i: nat, n: nat)
    requires i <= |ms| && n < |ToolsFrom(ms, i)|
    ensures var p := ToolsFrom(ms, i)[n].i;
            i <= p < |ms| && ms[p].role.Tool? && ToolsFrom(ms, i)[n].est == TextTokens(ms[p].content) &&
            ToolsFrom(ms, i)[..n] == ToolsFrom(ms, p + 1)
    decreases |ms| - i
  {
    var later := ToolsFrom(ms, i + 1);
    if n < |later| {
      ToolsPrefix(ms, i + 1, n);
      assert ToolsFrom(ms, i)[..n] == later[..n];
    } else {
      assert ToolsFrom(ms, i)[..n] == later;
    }
  }

  /** Between two neighbours of the list there is no tool result. */
  lemma {:induction false} ToolsGap(ms: seq<Message>, i: nat, n: nat, k: nat)
    requires i <= k < |ms| && n <= |ToolsFrom(ms, i)|
    requires n < |ToolsFrom(ms, i)| ==> ToolsFrom(ms, i)[n].i < k
    requires n > 0 ==> k < ToolsFrom(ms, i)[n - 1].i
    ensures !ms[k].role.Tool?
    decreases |ms| - i
  {
    var later := ToolsFrom(ms, i + 1);
    var all := ToolsFrom(ms, i);
    if k == i {
      if n < |all| {
        ToolsPrefix(ms, i, n);
        assert false;
      }
    } else if n <= |later| {
      ToolsGap(ms, i + 1, n, k);
    }
  }

  method CollectTools(messages: seq<Message>) returns (tools: seq<Entry>)
    ensures tools == ToolsFrom(messages, 0)
  {
    tools := [];
    var i := |messages| - 1;
    while i >= 0
      invariant -1 <= i < |messages|
      invariant tools == ToolsFrom(messages, i + 1)
    {
      if messages[i].role.Tool? {
        var est := EstimateText(messages[i].content);
        tools := tools + [Entry(i, est)];
      }
      i := i - 1;
    }
  }

  /** Fills the protected amount newest first; clearFrom is the first entry beyond it, or -1. */
  method Survey(tools: seq<Entry>, protect: int) returns (reclaim: int, clearFrom: int)
    ensures reclaim == Reclaim(tools, protect)
    ensures -1 <= clearFrom < |tools|
    ensures clearFrom < 0 ==> reclaim == 0
    ensures forall n | 0 <= n < |tools| :: Sum(tools[..n]) >= protect <==> 0 <= clearFrom <= n
  {
    var kept := 0;
    reclaim, clearFrom := 0, -1;
    for n := 0 to |tools|
      invariant -1 <= clearFrom < n
      invariant kept < protect ==> kept == Sum(tools[..n]) && clearFrom < 0
      invariant kept >= protect ==> Sum(tools[..n]) >= protect
      invariant clearFrom < 0 ==> reclaim == 0
      invariant reclaim == Reclaim(tools[..n], protect)
      invariant forall j | 0 <= j < n :: Sum(tools[..j]) >= protect <==> 0 <= clearFrom <= j
    {
      assert tools[..n + 1][..n] == tools[..n];
      if kept < protect {
        kept := kept + tools[n].est;
      } else {
        reclaim := reclaim + tools[n].est;
        if clearFrom < 0 {
          clearFrom := n;
        }
      }
    }
    assert tools[..|tools|] == tools;
  }

  method ClearOldToolResults(messages: array<Message>, protect: int, reclaimMin: int) returns (cleared: nat)
    modifies messages
    ensures messages[..] == Cleared(old(messages[..]), protect, reclaimMin)
    ensures cleared == ClearedCountFrom(old(messages[..]), 0, protect, reclaimMin)
  {
    hide Placeholder, TextTokens, Sum, Reclaim, ToolsFrom, OldTokensFrom, ToolTokensFrom, Old, IsCleared, ClearedAt,
         ClearedCountFrom;
    ghost var was := messages[..];
    var tools := CollectTools(messages[..]);
    var reclaim, clearFrom := Survey(tools, protect);
    ToolsSums(was, 0, protect);
    OldByEntry(was, protect, tools);
    if reclaim < reclaimMin || clearFrom < 0 {
      NothingCleared(was, 0, protect, reclaimMin, tools);
      return 0;
    }
    cleared := 0;
    var n := clearFrom;
    CountAbove(was, protect, reclaimMin, tools, clearFrom);
    while n < |tools|
      invariant clearFrom <= n <= |tools|
      invariant forall k | 0 <= k < messages.Length ::
                  messages[k] == if k >= Bound(tools, n) then ClearedAt(was, k, protect, reclaimMin) else was[k]
      invariant Bound(tools, n) <= |was| && cleared == ClearedCountFrom(was, Bound(tools, n), protect, reclaimMin)
    {
      var i := tools[n].i;
      EntryClears(was, protect, reclaimMin, tools, n);
      GapUnchanged(was, protect, reclaimMin, tools, n);
      var placeholder := Placeholder(messages[i]);
      var size := EstimateText(messages[i].content);
      var short := EstimateText(placeholder);
      assert messages[i] == was[i];
      if messages[i].content == placeholder {
        // already cleared
      } else if size <= short + 4 {
        // short enough already
      } else {
        messages[i] := messages[i].(content := placeholder);
        cleared := cleared + 1;
      }
      n := n + 1;
    }
  }

  /** An entry beyond the protected amount is cleared if that is worth it. */
  lemma {:induction false} EntryClears(ms: seq<Message>, protect: int, reclaimMin: int, tools: seq<Entry>, n: nat)
    requires tools == ToolsFrom(ms, 0) && n < |tools|
    requires OldTokensFrom(ms, 0, protect) >= reclaimMin && Sum(tools[..n]) >= protect
    ensures var i := tools[n].i;
            && i < |ms|
            && ClearedAt(ms, i, protect, reclaimMin) ==
               (if WorthClearing(ms[i]) then ms[i].(content := Placeholder(ms[i])) else ms[i])
            && ClearedCountFrom(ms, i, protect, reclaimMin) ==
               ClearedCountFrom(ms, i + 1, protect, reclaimMin) + if WorthClearing(ms[i]) then 1 else 0
  {
    hide Placeholder, TextTokens, Sum, ToolsFrom, OldTokensFrom, ToolTokensFrom;
    ToolsPrefix(ms, 0, n);
    OldByOneEntry(ms, protect, tools, n);
  }

  /** Positions from here on are settled once the first n entries are. */
  function Bound(tools: seq<Entry>, n: nat): nat
    requires n <= |tools|
  {
    if n < |tools| then tools[n].i + 1 else 0
  }

  lemma {:induction false} OldByEntry(ms: seq<Message>, protect: int, tools: seq<Entry>)
    requires tools == ToolsFrom(ms, 0)
    ensures forall n | 0 <= n < |tools| ::
              tools[n].i < |ms| && (Old(ms, tools[n].i, protect) <==> Sum(tools[..n]) >= protect)
  {
    forall n | 0 <= n < |tools|
      ensures tools[n].i < |ms| && (Old(ms, tools[n].i, protect) <==> Sum(tools[..n]) >= protect)
    {
      OldByOneEntry(ms, protect, tools, n);
    }
  }

  lemma {:induction false} OldByOneEntry(ms: seq<Message>, protect: int, tools: seq<Entry>, n: nat)
    requires tools == ToolsFrom(ms, 0) && n < |tools|
    ensures tools[n].i < |ms| && (Old(ms, tools[n].i, protect) <==> Sum(tools[..n]) >= protect)
  {
    hide Sum, ToolsFrom, TextTokens, ToolTokensFrom, OldTokensFrom, Reclaim;
    ToolsPrefix(ms, 0, n);
    ToolsSums(ms, tools[n].i + 1, protect);
  }

  /** Every tool result is in the list. */
  lemma {:induction false} EntryOf(ms: seq<Message>, i: nat, k: nat) returns (n: nat)
    requires i <= k < |ms| && ms[k].role.Tool?
    ensures n < |ToolsFrom(ms, i)| && ToolsFrom(ms, i)[n].i == k
    decreases |ms| - i
  {
    if k == i {
      n := |ToolsFrom(ms, i)| - 1;
    } else {
      n := EntryOf(ms, i + 1, k);
    }
  }

  lemma {:induction false} NothingCleared(ms: seq<Message>, i: nat, protect: int, reclaimMin: int, tools: seq<Entry>)
    requires i <= |ms| && tools == ToolsFrom(ms, 0)
    requires OldTokensFrom(ms, 0, protect) < reclaimMin || forall n | 0 <= n < |tools| :: Sum(tools[..n]) < protect
    ensures ClearedCountFrom(ms, i, protect, reclaimMin) == 0
    ensures forall k | i <= k < |ms| :: ClearedAt(ms, k, protect, reclaimMin) == ms[k]
    decreases |ms| - i
  {
    if i < |ms| {
      NothingCleared(ms, i + 1, protect, reclaimMin, tools);
      if ms[i].role.Tool? {
        var n := EntryOf(ms, 0, i);
        OldByEntry(ms, protect, tools);
      }
    }
  }

  /** No result newer than the entry `from` is old. */
  lemma {:induction false} CountAbove(ms: seq<Message>, protect: int, reclaimMin: int, tools: seq<Entry>, from: nat)
    requires tools == ToolsFrom(ms, 0) && from < |tools|
    requires forall n | 0 <= n < |tools| :: Sum(tools[..n]) >= protect <==> from <= n
    ensures Bound(tools, from) <= |ms|
    ensures forall k | Bound(tools, from) <= k < |ms| :: ClearedAt(ms, k, protect, reclaimMin) == ms[k]
    ensures ClearedCountFrom(ms, Bound(tools, from), protect, reclaimMin) == 0
  {
    hide ToolsFrom, Sum, Placeholder;
    ToolsPrefix(ms, 0, from);
    OldByEntry(ms, protect, tools);
    forall k | Bound(tools, from) <= k < |ms| ensures !Old(ms, k, protect) {
      if ms[k].role.Tool? {
        var n := EntryOf(ms, 0, k);
        Descending(ms, n, from);
      }
    }
    CountNone(ms, Bound(tools, from), protect, reclaimMin);
  }

  lemma {:induction false} CountNone(ms: seq<Message>, i: nat, protect: int, reclaimMin: int)
    requires i <= |ms|
    requires forall k | i <= k < |ms| :: !Old(ms, k, protect)
    ensures ClearedCountFrom(ms, i, protect, reclaimMin) == 0
    decreases |ms| - i
  {
    if i < |ms| {
      CountNone(ms, i + 1, protect, reclaimMin);
    }
  }

  lemma {:induction false} Descending(ms: seq<Message>, n: nat, m: nat)
    requires n < |ToolsFrom(ms, 0)| && m < |ToolsFrom(ms, 0)|
    requires ToolsFrom(ms, 0)[n].i > ToolsFrom(ms, 0)[m].i
    ensures n < m
  {
    if n > m {
      ToolsPrefix(ms, 0, n);
      var p := ToolsFrom(ms, 0)[n].i;
      assert ToolsFrom(ms, 0)[..n][m] == ToolsFrom(ms, p + 1)[m];
      ToolsPrefix(ms, p + 1, m);
    }
  }

  lemma {:induction false} GapUnchanged(ms: seq<Message>, protect: int, reclaimMin: int, tools: seq<Entry>, n: nat)
    requires tools == ToolsFrom(ms, 0) && n < |tools|
    ensures Bound(tools, n + 1) <= tools[n].i < Bound(tools, n) <= |ms|
    ensures forall k | Bound(tools, n + 1) <= k < tools[n].i :: ClearedAt(ms, k, protect, reclaimMin) == ms[k]
    ensures ClearedCountFrom(ms, Bound(tools, n + 1), protect, reclaimMin) ==
            ClearedCountFrom(ms, tools[n].i, protect, reclaimMin)
  {
    hide ToolsFrom, Sum, Placeholder;
    ToolsPrefix(ms, 0, n);
    if n + 1 < |tools| {
      ToolsPrefix(ms, 0, n + 1);
      var p := tools[n + 1].i;
      assert tools[..n + 1][n] == ToolsFrom(ms, p + 1)[n];
      ToolsPrefix(ms, p + 1, n);
    }
    forall k | Bound(tools, n + 1) <= k < tools[n].i ensures !ms[k].role.Tool? {
      ToolsGap(ms, 0, n + 1, k);
    }
    CountGap(ms, Bound(tools, n + 1), tools[n].i, protect, reclaimMin);
  }

  lemma {:induction false} CountGap(ms: seq<Message>, i: nat, j: nat, protect: int, reclaimMin: int)
    requires i <= j <= |ms|
    requires forall k | i <= k < j :: !ms[k].role.Tool?
    ensures ClearedCountFrom(ms, i, protect, reclaimMin) == ClearedCountFrom(ms, j, protect, reclaimMin)
    decreases j - i
  {
    if i < j {
      CountGap(ms, i + 1, j, protect, reclaimMin);
    }
  }

  // ----- what clearing does -----

  lemma {:induction false} TokensFromMonotone(ms: seq<Message>, i: nat, j: nat)
    requires i <= j <= |ms|
    ensures ToolTokensFrom(ms, i) >= ToolTokensFrom(ms, j)
    decreases j - i
  {
    if i < j {
      TokensFromMonotone(ms, i + 1, j);
    }
  }

  /**
   * The protected results form the shortest newest-first run that reaches the protected amount: from position c on
   * all are kept word for word, they reach the amount unless they are all there is, and no shorter run does.
   */
  lemma {:induction false} ProtectedRun(ms: seq<Message>, protect: int, reclaimMin: int) returns (c: nat)
    ensures c <= |ms|
    ensures Cleared(ms, protect, reclaimMin)[c..] == ms[c..]
    ensures c > 0 ==> ToolTokensFrom(ms, c) >= protect
    ensures forall d | c < d <= |ms| :: ToolTokensFrom(ms, d) < protect
    ensures forall i | 0 <= i < c && ms[i].role.Tool? :: Old(ms, i, protect)
  {
    hide Placeholder, TextTokens;
    c := |ms|;
    while c > 0 && ToolTokensFrom(ms, c) < protect
      invariant 0 <= c <= |ms|
      invariant forall d | c < d <= |ms| :: ToolTokensFrom(ms, d) < protect
    {
      c := c - 1;
    }
    forall i | c <= i < |ms| ensures !Old(ms, i, protect) {
    }
    forall i | 0 <= i < c && ms[i].role.Tool? ensures Old(ms, i, protect) {
      TokensFromMonotone(ms, i + 1, c);
    }
  }

  lemma {:induction false} ClearedTokensFrom(ms: seq<Message>, i: nat, protect: int, reclaimMin: int)
    requires i <= |ms|
    requires forall k | i <= k < |ms| :: !Old(ms, k, protect)
    ensures ToolTokensFrom(Cleared(ms, protect, reclaimMin), i) == ToolTokensFrom(ms, i)
    decreases |ms| - i
  {
    if i < |ms| {
      ClearedTokensFrom(ms, i + 1, protect, reclaimMin);
    }
  }

  /** A second pass clears nothing. */
  lemma {:induction false} ClearIdempotent(ms: seq<Message>, protect: int, reclaimMin: int)
    ensures Cleared(Cleared(ms, protect, reclaimMin), protect, reclaimMin) == Cleared(ms, protect, reclaimMin)
    ensures ClearedCountFrom(Cleared(ms, protect, reclaimMin), 0, protect, reclaimMin) == 0
  {
    hide TextTokens;
    var once := Cleared(ms, protect, reclaimMin);
    forall i: nat | i < |ms| ensures !IsCleared(once, i, protect, reclaimMin) {
      if !Old(ms, i, protect) && ms[i].role.Tool? {
        forall k: nat | i < k < |ms| ensures !Old(ms, k, protect) {
          TokensFromMonotone(ms, i + 1, k + 1);
        }
        ClearedTokensFrom(ms, i + 1, protect, reclaimMin);
      } else if Old(ms, i, protect) && OldTokensFrom(ms, 0, protect) < reclaimMin {
        assert once == ms;
      }
    }
    CountUncleared(once, 0, protect, reclaimMin);
  }

  lemma {:induction false} CountUncleared(ms: seq<Message>, i: nat, protect: int, reclaimMin: int)
    requires i <= |ms|
    requires forall k | i <= k < |ms| :: !IsCleared(ms, k, protect, reclaimMin)
    ensures ClearedCountFrom(ms, i, protect, reclaimMin) == 0
    decreases |ms| - i
  {
    if i < |ms| {
      CountUncleared(ms, i + 1, protect, reclaimMin);
    }
  }

  lemma {:induction false} ClearSavesFrom(ms: seq<Message>, i: nat, protect: int, reclaimMin: int)
    requires i <= |ms|
    ensures ListTokens(Cleared(ms, protect, reclaimMin)[i..]) + 5 * ClearedCountFrom(ms, i, protect, reclaimMin)
            <= ListTokens(ms[i..])
    decreases |ms| - i
  {
    hide TextTokens, Placeholder, MessageTokens, ListTokens, OldTokensFrom, ToolTokensFrom, CallsTokens, SameShape;
    if i == |ms| {
      EmptyTokens();
    } else {
      var after := Cleared(ms, protect, reclaimMin);
      ClearSavesFrom(ms, i + 1, protect, reclaimMin);
      assert ms[i..] == [ms[i]] + ms[i + 1..] && after[i..] == [after[i]] + after[i + 1..];
      ListTokensConcat([ms[i]], ms[i + 1..]);
      ListTokensConcat([after[i]], after[i + 1..]);
      OneToken(ms[i]);
      OneToken(after[i]);
      BodyTokens(ms[i], Placeholder(ms[i]));
    }
  }

  lemma {:induction false} EmptyTokens()
    ensures ListTokens([]) == 0
  {
  }

  lemma {:induction false} BodyTokens(m: Message, body: string)
    ensures MessageTokens(m.(content := body)) == MessageTokens(m) - TextTokens(m.content) + TextTokens(body)
  {
  }

  lemma {:induction false} OneToken(m: Message)
    ensures ListTokens([m]) == MessageTokens(m)
  {
    assert [m][..0] == [];
  }

  /** Every cleared result lowers the estimate of the list by more than four. */
  lemma {:induction false} ClearSaves(ms: seq<Message>, protect: int, reclaimMin: int)
    ensures ListTokens(Cleared(ms, protect, reclaimMin)) + 5 * ClearedCountFrom(ms, 0, protect, reclaimMin)
            <= ListTokens(ms)
  {
    ClearSavesFrom(ms, 0, protect, reclaimMin);
    assert ms[0..] == ms && Cleared(ms, protect, reclaimMin)[0..] == Cleared(ms, protect, reclaimMin);
  }

  // ----- what is cleared -----

  /** A placeholder tells whose result it stands for: results of calls with different ids get different ones. */
  lemma {:induction false} PlaceholderTells(a: Message, b: Message)
    ensures Placeholder(a) == Placeholder(b) ==>
              || Trim(a.toolCallId) == Trim(b.toolCallId)
              || (Trim(a.toolCallId) in {"", "?"} && Trim(b.toolCallId) in {"", "?"})
  {
    var head, tail := "[cleared tool result: id=", "; full output retained in local history]";
    var x := if Trim(a.toolCallId) == "" then "?" else Trim(a.toolCallId);
    var y := if Trim(b.toolCallId) == "" then "?" else Trim(b.toolCallId);
    hide Trim;
    assert Placeholder(a) == head + x + tail && Placeholder(b) == head + y + tail;
    hide Placeholder;
    if Placeholder(a) == Placeholder(b) {
      SameMiddle(head, x, y, tail);
    }
  }

  lemma {:induction false} SameMiddle(head: string, x: string, y: string, tail: string)
    requires head + x + tail == head + y + tail
    ensures x == y
  {
    assert |head + x + tail| == |head + y + tail|;
    assert x == (head + x + tail)[|head|..|head| + |x|];
    assert y == (head + y + tail)[|head|..|head| + |y|];
  }

  /** Tokens of the tool results in a list. */
  function ResultTokens(ms: seq<Message>): nat {
    if ms == [] then 0 else
      var m := ms[|ms| - 1];
      ResultTokens(ms[..|ms| - 1]) + if m.role.Tool? then TextTokens(m.content) else 0
  }

  lemma {:induction false} ResultTokensConcat(a: seq<Message>, b: seq<Message>)
    ensures ResultTokens(a + b) == ResultTokens(a) + ResultTokens(b)
  {
    hide TextTokens;
    if b == [] {
      assert a + b == a;
    } else {
      assert (a + b)[..|a + b| - 1] == a + b[..|b| - 1];
      ResultTokensConcat(a, b[..|b| - 1]);
    }
  }

  lemma {:induction false} OneResult(m: Message)
    ensures ResultTokens([m]) == if m.role.Tool? then TextTokens(m.content) else 0
  {
    hide TextTokens;
    assert [m][..0] == [];
  }

  lemma {:induction false} TokensFromIs(ms: seq<Message>, i: nat)
    requires i <= |ms|
    ensures ToolTokensFrom(ms, i) == ResultTokens(ms[i..])
    decreases |ms| - i
  {
    hide TextTokens;
    if i < |ms| {
      TokensFromIs(ms, i + 1);
      assert ms[i..] == [ms[i]] + ms[i + 1..];
      ResultTokensConcat([ms[i]], ms[i + 1..]);
      OneResult(ms[i]);
    }
  }

  /** The results before c are the old ones. */
  lemma {:induction false} OldTokensIs(ms: seq<Message>, i: nat, protect: int, c: nat)
    requires i <= |ms| && c <= |ms|
    requires forall k | 0 <= k < |ms| :: Old(ms, k, protect) <==> k < c && ms[k].role.Tool?
    ensures OldTokensFrom(ms, i, protect) == if i < c then ResultTokens(ms[i..c]) else 0
    decreases |ms| - i
  {
    hide TextTokens, ToolTokensFrom, Old;
    if i < |ms| {
      OldTokensIs(ms, i + 1, protect, c);
      if i < c {
        assert ms[i..c] == [ms[i]] + ms[i + 1..c];
        ResultTokensConcat([ms[i]], ms[i + 1..c]);
        OneResult(ms[i]);
        assert ms[c..c] == [];
      }
    }
  }

  /**
   * From position c on stand the newest results, the fewest that hold the protected amount. Those before c are replaced
   * if together they hold the amount worth reclaiming, each if that saves more than four tokens; and nothing else is.
   */
  ghost predicate ClearsOld(ms: seq<Message>, after: seq<Message>, protect: int, reclaimMin: int, c: nat) {
    && |after| == |ms| && c <= |ms|
    && (c > 0 ==> ResultTokens(ms[c..]) >= protect)
    && (forall d | c < d <= |ms| :: ResultTokens(ms[d..]) < protect)
    && forall i | 0 <= i < |ms| ::
         after[i] ==
         if i < c && ms[i].role.Tool? && ResultTokens(ms[..c]) >= reclaimMin
            && TextTokens(Placeholder(ms[i])) + 4 < TextTokens(ms[i].content)
         then ms[i].(content := Placeholder(ms[i])) else ms[i]
  }

  lemma {:induction false} OldResultsAreCleared(ms: seq<Message>, protect: int, reclaimMin: int) returns (c: nat)
    ensures ClearsOld(ms, Cleared(ms, protect, reclaimMin), protect, reclaimMin, c)
  {
    c := ProtectedRun(ms, protect, reclaimMin);
    forall d: nat | c <= d <= |ms| ensures ToolTokensFrom(ms, d) == ResultTokens(ms[d..]) {
      TokensFromIs(ms, d);
    }
    forall k | 0 <= k < |ms| ensures Old(ms, k, protect) <==> k < c && ms[k].role.Tool? {
    }
    OldTokensIs(ms, 0, protect, c);
    assert ms[0..c] == ms[..c] && (c == 0 ==> ms[..c] == []);
    hide TextTokens, Placeholder, ToolTokensFrom, OldTokensFrom, ResultTokens, Old;
  }
}
