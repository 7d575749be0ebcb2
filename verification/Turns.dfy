/** Turns of a view: dropOldestTurn (internal/contextpack/pack.go) and the cuts of SplitHeadTail (estimate.go). */
module Turns {
  import opened Text
  import opened Messages
  import opened Repair

  /** The first user message at position i or later, or the end. */
  function NextUser(ms: seq<Message>, i: nat): (n: nat)
    requires i <= |ms|
    ensures i <= n <= |ms|
    ensures n < |ms| ==> ms[n].role.User?
    ensures forall j | i <= j < n :: !ms[j].role.User?
    decreases |ms| - i
  {
    if i == |ms| || ms[i].role.User? then i else NextUser(ms, i + 1)
  }

  function Users(ms: seq<Message>): (n: nat)
    ensures n <= |ms|
  {
    if ms == [] then 0 else Users(ms[..|ms| - 1]) + if ms[|ms| - 1].role.User? then 1 else 0
  }

  lemma {:induction false} UsersSnoc(ms: seq<Message>, m: Message)
    ensures Users(ms + [m]) == Users(ms) + if m.role.User? then 1 else 0
  {
    assert (ms + [m])[..|ms|] == ms;
  }

  lemma {:induction false} UsersConcat(a: seq<Message>, b: seq<Message>)
    ensures Users(a + b) == Users(a) + Users(b)
  {
    if b == [] {
      assert a + b == a;
    } else {
      assert (a + b)[..|a + b| - 1] == a + b[..|b| - 1];
      UsersConcat(a, b[..|b| - 1]);
    }
  }

  lemma {:induction false} NoUsers(ms: seq<Message>)
    requires forall m | m in ms :: !m.role.User?
    ensures Users(ms) == 0
  {
    if ms != [] {
      NoUsers(ms[..|ms| - 1]);
    }
  }

  lemma {:induction false} SomeUser(ms: seq<Message>, i: nat)
    requires i < |ms| && ms[i].role.User?
    ensures Users(ms) >= 1
  {
    if i < |ms| - 1 {
      SomeUser(ms[..|ms| - 1], i);
    }
  }

  // ----- dropping the oldest turn -----

  function DropOldest(ms: seq<Message>): (r: Option<seq<Message>>)
    ensures r.Some? ==> |r.value| < |ms|
  {
    var start := LeadingSystem(ms);
    if start >= |ms| then None
    else if !ms[start].role.User? then
      if |ms| - start <= 1 then None else Some(ms[..start] + ms[start + 1..])
    else
      var end := NextUser(ms, start + 1);
      if end == |ms| then None else Some(ms[..start] + ms[end..])
  }

  method DropOldestTurn(messages: seq<Message>) returns (out: seq<Message>, ok: bool)
    ensures ok <==> DropOldest(messages).Some?
    ensures out == if ok then DropOldest(messages).value else messages
  {
    if |messages| == 0 {
      return messages, false;
    }
    var start := 0;
    while start < |messages| && messages[start].role.System?
      invariant 0 <= start <= |messages|
      invariant forall i | 0 <= i < start :: messages[i].role.System?
    {
      start := start + 1;
    }
    LeadingSystemUnique(messages, start);
    if start >= |messages| {
      return messages, false;
    }
    var turnStart := start;
    if !messages[turnStart].role.User? {
      if |messages| - start <= 1 {
        return messages, false;
      }
      return messages[..start] + messages[start + 1..], true;
    }
    var turnEnd := turnStart + 1;
    hide LeadingSystem;
    while turnEnd < |messages| && !messages[turnEnd].role.User?
      invariant turnStart < turnEnd <= |messages|
      invariant NextUser(messages, turnStart + 1) == NextUser(messages, turnEnd)
    {
      turnEnd := turnEnd + 1;
    }
    assert NextUser(messages, turnStart + 1) == turnEnd;
    hide NextUser;
    var usersAfter := 0;
    var i := turnEnd;
    while i < |messages|
      invariant turnEnd <= i <= |messages|
      invariant usersAfter >= 0 && (i > turnEnd ==> usersAfter >= 1)
      invariant turnEnd == |messages| ==> usersAfter == 0
    {
      if messages[i].role.User? {
        usersAfter := usersAfter + 1;
      }
      i := i + 1;
    }
    if usersAfter < 1 {
      return messages, false;
    }
    return messages[..turnStart] + messages[turnEnd..], true;
  }

  /** Without its first k turns, a list that starts at a user. */
  function DropTurns(rest: seq<Message>, k: nat): (r: seq<Message>)
    requires rest != [] && rest[0].role.User? && k < Users(rest)
    ensures r != [] && r[0].role.User?
    ensures Suffix(r, rest)
    ensures Users(r) == Users(rest) - k
    decreases k
  {
    if k == 0 then rest else
      var r := DropTurns(rest, k - 1);
      FirstTurn(r);
      SuffixOfSuffix(r, rest, NextUser(r, 1));
      r[NextUser(r, 1)..]
  }

  predicate Suffix<T(==)>(r: seq<T>, s: seq<T>) {
    |r| <= |s| && r == s[|s| - |r|..]
  }

  lemma {:induction false} SuffixOfSuffix<T>(r: seq<T>, s: seq<T>, n: nat)
    requires Suffix(r, s) && n <= |r|
    ensures Suffix(r[n..], s)
  {
  }

  lemma {:induction false} FirstTurn(rest: seq<Message>)
    requires rest != [] && rest[0].role.User?
    ensures Users(rest[NextUser(rest, 1)..]) == Users(rest) - 1
    ensures NextUser(rest, 1) == |rest| <==> Users(rest) == 1
  {
    var n := NextUser(rest, 1);
    assert rest == rest[..1] + rest[1..n] + rest[n..];
    UsersConcat(rest[..1] + rest[1..n], rest[n..]);
    UsersConcat(rest[..1], rest[1..n]);
    NoUsers(rest[1..n]);
    assert rest[..1][..0] == [];
    if n < |rest| {
      SomeUser(rest[n..], 0);
    }
  }

  lemma {:induction false} NextUserShift(prefix: seq<Message>, rest: seq<Message>, i: nat)
    requires i <= |rest|
    ensures NextUser(prefix + rest, |prefix| + i) == |prefix| + NextUser(rest, i)
    decreases |rest| - i
  {
    if i < |rest| && !rest[i].role.User? {
      NextUserShift(prefix, rest, i + 1);
    }
  }

  /** On a system block followed by user turns, dropping removes the first turn, and refuses only the last one. */
  lemma {:induction false} DropOldestOfTurns(system: seq<Message>, rest: seq<Message>)
    requires forall m | m in system :: m.role.System?
    requires rest != [] && rest[0].role.User?
    ensures Users(rest) >= 1
    ensures DropOldest(system + rest) ==
            if Users(rest) == 1 then None else Some(system + rest[NextUser(rest, 1)..])
  {
    hide Users, LeadingSystem, NextUser;
    var ms := system + rest;
    LeadingSystemUnique(ms, |system|);
    NextUserShift(system, rest, 1);
    FirstTurn(rest);
    var n := NextUser(rest, 1);
    assert ms[..|system|] == system && ms[|system| + n..] == rest[n..];
  }

  lemma {:induction false} DropUserTurn(rest: seq<Message>, cut: nat)
    requires Paired(rest, {}) && cut <= |rest| && (cut < |rest| ==> rest[cut].role.User?)
    ensures Paired(rest[cut..], {})
  {
    assert rest == rest[..cut] + rest[cut..];
    PairedConcat(rest[..cut], rest[cut..], {});
  }

  lemma {:induction false} DropOddMessage(rest: seq<Message>)
    requires Paired(rest, {}) && rest != []
    ensures Paired(rest[1..], {}) <==> Offered(rest[0]) == {}
  {
    hide Trim;
    if Boundary(rest[0]) && Paired(rest[1..], {}) {
      OpenIsUnique(rest[1..], Offered(rest[0]), {});
    }
  }

  /**
   * Dropping keeps a paired list paired exactly when the first message after the system block opens no call.
   * A user opens none; an assistant whose batch is answered may.
   */
  lemma {:induction false} DropKeepsPairing(ms: seq<Message>)
    requires Paired(ms, {}) && DropOldest(ms).Some?
    ensures Paired(DropOldest(ms).value, {}) <==> Offered(ms[LeadingSystem(ms)]) == {}
  {
    var system, rest, cut := DropSplits(ms);
    hide Paired, Offered, DropOldest, LeadingSystem;
    if rest[0].role.User? {
      UserOffersNothing(rest[0]);
      DropUserPairs(system, rest, cut);
    } else {
      DropOddPairs(system, rest);
    }
  }

  lemma {:induction false} UserOffersNothing(m: Message)
    requires m.role.User?
    ensures Offered(m) == {}
  {
    assert CallIds([]) == {};
  }

  lemma {:induction false} DropUserPairs(system: seq<Message>, rest: seq<Message>, cut: nat)
    requires (forall m | m in system :: m.role.System?) && Paired(system + rest, {})
    requires cut <= |rest| && (cut < |rest| ==> rest[cut].role.User?)
    ensures Paired(system + rest[cut..], {})
  {
    hide Paired;
    SystemPrefixPaired(system, rest);
    SystemPrefixPaired(system, rest[cut..]);
    DropUserTurn(rest, cut);
  }

  lemma {:induction false} DropOddPairs(system: seq<Message>, rest: seq<Message>)
    requires (forall m | m in system :: m.role.System?) && Paired(system + rest, {}) && rest != []
    ensures Paired(system + rest[1..], {}) <==> Offered(rest[0]) == {}
  {
    hide Paired, Offered;
    SystemPrefixPaired(system, rest);
    SystemPrefixPaired(system, rest[1..]);
    DropOddMessage(rest);
  }

  /** What is dropped: a turn, or one odd message. */
  lemma {:induction false} DropSplits(ms: seq<Message>) returns (system: seq<Message>, rest: seq<Message>, cut: nat)
    requires DropOldest(ms).Some?
    ensures ms == system + rest && rest != [] && rest[0] == ms[LeadingSystem(ms)]
    ensures forall m | m in system :: m.role.System?
    ensures cut <= |rest| && DropOldest(ms).value == system + rest[cut..]
    ensures if rest[0].role.User? then cut < |rest| ==> rest[cut].role.User? else cut == 1
  {
    hide LeadingSystem, NextUser;
    var start := LeadingSystem(ms);
    system, rest := ms[..start], ms[start..];
    cut := if ms[start].role.User? then NextUser(ms, start + 1) - start else 1;
    assert rest[cut..] == ms[start + cut..];
  }

  lemma {:induction false} SystemPrefixPaired(system: seq<Message>, rest: seq<Message>)
    requires forall m | m in system :: m.role.System?
    ensures Paired(system + rest, {}) <==> Paired(rest, {})
  {
    if system == [] {
      assert system + rest == rest;
    } else {
      assert (system + rest)[1..] == system[1..] + rest;
      SystemPrefixPaired(system[1..], rest);
    }
  }

  /** A list can only be completed from one set of open calls. */
  lemma {:induction false} OpenIsUnique(ms: seq<Message>, a: set<string>, b: set<string>)
    requires Paired(ms, a) && Paired(ms, b)
    ensures a == b
  {
    if ms != [] && !Boundary(ms[0]) {
      if ms[0].role.Tool? {
        var id := ResultId(ms[0]);
        OpenIsUnique(ms[1..], a - {id}, b - {id});
        assert a == (a - {id}) + {id} && b == (b - {id}) + {id};
      } else {
        OpenIsUnique(ms[1..], a, b);
      }
    }
  }

  /** Such a list: dropping its odd first message leaves an orphan result. */
  lemma {:induction false} DropCanOrphan()
    ensures exists ms :: Paired(ms, {}) && DropOldest(ms).Some? && !Paired(DropOldest(ms).value, {})
  {
    var ms := [Message(Assistant, "", "", "", [ToolCall("a", "t", "{}")]), ToolMessage("a", "ok"), UserMessage("u")];
    assert LeadingSystem(ms) == 0;
    var id := "a";
    assert TrimLeft(id) == id && TrimRight(id) == id && Trim(id) == id;
    assert ms[0].toolCalls[0] in ms[0].toolCalls;
    assert Offered(ms[0]) == {id} by {
      assert forall c | c in ms[0].toolCalls :: Trim(c.id) == id;
    }
    assert ms[1..][1..] == [UserMessage("u")] && ms[2..][1..] == [];
    assert Paired([UserMessage("u")], {});
    assert {id} - {id} == {};
    assert Paired(ms[1..], {id});
    assert Paired(ms, {});
    DropKeepsPairing(ms);
  }

  // ----- cuts -----

  function BackOverTools(ms: seq<Message>, i: nat, floor: nat): (r: nat)
    requires i <= |ms|
    ensures r <= i && (r < i ==> floor <= r)
    ensures forall j | r <= j < i :: ms[j].role.Tool?
    ensures r > floor ==> !ms[r - 1].role.Tool?
    decreases i
  {
    if i > floor && ms[i - 1].role.Tool? then BackOverTools(ms, i - 1, floor) else i
  }

  predicate OpensBatch(m: Message) {
    m.role.Assistant? && m.toolCalls != []
  }

  /** alignToolPairCut (estimate.go), and alignTranscriptTailCut (internal/corequery/session.go) for floor 0. */
  function AlignCut(ms: seq<Message>, cut: nat, floor: nat): (r: nat)
    requires cut <= |ms|
    ensures r <= cut
  {
    if cut <= floor || cut >= |ms| then cut else
      var i := BackOverTools(ms, cut, floor);
      var owner := i > floor && OpensBatch(ms[i - 1]);
      if ms[cut].role.Tool? then (if owner then i - 1 else i)
      else if i < cut && owner then i - 1 else cut
  }

  method AlignToolPairCut(messages: seq<Message>, cut: nat, floor: nat) returns (r: nat)
    requires cut <= |messages|
    ensures r == AlignCut(messages, cut, floor)
  {
    if cut <= floor || cut >= |messages| {
      return cut;
    }
    r := cut;
    if messages[r].role.Tool? {
      while r > floor && messages[r - 1].role.Tool?
        invariant floor <= r <= cut
        invariant BackOverTools(messages, r, floor) == BackOverTools(messages, cut, floor)
      {
        r := r - 1;
      }
      if r > floor && messages[r - 1].role.Assistant? && |messages[r - 1].toolCalls| > 0 {
        r := r - 1;
      }
      return;
    }
    var i := cut;
    while i > floor && messages[i - 1].role.Tool?
      invariant floor <= i <= cut
      invariant BackOverTools(messages, i, floor) == BackOverTools(messages, cut, floor)
    {
      i := i - 1;
    }
    if i < cut && i > floor && messages[i - 1].role.Assistant? && |messages[i - 1].toolCalls| > 0 {
      return i - 1;
    }
    return cut;
  }

  /** The batch at k is followed by results only, as far as the cut. */
  predicate Straddles(ms: seq<Message>, k: nat, cut: nat)
    requires k < cut < |ms|
  {
    && OpensBatch(ms[k]) && (forall j | k < j < cut :: ms[j].role.Tool?)
    && (k + 1 < cut || ms[cut].role.Tool?)
  }

  /** A cut through a batch and its results moves before the batch. */
  lemma {:induction false} CutMovesBefore(ms: seq<Message>, k: nat, cut: nat, floor: nat)
    requires floor <= k < cut < |ms| && Straddles(ms, k, cut)
    ensures AlignCut(ms, cut, floor) == k
  {
    var i := BackOverTools(ms, cut, floor);
    assert !ms[k].role.Tool?;
    assert i == k + 1;
  }

  /** Any other cut stays where it is, unless it is among results whose batch is missing: then it moves before them. */
  lemma {:induction false} OtherCutsStay(ms: seq<Message>, cut: nat, floor: nat)
    requires cut <= |ms|
    requires floor < cut < |ms| ==> forall k | floor <= k < cut :: !Straddles(ms, k, cut)
    ensures var r := AlignCut(ms, cut, floor);
            if floor < cut < |ms| && ms[cut].role.Tool? then
              && floor <= r <= cut && (forall j | r <= j < cut :: ms[j].role.Tool?)
              && (r > floor ==> !ms[r - 1].role.Tool?)
            else r == cut
  {
    if floor < cut < |ms| {
      var i := BackOverTools(ms, cut, floor);
      if i > floor {
        assert !Straddles(ms, i - 1, cut);
      }
    }
  }

  /** In a paired list of known roles, a result stands behind its batch with only results between. */
  lemma {:induction false} ToolsFollowBatch(ms: seq<Message>, i: nat, floor: nat)
    requires Paired(ms, {}) && KnownRoles(ms)
    requires i <= |ms| && floor <= i && forall j | 0 <= j < floor :: ms[j].role.System?
    requires i < |ms| && ms[i].role.Tool?
    ensures var r := BackOverTools(ms, i, floor); r > floor && OpensBatch(ms[r - 1])
    decreases i
  {
    assert ms[0..] == ms;
    PairedByPosition(ms, 0);
    assert FineAt(ms, i);
    assert OpenAt(ms, i) != {};
    assert i > 0;
    var m := ms[i - 1];
    if m.role.Tool? {
      assert i - 1 >= floor;
      ToolsFollowBatch(ms, i - 1, floor);
    } else {
      assert Boundary(m) by { assert m in ms; }
      assert Offered(m) != {};
      assert Batch(m) != [];
    }
  }

  /** An aligned cut is at a boundary, or at an end, of any paired list of known roles. */
  lemma {:induction false} AlignedAtBoundary(ms: seq<Message>, cut: nat, floor: nat)
    requires Paired(ms, {}) && KnownRoles(ms)
    requires cut <= |ms| && floor <= |ms| && forall j | 0 <= j < floor :: ms[j].role.System?
    ensures var r := AlignCut(ms, cut, floor); r == |ms| || Boundary(ms[r]) || (cut == floor && r == cut)
    ensures var r := AlignCut(ms, cut, floor); r < |ms| ==> Boundary(ms[r])
  {
    var r := AlignCut(ms, cut, floor);
    if floor < cut < |ms| {
      if ms[cut].role.Tool? {
        ToolsFollowBatch(ms, cut, floor);
      } else if r == cut {
        assert ms[r] in ms;
      }
    } else if r < |ms| {
      assert ms[r] in ms;
      if ms[r].role.Tool? {
        ToolsFollowBatch(ms, r, r);
      }
    }
  }

  /**
   * For a list that repair leaves alone, the aligned cut never moves right and both sides are again lists that
   * repair leaves alone: no batch is split from its results.
   */
  lemma {:induction false} AlignCutKeepsPairs(ms: seq<Message>, cut: nat, floor: nat)
    requires Repaired(ms) == ms && KnownRoles(ms)
    requires cut <= |ms| && floor <= |ms| && forall j | 0 <= j < floor :: ms[j].role.System?
    ensures var r := AlignCut(ms, cut, floor);
            r <= cut && Repaired(ms[..r]) == ms[..r] && Repaired(ms[r..]) == ms[r..]
  {
    hide RepairFrom, Repaired, Paired;
    FixedPointIffPaired(ms);
    AlignedAtBoundary(ms, cut, floor);
    var r := AlignCut(ms, cut, floor);
    assert ms == ms[..r] + ms[r..];
    PairedConcat(ms[..r], ms[r..], {});
    FixedPointIffPaired(ms[..r]);
    FixedPointIffPaired(ms[r..]);
  }

  /** The transcript tail of the last n rows starts at a boundary, so it too needs no repair. */
  lemma {:induction false} TailCutKeepsPairs(ms: seq<Message>, n: nat)
    requires Repaired(ms) == ms && KnownRoles(ms) && n <= |ms|
    ensures var tail := ms[AlignCut(ms, |ms| - n, 0)..];
            |tail| >= n && Repaired(tail) == tail && (tail == [] || Boundary(tail[0]))
  {
    AlignCutKeepsPairs(ms, |ms| - n, 0);
    FixedPointIffPaired(ms);
    AlignedAtBoundary(ms, |ms| - n, 0);
  }

  lemma {:induction false} BackOverSame(ms: seq<Message>, more: seq<Message>, i: nat, floor: nat)
    requires i <= |ms|
    ensures BackOverTools(ms + more, i, floor) == BackOverTools(ms, i, floor)
    decreases i
  {
    if i > floor && ms[i - 1].role.Tool? {
      BackOverSame(ms, more, i - 1, floor);
    }
  }

  /** Where a cut stands, the one before it cannot step back over a message that is no tool result. */
  lemma {:induction false} AlignStays(ms: seq<Message>, a: nat, b: nat)
    requires a <= b < |ms|
    ensures AlignCut(ms, a, 0) <= AlignCut(ms, b, 0)
  {
    if a < b {
      var i := BackOverTools(ms, b, 0);
      BackFrom(ms, a, b);
    }
  }

  lemma {:induction false} BackFrom(ms: seq<Message>, a: nat, b: nat)
    requires a <= b <= |ms|
    ensures BackOverTools(ms, a, 0) <= BackOverTools(ms, b, 0)
    ensures BackOverTools(ms, b, 0) < a ==> BackOverTools(ms, a, 0) == BackOverTools(ms, b, 0)
    decreases b
  {
    if a < b && ms[b - 1].role.Tool? {
      BackFrom(ms, a, b - 1);
    }
  }

  /** The tail of the last n rows never begins earlier once rows are added. */
  lemma {:induction false} TailNeverMovesBack(ms: seq<Message>, more: seq<Message>, n: nat)
    requires n <= |ms|
    ensures AlignCut(ms, |ms| - n, 0) <= AlignCut(ms + more, |ms + more| - n, 0)
  {
    var all := ms + more;
    if 0 < n && 0 < |ms| - n {
      BackOverSame(ms, more, |ms| - n, 0);
      assert AlignCut(all, |ms| - n, 0) == AlignCut(ms, |ms| - n, 0);
      AlignStays(all, |ms| - n, |all| - n);
    }
  }

  // ----- SplitHeadTail -----

  /** Position of the user that opens the last `keep` turns; 0 when there are not so many. */
  function TailStart(ms: seq<Message>, keep: nat): (i: nat)
    ensures i <= |ms|
  {
    if keep == 0 then |ms|
    else if ms == [] then 0
    else if ms[|ms| - 1].role.User? then (if keep == 1 then |ms| - 1 else TailStart(ms[..|ms| - 1], keep - 1))
    else TailStart(ms[..|ms| - 1], keep)
  }

  function KeepTurns(keepUserTurns: int): nat {
    if keepUserTurns < 1 then 2 else keepUserTurns
  }

  datatype Split = Split(head: seq<Message>, tail: seq<Message>)

  function HeadTail(ms: seq<Message>, keepUserTurns: int): Split {
    var keep := KeepTurns(keepUserTurns);
    var floor := LeadingSystem(ms);
    if Users(ms) <= keep then Split([], ms) else
      var cut := AlignCut(ms, TailStart(ms, keep), floor);
      if cut <= floor then Split([], ms) else Split(ms[floor..cut], ms[..floor] + ms[cut..])
  }

  /** Positions of the user messages in [from, end). */
  function UserPositions(ms: seq<Message>, from: nat, end: nat): (r: seq<nat>)
    requires from <= end <= |ms|
    ensures forall p | p in r :: from <= p < end
    decreases end
  {
    if end == from then [] else
      UserPositions(ms, from, end - 1) + if ms[end - 1].role.User? then [end - 1] else []
  }

  lemma {:induction false} UserPositionsCount(ms: seq<Message>, from: nat, end: nat, keep: nat)
    requires from <= end <= |ms| && forall j | 0 <= j < from :: !ms[j].role.User?
    ensures var p := UserPositions(ms, from, end);
            |p| == Users(ms[..end]) && (1 <= keep <= |p| ==> p[|p| - keep] == TailStart(ms[..end], keep))
    decreases end
  {
    if end == from {
      NoUsers(ms[..end]);
    } else {
      assert ms[..end][..end - 1] == ms[..end - 1];
      UserPositionsCount(ms, from, end - 1, keep);
      if keep > 1 {
        UserPositionsCount(ms, from, end - 1, keep - 1);
      }
    }
  }

  method SplitHeadTail(messages: seq<Message>, keepUserTurns: int) returns (head: seq<Message>, tail: seq<Message>)
    ensures Split(head, tail) == HeadTail(messages, keepUserTurns)
  {
    hide AlignCut, TailStart;
    var keep := keepUserTurns;
    if keep < 1 {
      keep := 2;
    }
    if |messages| == 0 {
      return [], [];
    }
    var sysEnd := 0;
    while sysEnd < |messages| && messages[sysEnd].role.System?
      invariant 0 <= sysEnd <= |messages|
      invariant forall i | 0 <= i < sysEnd :: messages[i].role.System?
    {
      sysEnd := sysEnd + 1;
    }
    LeadingSystemUnique(messages, sysEnd);
    var userIdx: seq<nat> := [];
    var i := sysEnd;
    while i < |messages|
      invariant sysEnd <= i <= |messages|
      invariant userIdx == UserPositions(messages, sysEnd, i)
    {
      if messages[i].role.User? {
        userIdx := userIdx + [i];
      }
      i := i + 1;
    }
    UserPositionsCount(messages, sysEnd, |messages|, keep);
    assert messages[..|messages|] == messages;
    if |userIdx| <= keep {
      return [], messages;
    }
    var cut := AlignToolPairCut(messages, userIdx[|userIdx| - keep], sysEnd);
    if cut <= sysEnd {
      return [], messages;
    }
    return messages[sysEnd..cut], messages[..sysEnd] + messages[cut..];
  }

  lemma {:induction false} TailStartUsers(ms: seq<Message>, keep: nat)
    requires 1 <= keep <= Users(ms)
    ensures var i := TailStart(ms, keep); i < |ms| && ms[i].role.User? && Users(ms[i..]) == keep
  {
    var last := |ms| - 1;
    var before := ms[..last];
    if ms[last].role.User? && keep == 1 {
      assert ms[last..] == [ms[last]];
      assert [ms[last]][..0] == [];
    } else {
      var less := if ms[last].role.User? then keep - 1 else keep;
      TailStartUsers(before, less);
      var i := TailStart(before, less);
      assert TailStart(ms, keep) == i;
      assert ms[i..] == before[i..] + [ms[last]];
      UsersSnoc(before[i..], ms[last]);
    }
  }

  /** Splitting loses nothing: system block, head and the rest of the tail are the list, in order. */
  lemma {:induction false} SplitPartitions(ms: seq<Message>, keepUserTurns: int)
    ensures var s := HeadTail(ms, keepUserTurns); var n := LeadingSystem(ms);
            s.tail[..n] == ms[..n] && ms == ms[..n] + s.head + s.tail[n..]
  {
    hide AlignCut, TailStart, Users, LeadingSystem;
    var n := LeadingSystem(ms);
    var s := HeadTail(ms, keepUserTurns);
    if s.head != [] {
      var cut := AlignCut(ms, TailStart(ms, KeepTurns(keepUserTurns)), n);
      assert s.tail[..n] == ms[..n] && s.tail[n..] == ms[cut..];
      assert ms == ms[..n] + ms[n..cut] + ms[cut..];
    } else {
      assert ms == ms[..n] + [] + ms[n..];
    }
  }

  lemma {:induction false} UsersInTools(ms: seq<Message>, r: nat, cut: nat)
    requires r <= cut <= |ms|
    requires forall j | r <= j < cut :: !ms[j].role.User?
    ensures Users(ms[r..]) == Users(ms[cut..])
  {
    assert ms[r..] == ms[r..cut] + ms[cut..];
    UsersConcat(ms[r..cut], ms[cut..]);
    NoUsers(ms[r..cut]);
  }

  /** A head is cut off only when exactly the requested number of user turns stays in the tail. */
  lemma {:induction false} SplitKeepsTurns(ms: seq<Message>, keepUserTurns: int)
    requires HeadTail(ms, keepUserTurns).head != []
    ensures Users(HeadTail(ms, keepUserTurns).tail) == KeepTurns(keepUserTurns)
  {
    hide BackOverTools, TailStart;
    var keep, n := KeepTurns(keepUserTurns), LeadingSystem(ms);
    var start := TailStart(ms, keep);
    TailStartUsers(ms, keep);
    var cut := AlignCut(ms, start, n);
    UsersInTools(ms, cut, start);
    NoUsers(ms[..n]);
    UsersConcat(ms[..n], ms[cut..]);
  }

  /** A head is cut off exactly if there are more user turns than are to be kept. */
  lemma {:induction false} HeadIff(ms: seq<Message>, keepUserTurns: int)
    ensures HeadTail(ms, keepUserTurns).head != [] <==> Users(ms) > KeepTurns(keepUserTurns)
  {
    hide BackOverTools, TailStart, LeadingSystem;
    var keep, n := KeepTurns(keepUserTurns), LeadingSystem(ms);
    if Users(ms) > keep {
      var start := TailStart(ms, keep);
      TailStartUsers(ms, keep);
      var cut := AlignCut(ms, start, n);
      UsersBefore(ms, cut, start);
      if cut <= n {
        NoUsers(ms[..cut]);
      }
    }
  }

  lemma {:induction false} UsersBefore(ms: seq<Message>, r: nat, cut: nat)
    requires r <= cut <= |ms|
    requires forall j | r <= j < cut :: !ms[j].role.User?
    ensures Users(ms) == Users(ms[..r]) + Users(ms[cut..])
  {
    UsersInTools(ms, r, cut);
    assert ms == ms[..r] + ms[r..];
    UsersConcat(ms[..r], ms[r..]);
  }

  lemma {:induction false} EmptyIsRepaired()
    ensures Repaired([]) == []
  {
    FlushNothing([]);
  }

  /** Both parts of a split of a well-paired list of known roles are well paired. */
  lemma {:induction false} SplitKeepsPairs(ms: seq<Message>, keepUserTurns: int)
    requires Repaired(ms) == ms && KnownRoles(ms)
    ensures var s := HeadTail(ms, keepUserTurns); Repaired(s.head) == s.head && Repaired(s.tail) == s.tail
  {
    hide RepairFrom, AlignCut, TailStart, Users, Repaired, Paired;
    var keep, n := KeepTurns(keepUserTurns), LeadingSystem(ms);
    var s := HeadTail(ms, keepUserTurns);
    EmptyIsRepaired();
    if s.head != [] {
      var start := TailStart(ms, keep);
      var cut := AlignCut(ms, start, n);
      AlignCutKeepsPairs(ms, start, n);
      FixedPointIffPaired(ms[..cut]);
      FixedPointIffPaired(ms[cut..]);
      assert ms[..cut] == ms[..n] + ms[n..cut];
      SystemPrefixPaired(ms[..n], ms[n..cut]);
      SystemPrefixPaired(ms[..n], ms[cut..]);
      FixedPointIffPaired(s.head);
      FixedPointIffPaired(s.tail);
    }
  }
}
