/** Pack (internal/contextpack/pack.go): repair, trim bodies, clear old results, drop whole turns. */
module Pack {
  import opened Text
  import opened Messages
  import opened Repair
  import opened Estimate
  import opened TrimBodies
  import opened Clear
  import opened Turns

  const DEFAULT_PROTECT := 40_000
  const DEFAULT_RECLAIM := 20_000

  datatype PackOptions = PackOptions(budget: int, maxToolResultRunes: int, toolProtectTokens: int, toolReclaimMin: int)

  datatype PackResult = PackResult(
    messages: seq<Message>,
    estimateTokens: int,
    budget: int,
    trimmedBodies: nat,
    clearedTools: nat,
    droppedMessages: nat,
    overBudget: bool)

  function OrDefault(value: int, default: int): int {
    if value <= 0 then default else value
  }

  /** Drops turns while the estimate is over budget. */
  datatype Fitted = Fitted(messages: seq<Message>, dropped: nat)

  function Fit(ms: seq<Message>, budget: int): Fitted
    decreases |ms|
  {
    if ListTokens(ms) <= budget || DropOldest(ms).None? then Fitted(ms, 0) else
      var rest := Fit(DropOldest(ms).value, budget);
      Fitted(rest.messages, rest.dropped + 1)
  }

  /** The view before turns are dropped: same shape as the repaired list. */
  function TrimmedView(ms: seq<Message>, opt: PackOptions): seq<Message> {
    TrimFrom(Repaired(ms), 0, OrDefault(opt.maxToolResultRunes, DEFAULT_MAX_RUNES))
  }

  function View(ms: seq<Message>, opt: PackOptions): seq<Message> {
    if opt.budget <= 0 then TrimmedView(ms, opt)
    else Cleared(TrimmedView(ms, opt), OrDefault(opt.toolProtectTokens, DEFAULT_PROTECT),
        OrDefault(opt.toolReclaimMin, DEFAULT_RECLAIM))
  }

  function Packed(ms: seq<Message>, opt: PackOptions): Fitted {
    if opt.budget <= 0 then Fitted(View(ms, opt), 0) else Fit(View(ms, opt), opt.budget)
  }

  function ClearedTools(ms: seq<Message>, opt: PackOptions): nat {
    if opt.budget <= 0 then 0 else
      ClearedCountFrom(TrimmedView(ms, opt), 0, OrDefault(opt.toolProtectTokens, DEFAULT_PROTECT),
                       OrDefault(opt.toolReclaimMin, DEFAULT_RECLAIM))
  }

  method Pack(messages: seq<Message>, opt: PackOptions) returns (result: PackResult)
    ensures Fitted(result.messages, result.droppedMessages) == Packed(messages, opt)
    ensures result.estimateTokens == ListTokens(result.messages)
    ensures result.overBudget <==> opt.budget > 0 && ListTokens(result.messages) > opt.budget
    ensures result.budget == opt.budget
    ensures result.clearedTools == ClearedTools(messages, opt)
    ensures result.trimmedBodies ==
              CountTrimmed(Repaired(messages), 0, |Repaired(messages)|,
                           OrDefault(opt.maxToolResultRunes, DEFAULT_MAX_RUNES))
  {
    hide Cleared, TrimFrom, ListTokens, DropOldest, ClearedCountFrom, CountTrimmed, Repaired;
    var maxRunes, protect, reclaim := opt.maxToolResultRunes, opt.toolProtectTokens, opt.toolReclaimMin;
    if maxRunes <= 0 {
      maxRunes := DEFAULT_MAX_RUNES;
    }
    if protect <= 0 {
      protect := DEFAULT_PROTECT;
    }
    if reclaim <= 0 {
      reclaim := DEFAULT_RECLAIM;
    }
    var repaired := RepairToolMessages(messages);
    var view := new Message[|repaired|](i requires 0 <= i < |repaired| => repaired[i]);
    assert view[..] == repaired;
    var trimmed := TrimToolBodies(view, 0, maxRunes);
    var cleared, dropped := 0, 0;
    var out := view[..];
    if opt.budget > 0 {
      cleared := ClearOldToolResults(view, protect, reclaim);
      out := view[..];
      ghost var before := out;
      var estimate := EstimateMessages(out);
      var ok := true;
      while ok && estimate > opt.budget
        invariant estimate == ListTokens(out)
        invariant !ok ==> DropOldest(out).None?
        invariant Fit(before, opt.budget) ==
                  Fitted(Fit(out, opt.budget).messages, dropped + Fit(out, opt.budget).dropped)
        decreases |out|, ok
      {
        var next;
        next, ok := DropOldestTurn(out);
        if ok {
          out := next;
          dropped := dropped + 1;
          estimate := EstimateMessages(out);
        }
      }
    }
    var tokens := EstimateMessages(out);
    result := PackResult(out, tokens, opt.budget, trimmed, cleared, dropped, opt.budget > 0 && tokens > opt.budget);
  }

  // ----- what a packed view is -----

  predicate StartsWithUser(ms: seq<Message>) {
    LeadingSystem(ms) < |ms| && ms[LeadingSystem(ms)].role.User?
  }

  lemma {:induction false} RepairKeepsStart(ms: seq<Message>)
    requires StartsWithUser(ms)
    ensures StartsWithUser(Repaired(ms)) && LeadingSystem(Repaired(ms)) == LeadingSystem(ms)
    ensures Repaired(ms)[..LeadingSystem(ms)] == ms[..LeadingSystem(ms)]
  {
    hide IsSynthetic, Trim;
    var n := LeadingSystem(ms);
    var system, rest := ms[..n], ms[n..];
    assert ms == system + rest;
    RepairConcat(system, rest);
    AllBoundaryPaired(system);
    FixedPointIffPaired(system);
    FlushNothing([]);
    assert Repaired(rest)[0] == rest[0];
    LeadingSystemUnique(Repaired(ms), n);
  }

  lemma {:induction false} SameShapeStart(a: seq<Message>, b: seq<Message>)
    requires SameShape(a, b)
    ensures LeadingSystem(a) == LeadingSystem(b)
  {
    LeadingSystemUnique(a, LeadingSystem(b));
  }

  lemma {:induction false} ViewShape(ms: seq<Message>, opt: PackOptions)
    ensures SameShape(View(ms, opt), Repaired(ms))
    ensures Paired(View(ms, opt), {})
    ensures StartsWithUser(ms) ==> StartsWithUser(View(ms, opt)) && LeadingSystem(View(ms, opt)) == LeadingSystem(ms)
  {
    hide Paired, Repaired, ClearedAt, TrimMessage;
    var view := View(ms, opt);
    RepairedIsPaired(ms);
    PairedByShape(view, Repaired(ms), {});
    if StartsWithUser(ms) {
      RepairKeepsStart(ms);
      SameShapeStart(view, Repaired(ms));
    }
  }

  /** The system block and the turns from the k-th on. */
  function From(system: seq<Message>, rest: seq<Message>, k: nat): seq<Message>
    requires rest != [] && rest[0].role.User? && k < Users(rest)
  {
    system + DropTurns(rest, k)
  }

  lemma {:induction false} NextFrom(system: seq<Message>, rest: seq<Message>, k: nat)
    requires forall m | m in system :: m.role.System?
    requires rest != [] && rest[0].role.User? && k < Users(rest)
    ensures DropOldest(From(system, rest, k)) == if k == Users(rest) - 1 then None else Some(From(system, rest, k + 1))
  {
    hide Users, DropOldest;
    var turns := DropTurns(rest, k);
    DropOldestOfTurns(system, turns);
    if k < Users(rest) - 1 {
      assert DropTurns(rest, k + 1) == turns[NextUser(turns, 1)..];
    }
  }

  /** d turns are dropped, the fewest that fit the budget, or all but the last. */
  ghost predicate DropsLeast(system: seq<Message>, rest: seq<Message>, k: nat, d: nat, budget: int)
    requires rest != [] && rest[0].role.User? && d < Users(rest)
  {
    && (forall j | k <= j < d :: ListTokens(From(system, rest, j)) > budget)
    && (ListTokens(From(system, rest, d)) <= budget || d == Users(rest) - 1)
  }

  lemma {:induction false} FitTurns(system: seq<Message>, rest: seq<Message>, k: nat, budget: int)
    requires forall m | m in system :: m.role.System?
    requires rest != [] && rest[0].role.User? && k < Users(rest)
    ensures var fit := Fit(From(system, rest, k), budget); var d := k + fit.dropped;
            d < Users(rest) && fit.messages == From(system, rest, d) && DropsLeast(system, rest, k, d, budget)
    decreases Users(rest) - k
  {
    hide ListTokens, Users, DropOldest, From, DropTurns;
    NextFrom(system, rest, k);
    if ListTokens(From(system, rest, k)) > budget && k < Users(rest) - 1 {
      FitTurns(system, rest, k + 1, budget);
    }
  }

  lemma {:induction false} TurnsPaired(system: seq<Message>, rest: seq<Message>, k: nat)
    requires forall m | m in system :: m.role.System?
    requires rest != [] && rest[0].role.User? && k < Users(rest)
    requires Paired(system + rest, {})
    ensures Paired(From(system, rest, k), {})
  {
    hide Paired, Users;
    SystemPrefixPaired(system, rest);
    SystemPrefixPaired(system, DropTurns(rest, k));
    DropUserTurn(rest, |rest| - |DropTurns(rest, k)|);
  }

  /** The fitted view is the system block and the newest turns, the fewest dropped, all calls answered. */
  ghost predicate FitsNewestTurns(view: seq<Message>, budget: int, fit: Fitted)
    requires StartsWithUser(view)
  {
    var n := LeadingSystem(view);
    var system, rest := view[..n], view[n..];
    && fit.dropped < Users(rest)
    && fit.messages == From(system, rest, fit.dropped)
    && DropsLeast(system, rest, 0, fit.dropped, budget)
    && Repaired(fit.messages) == fit.messages
  }

  lemma {:induction false} FitKeepsNewestTurns(view: seq<Message>, budget: int)
    requires StartsWithUser(view) && Paired(view, {})
    ensures FitsNewestTurns(view, budget, Fit(view, budget))
  {
    hide ListTokens, Repaired, Users, DropTurns, DropsLeast, Fit, Paired, From;
    var n := LeadingSystem(view);
    var system, rest := view[..n], view[n..];
    assert forall i | 0 <= i < |system| :: system[i] == view[i];
    assert view == system + rest;
    DropOldestOfTurns(system, rest);
    StartTurns(system, rest);
    FitTurns(system, rest, 0, budget);
    var k := Fit(view, budget).dropped;
    TurnsPaired(system, rest, k);
    FixedPointIffPaired(From(system, rest, k));
  }

  lemma {:induction false} StartTurns(system: seq<Message>, rest: seq<Message>)
    requires rest != [] && rest[0].role.User? && Users(rest) >= 1
    ensures From(system, rest, 0) == system + rest
  {
  }

  /**
   * A list whose conversation starts with a user packs to its system block and a suffix of whole turns of the
   * trimmed view: as few turns dropped as the budget allows, over budget only when the last turn alone is, and
   * every call paired with its result.
   */
  lemma {:induction false} PackKeepsNewestTurns(ms: seq<Message>, opt: PackOptions)
    requires StartsWithUser(ms) && opt.budget > 0
    ensures StartsWithUser(View(ms, opt)) && LeadingSystem(View(ms, opt)) == LeadingSystem(ms)
    ensures FitsNewestTurns(View(ms, opt), opt.budget, Packed(ms, opt))
  {
    hide View, FitsNewestTurns, Paired, SameShape, LeadingSystem;
    ViewShape(ms, opt);
    FitKeepsNewestTurns(View(ms, opt), opt.budget);
  }

  /** What is left over budget is a single turn. */
  lemma {:induction false} OverBudgetIsOneTurn(ms: seq<Message>, opt: PackOptions)
    requires StartsWithUser(ms) && opt.budget > 0 && ListTokens(Packed(ms, opt).messages) > opt.budget
    ensures Users(Packed(ms, opt).messages) == 1
  {
    hide View, ListTokens, Repaired, Users, Fit;
    PackKeepsNewestTurns(ms, opt);
    var view := View(ms, opt);
    var system := view[..LeadingSystem(view)];
    var rest := view[LeadingSystem(view)..];
    assert forall i | 0 <= i < |system| :: system[i] == view[i];
    UsersConcat(system, DropTurns(rest, Packed(ms, opt).dropped));
    NoUsers(system);
  }

  /** Without a budget nothing is dropped, so pairing holds for every input. */
  lemma {:induction false} PackWithoutBudget(ms: seq<Message>, opt: PackOptions)
    requires opt.budget <= 0
    ensures Repaired(Packed(ms, opt).messages) == Packed(ms, opt).messages
    ensures SameShape(Packed(ms, opt).messages, Repaired(ms))
  {
    ViewShape(ms, opt);
    FixedPointIffPaired(View(ms, opt));
  }

  // ----- when packing keeps the pairs -----

  predicate IsSystem(m: Message) {
    m.role.System?
  }

  /** The first position from p on that holds no system message, or the end. */
  function Odd(ms: seq<Message>, p: nat): (q: nat)
    requires p <= |ms|
    ensures p <= q <= |ms|
    ensures forall j | p <= j < q :: ms[j].role.System?
    ensures q < |ms| ==> !ms[q].role.System?
    decreases |ms| - p
  {
    if p == |ms| || !ms[p].role.System? then p else Odd(ms, p + 1)
  }

  /** What is left when every message before p that is no system message has been dropped. */
  function Left(ms: seq<Message>, p: nat): seq<Message>
    requires p <= |ms|
  {
    Filter(IsSystem, ms[..p]) + ms[p..]
  }

  /**
   * Nothing is dropped any more at p, or only whole turns are: a user comes next,
   * the budget holds, or one message is left.
   */
  predicate Settles(ms: seq<Message>, p: nat, budget: int)
    requires p <= |ms|
  {
    var q := Odd(ms, p);
    q >= |ms| - 1 || ms[q].role.User? || ListTokens(Left(ms, p)) <= budget
  }

  /** How far a budget eats into the messages that stand before the first user. */
  function Stop(ms: seq<Message>, p: nat, budget: int): (stop: nat)
    requires p <= |ms|
    ensures p <= stop <= |ms|
    decreases |ms| - p
  {
    if Settles(ms, p, budget) then p else Stop(ms, Odd(ms, p) + 1, budget)
  }

  lemma {:induction false} SystemThen(system: seq<Message>, rest: seq<Message>)
    requires (forall m | m in system :: m.role.System?) && (rest != [] ==> !rest[0].role.System?)
    ensures LeadingSystem(system + rest) == |system|
  {
    hide LeadingSystem;
    assert forall i | 0 <= i < |system| :: system[i] in system;
    LeadingSystemUnique(system + rest, |system|);
  }

  lemma {:induction false} LeftStart(ms: seq<Message>, p: nat)
    requires p <= |ms|
    ensures var system := Filter(IsSystem, ms[..p]) + ms[p..Odd(ms, p)];
            && Left(ms, p) == system + ms[Odd(ms, p)..]
            && LeadingSystem(Left(ms, p)) == |system|
            && forall m | m in system :: m.role.System?
  {
    hide LeadingSystem, Filter, Odd;
    var q := Odd(ms, p);
    var before := Filter(IsSystem, ms[..p]);
    assert ms[p..] == ms[p..q] + ms[q..];
    assert forall m | m in before :: IsSystem(m);
    assert forall m | m in ms[p..q] :: m.role.System?;
    SystemThen(before + ms[p..q], ms[q..]);
    assert Left(ms, p) == before + ms[p..q] + ms[q..];
  }

  /** While no user comes first, dropping takes one message at a time. */
  lemma {:induction false} LeftDrops(ms: seq<Message>, p: nat, budget: int)
    requires p <= |ms| && !Settles(ms, p, budget)
    ensures DropOldest(Left(ms, p)) == Some(Left(ms, Odd(ms, p) + 1))
  {
    hide ListTokens, LeadingSystem, Filter, Odd;
    var q := Odd(ms, p);
    LeftStart(ms, p);
    var left := Left(ms, p);
    var system := Filter(IsSystem, ms[..p]) + ms[p..q];
    assert left[..|system|] == system && left[|system| + 1..] == ms[q + 1..];
    assert left[|system|] == ms[q];
    assert ms[..q + 1] == ms[..p] + ms[p..q] + [ms[q]];
    FilterOneMore(IsSystem, ms[..p] + ms[p..q], ms[q]);
    FilterConcat(IsSystem, ms[..p], ms[p..q]);
    FilterAll(IsSystem, ms[p..q]);
  }

  lemma {:induction false} PairedRest(ms: seq<Message>, p: nat)
    requires Paired(ms, {}) && p <= |ms|
    ensures Paired(ms[p..], OpenAt(ms, p))
    ensures Paired(Left(ms, p), {}) <==> OpenAt(ms, p) == {}
  {
    hide Paired, OpenAt;
    OpenAtStart(ms);
    PairedByPosition(ms, 0);
    assert ms[0..] == ms;
    PairedByPosition(ms, p);
    SystemPrefixPaired(Filter(IsSystem, ms[..p]), ms[p..]);
    if Paired(ms[p..], {}) {
      OpenIsUnique(ms[p..], OpenAt(ms, p), {});
    }
  }

  lemma {:induction false} OpenAtStart(ms: seq<Message>)
    ensures OpenAt(ms, 0) == {}
  {
  }

  /** Before a system or user message, and at the end, no call is open. */
  lemma {:induction false} ClosedAt(ms: seq<Message>, p: nat)
    requires Paired(ms, {}) && p <= |ms| && (p < |ms| ==> ms[p].role.System? || ms[p].role.User?)
    ensures OpenAt(ms, p) == {}
  {
    hide OpenAt;
    PairedRest(ms, p);
  }

  lemma {:induction false} FitFromUser(ms: seq<Message>, budget: int)
    requires Paired(ms, {}) && StartsWithUser(ms)
    ensures Paired(Fit(ms, budget).messages, {})
  {
    hide Fit, Paired, From, DropsLeast, Users, DropTurns, LeadingSystem;
    FitKeepsNewestTurns(ms, budget);
    FixedPointIffPaired(Fit(ms, budget).messages);
  }

  lemma {:induction false} FitSettled(ms: seq<Message>, p: nat, budget: int)
    requires Paired(ms, {}) && p <= |ms| && Settles(ms, p, budget)
    ensures Paired(Fit(Left(ms, p), budget).messages, {}) <==> OpenAt(ms, p) == {}
  {
    hide Paired, ListTokens, OpenAt, LeadingSystem, Left, Odd, NextUser;
    var q := Odd(ms, p);
    LeftStart(ms, p);
    PairedRest(ms, p);
    if q < |ms| && ms[q].role.User? {
      ClosedAt(ms, p);
      FitFromUser(Left(ms, p), budget);
    } else {
      assert Fit(Left(ms, p), budget).messages == Left(ms, p);
    }
  }

  lemma {:induction false} FitPairedFrom(ms: seq<Message>, p: nat, budget: int)
    requires Paired(ms, {}) && p <= |ms|
    ensures Paired(Fit(Left(ms, p), budget).messages, {}) <==> OpenAt(ms, Stop(ms, p, budget)) == {}
    decreases |ms| - p
  {
    hide Paired, OpenAt, Left, Odd, DropOldest;
    if Settles(ms, p, budget) {
      FitSettled(ms, p, budget);
    } else {
      LeftDrops(ms, p, budget);
      assert ListTokens(Left(ms, p)) > budget;
      hide Settles, ListTokens;
      FitPairedFrom(ms, Odd(ms, p) + 1, budget);
    }
  }

  /**
   * Fitting a paired view to a budget keeps it paired exactly when no call is open at the place where dropping of
   * single messages comes to rest. That place is 0 whenever the conversation starts with a user.
   */
  lemma {:induction false} FitPairedIff(ms: seq<Message>, budget: int)
    requires Paired(ms, {})
    ensures Paired(Fit(ms, budget).messages, {}) <==> OpenAt(ms, Stop(ms, 0, budget)) == {}
  {
    hide Fit, Stop, Paired;
    assert Left(ms, 0) == ms;
    FitPairedFrom(ms, 0, budget);
  }

  /** Asked of the list before it is packed: no batch is open where the budget makes dropping stop. */
  predicate KeepsPairs(ms: seq<Message>, opt: PackOptions) {
    opt.budget <= 0 || OpenAt(View(ms, opt), Stop(View(ms, opt), 0, opt.budget)) == {}
  }

  /** A packed list needs no repair exactly when it keeps its pairs. */
  lemma {:induction false} PackPairedIff(ms: seq<Message>, opt: PackOptions)
    ensures Repaired(Packed(ms, opt).messages) == Packed(ms, opt).messages <==> KeepsPairs(ms, opt)
  {
    hide View, Fit, Stop, Paired, Repaired, LeadingSystem, SameShape;
    ViewShape(ms, opt);
    FixedPointIffPaired(Packed(ms, opt).messages);
    FitPairedIff(View(ms, opt), opt.budget);
  }

  /** Which is so whatever the budget if the conversation starts with a user. */
  lemma {:induction false} UserFirstKeepsPairs(ms: seq<Message>, opt: PackOptions)
    requires StartsWithUser(ms)
    ensures KeepsPairs(ms, opt)
  {
    hide View, Fit, Stop, Paired, Repaired, KeepsPairs, FitsNewestTurns;
    if opt.budget > 0 {
      PackKeepsNewestTurns(ms, opt);
      PackPairedIff(ms, opt);
      NewestTurnsPaired(ms, opt);
    } else {
      PackWithoutBudget(ms, opt);
      PackPairedIff(ms, opt);
    }
  }

  lemma {:induction false} NewestTurnsPaired(ms: seq<Message>, opt: PackOptions)
    requires StartsWithUser(View(ms, opt)) && FitsNewestTurns(View(ms, opt), opt.budget, Packed(ms, opt))
    ensures Repaired(Packed(ms, opt).messages) == Packed(ms, opt).messages
  {
    hide View, Packed, From, DropsLeast, Users, Repaired, LeadingSystem;
  }

  // ----- what packing does to bodies -----

  lemma {:induction false} FitMembers(ms: seq<Message>, budget: int, m: Message)
    requires m in Fit(ms, budget).messages
    ensures m in ms
    decreases |ms|
  {
    hide ListTokens, LeadingSystem, NextUser;
    if Fit(ms, budget).dropped > 0 {
      FitMembers(DropOldest(ms).value, budget, m);
      DropOldestMembers(ms, m);
    }
  }

  lemma {:induction false} DropOldestMembers(ms: seq<Message>, m: Message)
    requires DropOldest(ms).Some? && m in DropOldest(ms).value
    ensures m in ms
  {
  }

  /**
   * Under a budget old results are cleared, with 40000 tokens of newer results protected and 20000 worth reclaiming
   * unless the options say otherwise.
   */
  lemma {:induction false} PackClearsOld(ms: seq<Message>, opt: PackOptions) returns (c: nat)
    requires opt.budget > 0
    ensures ClearsOld(TrimmedView(ms, opt), View(ms, opt),
                      if opt.toolProtectTokens <= 0 then 40_000 else opt.toolProtectTokens,
                      if opt.toolReclaimMin <= 0 then 20_000 else opt.toolReclaimMin, c)
  {
    hide ClearsOld, TrimmedView, Cleared;
    c := OldResultsAreCleared(TrimmedView(ms, opt), OrDefault(opt.toolProtectTokens, DEFAULT_PROTECT),
                              OrDefault(opt.toolReclaimMin, DEFAULT_RECLAIM));
  }

  /** No tool result and no assistant text of a packed list is longer than the limit, but for placeholders. */
  lemma {:induction false} PackedBodiesFit(ms: seq<Message>, opt: PackOptions, m: Message)
    requires m in Packed(ms, opt).messages
    requires m.role.Tool? || (m.role.Assistant? && m.toolCalls == [])
    ensures var limit := if opt.maxToolResultRunes <= 0 then 32_768 else opt.maxToolResultRunes;
            |m.content| <= Max(16, limit) || (opt.budget > 0 && m.role.Tool? && m.content == Placeholder(m))
  {
    hide Fit, Repaired, Cleared, TrimFrom, Placeholder;
    if opt.budget > 0 {
      FitMembers(View(ms, opt), opt.budget, m);
    }
    var i :| 0 <= i < |View(ms, opt)| && View(ms, opt)[i] == m;
    var trimmed := TrimmedView(ms, opt);
    BodiesFit(Repaired(ms), 0, OrDefault(opt.maxToolResultRunes, DEFAULT_MAX_RUNES), i);
    if opt.budget > 0 {
      var c := PackClearsOld(ms, opt);
      PlaceholderOf(trimmed[i]);
    }
  }

  lemma {:induction false} PlaceholderOf(m: Message)
    ensures Placeholder(m.(content := Placeholder(m))) == Placeholder(m)
  {
  }
}
