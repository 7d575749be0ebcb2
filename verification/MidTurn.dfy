/** The compaction of a running turn: maybeCompactMidTurn of internal/agent/runner_compact.go. */
module MidTurn {
  import opened Text
  import opened Messages
  import opened Repair
  import opened Estimate
  import opened TrimBodies
  import opened Clear
  import opened View
  import Pack

  /** Above this estimate a turn is compacted even when the window is unknown. */
  const UNKNOWN_WINDOW_LIMIT := 32_000

  datatype Settings = Settings(window: int, maxOutput: int, maxRunes: int, calibrate: int -> int)

  function Usable(cfg: Settings): int {
    UsableWindow(cfg.window, ClampMaxOutput(cfg.maxOutput), 0)
  }

  /** The bodies that are new in this step, trimmed. */
  function TrimmedStep(ms: seq<Message>, from: int, cfg: Settings): seq<Message> {
    TrimFrom(ms, Max(0, from), MaxRunesOrDefault(cfg.maxRunes))
  }

  predicate Pressed(trimmed: seq<Message>, cfg: Settings) {
    var raw := ListTokens(trimmed);
    if cfg.window <= 0 then raw >= UNKNOWN_WINDOW_LIMIT
    else ShouldCompact(cfg.calibrate(raw), Usable(cfg), Usable(cfg) > 0 && cfg.calibrate(raw) > Usable(cfg))
  }

  function Kept(trimmed: seq<Message>, cfg: Settings): seq<Message> {
    if cfg.window <= 0 then trimmed else Cleared(trimmed, Pack.DEFAULT_PROTECT, Pack.DEFAULT_RECLAIM)
  }

  function Compacted(ms: seq<Message>, from: int, cfg: Settings, summarize: seq<Message> -> string): seq<Message> {
    if |ms| < 4 then ms else
      var trimmed := TrimmedStep(ms, from, cfg);
      if Pressed(trimmed, cfg) then Rebuilt(trimmed, RebuildOptions(cfg.window, cfg.maxOutput, cfg.maxRunes), summarize)
      else Kept(trimmed, cfg)
  }

  method MaybeCompactMidTurn(messages: array<Message>, from: int, cfg: Settings, summarize: seq<Message> -> string)
    returns (out: seq<Message>, compacted: bool)
    modifies messages
    ensures out == Compacted(old(messages[..]), from, cfg, summarize)
    ensures compacted <==> messages.Length >= 4 && Pressed(TrimmedStep(old(messages[..]), from, cfg), cfg)
    ensures !compacted ==> out == messages[..]
  {
    hide TrimFrom, Cleared, ListTokens, Rebuilt, UsableWindow;
    if messages.Length < 4 {
      return messages[..], false;
    }
    var _ := TrimToolBodies(messages, from, cfg.maxRunes);
    var raw := EstimateMessages(messages[..]);
    if cfg.window <= 0 {
      if raw < UNKNOWN_WINDOW_LIMIT {
        return messages[..], false;
      }
      var view := RebuildProviderView(messages[..], cfg.window, cfg.maxOutput, cfg.maxRunes, summarize);
      return view, true;
    }
    var usable := UsableWindow(cfg.window, ClampMaxOutput(cfg.maxOutput), 0);
    var est := cfg.calibrate(raw);
    if !ShouldCompact(est, usable, usable > 0 && est > usable) {
      var _ := ClearOldToolResults(messages, Pack.DEFAULT_PROTECT, Pack.DEFAULT_RECLAIM);
      return messages[..], false;
    }
    var view := RebuildProviderView(messages[..], cfg.window, cfg.maxOutput, cfg.maxRunes, summarize);
    return view, true;
  }

  // ----- what stays -----

  /** Bodies of system and user messages are never touched. */
  predicate SameProse(a: seq<Message>, b: seq<Message>) {
    SameShape(a, b) && forall i | 0 <= i < |a| && (a[i].role.System? || a[i].role.User?) :: a[i] == b[i]
  }

  lemma {:induction false} TrimKeepsProse(ms: seq<Message>, start: nat, maxRunes: int)
    ensures SameProse(ms, TrimFrom(ms, start, maxRunes))
  {
    hide Trimmed;
  }

  lemma {:induction false} ClearKeepsProse(ms: seq<Message>, protect: int, reclaimMin: int)
    ensures SameProse(ms, Cleared(ms, protect, reclaimMin))
  {
    hide Placeholder, WorthClearing, ToolTokensFrom, OldTokensFrom;
  }

  lemma {:induction false} ProseTransitive(a: seq<Message>, b: seq<Message>, c: seq<Message>)
    requires SameProse(a, b) && SameProse(b, c)
    ensures SameProse(a, c)
  {
  }

  lemma {:induction false} ProseAnchors(a: seq<Message>, b: seq<Message>)
    requires SameProse(a, b)
    ensures LeadingSystem(b) == LeadingSystem(a)
    ensures OpenView(b).prefix == OpenView(a).prefix
    ensures SameProse(OpenView(a).rest, OpenView(b).rest)
    ensures LastUser(OpenView(b).rest) == LastUser(OpenView(a).rest)
  {
    var n := LeadingSystem(a);
    LeadingSystemUnique(b, n);
    assert a[..n] == b[..n];
    ProseLastUser(a[n..], b[n..]);
  }

  lemma {:induction false} ProseLastUser(a: seq<Message>, b: seq<Message>)
    requires SameProse(a, b)
    ensures LastUser(b) == LastUser(a)
  {
    var i := LastUser(a);
    if i < |a| {
      LastUserUnique(b, i);
    } else {
      assert forall k | 0 <= k < |b| :: !a[k].role.User? && !b[k].role.User?;
    }
  }

  /** The last turn: from the last user message on. */
  function LastTurn(ms: seq<Message>): seq<Message> {
    var rest := OpenView(ms).rest;
    rest[LastUser(rest)..]
  }

  /**
   * Whatever is decided, for every summariser, calibration and window: the result begins with the system messages it
   * was given, less a trailing summary, and ends with the last turn,
   * of which only result and answer bodies may be shorter.
   */
  lemma {:induction false} MidTurnKeepsEnds(
    ms: seq<Message>, from: int, cfg: Settings, summarize: seq<Message> -> string)
    ensures var r := Compacted(ms, from, cfg, summarize);
      && OpenView(ms).prefix <= r
      && |LastTurn(ms)| <= |r| && SameProse(LastTurn(ms), r[|r| - |LastTurn(ms)|..])
  {
    hide TrimFrom, Cleared, Rebuilt, Pressed, OpenView, LastUser, SameProse;
    var r := Compacted(ms, from, cfg, summarize);
    var trimmed := TrimmedStep(ms, from, cfg);
    TrimKeepsProse(ms, Max(0, from), MaxRunesOrDefault(cfg.maxRunes));
    ProseAnchors(ms, trimmed);
    if |ms| < 4 {
      ProseReflexive(ms);
      ListEnds(ms, ms);
    } else if Pressed(trimmed, cfg) {
      TrimmedNonEmpty(ms, trimmed);
      RebuildKeepsEnds(trimmed, RebuildOptions(cfg.window, cfg.maxOutput, cfg.maxRunes), summarize);
      LastTurnProse(ms, trimmed);
      TurnLengths(ms, trimmed);
    } else {
      ClearKeepsProse(trimmed, Pack.DEFAULT_PROTECT, Pack.DEFAULT_RECLAIM);
      ProseReflexive(trimmed);
      ProseTransitive(ms, trimmed, Kept(trimmed, cfg));
      ListEnds(ms, r);
    }
  }

  lemma {:induction false} ProseReflexive(ms: seq<Message>)
    ensures SameProse(ms, ms)
  {
  }

  lemma {:induction false} TrimmedNonEmpty(a: seq<Message>, b: seq<Message>)
    requires SameProse(a, b)
    ensures |a| == |b|
  {
  }

  lemma {:induction false} LastTurnProse(a: seq<Message>, b: seq<Message>)
    requires SameProse(a, b)
    ensures SameProse(LastTurn(a), LastTurn(b))
  {
    hide OpenView, LastUser;
    ProseAnchors(a, b);
    var n := LastUser(OpenView(a).rest);
    ProseTail(OpenView(a).rest, OpenView(b).rest, n);
  }

  lemma {:induction false} ProseTail(a: seq<Message>, b: seq<Message>, n: nat)
    requires SameProse(a, b) && n <= |a|
    ensures n <= |b| && SameProse(a[n..], b[n..])
  {
  }

  lemma {:induction false} ListEnds(ms: seq<Message>, r: seq<Message>)
    requires SameProse(ms, r)
    ensures OpenView(ms).prefix <= r
    ensures |LastTurn(ms)| <= |r| && SameProse(LastTurn(ms), r[|r| - |LastTurn(ms)|..])
  {
    hide LastUser, SameProse, OpenView;
    ProseAnchors(ms, r);
    LastTurnProse(ms, r);
    OwnEnds(r);
    TurnLengths(ms, r);
  }

  lemma {:induction false} OwnEnds(r: seq<Message>)
    ensures OpenView(r).prefix <= r
    ensures |LastTurn(r)| <= |r| && r[|r| - |LastTurn(r)|..] == LastTurn(r)
  {
    hide LastUser;
  }

  lemma {:induction false} TurnLengths(ms: seq<Message>, r: seq<Message>)
    requires SameProse(LastTurn(ms), LastTurn(r))
    ensures |LastTurn(ms)| == |LastTurn(r)|
  {
    hide OpenView, LastUser;
  }

  function Options(cfg: Settings): Pack.PackOptions {
    RebuildOptions(cfg.window, cfg.maxOutput, cfg.maxRunes)
  }

  /**
   * A paired conversation needs no repair afterwards exactly when it is not rebuilt, or the packing of the history
   * that the rebuild keeps breaks no pair.
   */
  lemma {:induction false} MidTurnPaired(
    ms: seq<Message>, from: int, cfg: Settings, summarize: seq<Message> -> string)
    requires Paired(ms, {})
    ensures var trimmed, r := TrimmedStep(ms, from, cfg), Compacted(ms, from, cfg, summarize);
            Repaired(r) == r <==>
            |ms| < 4 || !Pressed(trimmed, cfg) || Pack.KeepsPairs(KeptHistory(trimmed), Options(cfg))
  {
    hide TrimFrom, Cleared, RebuiltView, Rebuilt, Pressed, Paired, Repaired, Pack.KeepsPairs, KeptHistory;
    var trimmed := TrimmedStep(ms, from, cfg);
    PairedByShape(trimmed, ms, {});
    PairedByShape(Cleared(trimmed, Pack.DEFAULT_PROTECT, Pack.DEFAULT_RECLAIM), trimmed, {});
    FixedPointIffPaired(Compacted(ms, from, cfg, summarize));
    if |ms| >= 4 && Pressed(trimmed, cfg) {
      RebuildPaired(trimmed, Options(cfg), summarize);
    }
  }

  /**
   * A conversation that is not rebuilt stays below three quarters of the usable window: in its own estimate if the
   * calibrator does not lower estimates, and as calibrated if the calibrator keeps their order.
   */
  lemma {:induction false} UnpressedFits(
    ms: seq<Message>, from: int, cfg: Settings, summarize: seq<Message> -> string)
    requires |ms| >= 4 && cfg.window > 0 && !Pressed(TrimmedStep(ms, from, cfg), cfg)
    ensures (forall n: int :: cfg.calibrate(n) >= n) ==>
              4 * ListTokens(Compacted(ms, from, cfg, summarize)) < 3 * Usable(cfg)
    ensures (forall a: int, b: int | a <= b :: cfg.calibrate(a) <= cfg.calibrate(b)) ==>
              4 * cfg.calibrate(ListTokens(Compacted(ms, from, cfg, summarize))) < 3 * Usable(cfg)
  {
    hide TrimFrom, Cleared, ListTokens, Rebuilt, ClearedCountFrom;
    var trimmed := TrimmedStep(ms, from, cfg);
    ClearSaves(trimmed, Pack.DEFAULT_PROTECT, Pack.DEFAULT_RECLAIM);
  }

  /** Pressed: the bare estimate alone is too much, or the calibrated one takes three quarters of the usable window. */
  lemma {:induction false} PressedIff(trimmed: seq<Message>, cfg: Settings)
    ensures cfg.window <= 0 ==> (Pressed(trimmed, cfg) <==> ListTokens(trimmed) >= 32_000)
    ensures cfg.window > 0 ==> (Pressed(trimmed, cfg) <==> 4 * cfg.calibrate(ListTokens(trimmed)) >= 3 * Usable(cfg))
  {
    hide ListTokens, ClampMaxOutput;
  }

  /**
   * A conversation that is not rebuilt keeps its messages: new bodies are trimmed, and if the window is known old
   * results are cleared, with 40000 tokens of newer results protected and 20000 worth reclaiming.
   */
  lemma {:induction false} UnpressedClearsOld(
    ms: seq<Message>, from: int, cfg: Settings, summarize: seq<Message> -> string)
    returns (c: nat)
    requires |ms| >= 4 && !Pressed(TrimmedStep(ms, from, cfg), cfg)
    ensures var out, trimmed := Compacted(ms, from, cfg, summarize), TrimmedStep(ms, from, cfg);
            if cfg.window <= 0 then out == trimmed else ClearsOld(trimmed, out, 40_000, 20_000, c)
  {
    hide ClearsOld, TrimmedStep, Cleared, Pressed, Rebuilt;
    c := OldResultsAreCleared(TrimmedStep(ms, from, cfg), 40_000, 20_000);
  }
}
