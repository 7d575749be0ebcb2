/** Durable session compaction (internal/chatsession/pack.go): the stored point through which history is summarised. */
module Compaction {
  import opened Text
  import opened Messages
  import opened Turns
  import opened Estimate
  import opened View
  import Pack

  predicate SameTranscriptPoint(a: Message, b: Message) {
    a.role == b.role &&
    if a.toolCallId != "" || b.toolCallId != "" then a.toolCallId == b.toolCallId else a.content == b.content
  }

  /** The first position of x, or the length. */
  function FirstIndex(ids: seq<string>, x: string): (i: nat)
    ensures i <= |ids|
    ensures i < |ids| ==> ids[i] == x
    ensures forall j | 0 <= j < i :: ids[j] != x
  {
    if ids == [] || ids[0] == x then 0 else
      var i := FirstIndex(ids[1..], x);
      assert forall j | 0 < j < i + 1 :: ids[j] == ids[1..][j - 1];
      i + 1
  }

  function FirstSame(full: seq<Message>, last: Message): (i: nat)
    ensures i <= |full|
    ensures i < |full| ==> SameTranscriptPoint(full[i], last)
    ensures forall j | 0 <= j < i :: !SameTranscriptPoint(full[j], last)
  {
    if full == [] || SameTranscriptPoint(full[0], last) then 0 else
      var i := FirstSame(full[1..], last);
      assert forall j | 0 < j < i + 1 :: full[j] == full[1..][j - 1];
      i + 1
  }

  method IndexAfterID(ids: seq<string>, through: string) returns (r: int)
    ensures r == if through == "" || FirstIndex(ids, through) == |ids| then -1 else FirstIndex(ids, through) + 1
  {
    if through == "" || |ids| == 0 {
      return -1;
    }
    for i := 0 to |ids|
      invariant forall j | 0 <= j < i :: ids[j] != through
    {
      if ids[i] == through {
        return i + 1;
      }
    }
    return -1;
  }

  function LastHistoryIdSpec(ids: seq<string>, head: seq<Message>, full: seq<Message>): string {
    if |ids| == 0 || |head| == 0 || |ids| != |full| then ""
    else
      var i := FirstSame(full, head[|head| - 1]);
      if i < |full| then ids[i] else if |head| <= |ids| then ids[|head| - 1] else ""
  }

  method LastHistoryID(ids: seq<string>, head: seq<Message>, full: seq<Message>) returns (id: string)
    ensures id == LastHistoryIdSpec(ids, head, full)
  {
    if |ids| == 0 || |head| == 0 || |ids| != |full| {
      return "";
    }
    var last := head[|head| - 1];
    for i := 0 to |full|
      invariant forall j | 0 <= j < i :: !SameTranscriptPoint(full[j], last)
    {
      if SameTranscriptPoint(full[i], last) {
        return ids[i];
      }
    }
    var idx := |head| - 1;
    if idx >= 0 && idx < |ids| {
      return ids[idx];
    }
    return "";
  }

  predicate Distinct(ids: seq<string>) {
    forall i, j | 0 <= i < j < |ids| :: ids[i] != ids[j]
  }

  /** Ids as the transcript makes them: present, trimmed, never repeated. */
  predicate ProperIds(ids: seq<string>) {
    Distinct(ids) && forall id | id in ids :: id != "" && Trim(id) == id
  }

  /**
   * The stored id never lies behind the last summarised message, however often contents repeat; it is that message
   * exactly when no earlier one looks the same.
   */
  lemma {:induction false} ThroughNeverLate(ids: seq<string>, full: seq<Message>, cut: nat)
    requires |ids| == |full| && 0 < cut <= |full| && Distinct(ids)
    ensures var p := FirstSame(full, full[cut - 1]);
            p < cut && LastHistoryIdSpec(ids, full[..cut], full) == ids[p]
    ensures LastHistoryIdSpec(ids, full[..cut], full) == ids[cut - 1] <==>
            forall j | 0 <= j < cut - 1 :: !SameTranscriptPoint(full[j], full[cut - 1])
  {
    var last := full[cut - 1];
    assert full[..cut][cut - 1] == last && SameTranscriptPoint(last, last);
  }

  // ----- one turn -----

  datatype Stored = Stored(summary: string, through: string)

  datatype Assembled = Assembled(work: seq<Message>, summary: string, stored: Option<Stored>, summarised: nat)

  function StripLeadingSystem(ms: seq<Message>): seq<Message> {
    ms[LeadingSystem(ms)..]
  }

  /** History left after an earlier compaction. */
  function RecallWork(history: seq<Message>, ids: seq<string>, prev: string, through: string): seq<Message> {
    if through != "" then
      var i := FirstIndex(ids, through);
      if i < |ids| && i + 1 <= |history| then history[i + 1..] else history
    else if prev != "" && |history| > 4 then StripLeadingSystem(HeadTail(history, 2).tail)
    else history
  }

  /** The choice of history in assembleContextView; `compact` says whether a compaction is due. */
  function Assemble(history: seq<Message>, ids: seq<string>, prev: string, through: string, compact: bool, sum: string)
    : Assembled
  {
    var split := HeadTail(history, 2);
    if compact && |history| > 4 && split.head != [] && Trim(sum) != "" then
      Assembled(StripLeadingSystem(split.tail), sum, Some(Stored(sum, LastHistoryIdSpec(ids, split.head, history))),
                |split.head|)
    else Assembled(RecallWork(history, ids, prev, through), prev, None, 0)
  }

  datatype Settings = Settings(window: int, maxOutput: int, calibrate: int -> int, enabled: bool)

  function Usable(cfg: Settings): int {
    UsableWindow(cfg.window, ClampMaxOutput(cfg.maxOutput), 0)
  }

  function Options(cfg: Settings): Pack.PackOptions {
    Pack.PackOptions(HistoryBudget(Usable(cfg)), 0, 0, 0)
  }

  /** A probe packing of the working history is over budget, or its calibrated estimate is under pressure. */
  predicate CompactionDue(work: seq<Message>, cfg: Settings) {
    var over := Options(cfg).budget > 0 && ListTokens(Pack.Packed(work, Options(cfg)).messages) > Options(cfg).budget;
    cfg.enabled && (over || (Usable(cfg) > 0 && ShouldCompact(cfg.calibrate(ListTokens(work)), Usable(cfg), over)))
  }

  /** The todo block and the current user's text close the view. */
  function Closing(todos: string, currentUser: string): seq<Message> {
    (if todos != "" then [SystemMessage(todos)] else []) +
    (if Trim(currentUser) != "" then [UserMessage(currentUser)] else [])
  }

  method RecallHistory(history: seq<Message>, ids: seq<string>, prev: string, through: string)
    returns (work: seq<Message>)
    ensures work == RecallWork(history, ids, prev, through)
  {
    hide HeadTail, LeadingSystem;
    work := history;
    if through != "" {
      var cut := IndexAfterID(ids, through);
      if cut >= 0 && cut <= |history| {
        work := history[cut..];
      }
    } else if prev != "" && |history| > 4 {
      var _, tail := SplitHeadTail(history, 2);
      work := StripLeadingSystem(tail);
    }
  }

  method IsCompactionDue(work: seq<Message>, cfg: Settings) returns (due: bool)
    ensures due == CompactionDue(work, cfg)
  {
    hide Pack.Packed, ListTokens, UsableWindow, HistoryBudget, ShouldCompact;
    var usable := UsableWindow(cfg.window, ClampMaxOutput(cfg.maxOutput), 0);
    var est := EstimateMessages(work);
    var probe := Pack.Pack(work, Pack.PackOptions(HistoryBudget(usable), 0, 0, 0));
    var over := probe.overBudget || (usable > 0 && ShouldCompact(cfg.calibrate(est), usable, probe.overBudget));
    return cfg.enabled && over;
  }

  /**
   * A compaction is due exactly if it is enabled, the window is known, and the packed history is over its budget or its
   * calibrated estimate takes three quarters of the usable window.
   */
  lemma {:induction false} DueIff(work: seq<Message>, cfg: Settings)
    ensures CompactionDue(work, cfg) <==>
            && cfg.enabled && cfg.window > 0
            && (ListTokens(Pack.Packed(work, Options(cfg)).messages) > HistoryBudget(Usable(cfg))
                || 4 * cfg.calibrate(ListTokens(work)) >= 3 * Usable(cfg))
  {
    hide Pack.Packed, ListTokens;
    WindowIsShared(cfg.window, cfg.maxOutput);
    hide UsableWindow, HistoryBudget, ClampMaxOutput;
  }

  method AssembleContextView(
    prefix: seq<Message>, history: seq<Message>, historyIDs: seq<string>, prev: string, throughID: string,
    todos: string, currentUser: string, cfg: Settings, summarize: seq<Message> -> string)
    returns (view: ContextView, r: Assembled)
    ensures r == Assemble(history, historyIDs, prev, throughID,
                          CompactionDue(RecallWork(history, historyIDs, prev, throughID), cfg),
                          summarize(HeadTail(history, 2).head))
    ensures view == Built(prefix, r.work, Closing(todos, currentUser), r.summary, Options(cfg))
  {
    hide HeadTail, LeadingSystem, Built, CompactionDue, RecallWork, LastHistoryIdSpec, Trim, UsableWindow,
        HistoryBudget;
    var work := RecallHistory(history, historyIDs, prev, throughID);
    var due := IsCompactionDue(work, cfg);
    r := Assembled(work, prev, None, 0);
    if due && |history| > 4 {
      var head, tail := SplitHeadTail(history, 2);
      if |head| > 0 {
        var sum := summarize(head);
        if Trim(sum) != "" {
          var through := LastHistoryID(historyIDs, head, history);
          r := Assembled(StripLeadingSystem(tail), sum, Some(Stored(sum, through)), |head|);
        }
      }
    }
    var ephemeral: seq<Message> := [];
    if todos != "" {
      ephemeral := ephemeral + [SystemMessage(todos)];
    }
    if Trim(currentUser) != "" {
      ephemeral := ephemeral + [UserMessage(currentUser)];
    }
    assert ephemeral == Closing(todos, currentUser);
    var compacted;
    view, compacted := Build(prefix, r.work, ephemeral, r.summary, Options(cfg));
  }

  // ----- compaction on demand -----

  /** How much of the history a manual compaction summarises: the head of the split, or all but two messages. */
  function ForcedHead(history: seq<Message>): (n: nat)
    ensures n <= |history|
  {
    var split := HeadTail(history, 2);
    if |history| < 2 then 0
    else if split.head != [] then Min(|split.head|, |history|)
    else |history| - 2
  }

  datatype Forced = Skipped | Done(stored: Stored)

  function ForcedHeadOf(history: seq<Message>): seq<Message> {
    var split := HeadTail(history, 2);
    if split.head != [] then split.head else history[..ForcedHead(history)]
  }

  /** ForceCompact: no pressure is asked for; a summary is stored unless there is too little to summarise. */
  method ForceCompact(history: seq<Message>, ids: seq<string>, enabled: bool, summarize: seq<Message> -> string)
    returns (r: Forced)
    ensures r == if !enabled || ForcedHead(history) == 0 || Trim(summarize(ForcedHeadOf(history))) == "" then Skipped
                 else Done(Stored(summarize(ForcedHeadOf(history)),
                                  LastHistoryIdSpec(ids, ForcedHeadOf(history), history)))
  {
    hide HeadTail, Trim, LastHistoryIdSpec;
    if !enabled || |history| < 2 {
      return Skipped;
    }
    var head, tail := SplitHeadTail(history, 2);
    if |head| == 0 {
      if |history| <= 2 {
        return Skipped;
      }
      head := history[..|history| - 2];
    }
    var summary := summarize(head);
    if Trim(summary) == "" {
      return Skipped;
    }
    var through := LastHistoryID(ids, head, history);
    return Done(Stored(summary, through));
  }

  // ----- whole sessions -----

  /** The transcript, the stored compaction, and the part [from, covered) of the transcript it was made from. */
  datatype Session = Session(
    ids: seq<string>, messages: seq<Message>, prev: string, through: string, from: nat, covered: nat)

  /**
   * New rows arrive; the turn, or the compaction asked for by hand, then sees the transcript from `start` on, a window
   * that never moves back.
   */
  datatype Turn =
    | Turn(newIds: seq<string>, newMessages: seq<Message>, start: nat, compact: bool, sum: string)
    | Manual(newIds: seq<string>, newMessages: seq<Message>, start: nat, sum: string)

  predicate NoSystem(ms: seq<Message>) {
    forall m | m in ms :: !m.role.System?
  }

  predicate ProperSession(s: Session) {
    && |s.ids| == |s.messages| && ProperIds(s.ids) && NoSystem(s.messages)
    && (s.through == "" ==> s.prev == "")
    && (s.through != "" ==> FirstIndex(s.ids, s.through) < s.covered <= |s.messages|)
  }

  function Grown(s: Session, t: Turn): Session {
    s.(ids := s.ids + t.newIds, messages := s.messages + t.newMessages)
  }

  predicate ProperTurn(s: Session, t: Turn) {
    && |t.newIds| == |t.newMessages| && ProperIds(s.ids + t.newIds) && NoSystem(t.newMessages)
    && s.from <= t.start <= |s.messages + t.newMessages|
  }

  function TurnView(s: Session, t: Turn): Assembled
    requires ProperTurn(s, t) && |s.ids| == |s.messages| && t.Turn?
  {
    var g := Grown(s, t);
    Assemble(g.messages[t.start..], g.ids[t.start..], g.prev, g.through, t.compact, t.sum)
  }

  function AfterTurn(s: Session, t: Turn): Session
    requires ProperTurn(s, t) && |s.ids| == |s.messages|
  {
    var g := Grown(s, t);
    match t
    case Turn(_, _, _, _, _) =>
      var a := TurnView(s, t);
      (match a.stored
       case None => g
       case Some(c) => Summarised(g, c, t.start, a.summarised))
    case Manual(_, _, _, _) =>
      var history, ids := g.messages[t.start..], g.ids[t.start..];
      if ForcedHead(history) == 0 || Trim(t.sum) == "" then g
      else Summarised(g, Stored(t.sum, LastHistoryIdSpec(ids, ForcedHeadOf(history), history)), t.start,
                      ForcedHead(history))
  }

  /** The session with a new compaction of the n messages from `start` on. */
  function Summarised(g: Session, c: Stored, start: nat, n: nat): Session {
    g.(prev := Trim(c.summary), through := Trim(c.through), from := start, covered := start + n)
  }

  lemma {:induction false} FirstIndexGrows(ids: seq<string>, more: seq<string>, x: string)
    requires FirstIndex(ids, x) < |ids|
    ensures FirstIndex(ids + more, x) == FirstIndex(ids, x)
  {
    var i, k := FirstIndex(ids, x), FirstIndex(ids + more, x);
    assert (ids + more)[i] == x;
    assert forall j | 0 <= j < |ids| :: (ids + more)[j] == ids[j];
  }

  lemma {:induction false} FirstIndexAt(ids: seq<string>, i: nat)
    requires Distinct(ids) && i < |ids|
    ensures FirstIndex(ids, ids[i]) == i
  {
  }

  lemma {:induction false} FirstIndexWindow(ids: seq<string>, start: nat, x: string)
    requires Distinct(ids) && start <= |ids| && FirstIndex(ids[start..], x) < |ids| - start
    ensures FirstIndex(ids, x) == start + FirstIndex(ids[start..], x)
  {
    FirstIndexAt(ids, start + FirstIndex(ids[start..], x));
  }

  lemma {:induction false} NoLeadingSystem(ms: seq<Message>)
    requires NoSystem(ms)
    ensures LeadingSystem(ms) == 0
  {
    assert |ms| > 0 ==> ms[0] in ms;
    LeadingSystemUnique(ms, 0);
  }

  lemma {:induction false} HeadOfConversation(ms: seq<Message>)
    requires NoSystem(ms) && HeadTail(ms, 2).head != []
    ensures var s := HeadTail(ms, 2);
            |s.head| <= |ms| && s.head == ms[..|s.head|] && StripLeadingSystem(s.tail) == ms[|s.head|..]
  {
    hide AlignCut, TailStart, Users, LeadingSystem, NoSystem;
    NoLeadingSystem(ms);
    var s := HeadTail(ms, 2);
    assert s.tail == ms[|s.head|..];
    assert NoSystem(s.tail) by { WindowProper([], ms, |s.head|); }
    NoLeadingSystem(s.tail);
  }

  lemma {:induction false} WindowProper(ids: seq<string>, ms: seq<Message>, start: nat)
    ensures Distinct(ids) && start <= |ids| ==> Distinct(ids[start..])
    ensures NoSystem(ms) && start <= |ms| ==> NoSystem(ms[start..])
  {
    if Distinct(ids) && start <= |ids| {
      forall i, j | 0 <= i < j < |ids[start..]| ensures ids[start..][i] != ids[start..][j] {
        assert ids[start + i] != ids[start + j];
      }
    }
  }

  /** The id stored for the first n messages from `start` on lies among them, and is usable. */
  lemma {:induction false} StoredInside(ids: seq<string>, all: seq<Message>, start: nat, n: nat)
    requires |ids| == |all| && ProperIds(ids) && start <= |all| && 0 < n <= |all| - start
    ensures var id := LastHistoryIdSpec(ids[start..], all[start..][..n], all[start..]);
            id != "" && Trim(id) == id && FirstIndex(ids, id) < start + n
  {
    hide FirstIndex, SameTranscriptPoint, Trim, LastHistoryIdSpec, Distinct;
    WindowProper(ids, all, start);
    var history := all[start..];
    ThroughNeverLate(ids[start..], history, n);
    var p := FirstSame(history, history[n - 1]);
    assert ids[start..][p] == ids[start + p] && ids[start + p] in ids;
    FirstIndexAt(ids, start + p);
  }

  /** A turn that compacts stores an id inside the head it summarised, and works on the rest. */
  lemma {:induction false} CompactingTurn(ids: seq<string>, all: seq<Message>, start: nat)
    requires |ids| == |all| && ProperIds(ids) && NoSystem(all) && start <= |all|
    requires HeadTail(all[start..], 2).head != []
    ensures var s := HeadTail(all[start..], 2);
            var id := LastHistoryIdSpec(ids[start..], s.head, all[start..]);
            && start + |s.head| <= |all| && StripLeadingSystem(s.tail) == all[start + |s.head|..]
            && id != "" && Trim(id) == id && FirstIndex(ids, id) < start + |s.head|
  {
    hide HeadTail, LeadingSystem, FirstIndex, SameTranscriptPoint, Trim, NoSystem, LastHistoryIdSpec, Distinct;
    WindowProper(ids, all, start);
    var history := all[start..];
    HeadOfConversation(history);
    var cut := |HeadTail(history, 2).head|;
    StoredInside(ids, all, start, cut);
    assert history[cut..] == all[start + cut..];
  }

  /** So does a compaction by hand, whether it summarises the head of the split or all but two messages. */
  lemma {:induction false} ForcedCompaction(ids: seq<string>, all: seq<Message>, start: nat)
    requires |ids| == |all| && ProperIds(ids) && NoSystem(all) && start <= |all|
    requires ForcedHead(all[start..]) > 0
    ensures var history := all[start..]; var n := ForcedHead(history);
            var id := LastHistoryIdSpec(ids[start..], ForcedHeadOf(history), history);
            && ForcedHeadOf(history) == history[..n] && start + n <= |all|
            && id != "" && Trim(id) == id && FirstIndex(ids, id) < start + n
  {
    hide HeadTail, LeadingSystem, FirstIndex, SameTranscriptPoint, Trim, NoSystem, LastHistoryIdSpec, Distinct;
    var history := all[start..];
    WindowProper(ids, all, start);
    if HeadTail(history, 2).head != [] {
      HeadOfConversation(history);
    }
    StoredInside(ids, all, start, ForcedHead(history));
  }

  /**
   * Without a compaction the working history starts right behind the stored id, if the turn still sees it, and is all
   * that the turn sees if it does not. A summary stored without an id leaves the last two turns of a long history.
   */
  lemma {:induction false} RecallingTurn(
    ids: seq<string>, all: seq<Message>, start: nat, prev: string, through: string)
    requires |ids| == |all| && Distinct(ids) && start <= |all|
    ensures var work := RecallWork(all[start..], ids[start..], prev, through);
            && (through != "" ==>
                  work == if start <= FirstIndex(ids, through) < |ids| then all[FirstIndex(ids, through) + 1..]
                          else all[start..])
            && (through == "" && (prev == "" || |all| - start <= 4 || Users(all[start..]) <= 2) && NoSystem(all) ==>
                  work == all[start..])
            && (through == "" && prev != "" && |all| - start > 4 && Users(all[start..]) > 2 && NoSystem(all) ==>
                  Suffix(work, all[start..]) && Users(work) == 2)
  {
    hide HeadTail, FirstIndex, Distinct, Users, StripLeadingSystem, NoSystem;
    var history := all[start..];
    if through != "" {
      if FirstIndex(ids[start..], through) < |ids| - start {
        FirstIndexWindow(ids, start, through);
      } else if start <= FirstIndex(ids, through) < |ids| {
        SeenInWindow(ids, start, through);
      }
    } else if NoSystem(all) {
      WindowProper(ids, all, start);
      LastTurnsOf(history);
    }
  }

  lemma {:induction false} SeenInWindow(ids: seq<string>, start: nat, x: string)
    requires start <= FirstIndex(ids, x) < |ids|
    ensures FirstIndex(ids[start..], x) < |ids| - start
  {
    var i := FirstIndex(ids, x);
    assert ids[start..][i - start] == x;
  }

  lemma {:induction false} LastTurnsOf(history: seq<Message>)
    requires NoSystem(history)
    ensures var work := StripLeadingSystem(HeadTail(history, 2).tail);
            if Users(history) <= 2 then work == history else Suffix(work, history) && Users(work) == 2
  {
    hide HeadTail, Users, LeadingSystem, NoSystem;
    HeadIff(history, 2);
    WholeTail(history);
    if Users(history) > 2 {
      HeadOfConversation(history);
      SplitKeepsTurns(history, 2);
    } else {
      NoLeadingSystem(history);
    }
  }

  lemma {:induction false} WholeTail(history: seq<Message>)
    requires NoSystem(history)
    ensures var s := HeadTail(history, 2); |s.head| <= |history| && s.tail == history[|s.head|..]
  {
    hide AlignCut, TailStart, Users, LeadingSystem, NoSystem;
    NoLeadingSystem(history);
  }

  /** A compaction by hand leaves the last two turns, or the last two messages if there are no more turns than that. */
  lemma {:induction false} ForcedKeepsTwo(history: seq<Message>)
    requires NoSystem(history)
    ensures var kept := history[ForcedHead(history)..];
            && (Users(history) > 2 ==> Users(kept) == 2)
            && (Users(history) <= 2 ==> |kept| == Min(2, |history|))
  {
    hide HeadTail, Users, LeadingSystem, NoSystem;
    HeadIff(history, 2);
    WholeTail(history);
    if Users(history) > 2 {
      SplitKeepsTurns(history, 2);
    }
  }

  lemma {:induction false} ManualStaysProper(s: Session, t: Turn)
    requires ProperSession(s) && ProperTurn(s, t) && t.Manual?
    ensures ProperSession(AfterTurn(s, t))
  {
    hide FirstIndex, Trim, LastHistoryIdSpec, Distinct, ForcedHead, ForcedHeadOf;
    var g := Grown(s, t);
    if s.through != "" {
      FirstIndexGrows(s.ids, t.newIds, s.through);
    }
    if ForcedHead(g.messages[t.start..]) > 0 {
      ForcedCompaction(g.ids, g.messages, t.start);
    }
  }

  /**
   * In every turn of every session the working history is a suffix of what the turn sees, and all it leaves out was
   * in the head that the latest summary was made from. The invariant that makes this so is kept.
   */
  lemma {:induction false} TurnLosesNothing(s: Session, t: Turn)
    requires ProperSession(s) && ProperTurn(s, t)
    ensures ProperSession(AfterTurn(s, t))
    ensures t.Turn? ==>
              var all, work, after := Grown(s, t).messages, TurnView(s, t).work, AfterTurn(s, t);
              && |work| <= |all| - t.start && work == all[|all| - |work|..]
              && (|work| == |all| - t.start || after.from <= t.start <= |all| - |work| <= after.covered)
  {
    hide HeadTail, LeadingSystem, FirstIndex, Trim, LastHistoryIdSpec, Distinct, ForcedHead, ForcedHeadOf;
    var g := Grown(s, t);
    if s.through != "" {
      FirstIndexGrows(s.ids, t.newIds, s.through);
    }
    if t.Manual? {
      ManualStaysProper(s, t);
    } else if TurnView(s, t).stored.Some? {
      CompactingTurn(g.ids, g.messages, t.start);
    } else {
      RecallingTurn(g.ids, g.messages, t.start, s.prev, s.through);
    }
  }

  predicate ProperTurns(s: Session, ts: seq<Turn>)
    requires |s.ids| == |s.messages|
    decreases |ts|
  {
    ts != [] ==> ProperTurn(s, ts[0]) && ProperTurns(AfterTurn(s, ts[0]), ts[1..])
  }

  function AfterTurns(s: Session, ts: seq<Turn>): Session
    requires |s.ids| == |s.messages| && ProperTurns(s, ts)
    decreases |ts|
  {
    if ts == [] then s else AfterTurns(AfterTurn(s, ts[0]), ts[1..])
  }

  /** The invariant holds after any number of turns, so the last lemma speaks of every turn of a session. */
  lemma {:induction false} SessionStaysProper(s: Session, ts: seq<Turn>)
    requires ProperSession(s) && ProperTurns(s, ts)
    ensures ProperSession(AfterTurns(s, ts))
    decreases |ts|
  {
    if ts != [] {
      TurnLosesNothing(s, ts[0]);
      SessionStaysProper(AfterTurn(s, ts[0]), ts[1..]);
    }
  }
}
