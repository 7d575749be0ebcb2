/** Steers: what becomes of a message that reaches the inbox of a run. */
module Steers {
  import opened Text
  import opened Messages
  import opened Records
  import opened ToolCalls
  import opened RunLoop
  import opened CrashRecovery
  import opened LiveLog
  import opened LiveReplay
  import opened Survival
  import Queue = Inbox

  /** An item that nothing has written to the log yet. */
  predicate Fresh(item: Queue.Item) {
    !item.persisted
  }

  /** The user messages with the texts of the items, as records. */
  function UserRows(items: seq<Queue.Item>): (rows: seq<RunRecord>)
    ensures |rows| == |items|
    ensures forall i | 0 <= i < |items| :: rows[i] == InputRecord(UserMessage(items[i].text))
  {
    seq(|items|, i requires 0 <= i < |items| => InputRecord(UserMessage(items[i].text)))
  }

  /** No waiting item is blank: Enqueue takes none. */
  predicate HasTexts(items: seq<Queue.Item>) {
    forall item | item in items :: Trim(item.text) != ""
  }

  lemma {:induction false} UserRowsFirst(items: seq<Queue.Item>)
    requires items != []
    ensures UserRows(items) == [InputRecord(UserMessage(items[0].text))] + UserRows(items[1..])
  {
  }

  /** Items with texts reach the log: those that are not persisted, once each and in order. */
  lemma {:induction false} SteersReachLog(json: Json, rows: seq<RunRecord>, items: seq<Queue.Item>)
    requires HasTexts(items)
    ensures AppendSteers(json, rows, items) == Appended(rows + UserRows(Filter(Fresh, items)), None)
    decreases |items|
  {
    hide Trim, UserRows;
    if items == [] {
      NoRows();
      assert rows + [] == rows;
    } else {
      var row := InputRecord(UserMessage(items[0].text));
      assert items[0] in items && forall x | x in items[1..] :: x in items;
      var after := if items[0].persisted then rows else rows + [row];
      SteersReachLog(json, after, items[1..]);
      var later := Filter(Fresh, items[1..]);
      if !items[0].persisted {
        UserRowsFirst([items[0]] + later);
        assert ([items[0]] + later)[1..] == later;
        assert rows + [row] + UserRows(later) == rows + ([row] + UserRows(later));
      } else {
        assert [] + later == later;
      }
    }
  }

  lemma {:induction false} NoRows()
    ensures UserRows([]) == []
  {
  }

  lemma {:induction false} EnqueueKeepsTexts(inbox: seq<Queue.Item>, arrivals: seq<Queue.Item>)
    requires HasTexts(inbox)
    ensures HasTexts(EnqueueAll(inbox, arrivals))
    decreases |arrivals|
  {
    if arrivals != [] {
      TrimIdempotent(arrivals[0].text);
      hide Trim;
      EnqueueKeepsTexts(Queue.Enqueued(inbox, arrivals[0]), arrivals[1..]);
    }
  }

  /** A step that gets to its inbox: its steers leave the queue and stand in the log. */
  lemma {:induction false} SteerDelivers(cfg: Config, s: State, arrivals: seq<Queue.Item>)
    requires HasTexts(s.inbox)
    ensures var waiting := EnqueueAll(s.inbox, arrivals); var claimed := Queue.Claimed(waiting, cfg.session);
            && HasTexts(waiting)
            && Steer(cfg, s, arrivals) ==
               (s.(rows := s.rows + UserRows(Filter(Fresh, claimed)), inbox := Queue.Left(waiting, cfg.session)),
                claimed != [], None)
  {
    EnqueueKeepsTexts(s.inbox, arrivals);
    var waiting := EnqueueAll(s.inbox, arrivals);
    ClaimedAreWaiting(waiting, cfg.session);
    hide Trim, Queue.Claimed, EnqueueAll;
    SteersReachLog(cfg.json, s.rows, Queue.Claimed(waiting, cfg.session));
  }

  lemma {:induction false} ClaimedAreWaiting(waiting: seq<Queue.Item>, session: string)
    ensures forall item | item in Queue.Claimed(waiting, session) :: item in waiting
    ensures forall item | item in Queue.Left(waiting, session) :: item in waiting
    ensures forall item | item in Queue.Claimed(waiting, session) :: item.session == Trim(session)
  {
    hide Trim;
  }

  // ----- a step -----

  /** The step gets to its inbox. */
  ghost predicate ReachesInbox(cfg: Config, s: State, input: Input) {
    && Counts(cfg, s, input) && !Lost(cfg, s, input) && input.reply.Reply?
    && BudgetExceeded(AddUsage(s.usage, input.reply.usage), cfg.maxTokens, cfg.maxMicros).None?
    && (AnswersInText(cfg, s, input.reply) ||
        var calls := input.reply.toolCalls;
        && AllReturn(OfKind(calls, KindsOf(cfg, s, input.reply), true), input.outcome)
        && Unanswered(s.rows, calls) && DistinctIds(calls))
  }

  predicate IsInput(r: RunRecord) {
    r.kind.InputMessage?
  }

  /** The user rows that stand in b behind a. */
  function AddedInputs(a: seq<RunRecord>, b: seq<RunRecord>): seq<RunRecord>
    requires |a| <= |b|
  {
    Filter(IsInput, b[|a|..])
  }

  lemma {:induction false} InputsAre(items: seq<Queue.Item>)
    ensures Filter(IsInput, UserRows(items)) == UserRows(items)
  {
    FilterAll(IsInput, UserRows(items));
  }

  lemma {:induction false} AddedLater(a: seq<RunRecord>, b: seq<RunRecord>, c: seq<RunRecord>)
    requires a <= b <= c
    ensures AddedInputs(a, c) == AddedInputs(a, b) + AddedInputs(b, c)
  {
    assert c[|a|..] == b[|a|..] + c[|b|..];
    FilterConcat(IsInput, b[|a|..], c[|b|..]);
  }

  lemma {:induction false} NoneAdded(a: seq<RunRecord>, b: seq<RunRecord>)
    requires a <= b && forall r | r in b[|a|..] :: !IsInput(r)
    ensures AddedInputs(a, b) == []
  {
    FilterNone(IsInput, b[|a|..]);
  }

  lemma {:induction false} StepRows(a: seq<RunRecord>, b: seq<RunRecord>, items: seq<Queue.Item>)
    requires a <= b && AddedInputs(a, b) == []
    ensures AddedInputs(a, b + UserRows(items)) == UserRows(items)
  {
    hide Filter, UserRows;
    var c := b + UserRows(items);
    AddedLater(a, b, c);
    assert c[|b|..] == UserRows(items);
    InputsAre(items);
    assert [] + UserRows(items) == UserRows(items);
  }

  lemma {:induction false} TextSteers(cfg: Config, s: State, reply: Reply, capped: bool, arrivals: seq<Queue.Item>)
    requires reply.Reply? && HasTexts(s.inbox) && Trim(FinalText(reply)) != ""
    ensures var status := TextStep(cfg, s, reply, capped, arrivals); var t := status.s;
            var waiting := EnqueueAll(s.inbox, arrivals); var claimed := Queue.Claimed(waiting, cfg.session);
            var logged := s.rows + [AssistantRecord(Message(Assistant, FinalText(reply), reply.thinking, "", []),
                                                    reply.usage)];
            if BudgetExceeded(s.usage, cfg.maxTokens, cfg.maxMicros).None? then
              && t.rows == logged + UserRows(Filter(Fresh, claimed)) && t.inbox == Queue.Left(waiting, cfg.session)
              && t.content == FinalText(reply)
              && status == (if claimed != [] && !capped then Running(t) else RunLoop.Finished(t))
            else status.Stopped? && t.rows == logged && t.inbox == s.inbox
  {
    hide Steer, BudgetExceeded, Trim, FinalText, EnqueueAll, Queue.Claimed, UserRows;
    var m := Message(Assistant, FinalText(reply), reply.thinking, "", []);
    SteerDelivers(cfg, s.(rows := s.rows + [AssistantRecord(m, reply.usage)]), arrivals);
  }

  lemma {:induction false} BatchSteers(cfg: Config, s: State, reply: Reply, kinds: seq<Kind>, input: Input)
    requires reply.Reply? && HasTexts(s.inbox) && |kinds| == |reply.toolCalls| && Loggable(cfg.json, reply)
    ensures var calls := reply.toolCalls; var e, r := OfKind(calls, kinds, true), OfKind(calls, kinds, false);
            var t := BatchStep(cfg, s, reply, e, r, Refusal(cfg), input).s;
            var waiting := EnqueueAll(s.inbox, input.arrivals); var claimed := Queue.Claimed(waiting, cfg.session);
            s.rows <= t.rows &&
            if BudgetExceeded(s.usage, cfg.maxTokens, cfg.maxMicros).None?
               && AllReturn(e, input.outcome) && Unanswered(s.rows, calls) && DistinctIds(calls)
            then t.inbox == Queue.Left(waiting, cfg.session)
                 && AddedInputs(s.rows, t.rows) == UserRows(Filter(Fresh, claimed))
            else t.inbox == s.inbox && AddedInputs(s.rows, t.rows) == []
  {
    hide AppendResults, OfKind, HasResult, ValidCall, DistinctIds, BudgetExceeded, Steer, Queue.Claimed, Queue.Left,
         EnqueueAll, AllReturn, UserRows, AddedInputs, Unanswered, Executed;
    var calls := reply.toolCalls;
    var m := Message(Assistant, reply.content, reply.thinking, "", calls);
    var logged := s.rows + [AssistantRecord(m, reply.usage)];
    var e, r := OfKind(calls, kinds, true), OfKind(calls, kinds, false);
    SameUnanswered(s.rows, m, reply.usage, calls);
    BothAppended(cfg.json, logged, calls, kinds, input.outcome, Refusal(cfg));
    var executed := AppendResults(cfg.json, logged, e, input.outcome);
    var refused := AppendResults(cfg.json, executed.rows, r, Refusal(cfg));
    ResultsAdded(cfg.json, logged, e, input.outcome);
    ResultsAdded(cfg.json, executed.rows, r, Refusal(cfg));
    ResultsAreNoInputs(s.rows, AssistantRecord(m, reply.usage), executed.rows, refused.rows);
    var ran := if e == [] then s.ran else s.ran + [Executed(s.iterations, e)];
    SteerDelivers(cfg, s.(rows := refused.rows, ran := ran), input.arrivals);
    StepRows(s.rows, refused.rows, Filter(Fresh, Queue.Claimed(EnqueueAll(s.inbox, input.arrivals), cfg.session)));
  }

  lemma {:induction false} SameUnanswered(rows: seq<RunRecord>, m: Message, usage: Usage, calls: seq<ToolCall>)
    ensures Unanswered(rows + [AssistantRecord(m, usage)], calls) == Unanswered(rows, calls)
  {
    hide HasResult, Trim;
    SameResults(rows, m, usage);
  }

  lemma {:induction false} ResultsAreNoInputs(
    rows: seq<RunRecord>, asked: RunRecord, executed: seq<RunRecord>, refused: seq<RunRecord>)
    requires asked.kind.AssistantMessage? && rows + [asked] <= executed <= refused
    requires forall r | r in executed[|rows| + 1..] :: r.kind.ToolResult?
    requires forall r | r in refused[|executed|..] :: r.kind.ToolResult?
    ensures AddedInputs(rows, rows + [asked]) == AddedInputs(rows, executed) == AddedInputs(rows, refused) == []
  {
    hide AddedInputs;
    var logged := rows + [asked];
    assert logged[|rows|..] == [asked];
    NoneAdded(rows, logged);
    NoneAdded(logged, executed);
    NoneAdded(executed, refused);
    AddedLater(rows, logged, executed);
    AddedLater(rows, executed, refused);
  }

  /** The step's log and inbox are what its steers make of them. */
  ghost predicate Delivers(cfg: Config, s: State, t: State, arrivals: seq<Queue.Item>, reached: bool) {
    var waiting := EnqueueAll(s.inbox, arrivals);
    && s.rows <= t.rows
    && t.inbox == (if reached then Queue.Left(waiting, cfg.session) else s.inbox)
    && AddedInputs(s.rows, t.rows) ==
       if reached then UserRows(Filter(Fresh, Queue.Claimed(waiting, cfg.session))) else []
  }

  lemma {:induction false} TextDelivers(cfg: Config, s: State, input: Input)
    requires HasTexts(s.inbox) && Counts(cfg, s, input) && !Lost(cfg, s, input) && input.reply.Reply?
    requires AnswersInText(cfg, s, input.reply)
    ensures Delivers(cfg, s, Step(cfg, s, input).s, input.arrivals, ReachesInbox(cfg, s, input))
  {
    hide Trim, FinalText, TextStep, ToolStep, AddUsage, BudgetExhausted, BudgetExceeded, EnqueueAll, Queue.Claimed,
         Queue.Left, UserRows, AddedInputs, HasTexts;
    var counted := s.(iterations := s.iterations + 1, usage := AddUsage(s.usage, input.reply.usage));
    var reply := input.reply;
    TextSteers(cfg, counted, reply, Capped(cfg, s), input.arrivals);
    TextAdds(s.rows, Message(Assistant, FinalText(reply), reply.thinking, "", []), reply.usage,
             Filter(Fresh, Queue.Claimed(EnqueueAll(s.inbox, input.arrivals), cfg.session)));
  }

  lemma {:induction false} BatchDelivers(cfg: Config, s: State, input: Input)
    requires HasTexts(s.inbox) && Counts(cfg, s, input) && !Lost(cfg, s, input) && input.reply.Reply?
    requires !AnswersInText(cfg, s, input.reply)
    ensures Delivers(cfg, s, Step(cfg, s, input).s, input.arrivals, ReachesInbox(cfg, s, input))
  {
    hide Step, ToolStep, BatchStep, AddUsage, BudgetExhausted, BudgetExceeded, EnqueueAll, Queue.Claimed, Queue.Left,
         UserRows, AddedInputs, HasTexts, Kinds, OfKind, SignatureOf, CallIds, Refusal, AllReturn, Unanswered,
         DistinctIds, AnswersInText, LoopDetected, Loggable, Filter, FinalText, Trim;
    var counted := s.(iterations := s.iterations + 1, usage := AddUsage(s.usage, input.reply.usage));
    var reply := input.reply;
    ToolStepOf(cfg, s, input);
    SameLoop(cfg, s, counted, reply);
    LoggedBatchOf(cfg, counted, input);
    var kinds := KindsOf(cfg, counted, reply);
    var sig := SignatureOf(OfKind(reply.toolCalls, kinds, true));
    var known := counted.(seen := s.seen + CallIds(reply.toolCalls),
                          sigs := if sig == [] then s.sigs else s.sigs + [sig]);
    BatchSteers(cfg, known, reply, kinds, input);
  }

  /** A batch that is no loop runs with its ids known and its signature noted. */
  lemma {:induction false} LoggedBatchOf(cfg: Config, s: State, input: Input)
    requires input.reply.Reply? && !LoopDetected(cfg, s, input.reply)
    ensures var reply, kinds := input.reply, KindsOf(cfg, s, input.reply);
            var e, r := OfKind(reply.toolCalls, kinds, true), OfKind(reply.toolCalls, kinds, false);
            var sig := SignatureOf(e);
            var known := s.(seen := s.seen + CallIds(reply.toolCalls),
                            sigs := if sig == [] then s.sigs else s.sigs + [sig]);
            ToolStep(cfg, s, reply, input) == BatchStep(cfg, known, reply, e, r, Refusal(cfg), input)
  {
    hide BatchStep, Repeated, Kinds, OfKind, SignatureOf, CallIds, Refusal;
  }

  /** However a step ends: what its inbox hands out stands in its log, and nothing else is taken for a user's. */
  lemma {:induction false} StepDelivers(cfg: Config, s: State, input: Input)
    requires HasTexts(s.inbox)
    ensures HasTexts(Step(cfg, s, input).s.inbox)
    ensures Delivers(cfg, s, Step(cfg, s, input).s, input.arrivals, ReachesInbox(cfg, s, input))
  {
    EnqueueKeepsTexts(s.inbox, input.arrivals);
    ClaimedAreWaiting(EnqueueAll(s.inbox, input.arrivals), cfg.session);
    if !Counts(cfg, s, input) || Lost(cfg, s, input) {
      LostChangesNothing(cfg, s, input);
      NoneAdded(s.rows, s.rows);
      hide Step, Lost, Counts, EnqueueAll, Queue.Claimed, Queue.Left, UserRows, AddedInputs, Trim, Filter;
    } else {
      hide Step, Counts, EnqueueAll, Queue.Claimed, Queue.Left, UserRows, AddedInputs, Trim, AnswersInText,
           LoopDetected, Loggable, FinalText, Filter, AddUsage, BudgetExceeded, OfKind, Kinds, AllReturn, Unanswered,
           DistinctIds;
      if AnswersInText(cfg, s, input.reply) {
        TextDelivers(cfg, s, input);
      } else {
        BatchDelivers(cfg, s, input);
      }
    }
  }

  lemma {:induction false} TextAdds(rows: seq<RunRecord>, m: Message, usage: Usage, items: seq<Queue.Item>)
    ensures var logged := rows + [AssistantRecord(m, usage)];
            AddedInputs(rows, logged) == [] && AddedInputs(rows, logged + UserRows(items)) == UserRows(items)
  {
    var logged := rows + [AssistantRecord(m, usage)];
    assert logged[|rows|..] == [AssistantRecord(m, usage)];
    hide AddedInputs, UserRows;
    NoneAdded(rows, logged);
    StepRows(rows, logged, items);
  }

  lemma {:induction false} LostChangesNothing(cfg: Config, s: State, input: Input)
    requires Lost(cfg, s, input) || !Counts(cfg, s, input)
    ensures Step(cfg, s, input).s.rows == s.rows && Step(cfg, s, input).s.inbox == s.inbox
  {
    hide Repeated, AddUsage, BudgetExhausted, Kinds, OfKind, SignatureOf, CallIds, Refusal, Steer, AppendResults,
         ValidCall, Trim, FinalText, Executed, BudgetExceeded;
  }

  // ----- a run -----

  function Arrive(arrivals: seq<Queue.Item>): seq<Queue.Op> {
    if arrivals == [] then [] else [Queue.Enqueue(arrivals[0])] + Arrive(arrivals[1..])
  }

  /** What a run does to its inbox. */
  ghost function InboxOps(cfg: Config, s: State, script: seq<Input>): seq<Queue.Op>
    decreases |script|
  {
    if script == [] then [] else
      (if ReachesInbox(cfg, s, script[0]) then Arrive(script[0].arrivals) + [Queue.Claim(cfg.session)] else [])
      + (if Step(cfg, s, script[0]).Running? then InboxOps(cfg, Step(cfg, s, script[0]).s, script[1..]) else [])
  }

  lemma {:induction false} DoConcat(q: Queue.Queue, a: seq<Queue.Op>, b: seq<Queue.Op>)
    ensures Queue.DoAll(q, a + b) == Queue.DoAll(Queue.DoAll(q, a), b)
    decreases |a|
  {
    hide Queue.Do;
    if a == [] {
      assert a + b == b;
    } else {
      assert (a + b)[0] == a[0] && (a + b)[1..] == a[1..] + b;
      DoConcat(Queue.Do(q, a[0]), a[1..], b);
    }
  }

  lemma {:induction false} ArriveIs(q: Queue.Queue, arrivals: seq<Queue.Item>)
    ensures var after := Queue.DoAll(q, Arrive(arrivals));
            after.next == EnqueueAll(q.next, arrivals) && after.delivered == q.delivered
    decreases |arrivals|
  {
    hide Queue.Accepts, Queue.Normalized;
    if arrivals != [] {
      assert Arrive(arrivals)[0] == Queue.Enqueue(arrivals[0]) && Arrive(arrivals)[1..] == Arrive(arrivals[1..]);
      ArriveIs(Queue.Do(q, Queue.Enqueue(arrivals[0])), arrivals[1..]);
    }
  }

  lemma {:induction false} ArriveAndClaim(q: Queue.Queue, arrivals: seq<Queue.Item>, session: string)
    ensures var after := Queue.DoAll(q, Arrive(arrivals) + [Queue.Claim(session)]);
            var waiting := EnqueueAll(q.next, arrivals);
            && after.next == Queue.Left(waiting, session)
            && after.delivered == q.delivered + Queue.Claimed(waiting, session)
  {
    hide Arrive, EnqueueAll, Queue.Claimed, Queue.Left;
    DoConcat(q, Arrive(arrivals), [Queue.Claim(session)]);
    ArriveIs(q, arrivals);
    assert [Queue.Claim(session)][1..] == [];
  }

  lemma {:induction false} RowsJoin(a: seq<Queue.Item>, b: seq<Queue.Item>)
    ensures UserRows(Filter(Fresh, a + b)) == UserRows(Filter(Fresh, a)) + UserRows(Filter(Fresh, b))
  {
    hide Filter;
    FilterConcat(Fresh, a, b);
  }

  lemma {:induction false} DeliveredGrows(q: Queue.Queue, ops: seq<Queue.Op>)
    ensures q.delivered <= Queue.DoAll(q, ops).delivered
    decreases |ops|
  {
    hide Queue.Accepts, Queue.Normalized, Queue.Enqueued, Queue.Claimed, Queue.Left;
    if ops != [] {
      DeliveredGrows(Queue.Do(q, ops[0]), ops[1..]);
    }
  }

  /** The user rows that a run adds are those of the items its inbox delivered. */
  lemma {:induction false} RunRows(cfg: Config, s: State, script: seq<Input>, q: Queue.Queue)
    requires HasTexts(s.inbox) && q.next == s.inbox
    ensures var t, after := Run(cfg, s, script).s, Queue.DoAll(q, InboxOps(cfg, s, script));
            && s.rows <= t.rows && after.next == t.inbox && q.delivered <= after.delivered
            && AddedInputs(s.rows, t.rows) == UserRows(Filter(Fresh, after.delivered[|q.delivered|..]))
            && forall item | item in after.delivered[|q.delivered|..] :: item.session == Trim(cfg.session)
    decreases |script|
  {
    hide Step, ReachesInbox, EnqueueAll, Queue.Claimed, Queue.Left, UserRows, AddedInputs, Arrive, Queue.Do, Filter,
         Trim, HasTexts;
    if script == [] {
      NothingDelivered(q);
      NoneAdded(s.rows, s.rows);
    } else {
      var input := script[0];
      var status := Step(cfg, s, input);
      var ops := if ReachesInbox(cfg, s, input) then Arrive(input.arrivals) + [Queue.Claim(cfg.session)] else [];
      var mid := Queue.DoAll(q, ops);
      StepDelivers(cfg, s, input);
      ArriveAndClaim(q, input.arrivals, cfg.session);
      var waiting := EnqueueAll(s.inbox, input.arrivals);
      var claimed := if ReachesInbox(cfg, s, input) then Queue.Claimed(waiting, cfg.session) else [];
      ClaimedAreWaiting(waiting, cfg.session);
      NothingDelivered(q);
      assert mid.next == status.s.inbox && mid.delivered == q.delivered + claimed;
      assert AddedInputs(s.rows, status.s.rows) == UserRows(Filter(Fresh, claimed));
      if status.Running? {
        RunRows(cfg, status.s, script[1..], mid);
        DoConcat(q, ops, InboxOps(cfg, status.s, script[1..]));
        RunRowsJoin(s.rows, status.s.rows, Run(cfg, s, script).s.rows, q.delivered, claimed,
                    Queue.DoAll(q, InboxOps(cfg, s, script)).delivered);
      } else {
        assert ops + [] == ops;
        assert mid.delivered[|q.delivered|..] == claimed;
      }
    }
  }

  lemma {:induction false} NothingDelivered(q: Queue.Queue)
    ensures Queue.DoAll(q, []) == q && q.delivered[|q.delivered|..] == [] && UserRows(Filter(Fresh, [])) == []
    ensures q.delivered + [] == q.delivered
  {
  }

  lemma {:induction false} RunRowsJoin(
    a: seq<RunRecord>, b: seq<RunRecord>, c: seq<RunRecord>,
    before: seq<Queue.Item>, claimed: seq<Queue.Item>, after: seq<Queue.Item>)
    requires a <= b <= c && before + claimed <= after
    requires AddedInputs(a, b) == UserRows(Filter(Fresh, claimed))
    requires AddedInputs(b, c) == UserRows(Filter(Fresh, after[|before + claimed|..]))
    ensures AddedInputs(a, c) == UserRows(Filter(Fresh, after[|before|..]))
    ensures forall item | item in after[|before|..] :: item in claimed || item in after[|before + claimed|..]
  {
    hide UserRows, AddedInputs, Filter;
    AddedLater(a, b, c);
    RowsJoin(claimed, after[|before + claimed|..]);
    assert after[|before|..] == claimed + after[|before + claimed|..];
  }

  /**
   * No steer is lost. However a run ends, the user rows it adds are the texts of the items that its inbox delivered and
   * that were not persisted, once each and in order; and the items its inbox accepted for the session are those it
   * delivered, and then those that still wait.
   */
  lemma {:induction false} RunDelivers(cfg: Config, s: State, script: seq<Input>)
    requires HasTexts(s.inbox)
    ensures var t := Run(cfg, s, script).s; var of := Queue.OfSession(Trim(cfg.session));
            var q := Queue.DoAll(Queue.Queue(s.inbox, s.inbox, []), InboxOps(cfg, s, script));
            && s.rows <= t.rows && AddedInputs(s.rows, t.rows) == UserRows(Filter(Fresh, q.delivered))
            && Filter(of, q.accepted) == q.delivered + Filter(of, t.inbox)
  {
    hide Run, InboxOps, UserRows, AddedInputs, Trim, Queue.DoAll, HasTexts;
    var start, session := Queue.Queue(s.inbox, s.inbox, []), Trim(cfg.session);
    RunRows(cfg, s, script, start);
    var q := Queue.DoAll(start, InboxOps(cfg, s, script));
    assert q.delivered[0..] == q.delivered;
    FilterAll(Queue.OfSession(session), q.delivered);
    assert [] + Filter(Queue.OfSession(session), s.inbox) == Filter(Queue.OfSession(session), s.inbox);
    Queue.InboxConserves(start, InboxOps(cfg, s, script), session);
  }

  /** A step that gets to its inbox leaves nothing there for its session, and everything for the others. */
  lemma {:induction false} NothingWaits(cfg: Config, s: State, input: Input)
    requires HasTexts(s.inbox) && ReachesInbox(cfg, s, input) && Trim(cfg.session) != ""
    ensures var left := Step(cfg, s, input).s.inbox; var waiting := EnqueueAll(s.inbox, input.arrivals);
            && (forall item | item in left :: item.session != Trim(cfg.session))
            && forall other | other != Trim(cfg.session) ::
                 Filter(Queue.OfSession(other), left) == Filter(Queue.OfSession(other), waiting)
  {
    StepDelivers(cfg, s, input);
    hide Step, EnqueueAll, HasTexts, ReachesInbox, Trim, Filter;
    var waiting := EnqueueAll(s.inbox, input.arrivals);
    forall other | other != Trim(cfg.session)
      ensures Filter(Queue.OfSession(other), Queue.Left(waiting, cfg.session)) ==
              Filter(Queue.OfSession(other), waiting)
    {
      Queue.SplitBySession(waiting, other, Trim(cfg.session));
    }
    assert forall item | item in Queue.Left(waiting, cfg.session) :: item.session != Trim(cfg.session);
  }

  /**
   * An item with a text and a session, and an id that no waiting item has, or none, is accepted and waits behind the
   * others; any other leaves no trace.
   */
  lemma {:induction false} ArrivalWaits(q: Queue.Queue, item: Queue.Item)
    ensures var after := Queue.Do(q, Queue.Enqueue(item));
            var taken := Queue.Item(Trim(item.id), Trim(item.session), Trim(item.text), item.persisted);
            if Trim(item.text) != "" && Trim(item.session) != ""
               && (Trim(item.id) == "" || forall x | x in q.next :: x.id != Trim(item.id))
            then
              && after.next == q.next + [taken] && after.accepted == q.accepted + [taken]
              && after.delivered == q.delivered
            else after == q
  {
    hide Trim;
  }
}
