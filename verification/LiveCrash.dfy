/** A run that stops or crashes after any of its records, and what recovery makes of what it had written. */
module LiveCrash {
  import opened Text
  import opened Messages
  import opened Records
  import opened ToolCalls
  import opened RunLoop
  import opened CrashRecovery
  import opened BatchOrder
  import opened LiveLog
  import opened Executions
  import opened LiveReplay
  import R = Restore
  import Queue = Inbox

  // ----- what every log keeps -----

  predicate CleanLog(rows: seq<RunRecord>) {
    UniqueResults(rows) && PlainResults(rows)
  }

  lemma {:induction false} OtherRowStaysClean(rows: seq<RunRecord>, after: seq<RunRecord>)
    requires CleanLog(rows) && rows <= after && forall r | r in after[|rows|..] :: !r.kind.ToolResult?
    ensures CleanLog(after)
  {
    assert forall i | |rows| <= i < |after| :: after[i] == after[|rows|..][i - |rows|];
    assert forall r | r in after :: r in rows || r in after[|rows|..];
  }

  lemma {:induction false} ResultsStayClean(
    json: Json, rows: seq<RunRecord>, calls: seq<ToolCall>, outcome: ToolCall -> Option<string>)
    requires CleanLog(rows)
    ensures CleanLog(AppendResults(json, rows, calls, outcome).rows)
    decreases |calls|
  {
    hide ValidMessage, Trim;
    if calls != [] && outcome(calls[0]).Some? {
      var m := ToolMessage(calls[0].id, outcome(calls[0]).value);
      if AppendResult(json, rows, m).Ok? {
        assert forall r | r in rows :: r.kind.ToolResult? ==> r.toolCallId != ToolRecord(m).toolCallId;
        ResultsStayClean(json, rows + [ToolRecord(m)], calls[1..], outcome);
      }
    }
  }

  lemma {:induction false} SteerStaysClean(cfg: Config, s: State, arrivals: seq<Queue.Item>)
    requires CleanLog(s.rows)
    ensures CleanLog(Steer(cfg, s, arrivals).0.rows)
  {
    hide AppendSteers, Queue.Claimed, Queue.Left, EnqueueAll, CleanLog;
    var claimed := Queue.Claimed(EnqueueAll(s.inbox, arrivals), cfg.session);
    SteersAdded(cfg.json, s.rows, claimed);
    OtherRowStaysClean(s.rows, AppendSteers(cfg.json, s.rows, claimed).rows);
  }

  lemma {:induction false} LoggedStaysClean(rows: seq<RunRecord>, m: Message, usage: Usage)
    requires CleanLog(rows)
    ensures CleanLog(rows + [AssistantRecord(m, usage)])
  {
    hide CleanLog;
    assert (rows + [AssistantRecord(m, usage)])[|rows|..] == [AssistantRecord(m, usage)];
    OtherRowStaysClean(rows, rows + [AssistantRecord(m, usage)]);
  }

  lemma {:induction false} TextStepStaysClean(
    cfg: Config, s: State, reply: Reply, capped: bool, arrivals: seq<Queue.Item>)
    requires reply.Reply? && CleanLog(s.rows)
    ensures CleanLog(TextStep(cfg, s, reply, capped, arrivals).s.rows)
  {
    hide CleanLog, Steer, BudgetExceeded, Trim;
    var content := FinalText(reply);
    var m := Message(Assistant, content, reply.thinking, "", []);
    LoggedStaysClean(s.rows, m, reply.usage);
    SteerStaysClean(cfg, s.(rows := s.rows + [AssistantRecord(m, reply.usage)]), arrivals);
  }

  lemma {:induction false} BatchStepStaysClean(
    cfg: Config, s: State, reply: Reply, executable: seq<ToolCall>, rejected: seq<ToolCall>,
    refuse: ToolCall -> Option<string>, input: Input)
    requires reply.Reply? && CleanLog(s.rows)
    ensures CleanLog(BatchStep(cfg, s, reply, executable, rejected, refuse, input).s.rows)
  {
    hide CleanLog, Steer, BudgetExceeded, ValidMessage, AppendResults, Executed;
    var m := Message(Assistant, reply.content, reply.thinking, "", reply.toolCalls);
    var logged := s.rows + [AssistantRecord(m, reply.usage)];
    LoggedStaysClean(s.rows, m, reply.usage);
    var executed := AppendResults(cfg.json, logged, executable, input.outcome);
    ResultsStayClean(cfg.json, logged, executable, input.outcome);
    var refused := AppendResults(cfg.json, executed.rows, rejected, refuse);
    ResultsStayClean(cfg.json, executed.rows, rejected, refuse);
    var ran := if executable == [] then s.ran else s.ran + [Executed(s.iterations, executable)];
    SteerStaysClean(cfg, s.(rows := refused.rows, ran := ran), input.arrivals);
  }

  lemma {:induction false} StepStaysClean(cfg: Config, s: State, input: Input)
    requires CleanLog(s.rows)
    ensures CleanLog(Step(cfg, s, input).s.rows)
  {
    hide CleanLog, TextStep, BatchStep, Repeated, AddUsage, BudgetExhausted, Kinds, OfKind, SignatureOf, CallIds,
         Refusal;
    var counted := s.(iterations := s.iterations + 1, usage := AddUsage(s.usage, input.reply.usage));
    var reply := input.reply;
    if reply.Reply? {
      TextStepStaysClean(cfg, counted, reply, Capped(cfg, s), input.arrivals);
      var kinds := KindsOf(cfg, counted, reply);
      var e, r := OfKind(reply.toolCalls, kinds, true), OfKind(reply.toolCalls, kinds, false);
      var sig := SignatureOf(e);
      var known := counted.(seen := s.seen + CallIds(reply.toolCalls),
                            sigs := if sig == [] then s.sigs else s.sigs + [sig]);
      BatchStepStaysClean(cfg, known, reply, e, r, Refusal(cfg), input);
    }
  }

  /** However it ends, a run answers every call id once in its log, and just as recovery would. */
  lemma {:induction false} RunStaysClean(cfg: Config, s: State, script: seq<Input>)
    requires CleanLog(s.rows)
    ensures CleanLog(Run(cfg, s, script).s.rows)
    decreases |script|
  {
    hide CleanLog, Step;
    if script != [] {
      StepStaysClean(cfg, s, script[0]);
      if Step(cfg, s, script[0]).Running? {
        RunStaysClean(cfg, Step(cfg, s, script[0]).s, script[1..]);
      }
    }
  }

  lemma {:induction false} PreparedIsClean(initial: seq<Message>, inbox: seq<Queue.Item>)
    ensures CleanLog(Prepared(initial, inbox).rows)
  {
    InputRowsAt(initial);
  }

  lemma {:induction false} ResumedIsClean(env: R.Env, s: State)
    requires CleanLog(s.rows) && Resumed(env, s).Some?
    ensures CleanLog(Resumed(env, s).value.rows)
  {
    hide R.Scan, R.Restored, Trim;
    RestoredIsScan(env, s.rows);
  }

  // ----- a log that ends anywhere -----

  lemma {:induction false} PartScans(
    env: R.Env, rows: seq<RunRecord>, pending: seq<ToolCall>, n: nat, outcome: ToolCall -> Option<string>)
    requires R.Scan(env, R.START, rows).Ok? && R.Scan(env, R.START, rows).value.pending == pending
    requires n <= |pending| && forall c | c in pending[..n] :: outcome(c).Some?
    requires KnownRows(env, rows + ResultRows(pending[..n], outcome))
    ensures var read := R.Scan(env, R.START, rows + ResultRows(pending[..n], outcome));
            read.Ok? && read.value.pending == pending[n..]
  {
    hide R.Scan, KnownRows, ResultRows, Acknowledged;
    KnownSuffix(env, rows, ResultRows(pending[..n], outcome));
    RowsKnown(env, pending[..n], outcome);
    ScanConcat(env, R.START, rows, ResultRows(pending[..n], outcome));
    ResultsReplay(env, R.Scan(env, R.START, rows).value, pending[..n], outcome);
  }

  /** The rows of a batch, however far it came, are replayed if its refused calls come last. */
  lemma {:induction false} BatchScans(
    env: R.Env, json: Json, logged: seq<RunRecord>, calls: seq<ToolCall>, kinds: seq<Kind>,
    done: ToolCall -> Option<string>, refused: ToolCall -> Option<string>)
    requires |calls| == |kinds| && RefusedLast(kinds)
    requires R.Scan(env, R.START, logged).Ok? && R.Scan(env, R.START, logged).value.pending == calls
    ensures var executed := AppendResults(json, logged, OfKind(calls, kinds, true), done);
            var after := AppendResults(json, executed.rows, OfKind(calls, kinds, false), refused);
            && (KnownRows(env, executed.rows) ==> R.Scan(env, R.START, executed.rows).Ok?)
            && (executed.failure == None && KnownRows(env, after.rows) ==>
                  && R.Scan(env, R.START, after.rows).Ok?
                  && (after.failure == None ==> R.Scan(env, R.START, after.rows).value.pending == []))
  {
    hide R.Scan, OfKind, RefusedLast, ResultRows, AppendResults, KnownRows;
    var e, r := OfKind(calls, kinds, true), OfKind(calls, kinds, false);
    InOrderWhenRefusedLast(calls, kinds);
    assert e + r == calls && calls[..|e|] == e && calls[|e|..] == r;
    var executed := AppendResults(json, logged, e, done);
    var i := AppendedPart(json, logged, e, done);
    assert calls[..i] == e[..i];
    if KnownRows(env, executed.rows) {
      PartScans(env, logged, calls, i, done);
    }
    var after := AppendResults(json, executed.rows, r, refused);
    if executed.failure == None && KnownRows(env, after.rows) {
      var k := AppendedPart(json, executed.rows, r, refused);
      KnownSuffix(env, executed.rows, ResultRows(r[..k], refused));
      PartScans(env, logged, calls, i, done);
      PartScans(env, executed.rows, r, k, refused);
    }
  }

  lemma {:induction false} BatchStepScans(
    env: R.Env, cfg: Config, s: State, reply: Reply, kinds: seq<Kind>, input: Input)
    requires reply.Reply? && reply.toolCalls != [] && |kinds| == |reply.toolCalls| && Loggable(cfg.json, reply)
    requires Readable(env, s.rows) && RefusedLast(kinds)
    requires var e, r := OfKind(reply.toolCalls, kinds, true), OfKind(reply.toolCalls, kinds, false);
             var rows := BatchStep(cfg, s, reply, e, r, Refusal(cfg), input).s.rows;
             BudgetHolds(env, Bills(rows)) && KnownRows(env, rows)
    ensures var e, r := OfKind(reply.toolCalls, kinds, true), OfKind(reply.toolCalls, kinds, false);
            R.Scan(env, R.START, BatchStep(cfg, s, reply, e, r, Refusal(cfg), input).s.rows).Ok?
  {
    hide R.Scan, Steer, Bills, BudgetExceeded, Account, BudgetHolds, AppendResults, OfKind, ValidCall, Refusal,
         RefusedLast, Executed, KnownRows, ContentOf, HasToolCallIds;
    var e, r := OfKind(reply.toolCalls, kinds, true), OfKind(reply.toolCalls, kinds, false);
    var m := Message(Assistant, reply.content, reply.thinking, "", reply.toolCalls);
    var rows := BatchStep(cfg, s, reply, e, r, Refusal(cfg), input).s.rows;
    BatchStepBills(cfg, s, reply, e, r, Refusal(cfg), input);
    LastBudget(env, Bills(rows));
    ValidCallsHaveIds(cfg.json, m);
    CallsRead(env, s.rows, m, reply.usage);
    var logged := s.rows + [AssistantRecord(m, reply.usage)];
    BatchScans(env, cfg.json, logged, reply.toolCalls, kinds, input.outcome, Refusal(cfg));
    var executed := AppendResults(cfg.json, logged, e, input.outcome);
    var refused := AppendResults(cfg.json, executed.rows, r, Refusal(cfg));
    var ran := if e == [] then s.ran else s.ran + [Executed(s.iterations, e)];
    var afterAll := s.(rows := refused.rows, ran := ran);
    SteerBills(cfg, afterAll, input.arrivals);
    if executed.failure == None && refused.failure == None && refused.rows <= rows {
      KnownPrefix(env, refused.rows, rows);
      SteerReadable(env, cfg, afterAll, input.arrivals);
    }
  }

  lemma {:induction false} LostLogsNothing(cfg: Config, s: State, input: Input)
    requires Lost(cfg, s, input) || !Counts(cfg, s, input)
    ensures Step(cfg, s, input).s.rows == s.rows
  {
    hide Repeated, AddUsage, BudgetExhausted, Kinds, OfKind, SignatureOf, CallIds, Refusal, Steer, AppendResults,
         ValidCall, Trim, FinalText, Executed, BudgetExceeded;
  }

  lemma {:induction false} TextStepScans(
    env: R.Env, cfg: Config, s: State, reply: Reply, capped: bool, arrivals: seq<Queue.Item>)
    requires reply.Reply? && Trim(FinalText(reply)) != "" && Readable(env, s.rows)
    requires BudgetHolds(env, Bills(TextStep(cfg, s, reply, capped, arrivals).s.rows))
    ensures R.Scan(env, R.START, TextStep(cfg, s, reply, capped, arrivals).s.rows).Ok?
  {
    hide Steer, Bills, BudgetExceeded, Account, Trim, Readable, ContentOf, BudgetHolds, FinalText, R.Scan;
    var m := Message(Assistant, FinalText(reply), reply.thinking, "", []);
    var logged := s.(rows := s.rows + [AssistantRecord(m, reply.usage)]);
    TextStepBills(cfg, s, reply, capped, arrivals);
    LastBudget(env, Bills(TextStep(cfg, s, reply, capped, arrivals).s.rows));
    TextRead(env, s.rows, m, reply.usage);
    ReadableIs(env, logged.rows);
    SteerReadable(env, cfg, logged, arrivals);
  }

  /** However a step ends, its log is replayed if its batch has its refused calls last. */
  lemma {:induction false} StepScans(env: R.Env, cfg: Config, s: State, input: Input)
    requires Readable(env, s.rows) && OrderedStep(cfg, s, input)
    requires var rows := Step(cfg, s, input).s.rows; KnownRows(env, rows) && BudgetHolds(env, Bills(rows))
    ensures R.Scan(env, R.START, Step(cfg, s, input).s.rows).Ok?
  {
    hide R.Scan, Bills, BudgetHolds, TextStep, BatchStep, Repeated, AddUsage, BudgetExhausted, Kinds, OfKind,
         SignatureOf, CallIds, Refusal, RefusedLast, KnownRows, Loggable, Trim, FinalText, Readable;
    ReadableIs(env, s.rows);
    if Lost(cfg, s, input) || !Counts(cfg, s, input) {
      LostLogsNothing(cfg, s, input);
    } else {
      var counted := s.(iterations := s.iterations + 1, usage := AddUsage(s.usage, input.reply.usage));
      var reply := input.reply;
      if AnswersInText(cfg, s, reply) {
        TextStepScans(env, cfg, counted, reply, Capped(cfg, s), input.arrivals);
      } else {
        var kinds := KindsOf(cfg, counted, reply);
        var sig := SignatureOf(OfKind(reply.toolCalls, kinds, true));
        var known := counted.(seen := s.seen + CallIds(reply.toolCalls),
                              sigs := if sig == [] then s.sigs else s.sigs + [sig]);
        BatchStepScans(env, cfg, known, reply, kinds, input);
      }
    }
  }

  /** However a run ends, its log is replayed if every batch, also the last one, has its refused calls last. */
  lemma {:induction false} RunScans(env: R.Env, cfg: Config, s: State, script: seq<Input>)
    requires Readable(env, s.rows) && ContentOf(env, s.rows) == s.content && OrderedRun(cfg, s, script)
    requires var rows := Run(cfg, s, script).s.rows; KnownRows(env, rows) && BudgetHolds(env, Bills(rows))
    ensures R.Scan(env, R.START, Run(cfg, s, script).s.rows).Ok?
    decreases |script|
  {
    hide R.Scan, Bills, BudgetHolds, Step, OrderedStep, Readable, KnownRows, ContentOf;
    ReadableIs(env, s.rows);
    if script != [] {
      var status := Step(cfg, s, script[0]);
      if status.Running? {
        var whole := Run(cfg, s, script).s.rows;
        RunGrows(cfg, status.s, script[1..]);
        PrefixBudget(env, Bills(status.s.rows), Bills(whole));
        KnownPrefix(env, status.s.rows, whole);
        StepReadable(env, cfg, s, script[0]);
        RunScans(env, cfg, status.s, script[1..]);
      } else {
        StepScans(env, cfg, s, script[0]);
      }
    }
  }

  /**
   * What a run had written when it stopped or crashed, after any record, with what was stored by then: it is replayed,
   * and recovered exactly if the calls it leaves open have their responses stored, and ids that are new and distinct.
   * What is re-appended agrees with the log of the run. The law holds however the run would have ended, cancelled in
   * the middle of a batch too, if every batch has its refused calls last.
   */
  lemma {:induction false} LiveCutRecovers(
    crash: R.Env, env: R.Env, cfg: Config, s: State, script: seq<Input>, k: nat)
    requires Restorable(env, s) && CleanLog(s.rows) && OrderedRun(cfg, s, script)
    requires var rows := Run(cfg, s, script).s.rows;
             && KnownRows(env, rows) && BudgetHolds(env, Bills(rows)) && k <= |rows|
             && Earlier(crash, env) && StoredFirst(crash, env, rows[..k])
    ensures var rows := Run(cfg, s, script).s.rows;
            && R.Scan(crash, R.START, rows[..k]).Ok?
            && var open := R.Scan(crash, R.START, rows[..k]).value.pending; var cut := R.Restored(crash, rows[..k]);
            && (cut.state.Ok? <==> AllStored(crash, open) && Unanswered(rows[..k], open) && DistinctIds(open))
            && (cut.state.Ok? ==> |cut.rows| == k + |open| && (cut.rows <= rows || rows <= cut.rows))
  {
    RestorableIs(env, s);
    hide R.Scan, Restorable, OrderedRun, Run, Earlier, StoredFirst, AllStored, CleanLog, KnownRows, Bills, BudgetHolds,
         Unanswered, DistinctIds;
    RunScans(env, cfg, s, script);
    RunStaysClean(cfg, s, script);
    CleanIs(Run(cfg, s, script).s.rows);
    CutRestoresIff(crash, env, Run(cfg, s, script).s.rows, k);
  }

  lemma {:induction false} RestorableIs(env: R.Env, s: State)
    requires Restorable(env, s)
    ensures Readable(env, s.rows) && ContentOf(env, s.rows) == s.content
  {
  }

  /** The law for a new run. */
  lemma {:induction false} NewRunCutRecovers(
    env: R.Env, cfg: Config, initial: seq<Message>, inbox: seq<Queue.Item>, script: seq<Input>, k: nat)
    requires OrderedRun(cfg, Prepared(initial, inbox), script)
    requires var rows := Run(cfg, Prepared(initial, inbox), script).s.rows;
             KnownRows(env, rows) && BudgetHolds(env, Bills(rows)) && k <= |rows|
    ensures var rows := Run(cfg, Prepared(initial, inbox), script).s.rows;
            && R.Scan(env, R.START, rows[..k]).Ok?
            && var open := R.Scan(env, R.START, rows[..k]).value.pending;
            R.Restored(env, rows[..k]).state.Ok? <==>
            AllStored(env, open) && Unanswered(rows[..k], open) && DistinctIds(open)
  {
    PreparedIsRestorable(env, initial, inbox);
    PreparedIsClean(initial, inbox);
    EarlierSelf(env, Run(cfg, Prepared(initial, inbox), script).s.rows[..k]);
    hide R.Scan, R.Restored, Restorable, OrderedRun, Run, Earlier, StoredFirst, AllStored, CleanLog, KnownRows, Bills,
         BudgetHolds, Unanswered, DistinctIds, Prepared;
    LiveCutRecovers(env, env, cfg, Prepared(initial, inbox), script, k);
  }

  /** The law for a run that goes on after a recovery. */
  lemma {:induction false} ResumedRunCutRecovers(
    env: R.Env, cfg: Config, before: State, script: seq<Input>, k: nat)
    requires CleanLog(before.rows) && Resumed(env, before).Some?
    requires OrderedRun(cfg, Resumed(env, before).value, script)
    requires var rows := Run(cfg, Resumed(env, before).value, script).s.rows;
             KnownRows(env, rows) && BudgetHolds(env, Bills(rows)) && k <= |rows|
    ensures var rows := Run(cfg, Resumed(env, before).value, script).s.rows;
            && R.Scan(env, R.START, rows[..k]).Ok?
            && var open := R.Scan(env, R.START, rows[..k]).value.pending;
            R.Restored(env, rows[..k]).state.Ok? <==>
            AllStored(env, open) && Unanswered(rows[..k], open) && DistinctIds(open)
  {
    ResumedIsRestorable(env, before);
    ResumedIsClean(env, before);
    EarlierSelf(env, Run(cfg, Resumed(env, before).value, script).s.rows[..k]);
    hide R.Scan, R.Restored, Restorable, OrderedRun, Run, Earlier, StoredFirst, AllStored, CleanLog, KnownRows, Bills,
         BudgetHolds, Unanswered, DistinctIds, Resumed;
    LiveCutRecovers(env, env, cfg, Resumed(env, before).value, script, k);
  }

  lemma {:induction false} EarlierSelf(env: R.Env, rows: seq<RunRecord>)
    ensures Earlier(env, env) && StoredFirst(env, env, rows)
  {
  }

  lemma {:induction false} CleanIs(rows: seq<RunRecord>)
    requires CleanLog(rows)
    ensures UniqueResults(rows) && PlainResults(rows)
  {
  }
}
