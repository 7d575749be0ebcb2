/**
 * Runs that recovery does not bring back: one whose log it rejects, one that crashes before a refusal, one that ends
 * in the middle of a batch, runs that it brings back an iteration short, and one that goes on and that it takes for
 * completed. All start as `Prepare` starts them.
 */
module LiveExamples {
  import opened Text
  import opened Messages
  import opened Records
  import opened ToolCalls
  import opened RunLoop
  import opened CrashRecovery
  import opened BatchOrder
  import opened LiveLog
  import opened Executions
  import opened LiveReplay
  import opened LiveCrash
  import opened Survival
  import opened Steers
  import opened Completion
  import opened Recovered
  import R = Restore
  import Queue = Inbox

  /** A library that accepts an empty object, and reads the two contents below as observations. */
  ghost predicate Library(json: Json) {
    json.valid("{}") && IsObservation(json, "failed") && IsObservation(json, "refused")
  }

  function Plain(json: Json): Config {
    Config(json, {"t"}, 0, 0, 0, "s", (call: ToolCall, kind: Kind) => "refused")
  }

  function NothingStored(json: Json): R.Env {
    R.Env(json, {"t"}, map[], 0, 0)
  }

  const GO: seq<RunRecord> := [InputRecord(UserMessage("go"))]
  const STARTED: State := State(GO, [], {}, "", NO_USAGE, 0, [], false, [])
  const FAILED: ToolCall -> Option<string> := (call: ToolCall) => Some("failed")
  const ONE_TOKEN: Usage := Usage(0, 0, 1, 0, 0, "", 0)

  /** The run starts as `Prepare` starts it for one user message. */
  lemma {:induction false} StartedIsPrepared()
    ensures Prepared([UserMessage("go")], []) == STARTED
  {
    assert [UserMessage("go")][..0] == [];
    assert InputRows([]) == [];
  }

  lemma {:induction false} StartedFacts(json: Json)
    ensures Restorable(NothingStored(json), STARTED) && CleanLog(GO) && KnownRows(NothingStored(json), GO)
    ensures Bills(GO) == [] && forall id :: !HasResult(GO, id)
  {
    StartedIsPrepared();
    PreparedIsRestorable(NothingStored(json), [UserMessage("go")], []);
    PreparedIsClean([UserMessage("go")], []);
    hide Restorable;
    NoBills(GO);
  }

  function Asking(calls: seq<ToolCall>): Input {
    Input(false, Reply("", "", calls, ONE_TOKEN), FAILED, [])
  }

  lemma {:induction false} NoLimit(json: Json, bills: seq<Usage>)
    ensures BudgetHolds(NothingStored(json), bills)
  {
    hide Account;
  }

  lemma {:induction false} NoSteer(json: Json, s: State)
    requires s.inbox == []
    ensures Steer(Plain(json), s, []) == (s, false, None)
  {
  }

  /** The rows a batch leaves in the log. */
  function Logged(
    json: Json, rows: seq<RunRecord>, reply: Reply, executable: seq<ToolCall>, rejected: seq<ToolCall>): seq<RunRecord>
    requires reply.Reply?
  {
    rows + [AssistantRecord(Message(Assistant, reply.content, reply.thinking, "", reply.toolCalls), reply.usage)]
    + ResultRows(executable, FAILED) + ResultRows(rejected, Refusal(Plain(json)))
  }

  lemma {:induction false} FailuresKnown(json: Json, calls: seq<ToolCall>, outcome: ToolCall -> Option<string>)
    requires Library(json) && forall c | c in calls :: outcome(c) == Some("failed") || outcome(c) == Some("refused")
    ensures KnownRows(NothingStored(json), ResultRows(calls, outcome))
    decreases |calls|
  {
    hide Trim;
    if calls != [] {
      FailuresKnown(json, calls[1..], outcome);
      var rows := ResultRows(calls, outcome);
      assert forall r | r in rows :: r == rows[0] || r in rows[1..];
    }
  }

  lemma {:induction false} LoggedKnown(
    json: Json, rows: seq<RunRecord>, reply: Reply, executable: seq<ToolCall>, rejected: seq<ToolCall>)
    requires Library(json) && reply.Reply? && KnownRows(NothingStored(json), rows)
    ensures KnownRows(NothingStored(json), Logged(json, rows, reply, executable, rejected))
  {
    FailuresKnown(json, executable, FAILED);
    FailuresKnown(json, rejected, Refusal(Plain(json)));
    hide Known, ResultRows, Library;
    var a := [AssistantRecord(Message(Assistant, reply.content, reply.thinking, "", reply.toolCalls), reply.usage)];
    var e, r := ResultRows(executable, FAILED), ResultRows(rejected, Refusal(Plain(json)));
    assert forall row | row in rows + a + e + r :: row in rows || row in a || row in e || row in r;
  }

  lemma {:induction false} BatchRuns(
    json: Json, s: State, reply: Reply, executable: seq<ToolCall>, rejected: seq<ToolCall>, input: Input)
    requires reply.Reply? && input == Input(false, reply, FAILED, []) && s.inbox == []
    requires forall c | c in reply.toolCalls :: ValidCall(json, c)
    requires Unanswered(s.rows, executable + rejected) && DistinctIds(executable + rejected)
    ensures var status := BatchStep(Plain(json), s, reply, executable, rejected, Refusal(Plain(json)), input);
            && status.Running? && status.s.disabled == s.disabled && status.s.inbox == []
            && status.s.rows == Logged(json, s.rows, reply, executable, rejected)
            && status.s.sigs == s.sigs && status.s.seen == s.seen
            && status.s.iterations == s.iterations && status.s.usage == s.usage
  {
    hide Trim, AppendResults, ResultRows, Steer;
    var m := Message(Assistant, reply.content, reply.thinking, "", reply.toolCalls);
    var logged := s.rows + [AssistantRecord(m, reply.usage)];
    var both := executable + rejected;
    assert forall i | 0 <= i < |executable| :: both[i] == executable[i];
    assert forall i | 0 <= i < |rejected| :: both[|executable| + i] == rejected[i];
    assert forall c | c in executable || c in rejected :: c in both;
    SameResults(s.rows, m, reply.usage);
    AppendsAll(json, logged, executable, FAILED);
    var executed := logged + ResultRows(executable, FAILED);
    forall c | c in rejected
      ensures !HasResult(executed, Trim(c.id))
    {
      ResultsAfter(logged, executable, FAILED, Trim(c.id));
    }
    AppendsAll(json, executed, rejected, Refusal(Plain(json)));
    var ran := if executable == [] then s.ran else s.ran + [Executed(s.iterations, executable)];
    NoSteer(json, s.(rows := executed + ResultRows(rejected, Refusal(Plain(json))), ran := ran));
  }

  lemma {:induction false} FewSteps(sigs: seq<Signature>)
    requires |sigs| < WINDOW
    ensures !Repeated(sigs, WINDOW, MAX_REPEATS)
  {
  }

  // ----- a batch that cannot be logged -----

  /** One call with a blank id: the run fails, and nothing of the step is in the log. */
  lemma {:induction false} BlankIdEndsRun(json: Json)
    ensures var status := Step(Plain(json), STARTED, Asking([ToolCall("", "t", "{}")]));
            status.Stopped? && status.failure == Log(CorruptHistory) && status.s.rows == GO
  {
    var call := ToolCall("", "t", "{}");
    var input := Asking([call]);
    ToolStepOf(Plain(json), STARTED, input);
    hide Step, ToolStep, Repeated, AddUsage;
    var counted := STARTED.(iterations := 1, usage := AddUsage(NO_USAGE, ONE_TOKEN));
    assert !ValidCall(json, call) && call in input.reply.toolCalls;
    assert OfKind([call], Kinds(json, [call], {"t"}, {}), true) == [] by {
      KindAt(json, [call], {"t"}, {}, 0);
    }
    assert !LoopDetected(Plain(json), counted, input.reply);
    BadCallEndsRun(Plain(json), counted, input.reply, input);
  }

  // ----- a log that recovery rejects -----

  const UNKNOWN_CALL: ToolCall := ToolCall("a", "x", "{}")
  const KNOWN_CALL: ToolCall := ToolCall("b", "t", "{}")
  const MIXED: seq<ToolCall> := [UNKNOWN_CALL, KNOWN_CALL]

  lemma {:induction false} PlainIds()
    ensures Trim("a") == "a" && Trim("b") == "b" && Trim("t") == "t" && Trim("x") == "x" && Trim("{}") == "{}"
  {
  }

  lemma {:induction false} MixedKinds(json: Json)
    requires Library(json)
    ensures Kinds(json, MIXED, {"t"}, {}) == [UnadvertisedTool, Executable]
    ensures OfKind(MIXED, [UnadvertisedTool, Executable], true) == [KNOWN_CALL]
    ensures OfKind(MIXED, [UnadvertisedTool, Executable], false) == [UNKNOWN_CALL]
  {
    PlainIds();
    hide Trim;
    KindAt(json, MIXED, {"t"}, {}, 0);
    KindAt(json, MIXED, {"t"}, {}, 1);
    assert MIXED[..1] == [UNKNOWN_CALL] && MIXED[..1][..0] == [];
    var kinds := [UnadvertisedTool, Executable];
    assert kinds[..1] == [UnadvertisedTool] && kinds[..1][..0] == [];
    assert OfKind(MIXED[..1], kinds[..1], true) == [] && OfKind(MIXED[..1], kinds[..1], false) == [UNKNOWN_CALL];
  }

  lemma {:induction false} MixedFits(json: Json)
    requires Library(json)
    ensures forall c | c in MIXED :: ValidCall(json, c)
    ensures Unanswered(GO, [KNOWN_CALL] + [UNKNOWN_CALL]) && DistinctIds([KNOWN_CALL] + [UNKNOWN_CALL])
  {
    PlainIds();
    StartedFacts(json);
    assert [KNOWN_CALL] + [UNKNOWN_CALL] == [KNOWN_CALL, UNKNOWN_CALL];
    hide Trim, HasResult, Restorable, CleanLog, KnownRows;
  }

  /** The batch of the step runs: "b" is executed, "a" refused. */
  lemma {:induction false} MixedBatch(json: Json, known: State)
    requires Library(json) && known.rows == GO && known.inbox == []
    ensures var input := Asking(MIXED); var refuse := Refusal(Plain(json));
            var status := BatchStep(Plain(json), known, input.reply, [KNOWN_CALL], [UNKNOWN_CALL], refuse, input);
            && status.Running? && status.s.disabled == known.disabled
            && status.s.rows == Logged(json, GO, input.reply, [KNOWN_CALL], [UNKNOWN_CALL])
  {
    MixedFits(json);
    hide BatchStep, Refusal, Logged, ValidCall, Unanswered, DistinctIds;
    BatchRuns(json, known, Asking(MIXED).reply, [KNOWN_CALL], [UNKNOWN_CALL], Asking(MIXED));
  }

  /** The run goes on after the batch, with the result of "b" logged before the refusal of "a". */
  lemma {:induction false} MixedStep(json: Json)
    requires Library(json)
    ensures var status := Step(Plain(json), STARTED, Asking(MIXED));
            && status.Running? && RunsBatch(Plain(json), STARTED, Asking(MIXED))
            && status.s.rows == Logged(json, GO, Asking(MIXED).reply, [KNOWN_CALL], [UNKNOWN_CALL])
  {
    PlainIds();
    hide BatchStep, Repeated, Refusal, AddUsage, TextStep, Logged, Kinds, OfKind, CallIds, Trim;
    var reply := Asking(MIXED).reply;
    var counted := STARTED.(iterations := 1, usage := AddUsage(NO_USAGE, ONE_TOKEN));
    MixedKinds(json);
    var sig := SignatureOf([KNOWN_CALL]);
    hide SignatureOf;
    FewSteps([sig]);
    assert [] + [sig] == [sig];
    var known := counted.(seen := {} + CallIds(MIXED), sigs := [sig]);
    MixedBatch(json, known);
    assert Step(Plain(json), STARTED, Asking(MIXED)) == ToolStep(Plain(json), counted, reply, Asking(MIXED));
  }

  /** A new run asks for an unknown tool and then a known one: it goes on, but its log is one that recovery rejects. */
  lemma {:induction false} MixedBatchIsLost(json: Json)
    requires Library(json)
    ensures Run(Plain(json), STARTED, [Asking(MIXED)]).Running?
    ensures R.Restored(NothingStored(json), Run(Plain(json), STARTED, [Asking(MIXED)]).s.rows).state.Err?
  {
    StartedFacts(json);
    hide Step, R.Scan, Bills, Readable, ContentOf, BudgetHolds, Kinds, KnownRows, HasResult, CleanLog, Library;
    MixedStep(json);
    MixedKinds(json);
    var script := [Asking(MIXED)];
    assert script[1..] == [];
    var kinds := KindsOf(Plain(json), STARTED, Asking(MIXED).reply);
    assert kinds[0] == UnadvertisedTool && kinds[1] == Executable;
    assert !RefusedLast(kinds);
    RunReadable(NothingStored(json), Plain(json), STARTED, script);
  }

  // ----- a crash that recovery does not get over -----

  const REFUSED: seq<ToolCall> := [UNKNOWN_CALL]

  lemma {:induction false} RefusedKinds(json: Json)
    requires Library(json)
    ensures Kinds(json, REFUSED, {"t"}, {}) == [UnadvertisedTool]
    ensures OfKind(REFUSED, [UnadvertisedTool], true) == [] && OfKind(REFUSED, [UnadvertisedTool], false) == REFUSED
  {
    PlainIds();
    hide Trim;
    KindAt(json, REFUSED, {"t"}, {}, 0);
    assert [UnadvertisedTool][..0] == [] && REFUSED[..0] == [];
  }

  lemma {:induction false} RefusedBatch(json: Json, known: State)
    requires Library(json) && known.rows == GO && known.inbox == []
    ensures var input := Asking(REFUSED);
            var status := BatchStep(Plain(json), known, input.reply, [], REFUSED, Refusal(Plain(json)), input);
            status.Running? && status.s.rows == Logged(json, GO, input.reply, [], REFUSED)
  {
    PlainIds();
    StartedFacts(json);
    assert [] + REFUSED == REFUSED;
    hide BatchStep, Refusal, Logged, Trim, HasResult, Restorable;
    BatchRuns(json, known, Asking(REFUSED).reply, [], REFUSED, Asking(REFUSED));
  }

  lemma {:induction false} RefusedStep(json: Json)
    requires Library(json)
    ensures var status := Step(Plain(json), STARTED, Asking(REFUSED));
            status.Running? && status.s.rows == Logged(json, GO, Asking(REFUSED).reply, [], REFUSED)
  {
    hide BatchStep, Repeated, Refusal, AddUsage, TextStep, Logged, Kinds, OfKind, CallIds;
    var reply := Asking(REFUSED).reply;
    var counted := STARTED.(iterations := 1, usage := AddUsage(NO_USAGE, ONE_TOKEN));
    RefusedKinds(json);
    assert SignatureOf([]) == [];
    var known := counted.(seen := {} + CallIds(REFUSED));
    RefusedBatch(json, known);
    assert Step(Plain(json), STARTED, Asking(REFUSED)) == ToolStep(Plain(json), counted, reply, Asking(REFUSED));
  }

  /** A crash between the record that asks for a refused call and the refusal: only the whole log is accepted. */
  lemma {:induction false} RefusalIsLost(json: Json)
    requires Library(json)
    ensures var rows := Run(Plain(json), STARTED, [Asking(REFUSED)]).s.rows;
            && |rows| == 3 && R.Restored(NothingStored(json), rows).state.Ok?
            && R.Restored(NothingStored(json), rows[..2]).state.Err?
  {
    var script := [Asking(REFUSED)];
    assert script[1..] == [];
    RefusedStep(json);
    var rows := Run(Plain(json), STARTED, script).s.rows;
    RefusedIsReadable(json);
    RefusedCut(json);
    hide R.Restored, Step;
    assert rows[..2] == GO + [AssistantRecord(Message(Assistant, "", "", "", REFUSED), ONE_TOKEN)];
  }

  lemma {:induction false} RefusedCut(json: Json)
    ensures var asked := GO + [AssistantRecord(Message(Assistant, "", "", "", REFUSED), ONE_TOKEN)];
            R.Restored(NothingStored(json), asked).state.Err?
  {
    PlainIds();
    StartedFacts(json);
    var env, m := NothingStored(json), Message(Assistant, "", "", "", REFUSED);
    assert HasToolCallIds(REFUSED);
    assert !AllStored(env, REFUSED);
    hide Trim, R.Restored, R.Scan, ContentOf, HasResult, Bills, AllStored, Account;
    CallsRead(env, GO, m, ONE_TOKEN);
    RestoresIff(env, GO + [AssistantRecord(m, ONE_TOKEN)]);
  }

  lemma {:induction false} RefusedIsReadable(json: Json)
    requires Library(json)
    ensures R.Restored(NothingStored(json), Run(Plain(json), STARTED, [Asking(REFUSED)]).s.rows).state.Ok?
  {
    StartedFacts(json);
    RefusedStep(json);
    LoggedKnown(json, GO, Asking(REFUSED).reply, [], REFUSED);
    hide Step, R.Scan, R.Restored, Bills, Readable, ContentOf, BudgetHolds, Kinds, KnownRows, HasResult, CleanLog,
         Library, Logged;
    var script := [Asking(REFUSED)];
    assert script[1..] == [];
    var rows := Run(Plain(json), STARTED, script).s.rows;
    NoLimit(json, Bills(rows));
    RunReadable(NothingStored(json), Plain(json), STARTED, script);
    RestoredIfReadable(json, rows);
  }

  lemma {:induction false} RestoredIfReadable(json: Json, rows: seq<RunRecord>)
    requires Readable(NothingStored(json), rows)
    ensures R.Restored(NothingStored(json), rows).state.Ok?
  {
    hide R.Scan;
  }

  // ----- a run that cannot go on -----

  /** A batch asks for one id twice: the run ends, and whatever is stored, its log is never recovered. */
  lemma {:induction false} TwinCallsAreFatal(json: Json, env: R.Env)
    requires Library(json)
    ensures var status := Step(Plain(json), STARTED, Asking([KNOWN_CALL, KNOWN_CALL]));
            status.Stopped? && R.Restored(env, status.s.rows).state.Err?
  {
    PlainIds();
    StartedFacts(json);
    hide BatchStep, Repeated, Refusal, AddUsage, TextStep, Kinds, OfKind, CallIds, SignatureOf, Trim, R.Restored,
         Restorable, CleanLog, HasResult;
    var calls := [KNOWN_CALL, KNOWN_CALL];
    var counted := STARTED.(iterations := 1, usage := AddUsage(NO_USAGE, ONE_TOKEN));
    var reply := Asking(calls).reply;
    FewSteps(counted.sigs + [SignatureOf(OfKind(calls, KindsOf(Plain(json), counted, reply), true))]);
    assert Trim(calls[0].id) == Trim(calls[1].id);
    KnownIdIsFatal(Plain(json), counted, reply, Asking(calls), env);
    assert Step(Plain(json), STARTED, Asking(calls)) == ToolStep(Plain(json), counted, reply, Asking(calls));
  }

  // ----- a run that comes back an iteration short -----

  function Id(n: nat): (id: string)
    ensures |id| == n + 1 && forall c | c in id :: c == 'a'
  {
    if n == 0 then "a" else "a" + Id(n - 1)
  }

  lemma {:induction false} IdIsTrimmed(n: nat)
    ensures Trim(Id(n)) == Id(n) && Id(n) != ""
  {
    var id := Id(n);
    assert id[0] in id && id[|id| - 1] in id;
    assert TrimLeft(id) == id && TrimRight(id) == id;
  }

  function Again(n: nat): ToolCall {
    ToolCall(Id(n), "t", "{}")
  }

  /** The same batch with fresh ids, until ten were asked for. */
  function Insisting(n: nat): (script: seq<Input>)
    requires n <= WINDOW
    ensures |script| == WINDOW - n
    decreases WINDOW - n
  {
    if n == WINDOW then [] else [Asking([Again(n)])] + Insisting(n + 1)
  }

  const SAME: Signature := [("t", "{}")]

  ghost predicate Insisted(json: Json, s: State, n: nat) {
    && !s.disabled && s.inbox == [] && s.iterations == n && s.usage.total == n && |Bills(s.rows)| == n
    && |s.sigs| == n && (forall i | 0 <= i < n :: s.sigs[i] == SAME)
    && (forall m: nat | n <= m :: Id(m) !in s.seen && !HasResult(s.rows, Id(m)))
    && KnownRows(NothingStored(json), s.rows)
  }

  lemma {:induction false} AgainIsValid(json: Json, n: nat)
    requires Library(json)
    ensures SignatureOf([Again(n)]) == SAME && CallIds([Again(n)]) == {Id(n)} && ValidCall(json, Again(n))
    ensures OfKind([Again(n)], [Executable], true) == [Again(n)] && OfKind([Again(n)], [Executable], false) == []
  {
    PlainIds();
    IdIsTrimmed(n);
    hide Trim, Id;
    assert [Again(n)][..0] == [] && [Executable][..0] == [];
    assert Again(n) in [Again(n)];
    assert [Again(n)][1..] == [];
  }

  lemma {:induction false} AgainIsExecutable(json: Json, s: State, n: nat)
    requires Library(json) && Insisted(json, s, n)
    ensures Kinds(json, [Again(n)], {"t"}, s.seen) == [Executable]
  {
    PlainIds();
    IdIsTrimmed(n);
    assert Id(n) !in s.seen;
    hide Trim, Id, Kinds, Insisted;
    ExecutableIff(json, [Again(n)], {"t"}, s.seen, 0);
  }

  lemma {:induction false} AgainRuns(json: Json, s: State, n: nat)
    requires Library(json) && Insisted(json, s, n) && n + 1 < WINDOW
    ensures var status := Step(Plain(json), s, Asking([Again(n)]));
            && status.Running? && !status.s.disabled && status.s.inbox == [] && status.s.iterations == n + 1
            && status.s.usage.total == n + 1 && status.s.sigs == s.sigs + [SAME] && status.s.seen == s.seen + {Id(n)}
            && status.s.rows == Logged(json, s.rows, Asking([Again(n)]).reply, [Again(n)], [])
  {
    AgainIsExecutable(json, s, n);
    InsistedIs(json, s, n);
    OneMoreToken(s.usage);
    AgainIs(json, s, n);
    hide Step, Insisted, AddUsage, Id, Library, HasResult, Logged, BatchStep, Refusal, Asking;
    var counted := s.(iterations := n + 1, usage := AddUsage(s.usage, ONE_TOKEN));
    AgainBatch(json, counted.(seen := s.seen + {Id(n)}, sigs := s.sigs + [SAME]), n);
  }

  lemma {:induction false} AgainIs(json: Json, s: State, n: nat)
    requires Library(json) && !s.disabled && s.iterations == n && |s.sigs| + 1 < WINDOW
    requires Kinds(json, [Again(n)], {"t"}, s.seen) == [Executable]
    ensures var input := Asking([Again(n)]);
            var counted := s.(iterations := n + 1, usage := AddUsage(s.usage, ONE_TOKEN));
            var known := counted.(seen := s.seen + {Id(n)}, sigs := s.sigs + [SAME]);
            Step(Plain(json), s, input) ==
            BatchStep(Plain(json), known, input.reply, [Again(n)], [], Refusal(Plain(json)), input)
  {
    hide Step, ToolStep, BatchStep, AddUsage, Id, Library, Kinds;
    AgainStep(json, s, n);
    AgainTool(json, s.(iterations := n + 1, usage := AddUsage(s.usage, ONE_TOKEN)), n);
  }

  lemma {:induction false} AgainStep(json: Json, s: State, n: nat)
    requires !s.disabled
    ensures var input := Asking([Again(n)]);
            var counted := s.(iterations := s.iterations + 1, usage := AddUsage(s.usage, ONE_TOKEN));
            Step(Plain(json), s, input) == ToolStep(Plain(json), counted, input.reply, input)
  {
    OneMoreToken(s.usage);
    hide Step, ToolStep, AddUsage, BudgetExhausted, Id;
    ToolStepOf(Plain(json), s, Asking([Again(n)]));
  }

  lemma {:induction false} AgainTool(json: Json, s: State, n: nat)
    requires Library(json) && |s.sigs| + 1 < WINDOW && Kinds(json, [Again(n)], {"t"}, s.seen) == [Executable]
    ensures var input := Asking([Again(n)]); var known := s.(seen := s.seen + {Id(n)}, sigs := s.sigs + [SAME]);
            ToolStep(Plain(json), s, input.reply, input) ==
            BatchStep(Plain(json), known, input.reply, [Again(n)], [], Refusal(Plain(json)), input)
  {
    AgainIsValid(json, n);
    FewSteps(s.sigs + [SAME]);
    hide BatchStep, Repeated, Refusal, Trim, Id, Kinds, OfKind, Library, ValidCall, SignatureOf, CallIds;
  }

  lemma {:induction false} OneMoreToken(usage: Usage)
    ensures AddUsage(usage, ONE_TOKEN).total == usage.total + 1
    ensures BudgetExhausted(usage, 0, 0).None?
  {
  }

  lemma {:induction false} AgainBatch(json: Json, s: State, n: nat)
    requires Library(json) && s.inbox == [] && !HasResult(s.rows, Id(n))
    ensures var input := Asking([Again(n)]);
            var status := BatchStep(Plain(json), s, input.reply, [Again(n)], [], Refusal(Plain(json)), input);
            && status.Running? && status.s.disabled == s.disabled && status.s.inbox == []
            && status.s.rows == Logged(json, s.rows, input.reply, [Again(n)], [])
            && status.s.sigs == s.sigs && status.s.seen == s.seen
            && status.s.iterations == s.iterations && status.s.usage == s.usage
  {
    IdIsTrimmed(n);
    AgainIsValid(json, n);
    hide BatchStep, Refusal, Logged, Trim, Id, Kinds, OfKind, HasResult, SignatureOf, CallIds, ValidCall, Library;
    assert [Again(n)] + [] == [Again(n)];
    BatchRuns(json, s, Asking([Again(n)]).reply, [Again(n)], [], Asking([Again(n)]));
  }

  /** Up to the tenth, the batch is executed. */
  lemma {:induction false} InsistingStep(json: Json, s: State, n: nat)
    requires Library(json) && Insisted(json, s, n) && n + 1 < WINDOW
    ensures var status := Step(Plain(json), s, Asking([Again(n)]));
            status.Running? && Insisted(json, status.s, n + 1)
  {
    AgainRuns(json, s, n);
    var reply := Asking([Again(n)]).reply;
    LoggedKnown(json, s.rows, reply, [Again(n)], []);
    LoggedBills(json, s.rows, reply, [Again(n)]);
    hide Step, Logged, Trim, Id, KnownRows, Library, Bills;
    forall m: nat | n + 1 <= m
      ensures Id(m) !in s.seen + {Id(n)} && !HasResult(Logged(json, s.rows, reply, [Again(n)], []), Id(m))
    {
      OtherId(n, m);
      AgainLogged(json, s.rows, reply, n, m);
    }
  }

  lemma {:induction false} OtherId(n: nat, m: nat)
    requires n < m
    ensures Id(n) != Id(m)
  {
    assert |Id(n)| != |Id(m)|;
  }

  lemma {:induction false} LoggedBills(json: Json, rows: seq<RunRecord>, reply: Reply, calls: seq<ToolCall>)
    requires reply.Reply?
    ensures |Bills(Logged(json, rows, reply, calls, []))| == |Bills(rows)| + 1
  {
    var m := Message(Assistant, reply.content, reply.thinking, "", reply.toolCalls);
    var asked := rows + [AssistantRecord(m, reply.usage)];
    assert ResultRows([], Refusal(Plain(json))) == [];
    ResultsAreResults(calls);
    hide Bills, ResultRows;
    OneBill(rows, m, reply.usage);
    assert Logged(json, rows, reply, calls, []) == asked + ResultRows(calls, FAILED);
    assert (asked + ResultRows(calls, FAILED))[|asked|..] == ResultRows(calls, FAILED);
    SameBills(asked, asked + ResultRows(calls, FAILED));
  }

  lemma {:induction false} ResultsAreResults(calls: seq<ToolCall>)
    ensures forall r | r in ResultRows(calls, FAILED) :: r.kind.ToolResult?
    decreases |calls|
  {
    hide Trim;
    if calls != [] {
      ResultsAreResults(calls[1..]);
    }
  }

  lemma {:induction false} AgainLogged(json: Json, rows: seq<RunRecord>, reply: Reply, n: nat, m: nat)
    requires reply.Reply? && n < m && !HasResult(rows, Id(m))
    ensures !HasResult(Logged(json, rows, reply, [Again(n)], []), Id(m))
  {
    IdIsTrimmed(n);
    IdIsTrimmed(m);
    hide Trim, Id;
    var message := Message(Assistant, reply.content, reply.thinking, "", reply.toolCalls);
    SameResults(rows, message, reply.usage);
    ResultsAfter(rows + [AssistantRecord(message, reply.usage)], [Again(n)], FAILED, Id(m));
    assert ResultRows([], Refusal(Plain(json))) == [];
  }

  lemma {:induction false} CountSame(sigs: seq<Signature>)
    requires forall i | 0 <= i < |sigs| :: sigs[i] == SAME
    ensures Count(SAME, sigs) == |sigs|
  {
    CountAll(SAME, sigs);
  }

  /** The tenth is recognised as a loop: it is counted, but neither executed nor logged. */
  lemma {:induction false} TenthStep(json: Json, s: State)
    requires Library(json) && Insisted(json, s, 9)
    ensures var status := Step(Plain(json), s, Asking([Again(9)]));
            && status.Running? && status.s.rows == s.rows && status.s.iterations == 10 && status.s.usage.total == 10
  {
    AgainIsExecutable(json, s, 9);
    OneMoreToken(s.usage);
    AgainStep(json, s, 9);
    var counted := s.(iterations := 10, usage := AddUsage(s.usage, ONE_TOKEN));
    TenthTool(json, counted);
    hide Step, ToolStep, Kinds, KnownRows, Bills, Library, AddUsage, Id;
  }

  lemma {:induction false} TenthTool(json: Json, s: State)
    requires Library(json) && |s.sigs| == 9 && (forall i | 0 <= i < 9 :: s.sigs[i] == SAME)
    requires Kinds(json, [Again(9)], {"t"}, s.seen) == [Executable]
    ensures var input := Asking([Again(9)]); var status := ToolStep(Plain(json), s, input.reply, input);
            && status.Running? && status.s.rows == s.rows && status.s.iterations == s.iterations
            && status.s.usage == s.usage
  {
    TenthLoop(json, s);
    hide ToolStep, LoopDetected, Kinds, Library, Id;
    LoopStep(Plain(json), s, Asking([Again(9)]).reply, Asking([Again(9)]));
  }

  lemma {:induction false} TenthLoop(json: Json, s: State)
    requires Library(json) && |s.sigs| == 9 && (forall i | 0 <= i < 9 :: s.sigs[i] == SAME)
    requires Kinds(json, [Again(9)], {"t"}, s.seen) == [Executable]
    ensures LoopDetected(Plain(json), s, Asking([Again(9)]).reply)
  {
    hide Repeated, Trim, Id, Kinds, OfKind, Library, ValidCall, SignatureOf, CallIds, IdsOf;
    AgainIsValid(json, 9);
    var sigs := s.sigs + [SAME];
    assert |sigs| == WINDOW && forall i | 0 <= i < |sigs| :: sigs[i] == SAME;
    LoopIsSeen(sigs);
    assert SAME != [];
  }

  lemma {:induction false} LoopIsSeen(sigs: seq<Signature>)
    requires |sigs| == WINDOW && forall i | 0 <= i < |sigs| :: sigs[i] == SAME
    ensures Repeated(sigs, WINDOW, MAX_REPEATS)
  {
    hide Count;
    CountSame(sigs);
    assert Latest(sigs, WINDOW) == sigs;
    assert Frequent(SAME, Latest(sigs, WINDOW), MAX_REPEATS);
  }

  lemma {:induction false} InsistingRun(json: Json, s: State, n: nat)
    requires Library(json) && Insisted(json, s, n) && n < WINDOW
    ensures var status := Run(Plain(json), s, Insisting(n));
            && status.Running? && status.s.iterations == 10 && status.s.usage.total == 10
            && |Bills(status.s.rows)| == 9 && KnownRows(NothingStored(json), status.s.rows)
    ensures OrderedRun(Plain(json), s, Insisting(n))
    decreases WINDOW - n
  {
    InsistedIs(json, s, n);
    hide Step, Trim, Id, Kinds, Insisted, Bills, KnownRows, Library;
    var script := Insisting(n);
    assert script[0] == Asking([Again(n)]) && script[1..] == Insisting(n + 1);
    assert OrderedStep(Plain(json), s, script[0]) by {
      assert |KindsOf(Plain(json), s, script[0].reply)| == 1;
    }
    if n + 1 < WINDOW {
      InsistingStep(json, s, n);
      InsistingRun(json, Step(Plain(json), s, script[0]).s, n + 1);
    } else {
      TenthStep(json, s);
    }
  }

  lemma {:induction false} InsistedIs(json: Json, s: State, n: nat)
    requires Insisted(json, s, n)
    ensures |Bills(s.rows)| == n && KnownRows(NothingStored(json), s.rows)
    ensures !s.disabled && s.inbox == [] && s.iterations == n && s.usage.total == n && |s.sigs| == n
    ensures !HasResult(s.rows, Id(n))
  {
    hide HasResult, Id;
  }

  lemma {:induction false} StartedIsInsisted(json: Json)
    ensures Insisted(json, STARTED, 0)
  {
    StartedFacts(json);
  }

  /** A log of these runs is recovered as it stands, and counts its bills. */
  lemma {:induction false} RecoveredCount(json: Json, script: seq<Input>)
    requires !Run(Plain(json), STARTED, script).Stopped? && OrderedRun(Plain(json), STARTED, script)
    requires KnownRows(NothingStored(json), Run(Plain(json), STARTED, script).s.rows)
    ensures var rows := Run(Plain(json), STARTED, script).s.rows; var back := R.Restored(NothingStored(json), rows);
            back.state.Ok? && back.state.value.result.iterations == |Bills(rows)|
  {
    StartedFacts(json);
    hide Run, R.Scan, R.Restored, Bills, Readable, ContentOf, BudgetHolds, KnownRows, HasResult, CleanLog, OrderedRun,
         Account, Accounts;
    var rows := Run(Plain(json), STARTED, script).s.rows;
    NoLimit(json, Bills(rows));
    RunReadable(NothingStored(json), Plain(json), STARTED, script);
    RestoredIfReadable(json, rows);
    RecoveredUsage(NothingStored(json), rows);
  }

  lemma {:induction false} LoopLosesOne(json: Json)
    requires Library(json)
    ensures Losses(Plain(json), STARTED, Insisting(0)) == [ONE_TOKEN]
  {
    hide Run, Bills, KnownRows, OrderedRun, Insisted, Answers, CleanLog, HasResult, Insisting, Restorable, LostOf,
         Library;
    LosesOne(json);
    InsistingUsage(0);
    AnswersAlike(json, STARTED, Insisting(0));
    LostAlike(Answers(Plain(json), STARTED, Insisting(0)));
    var losses := Losses(Plain(json), STARTED, Insisting(0));
    assert losses[0] in losses;
  }

  lemma {:induction false} LosesOne(json: Json)
    requires Library(json)
    ensures |Losses(Plain(json), STARTED, Insisting(0))| == 1
  {
    hide Run, Bills, KnownRows, OrderedRun, Insisted, Losses, CleanLog, HasResult, Insisting, Restorable, Library;
    StartedIsInsisted(json);
    InsistingRun(json, STARTED, 0);
    StartedFacts(json);
    RunIterations(Plain(json), STARTED, Insisting(0));
  }

  /** Ten times the same batch: the run has counted ten iterations and tokens, and its recovery counts nine. */
  lemma {:induction false} LoopIsForgotten(json: Json)
    requires Library(json)
    ensures var live := Run(Plain(json), STARTED, Insisting(0)).s;
            var back := R.Restored(NothingStored(json), live.rows);
            && live.iterations == 10 && live.usage.total == 10
            && back.state.Ok? && back.state.value.result.iterations == 9 && back.state.value.result.usage.total == 9
  {
    StartedIsInsisted(json);
    InsistingRun(json, STARTED, 0);
    RecoveredCount(json, Insisting(0));
    LoopLosesOne(json);
    StartedIsAccounted();
    hide Run, R.Restored, Bills, Account, KnownRows, OrderedRun, Insisted, Answers, Insisting, Losses, LessTokens,
         Accounted, Library;
    RecoveredVersusLive(Plain(json), STARTED, Insisting(0), NothingStored(json));
    var live := Run(Plain(json), STARTED, Insisting(0)).s;
    OneTokenLess(R.Restored(NothingStored(json), live.rows).state.value.result.usage, live.usage);
  }

  lemma {:induction false} OneTokenLess(a: Usage, b: Usage)
    requires LessTokens(a, b, [ONE_TOKEN])
    ensures a.total == b.total - 1
  {
    TotalOne(TOTAL_TOKENS, ONE_TOKEN);
  }

  lemma {:induction false} StartedIsAccounted()
    ensures Accounted(STARTED)
  {
    NoBills(GO);
    AccountNone();
  }

  lemma {:induction false} InsistingUsage(n: nat)
    requires n <= WINDOW
    ensures forall i | 0 <= i < |Insisting(n)| :: Insisting(n)[i].reply.usage == ONE_TOKEN
    decreases WINDOW - n
  {
    hide Id;
    if n < WINDOW {
      InsistingUsage(n + 1);
    }
  }

  lemma {:induction false} AnswersAlike(json: Json, s: State, script: seq<Input>)
    requires forall i | 0 <= i < |script| :: script[i].reply.usage == ONE_TOKEN
    ensures forall a | a in Answers(Plain(json), s, script) :: a.usage == ONE_TOKEN
    decreases |script|
  {
    hide Step, Lost, Counts;
    if script != [] && Step(Plain(json), s, script[0]).Running? {
      AnswersAlike(json, Step(Plain(json), s, script[0]).s, script[1..]);
    }
  }

  lemma {:induction false} LostAlike(answers: seq<Answer>)
    requires forall a | a in answers :: a.usage == ONE_TOKEN
    ensures forall u | u in LostOf(answers) :: u == ONE_TOKEN
  {
    if answers != [] {
      LostAlike(answers[1..]);
    }
  }

  // ----- runs that stop without a loop -----

  function Failing(usage: Usage): Input {
    Input(false, NoReply(usage), FAILED, [])
  }

  /** The provider fails at once: an iteration is counted, and recovery knows of none. */
  lemma {:induction false} FailureIsForgotten(json: Json, usage: Usage)
    ensures var status := Run(Plain(json), STARTED, [Failing(usage)]);
            var back := R.Restored(NothingStored(json), status.s.rows);
            && status.Stopped? && status.failure == ProviderFailed && status.s.iterations == 1
            && back.state.Ok? && back.state.value.result.iterations == 0
  {
    hide AddUsage, TextStep, ToolStep;
    assert [Failing(usage)][1..] == [];
    StartedFacts(json);
    assert Run(Plain(json), STARTED, []).s == STARTED;
    RecoveredCount(json, []);
  }

  /** A tool step, and then the provider is cancelled: the run has counted two iterations, its recovery counts one. */
  lemma {:induction false} RestartIsShort(json: Json, usage: Usage)
    requires Library(json)
    ensures var status := Run(Plain(json), STARTED, [Asking([Again(0)]), Failing(usage)]);
            var back := R.Restored(NothingStored(json), status.s.rows);
            && status.Stopped? && status.s.iterations == 2
            && back.state.Ok? && back.state.value.result.iterations == 1
  {
    StartedIsInsisted(json);
    InsistingStep(json, STARTED, 0);
    var first, script := Step(Plain(json), STARTED, Asking([Again(0)])), [Asking([Again(0)]), Failing(usage)];
    InsistedIs(json, first.s, 1);
    assert script[1..] == [Failing(usage)] && script[1..][1..] == [];
    assert [Asking([Again(0)])][1..] == [];
    FailingStep(json, first.s, usage);
    assert OrderedStep(Plain(json), STARTED, Asking([Again(0)])) by {
      assert |KindsOf(Plain(json), STARTED, Asking([Again(0)]).reply)| == 1;
    }
    hide Step, Bills, KnownRows, OrderedStep;
    RecoveredCount(json, [Asking([Again(0)])]);
  }

  lemma {:induction false} FailingStep(json: Json, s: State, usage: Usage)
    ensures var status := Step(Plain(json), s, Failing(usage));
            status.Stopped? && status.s.rows == s.rows && status.s.iterations == s.iterations + 1
  {
    hide AddUsage, TextStep, ToolStep;
  }

  // ----- a run that goes on, and is taken for completed -----

  const MORE: Queue.Item := Queue.Item("", "s", "more", true)
  const SAID_ROW: RunRecord := InputRecord(UserMessage("more"))
  const DONE: Input := Input(false, Reply("done", "", [], NO_USAGE), FAILED, [MORE])
  const DONE_ROW: RunRecord := AssistantRecord(Message(Assistant, "done", "", "", []), NO_USAGE)
  /** While the model answers, the user says something: it is written to the log, and queued. */
  const STEERED: State := STARTED.(rows := GO + [SAID_ROW])
  const COUNTED: State := STEERED.(iterations := 1, usage := AddUsage(NO_USAGE, NO_USAGE))

  lemma {:induction false} PlainTexts()
    ensures Trim("") == "" && Trim("s") == "s" && Trim("more") == "more" && Trim("done") == "done"
  {
    assert TrimLeft("s") == "s" && TrimRight("s") == "s";
    assert TrimLeft("more") == "more" && TrimRight("more") == "more";
    assert TrimLeft("done") == "done" && TrimRight("done") == "done";
  }

  lemma {:induction false} MoreIsTaken()
    ensures Queue.Claimed(EnqueueAll([], [MORE]), "s") == [MORE] && Filter(Fresh, [MORE]) == []
  {
    PlainTexts();
    hide Trim;
    assert [MORE][1..] == [];
    assert Queue.Normalized(MORE) == MORE && Queue.Accepts([], MORE);
    assert Queue.Enqueued([], MORE) == [MORE];
    assert EnqueueAll([], [MORE]) == EnqueueAll([MORE], []) == [MORE];
    FilterAll(Queue.OfSession("s"), [MORE]);
    FilterNone(Fresh, [MORE]);
  }

  lemma {:induction false} DoneText(json: Json)
    ensures var status := TextStep(Plain(json), COUNTED, DONE.reply, false, [MORE]);
            status.Running? && status.s.rows == STEERED.rows + [DONE_ROW]
  {
    PlainTexts();
    MoreIsTaken();
    NoRows();
    assert STEERED.rows + [DONE_ROW] + [] == STEERED.rows + [DONE_ROW];
    hide Trim, TextStep, EnqueueAll, Queue.Claimed, UserRows;
    TextSteers(Plain(json), COUNTED, DONE.reply, false, [MORE]);
  }

  lemma {:induction false} DoneStep(json: Json)
    ensures var status := Step(Plain(json), STEERED, DONE);
            status.Running? && status.s.rows == STEERED.rows + [DONE_ROW]
  {
    DoneText(json);
    hide TextStep, ToolStep, AddUsage;
    assert Step(Plain(json), STEERED, DONE) == TextStep(Plain(json), COUNTED, DONE.reply, false, [MORE]);
  }

  lemma {:induction false} DoneIsRead(json: Json)
    ensures R.Scan(NothingStored(json), R.START, STEERED.rows + [DONE_ROW]).Ok?
  {
    var env, rows := NothingStored(json), STEERED.rows + [DONE_ROW];
    ReplayedIff(env, rows);
    PlainTexts();
    hide Trim, R.Scan, Account, Bills;
    assert rows[..0] == [] && rows[..1] == GO && rows[..2] == GO + [SAID_ROW];
    assert GO[..0] == [] && (GO + [SAID_ROW])[..1] == GO;
    assert Open([]) == [] && Open(GO) == [] && Open(GO + [SAID_ROW]) == [];
    assert Follows(env, rows[..0], rows[0]) && Follows(env, rows[..1], rows[1]) && Follows(env, rows[..2], rows[2]);
  }

  /**
   * The run goes on to answer what the user said, but if it is interrupted before it does, recovery takes it for
   * completed.
   */
  lemma {:induction false} SaidDuringAnswerIsDropped(json: Json)
    ensures var status := Step(Plain(json), STEERED, DONE);
            status.Running? && R.Restored(NothingStored(json), status.s.rows).completed
  {
    DoneStep(json);
    DoneIsRead(json);
    hide R.Scan, Step;
    var rows := STEERED.rows + [DONE_ROW];
    assert rows[|rows| - 1] == DONE_ROW;
    CompletedIff(NothingStored(json), rows);
  }
}
