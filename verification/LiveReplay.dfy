/** The log of a whole run, read back: when recovery accepts it, and what of the run it brings back. */
module LiveReplay {
  import opened Text
  import opened Messages
  import opened Records
  import opened ToolCalls
  import opened RunLoop
  import opened CrashRecovery
  import opened BatchOrder
  import opened LiveLog
  import opened Executions
  import R = Restore
  import Queue = Inbox

  // ----- what a step must meet -----

  /** The step logs the batch of its reply, however it ends. */
  ghost predicate RunsBatch(cfg: Config, s: State, input: Input) {
    && Counts(cfg, s, input) && !Lost(cfg, s, input)
    && input.reply.Reply? && !AnswersInText(cfg, s, input.reply)
  }

  function KindsOf(cfg: Config, s: State, reply: Reply): seq<Kind>
    requires reply.Reply?
  {
    Kinds(cfg.json, reply.toolCalls, cfg.advertised, s.seen)
  }

  ghost predicate OrderedStep(cfg: Config, s: State, input: Input) {
    RunsBatch(cfg, s, input) ==> RefusedLast(KindsOf(cfg, s, input.reply))
  }

  predicate KnownResults(env: R.Env, calls: seq<ToolCall>, outcome: ToolCall -> Option<string>) {
    forall c | c in calls :: outcome(c).Some? ==> Acknowledged(env, c, outcome(c).value)
  }

  ghost predicate OrderedRun(cfg: Config, s: State, script: seq<Input>)
    decreases |script|
  {
    script != [] ==>
      && OrderedStep(cfg, s, script[0])
      && (Step(cfg, s, script[0]).Running? ==> OrderedRun(cfg, Step(cfg, s, script[0]).s, script[1..]))
  }

  /** No bill of the log exceeds the budget that recovery applies. */
  ghost predicate BudgetHolds(env: R.Env, bills: seq<Usage>) {
    forall n | 0 <= n <= |bills| :: BudgetExceeded(Account(bills[..n]), env.maxTokens, env.maxMicros).None?
  }

  /** A log with nothing open, and the state and content that recovery reads from it. */
  predicate Readable(env: R.Env, rows: seq<RunRecord>) {
    R.Scan(env, R.START, rows).Ok? && R.Scan(env, R.START, rows).value.pending == []
  }

  function ContentOf(env: R.Env, rows: seq<RunRecord>): string
    requires Readable(env, rows)
  {
    R.Scan(env, R.START, rows).value.result.content
  }

  // ----- the ids of a batch that was logged -----

  lemma {:induction false} AppendedDistinct(
    json: Json, rows: seq<RunRecord>, calls: seq<ToolCall>, outcome: ToolCall -> Option<string>)
    requires AppendResults(json, rows, calls, outcome).failure == None
    ensures forall c | c in calls :: !HasResult(rows, Trim(c.id))
    ensures forall i, j | 0 <= i < j < |calls| :: Trim(calls[i].id) != Trim(calls[j].id)
    ensures var after := AppendResults(json, rows, calls, outcome).rows;
            rows <= after && forall c | c in calls :: HasResult(after, Trim(c.id))
    decreases |calls|
  {
    hide ValidMessage, Trim;
    if calls != [] {
      var row := ToolRecord(ToolMessage(calls[0].id, outcome(calls[0]).value));
      var more := rows + [row];
      AppendedDistinct(json, more, calls[1..], outcome);
      assert more[|rows|] == row && row in more && HasResult(more, Trim(calls[0].id));
      assert forall r | r in rows :: r in more;
      var after := AppendResults(json, more, calls[1..], outcome).rows;
      assert forall r | r in more :: r in after;
      assert forall c | c in calls :: c == calls[0] || c in calls[1..];
    }
  }

  /** How many of the first i calls are of a kind. */
  function Rank(kinds: seq<Kind>, executable: bool, i: nat): nat
    requires i <= |kinds|
  {
    if i == 0 then 0 else Rank(kinds, executable, i - 1) + if (kinds[i - 1] == Executable) == executable then 1 else 0
  }

  lemma {:induction false} RankGrows(kinds: seq<Kind>, executable: bool, i: nat, j: nat)
    requires i < j <= |kinds| && (kinds[i] == Executable) == executable
    ensures Rank(kinds, executable, i) < Rank(kinds, executable, j)
  {
    if i + 1 < j {
      RankGrows(kinds, executable, i, j - 1);
    }
  }

  lemma {:induction false} RankPrefix(kinds: seq<Kind>, executable: bool, n: nat, i: nat)
    requires i <= n <= |kinds|
    ensures Rank(kinds[..n], executable, i) == Rank(kinds, executable, i)
  {
    if i > 0 {
      RankPrefix(kinds, executable, n, i - 1);
    }
  }

  lemma {:induction false} RankAt(calls: seq<ToolCall>, kinds: seq<Kind>, executable: bool, i: nat)
    requires |calls| == |kinds| && i < |calls| && (kinds[i] == Executable) == executable
    ensures var part, rank := OfKind(calls, kinds, executable), Rank(kinds, executable, i);
            |part| == Rank(kinds, executable, |kinds|) && rank < |part| && part[rank] == calls[i]
  {
    var last := |calls| - 1;
    RankPrefix(kinds, executable, last, last);
    RankTotal(calls, kinds, executable);
    RankGrows(kinds, executable, i, |kinds|);
    if i < last {
      RankAt(calls[..last], kinds[..last], executable, i);
      RankPrefix(kinds, executable, last, i);
    } else {
      RankTotal(calls[..last], kinds[..last], executable);
    }
  }

  lemma {:induction false} RankTotal(calls: seq<ToolCall>, kinds: seq<Kind>, executable: bool)
    requires |calls| == |kinds|
    ensures |OfKind(calls, kinds, executable)| == Rank(kinds, executable, |kinds|)
  {
    if calls != [] {
      var last := |calls| - 1;
      RankTotal(calls[..last], kinds[..last], executable);
      RankPrefix(kinds, executable, last, last);
    }
  }

  /** A batch whose results were all appended has distinct ids. */
  lemma {:induction false} LoggedDistinct(
    json: Json, rows: seq<RunRecord>, calls: seq<ToolCall>, kinds: seq<Kind>,
    done: ToolCall -> Option<string>, refused: ToolCall -> Option<string>)
    requires |calls| == |kinds|
    requires var executed := AppendResults(json, rows, OfKind(calls, kinds, true), done);
             executed.failure == None
             && AppendResults(json, executed.rows, OfKind(calls, kinds, false), refused).failure == None
    ensures DistinctCalls(calls)
  {
    hide AppendResults, OfKind, HasResult, Rank, Trim;
    var e, r := OfKind(calls, kinds, true), OfKind(calls, kinds, false);
    AppendedDistinct(json, rows, e, done);
    AppendedDistinct(json, AppendResults(json, rows, e, done).rows, r, refused);
    forall i, j | 0 <= i < j < |calls|
      ensures calls[i].id != calls[j].id
    {
      var a, b := kinds[i] == Executable, kinds[j] == Executable;
      RankAt(calls, kinds, a, i);
      RankAt(calls, kinds, b, j);
      if a == b {
        RankGrows(kinds, a, i, j);
        assert Trim(calls[i].id) != Trim(calls[j].id);
      } else {
        assert calls[i] in (if a then e else r) && calls[j] in (if b then e else r);
      }
    }
  }

  // ----- reading back one step -----

  lemma {:induction false} InputsReplay(env: R.Env, p: R.Replay, rows: seq<RunRecord>)
    requires p.pending == [] && forall r | r in rows :: r.kind.InputMessage? && r.message.role.User?
    ensures R.Scan(env, p, rows).Ok?
    ensures R.Scan(env, p, rows).value.pending == [] && R.Scan(env, p, rows).value.result == p.result
    decreases |rows|
  {
    if rows != [] {
      InputsReplay(env, R.Read(env, p, rows[0]).value, rows[1..]);
    }
  }

  /** Steers after a record change neither whether the log is readable nor what was answered. */
  lemma {:induction false} SteersReplay(env: R.Env, rows: seq<RunRecord>, after: seq<RunRecord>)
    requires rows <= after && forall r | r in after[|rows|..] :: r.kind.InputMessage? && r.message.role.User?
    requires R.Scan(env, R.START, rows).Ok? ==> R.Scan(env, R.START, rows).value.pending == []
    ensures R.Scan(env, R.START, after).Ok? <==> R.Scan(env, R.START, rows).Ok?
    ensures Readable(env, rows) ==> Readable(env, after) && ContentOf(env, after) == ContentOf(env, rows)
  {
    hide R.Scan;
    assert after == rows + after[|rows|..];
    ScanConcat(env, R.START, rows, after[|rows|..]);
    if R.Scan(env, R.START, rows).Ok? {
      InputsReplay(env, R.Scan(env, R.START, rows).value, after[|rows|..]);
    }
  }

  lemma {:induction false} UsageRead(env: R.Env, rows: seq<RunRecord>)
    requires R.Scan(env, R.START, rows).Ok?
    ensures R.Scan(env, R.START, rows).value.result.usage == Account(Bills(rows))
  {
    hide R.Scan, Account, Bills;
    AccountNone();
    ScanAccounts(env, R.START, rows, []);
    assert [] + Bills(rows) == Bills(rows);
  }

  lemma {:induction false} TextRead(env: R.Env, rows: seq<RunRecord>, m: Message, usage: Usage)
    requires Readable(env, rows) && m.toolCalls == [] && Trim(m.content) != ""
    requires BudgetExceeded(Account(Bills(rows) + [usage]), env.maxTokens, env.maxMicros).None?
    ensures Readable(env, rows + [AssistantRecord(m, usage)])
    ensures ContentOf(env, rows + [AssistantRecord(m, usage)]) == m.content
  {
    hide R.Scan, Account, Bills, BudgetExceeded, AddUsage, Trim;
    UsageRead(env, rows);
    AccountSnoc(Bills(rows), usage);
    ScanOneMore(env, rows, AssistantRecord(m, usage));
  }

  lemma {:induction false} CallsRead(env: R.Env, rows: seq<RunRecord>, m: Message, usage: Usage)
    requires Readable(env, rows) && m.toolCalls != [] && HasToolCallIds(m.toolCalls)
    requires BudgetExceeded(Account(Bills(rows) + [usage]), env.maxTokens, env.maxMicros).None?
    ensures var read := R.Scan(env, R.START, rows + [AssistantRecord(m, usage)]);
            read.Ok? && read.value.pending == m.toolCalls && read.value.result.content == ContentOf(env, rows)
  {
    hide R.Scan, Account, Bills, BudgetExceeded, AddUsage, HasToolCallIds;
    UsageRead(env, rows);
    AccountSnoc(Bills(rows), usage);
    ScanOneMore(env, rows, AssistantRecord(m, usage));
  }

  lemma {:induction false} LastBudget(env: R.Env, bills: seq<Usage>)
    requires BudgetHolds(env, bills)
    ensures BudgetExceeded(Account(bills), env.maxTokens, env.maxMicros).None?
  {
    hide Account, BudgetExceeded;
    assert bills[..|bills|] == bills;
  }

  lemma {:induction false} SteerReadable(env: R.Env, cfg: Config, s: State, arrivals: seq<Queue.Item>)
    requires R.Scan(env, R.START, s.rows).Ok? ==> R.Scan(env, R.START, s.rows).value.pending == []
    ensures var after := Steer(cfg, s, arrivals).0.rows;
            && (R.Scan(env, R.START, after).Ok? <==> R.Scan(env, R.START, s.rows).Ok?)
            && (Readable(env, s.rows) ==> Readable(env, after) && ContentOf(env, after) == ContentOf(env, s.rows))
  {
    hide R.Scan, AppendSteers, Queue.Claimed, Queue.Left, EnqueueAll, Readable, ContentOf;
    var claimed := Queue.Claimed(EnqueueAll(s.inbox, arrivals), cfg.session);
    SteersAdded(cfg.json, s.rows, claimed);
    SteersReplay(env, s.rows, AppendSteers(cfg.json, s.rows, claimed).rows);
  }

  lemma {:induction false} TextStepReadable(
    env: R.Env, cfg: Config, s: State, reply: Reply, capped: bool, arrivals: seq<Queue.Item>)
    requires reply.Reply? && !TextStep(cfg, s, reply, capped, arrivals).Stopped?
    requires Readable(env, s.rows) && BudgetHolds(env, Bills(TextStep(cfg, s, reply, capped, arrivals).s.rows))
    ensures var t := TextStep(cfg, s, reply, capped, arrivals).s;
            Readable(env, t.rows) && ContentOf(env, t.rows) == t.content
  {
    hide Steer, Bills, BudgetExceeded, Account, Trim, Readable, ContentOf, BudgetHolds;
    var content := FinalText(reply);
    var m := Message(Assistant, content, reply.thinking, "", []);
    var logged := s.(rows := s.rows + [AssistantRecord(m, reply.usage)]);
    TextStepBills(cfg, s, reply, capped, arrivals);
    LastBudget(env, Bills(TextStep(cfg, s, reply, capped, arrivals).s.rows));
    TextRead(env, s.rows, m, reply.usage);
    ReadableIs(env, logged.rows);
    SteerReadable(env, cfg, logged, arrivals);
  }

  lemma {:induction false} ReadableIs(env: R.Env, rows: seq<RunRecord>)
    ensures Readable(env, rows) ==> R.Scan(env, R.START, rows).Ok? && R.Scan(env, R.START, rows).value.pending == []
  {
  }

  lemma {:induction false} ValidCallsHaveIds(json: Json, m: Message)
    requires ValidMessage(json, m) && m.toolCalls != []
    ensures HasToolCallIds(m.toolCalls)
  {
    hide Trim;
    assert forall call | call in m.toolCalls :: ValidCall(json, call);
  }

  /** Results leave the content of the last text alone. */
  lemma {:induction false} ResultsKeepContent(env: R.Env, p: R.Replay, rows: seq<RunRecord>)
    requires R.Scan(env, p, rows).Ok? && forall r | r in rows :: r.kind.ToolResult?
    ensures R.Scan(env, p, rows).value.result.content == p.result.content
    decreases |rows|
  {
    hide R.ResultResponse;
    if rows != [] {
      ResultsKeepContent(env, R.Read(env, p, rows[0]).value, rows[1..]);
    }
  }

  /** The batch as it stands in the log before steers are added: read back exactly if its refused calls come last. */
  lemma {:induction false} BatchRead(
    env: R.Env, json: Json, rows: seq<RunRecord>, m: Message, usage: Usage, kinds: seq<Kind>,
    done: ToolCall -> Option<string>, refused: ToolCall -> Option<string>)
    requires |m.toolCalls| == |kinds| && m.toolCalls != [] && ValidMessage(json, m) && Readable(env, rows)
    requires BudgetExceeded(Account(Bills(rows) + [usage]), env.maxTokens, env.maxMicros).None?
    requires var executed :=
               AppendResults(json, rows + [AssistantRecord(m, usage)], OfKind(m.toolCalls, kinds, true), done);
             executed.failure == None
             && AppendResults(json, executed.rows, OfKind(m.toolCalls, kinds, false), refused).failure == None
    requires KnownResults(env, OfKind(m.toolCalls, kinds, true), done)
    requires KnownResults(env, OfKind(m.toolCalls, kinds, false), refused)
    ensures var executed :=
              AppendResults(json, rows + [AssistantRecord(m, usage)], OfKind(m.toolCalls, kinds, true), done);
            var after := AppendResults(json, executed.rows, OfKind(m.toolCalls, kinds, false), refused).rows;
            && (R.Scan(env, R.START, after).Ok? <==> RefusedLast(kinds))
            && (R.Scan(env, R.START, after).Ok? ==>
                  Readable(env, after) && ContentOf(env, after) == ContentOf(env, rows))
  {
    hide R.Scan, AppendResults, OfKind, RefusedLast, BudgetExceeded, Account, Bills, Acknowledged, DistinctCalls,
         HasToolCallIds;
    ValidCallsHaveIds(json, m);
    CallsRead(env, rows, m, usage);
    var logged := rows + [AssistantRecord(m, usage)];
    var e, r := OfKind(m.toolCalls, kinds, true), OfKind(m.toolCalls, kinds, false);
    LoggedDistinct(json, logged, m.toolCalls, kinds, done, refused);
    LoggedBatchReadable(env, json, logged, m.toolCalls, kinds, done, refused);
    var executed := AppendResults(json, logged, e, done).rows;
    var after := AppendResults(json, executed, r, refused).rows;
    ResultsAdded(json, logged, e, done);
    ResultsAdded(json, executed, r, refused);
    assert after == logged + (executed[|logged|..] + after[|executed|..]);
    if R.Scan(env, R.START, after).Ok? {
      ScanConcat(env, R.START, logged, executed[|logged|..] + after[|executed|..]);
      ResultsKeepContent(env, R.Scan(env, R.START, logged).value, executed[|logged|..] + after[|executed|..]);
    }
  }

  lemma {:induction false} KnownPrefix(env: R.Env, a: seq<RunRecord>, b: seq<RunRecord>)
    requires KnownRows(env, b) && a <= b
    ensures KnownRows(env, a)
  {
    hide Known;
    assert forall r | r in a :: r in b;
  }

  lemma {:induction false} KnownSuffix(env: R.Env, a: seq<RunRecord>, b: seq<RunRecord>)
    requires KnownRows(env, a + b)
    ensures KnownRows(env, a) && KnownRows(env, b)
  {
    hide Known;
    assert forall r | r in a || r in b :: r in a + b;
  }

  lemma {:induction false} BatchKnown(
    env: R.Env, json: Json, logged: seq<RunRecord>, executable: seq<ToolCall>, rejected: seq<ToolCall>,
    done: ToolCall -> Option<string>, refused: ToolCall -> Option<string>)
    requires var executed := AppendResults(json, logged, executable, done);
             var after := AppendResults(json, executed.rows, rejected, refused);
             executed.failure == None && after.failure == None && KnownRows(env, after.rows)
    ensures KnownResults(env, executable, done) && KnownResults(env, rejected, refused)
  {
    hide AppendResults, KnownRows, Acknowledged, ResultRows;
    var executed := AppendResults(json, logged, executable, done);
    AppendedRows(json, logged, executable, done);
    AppendedRows(json, executed.rows, rejected, refused);
    KnownSuffix(env, executed.rows, ResultRows(rejected, refused));
    KnownSuffix(env, logged, ResultRows(executable, done));
    RowsKnown(env, executable, done);
    RowsKnown(env, rejected, refused);
  }

  lemma {:induction false} BatchStepReadable(
    env: R.Env, cfg: Config, s: State, reply: Reply, kinds: seq<Kind>, input: Input)
    requires reply.Reply? && reply.toolCalls != [] && |kinds| == |reply.toolCalls| && Readable(env, s.rows)
    requires var e, r := OfKind(reply.toolCalls, kinds, true), OfKind(reply.toolCalls, kinds, false);
             var status := BatchStep(cfg, s, reply, e, r, Refusal(cfg), input);
             !status.Stopped? && BudgetHolds(env, Bills(status.s.rows)) && KnownRows(env, status.s.rows)
    ensures var e, r := OfKind(reply.toolCalls, kinds, true), OfKind(reply.toolCalls, kinds, false);
            var t := BatchStep(cfg, s, reply, e, r, Refusal(cfg), input).s;
            && (R.Scan(env, R.START, t.rows).Ok? <==> RefusedLast(kinds))
            && (R.Scan(env, R.START, t.rows).Ok? ==>
                  Readable(env, t.rows) && ContentOf(env, t.rows) == ContentOf(env, s.rows))
  {
    hide R.Scan, Steer, Bills, BudgetExceeded, Account, Readable, ContentOf, BudgetHolds, AppendResults, OfKind,
         ValidMessage, Refusal, RefusedLast, KnownResults, Executed, KnownRows;
    var e, r := OfKind(reply.toolCalls, kinds, true), OfKind(reply.toolCalls, kinds, false);
    var m := Message(Assistant, reply.content, reply.thinking, "", reply.toolCalls);
    BatchStepBills(cfg, s, reply, e, r, Refusal(cfg), input);
    var rows := BatchStep(cfg, s, reply, e, r, Refusal(cfg), input).s.rows;
    LastBudget(env, Bills(rows));
    var logged := s.rows + [AssistantRecord(m, reply.usage)];
    var executed := AppendResults(cfg.json, logged, e, input.outcome);
    var refused := AppendResults(cfg.json, executed.rows, r, Refusal(cfg));
    var ran := if e == [] then s.ran else s.ran + [Executed(s.iterations, e)];
    SteerBills(cfg, s.(rows := refused.rows, ran := ran), input.arrivals);
    KnownPrefix(env, refused.rows, rows);
    BatchKnown(env, cfg.json, logged, e, r, input.outcome, Refusal(cfg));
    BatchRead(env, cfg.json, s.rows, m, reply.usage, kinds, input.outcome, Refusal(cfg));
    ReadableIs(env, refused.rows);
    SteerReadable(env, cfg, s.(rows := refused.rows, ran := ran), input.arrivals);
  }

  /** One step: its log reads back exactly if its batch, if it runs one, has its refused calls last. */
  lemma {:induction false} StepReadable(env: R.Env, cfg: Config, s: State, input: Input)
    requires Readable(env, s.rows) && ContentOf(env, s.rows) == s.content && !Step(cfg, s, input).Stopped?
    requires KnownRows(env, Step(cfg, s, input).s.rows) && BudgetHolds(env, Bills(Step(cfg, s, input).s.rows))
    ensures var t := Step(cfg, s, input).s;
            && (R.Scan(env, R.START, t.rows).Ok? <==> OrderedStep(cfg, s, input))
            && (R.Scan(env, R.START, t.rows).Ok? ==> Readable(env, t.rows) && ContentOf(env, t.rows) == t.content)
  {
    hide R.Scan, Bills, Readable, ContentOf, BudgetHolds, TextStep, BatchStep, Repeated, AddUsage, BudgetExhausted,
         Kinds, OfKind, SignatureOf, CallIds, Refusal, RefusedLast, KnownRows, ValidCall, Trim;
    var counted := s.(iterations := s.iterations + 1, usage := AddUsage(s.usage, input.reply.usage));
    var reply := input.reply;
    ReadableIs(env, s.rows);
    SameLoop(cfg, s, counted, reply);
    if AnswersInText(cfg, s, reply) {
      TextStepReadable(env, cfg, counted, reply, Capped(cfg, s), input.arrivals);
      ReadableIs(env, Step(cfg, s, input).s.rows);
    } else if !LoopDetected(cfg, counted, reply) {
      BadCallEndsRun(cfg, counted, reply, input);
      var kinds := KindsOf(cfg, counted, reply);
      var sig := SignatureOf(OfKind(reply.toolCalls, kinds, true));
      var known := counted.(seen := s.seen + CallIds(reply.toolCalls),
                            sigs := if sig == [] then s.sigs else s.sigs + [sig]);
      BatchStepReadable(env, cfg, known, reply, kinds, input);
    }
  }

  lemma {:induction false} PrefixBudget(env: R.Env, a: seq<Usage>, b: seq<Usage>)
    requires BudgetHolds(env, b) && a <= b
    ensures BudgetHolds(env, a)
  {
    hide Account, BudgetExceeded;
    assert forall n | 0 <= n <= |a| :: a[..n] == b[..n];
  }

  lemma {:induction false} RunGrows(cfg: Config, s: State, script: seq<Input>)
    ensures s.rows <= Run(cfg, s, script).s.rows && Bills(s.rows) <= Bills(Run(cfg, s, script).s.rows)
  {
    hide Run, Bills, Answers;
    RunAdds(cfg, s, script);
    RunBills(cfg, s, script);
  }

  lemma {:induction false} UnreadableStays(env: R.Env, a: seq<RunRecord>, b: seq<RunRecord>)
    requires a <= b && R.Scan(env, R.START, b).Ok?
    ensures R.Scan(env, R.START, a).Ok?
  {
    ScanPrefix(env, b, |a|);
    assert b[..|a|] == a;
  }

  lemma {:induction false} RunReads(env: R.Env, cfg: Config, s: State, script: seq<Input>)
    requires Readable(env, s.rows) && ContentOf(env, s.rows) == s.content && !Run(cfg, s, script).Stopped?
    requires var rows := Run(cfg, s, script).s.rows; KnownRows(env, rows) && BudgetHolds(env, Bills(rows))
    ensures var t := Run(cfg, s, script).s;
            && (R.Scan(env, R.START, t.rows).Ok? <==> OrderedRun(cfg, s, script))
            && (R.Scan(env, R.START, t.rows).Ok? ==> Readable(env, t.rows) && ContentOf(env, t.rows) == t.content)
    decreases |script|
  {
    hide R.Scan, Bills, ContentOf, BudgetHolds, Step, OrderedStep, Readable, KnownRows;
    ReadableIs(env, s.rows);
    if script != [] {
      var status := Step(cfg, s, script[0]);
      var whole := Run(cfg, s, script).s.rows;
      if status.Running? {
        RunGrows(cfg, status.s, script[1..]);
      }
      PrefixBudget(env, Bills(status.s.rows), Bills(whole));
      KnownPrefix(env, status.s.rows, whole);
      StepReadable(env, cfg, s, script[0]);
      if status.Running? {
        if R.Scan(env, R.START, status.s.rows).Ok? {
          RunReads(env, cfg, status.s, script[1..]);
        } else if R.Scan(env, R.START, whole).Ok? {
          UnreadableStays(env, status.s.rows, whole);
        }
      }
    }
  }

  /**
   * The log of a run that goes on or ends in time is replayed exactly if in every batch the refused calls came last,
   * recovery knows every result, and no bill exceeds its budget. Then nothing is open in it, and it has the content of
   * the run.
   */
  lemma {:induction false} RunReadable(env: R.Env, cfg: Config, s: State, script: seq<Input>)
    requires Readable(env, s.rows) && ContentOf(env, s.rows) == s.content && !Run(cfg, s, script).Stopped?
    ensures var t := Run(cfg, s, script).s;
            && (R.Scan(env, R.START, t.rows).Ok? <==>
                OrderedRun(cfg, s, script) && KnownRows(env, t.rows) && BudgetHolds(env, Bills(t.rows)))
            && (R.Scan(env, R.START, t.rows).Ok? ==> Readable(env, t.rows) && ContentOf(env, t.rows) == t.content)
  {
    hide R.Scan, Bills, ContentOf, BudgetHolds, OrderedRun, Readable, KnownRows, Run;
    var rows := Run(cfg, s, script).s.rows;
    if R.Scan(env, R.START, rows).Ok? {
      ScanKnown(env, R.START, rows);
      ScanBudget(env, rows);
    }
    if KnownRows(env, rows) && BudgetHolds(env, Bills(rows)) {
      RunReads(env, cfg, s, script);
    }
  }

  // ----- the state that recovery brings back -----

  /**
   * A run as `Prepare` or a recovery starts it: its counters are those of its log,
   * which reads back within the budget.
   */
  ghost predicate Restorable(env: R.Env, s: State) {
    && Readable(env, s.rows) && ContentOf(env, s.rows) == s.content
    && Accounted(s) && s.seen == LoggedIds(s.rows) && BudgetHolds(env, Bills(s.rows))
  }

  lemma {:induction false} InputsScan(env: R.Env, p: R.Replay, rows: seq<RunRecord>)
    requires !p.generated && forall r | r in rows :: r.kind.InputMessage?
    ensures R.Scan(env, p, rows).Ok?
    ensures R.Scan(env, p, rows).value.pending == p.pending && R.Scan(env, p, rows).value.result == p.result
    ensures LoggedIds(rows) == {}
    decreases |rows|
  {
    if rows != [] {
      InputsScan(env, R.Read(env, p, rows[0]).value, rows[1..]);
    }
  }

  lemma {:induction false} PreparedIsRestorable(env: R.Env, initial: seq<Message>, inbox: seq<Queue.Item>)
    ensures Restorable(env, Prepared(initial, inbox))
  {
    hide R.Scan, LoggedIds;
    var rows := InputRows(initial);
    InputRowsAt(initial);
    assert forall r | r in rows :: r.kind.InputMessage?;
    InputsScan(env, R.START, rows);
    NoBills(rows);
    AccountNone();
  }

  lemma {:induction false} ResumedIsRestorable(env: R.Env, s: State)
    requires Resumed(env, s).Some?
    ensures Restorable(env, Resumed(env, s).value)
  {
    hide R.Scan, LoggedIds, Bills, Account, Accounts, R.Complete, BudgetExceeded;
    RestoredIsScan(env, s.rows);
    var rows := R.Restored(env, s.rows).rows;
    ScanSeen(env, R.START, rows);
    AccountNone();
    ScanAccounts(env, R.START, rows, []);
    assert [] + Bills(rows) == Bills(rows);
    ScanBudget(env, rows);
  }

  /** An accepted log stays within the budget after each of its bills. */
  lemma {:induction false} ScanBudget(env: R.Env, rows: seq<RunRecord>)
    requires R.Scan(env, R.START, rows).Ok?
    ensures BudgetHolds(env, Bills(rows))
    decreases |rows|
  {
    hide R.Scan, Account, BudgetExceeded, AddUsage, Bills, BudgetHolds;
    if rows == [] {
      NoBudget(env);
    } else {
      var last := |rows| - 1;
      var front, row := rows[..last], rows[last];
      assert rows == front + [row];
      ScanPrefix(env, rows, last);
      assert rows[..last + 1] == rows;
      ScanBudget(env, front);
      UsageRead(env, front);
      if row.kind.AssistantMessage? {
        LastBill(front, row);
        AccountSnoc(Bills(front), row.usage);
        assert BudgetExceeded(Account(Bills(front) + [row.usage]), env.maxTokens, env.maxMicros).None?;
        MoreBudget(env, Bills(front), row.usage);
      } else {
        assert rows[last..] == [row];
        SameBills(front, rows);
      }
    }
  }

  lemma {:induction false} LastBill(rows: seq<RunRecord>, row: RunRecord)
    requires row.kind.AssistantMessage?
    ensures Bills(rows + [row]) == Bills(rows) + [row.usage]
  {
    BillsConcat(rows, [row]);
    assert [row][1..] == [];
  }

  lemma {:induction false} NoBudget(env: R.Env)
    ensures BudgetHolds(env, Bills([]))
  {
    AccountNone();
  }

  lemma {:induction false} MoreBudget(env: R.Env, bills: seq<Usage>, u: Usage)
    requires BudgetHolds(env, bills)
    requires BudgetExceeded(Account(bills + [u]), env.maxTokens, env.maxMicros).None?
    ensures BudgetHolds(env, bills + [u])
  {
    hide Account, BudgetExceeded;
    var more := bills + [u];
    forall n | 0 <= n <= |more|
      ensures BudgetExceeded(Account(more[..n]), env.maxTokens, env.maxMicros).None?
    {
      if n <= |bills| {
        assert more[..n] == bills[..n];
      } else {
        assert more[..n] == more;
      }
    }
  }

  // ----- the invariant over a run that loses no reply -----

  lemma {:induction false} NothingLogged(rows: seq<RunRecord>, after: seq<RunRecord>)
    requires rows <= after && forall r | r in after[|rows|..] :: !r.kind.AssistantMessage?
    ensures LoggedIds(after) == LoggedIds(rows)
  {
    assert after == rows + after[|rows|..];
    LoggedConcat(rows, after[|rows|..]);
    NoIdsLogged(after[|rows|..]);
  }

  lemma {:induction false} NoIdsLogged(rows: seq<RunRecord>)
    requires forall r | r in rows :: !r.kind.AssistantMessage?
    ensures LoggedIds(rows) == {}
  {
    if rows != [] {
      NoIdsLogged(rows[1..]);
    }
  }

  lemma {:induction false} SteerLogsNothing(cfg: Config, s: State, arrivals: seq<Queue.Item>)
    ensures LoggedIds(Steer(cfg, s, arrivals).0.rows) == LoggedIds(s.rows)
  {
    hide AppendSteers, Queue.Claimed, Queue.Left, EnqueueAll, LoggedIds;
    var claimed := Queue.Claimed(EnqueueAll(s.inbox, arrivals), cfg.session);
    SteersAdded(cfg.json, s.rows, claimed);
    NothingLogged(s.rows, AppendSteers(cfg.json, s.rows, claimed).rows);
  }

  lemma {:induction false} TextStepSeen(
    cfg: Config, s: State, reply: Reply, capped: bool, arrivals: seq<Queue.Item>)
    requires reply.Reply?
    ensures LoggedIds(TextStep(cfg, s, reply, capped, arrivals).s.rows) == LoggedIds(s.rows)
  {
    hide LoggedIds, Steer, BudgetExceeded, Trim, FinalText;
    var m := Message(Assistant, FinalText(reply), reply.thinking, "", []);
    LoggedBatch(s.rows, m, reply.usage);
    NoIds();
    SteerLogsNothing(cfg, s.(rows := s.rows + [AssistantRecord(m, reply.usage)]), arrivals);
  }

  lemma {:induction false} BatchStepSeen(
    cfg: Config, s: State, reply: Reply, executable: seq<ToolCall>, rejected: seq<ToolCall>,
    refuse: ToolCall -> Option<string>, input: Input)
    requires reply.Reply? && Loggable(cfg.json, reply)
    ensures LoggedIds(BatchStep(cfg, s, reply, executable, rejected, refuse, input).s.rows) ==
            LoggedIds(s.rows) + CallIds(reply.toolCalls)
  {
    hide LoggedIds, Steer, BudgetExceeded, ValidCall, AppendResults, CallIds, Executed;
    var m := Message(Assistant, reply.content, reply.thinking, "", reply.toolCalls);
    var logged := s.rows + [AssistantRecord(m, reply.usage)];
    LoggedBatch(s.rows, m, reply.usage);
    var executed := AppendResults(cfg.json, logged, executable, input.outcome);
    ResultsAdded(cfg.json, logged, executable, input.outcome);
    NothingLogged(logged, executed.rows);
    var refused := AppendResults(cfg.json, executed.rows, rejected, refuse);
    ResultsAdded(cfg.json, executed.rows, rejected, refuse);
    NothingLogged(executed.rows, refused.rows);
    var ran := if executable == [] then s.ran else s.ran + [Executed(s.iterations, executable)];
    SteerLogsNothing(cfg, s.(rows := refused.rows, ran := ran), input.arrivals);
  }

  lemma {:induction false} StepSeen(cfg: Config, s: State, input: Input)
    requires s.seen == LoggedIds(s.rows) && !Lost(cfg, s, input)
    ensures Step(cfg, s, input).s.seen == LoggedIds(Step(cfg, s, input).s.rows)
  {
    hide TextStep, BatchStep, Repeated, AddUsage, BudgetExhausted, Kinds, OfKind, SignatureOf, CallIds, Refusal,
         LoggedIds, Loggable, Trim, FinalText;
    var counted := s.(iterations := s.iterations + 1, usage := AddUsage(s.usage, input.reply.usage));
    var reply := input.reply;
    if Counts(cfg, s, input) {
      if AnswersInText(cfg, s, reply) {
        TextStepSeen(cfg, counted, reply, Capped(cfg, s), input.arrivals);
      } else {
        var kinds := KindsOf(cfg, counted, reply);
        var e, r := OfKind(reply.toolCalls, kinds, true), OfKind(reply.toolCalls, kinds, false);
        var sig := SignatureOf(e);
        var known := counted.(seen := s.seen + CallIds(reply.toolCalls),
                              sigs := if sig == [] then s.sigs else s.sigs + [sig]);
        BatchStepSeen(cfg, known, reply, e, r, Refusal(cfg), input);
      }
    }
  }

  lemma {:induction false} StepInBudget(cfg: Config, s: State, input: Input)
    requires !Step(cfg, s, input).Stopped? && !Lost(cfg, s, input)
    ensures BudgetExceeded(AddUsage(s.usage, input.reply.usage), cfg.maxTokens, cfg.maxMicros).None?
  {
    hide Repeated, AddUsage, BudgetExhausted, BudgetExceeded, Kinds, OfKind, SignatureOf, CallIds, Refusal, Steer,
         AppendResults, ValidMessage, Loggable, Trim, FinalText, Executed;
  }

  /** The counters are those of the log, and unless the run stops here, the step spends within the budget. */
  lemma {:induction false} StepKeepsCounters(env: R.Env, cfg: Config, s: State, input: Input)
    requires Accounted(s) && s.seen == LoggedIds(s.rows) && BudgetHolds(env, Bills(s.rows))
    requires env.maxTokens == cfg.maxTokens && env.maxMicros == cfg.maxMicros && !Lost(cfg, s, input)
    ensures var status := Step(cfg, s, input); var t := status.s;
            && Accounted(t) && t.seen == LoggedIds(t.rows) && (!status.Stopped? ==> BudgetHolds(env, Bills(t.rows)))
  {
    StepBills(cfg, s, input);
    StepSeen(cfg, s, input);
    if !Step(cfg, s, input).Stopped? {
      StepInBudget(cfg, s, input);
    }
    hide Bills, Account, Step, BudgetExceeded, LoggedIds, BudgetHolds, AddUsage, Counts, Lost;
    AccountSnoc(Bills(s.rows), input.reply.usage);
    if !Step(cfg, s, input).Stopped? {
      MoreBudget(env, Bills(s.rows), input.reply.usage);
    }
  }

  lemma {:induction false} NoLosses(cfg: Config, s: State, script: seq<Input>)
    requires script != [] && Losses(cfg, s, script) == []
    ensures !Lost(cfg, s, script[0])
    ensures Step(cfg, s, script[0]).Running? ==> Losses(cfg, Step(cfg, s, script[0]).s, script[1..]) == []
  {
    hide Step;
    StepBills(cfg, s, script[0]);
    var answers := Answers(cfg, s, script);
    if answers != [] && Step(cfg, s, script[0]).Running? {
      assert answers[1..] == Answers(cfg, Step(cfg, s, script[0]).s, script[1..]);
    }
  }

  lemma {:induction false} RunKeepsCounters(env: R.Env, cfg: Config, s: State, script: seq<Input>)
    requires Accounted(s) && s.seen == LoggedIds(s.rows) && BudgetHolds(env, Bills(s.rows))
    requires env.maxTokens == cfg.maxTokens && env.maxMicros == cfg.maxMicros && Losses(cfg, s, script) == []
    ensures var status := Run(cfg, s, script); var t := status.s;
            && Accounted(t) && t.seen == LoggedIds(t.rows) && (!status.Stopped? ==> BudgetHolds(env, Bills(t.rows)))
    decreases |script|
  {
    hide Bills, Account, Step, LoggedIds, BudgetHolds, Accounted, Losses, Lost;
    if script != [] {
      NoLosses(cfg, s, script);
      StepKeepsCounters(env, cfg, s, script[0]);
      if Step(cfg, s, script[0]).Running? {
        RunKeepsCounters(env, cfg, Step(cfg, s, script[0]).s, script[1..]);
      }
    }
  }

  /**
   * A run that loses no reply and goes on or ends in time leaves a log that recovery accepts exactly if in every batch
   * the refused calls came last and recovery knows every result; then recovery appends nothing. However such a run
   * ends, a recovery that has nothing to append brings back its usage, iterations and seen ids, and, unless it
   * stopped, its content. The law holds for new runs and for recovered ones.
   */
  lemma {:induction false} LiveLogRestores(env: R.Env, cfg: Config, s: State, script: seq<Input>)
    requires Restorable(env, s) && Losses(cfg, s, script) == []
    requires env.maxTokens == cfg.maxTokens && env.maxMicros == cfg.maxMicros
    ensures var status := Run(cfg, s, script); var live, back := status.s, R.Restored(env, status.s.rows);
            && (!status.Stopped? ==>
                  && (back.state.Ok? <==> OrderedRun(cfg, s, script) && KnownRows(env, live.rows))
                  && (back.state.Ok? ==> back.rows == live.rows && back.state.value.result.content == live.content))
            && (back.state.Ok? && back.rows == live.rows ==>
                  && back.state.value.seen == live.seen && back.state.value.result.usage == live.usage
                  && back.state.value.result.iterations == live.iterations)
  {
    hide R.Scan, Bills, Account, Accounts, LoggedIds, BudgetHolds, OrderedRun, KnownRows, Run, Losses, LessTokens,
         Answers;
    var status := Run(cfg, s, script);
    RunKeepsCounters(env, cfg, s, script);
    if !status.Stopped? {
      RunReadable(env, cfg, s, script);
    }
    if R.Restored(env, status.s.rows).state.Ok? {
      RestoredIsScan(env, status.s.rows);
      ScanSeen(env, R.START, R.Restored(env, status.s.rows).rows);
      RecoveredUsage(env, status.s.rows);
    }
  }
}
