/** What a run writes to its log: bills, ids, and batches that cannot be written at all. */
module LiveLog {
  import opened Text
  import opened Messages
  import opened Repair
  import opened Records
  import opened ToolCalls
  import opened RunLoop
  import opened CrashRecovery
  import Restore
  import Queue = Inbox

  // ----- the rows a step adds -----

  lemma {:induction false} ResultsAdded(
    json: Json, rows: seq<RunRecord>, calls: seq<ToolCall>, outcome: ToolCall -> Option<string>)
    ensures var after := AppendResults(json, rows, calls, outcome).rows;
            rows <= after && forall r | r in after[|rows|..] :: r.kind.ToolResult?
    decreases |calls|
  {
    hide ValidMessage, HasResult;
    if calls != [] && outcome(calls[0]).Some? {
      var m := ToolMessage(calls[0].id, outcome(calls[0]).value);
      if AppendResult(json, rows, m).Ok? {
        var more := rows + [ToolRecord(m)];
        ResultsAdded(json, more, calls[1..], outcome);
        var after := AppendResults(json, more, calls[1..], outcome).rows;
        assert after[|rows|..] == [ToolRecord(m)] + after[|more|..];
      }
    }
  }

  lemma {:induction false} SteersAdded(json: Json, rows: seq<RunRecord>, items: seq<Queue.Item>)
    ensures var after := AppendSteers(json, rows, items).rows;
            rows <= after && forall r | r in after[|rows|..] :: r.kind.InputMessage? && r.message.role.User?
    decreases |items|
  {
    hide Trim;
    if items != [] {
      var m := UserMessage(items[0].text);
      if items[0].persisted {
        SteersAdded(json, rows, items[1..]);
      } else if Trim(m.content) != "" {
        var more := rows + [InputRecord(m)];
        SteersAdded(json, more, items[1..]);
        var after := AppendSteers(json, more, items[1..]).rows;
        assert after[|rows|..] == [InputRecord(m)] + after[|more|..];
      }
    }
  }

  lemma {:induction false} BillsConcat(a: seq<RunRecord>, b: seq<RunRecord>)
    ensures Bills(a + b) == Bills(a) + Bills(b)
  {
    if a == [] {
      assert a + b == b;
    } else {
      var first := if a[0].kind.AssistantMessage? then [a[0].usage] else [];
      assert (a + b)[0] == a[0] && (a + b)[1..] == a[1..] + b;
      BillsConcat(a[1..], b);
      assert Bills(a) == first + Bills(a[1..]) && Bills(a + b) == first + Bills(a[1..] + b);
      hide Bills;
      ConcatAssoc(first, Bills(a[1..]), Bills(b));
    }
  }

  lemma {:induction false} NoBills(rows: seq<RunRecord>)
    requires forall r | r in rows :: !r.kind.AssistantMessage?
    ensures Bills(rows) == []
  {
    if rows != [] {
      NoBills(rows[1..]);
    }
  }

  /** Rows that are no assistant's leave the bills alone. */
  lemma {:induction false} SameBills(rows: seq<RunRecord>, after: seq<RunRecord>)
    requires rows <= after && forall r | r in after[|rows|..] :: !r.kind.AssistantMessage?
    ensures Bills(after) == Bills(rows)
  {
    assert after == rows + after[|rows|..];
    BillsConcat(rows, after[|rows|..]);
    NoBills(after[|rows|..]);
  }

  lemma {:induction false} OneBill(rows: seq<RunRecord>, m: Message, usage: Usage)
    ensures Bills(rows + [AssistantRecord(m, usage)]) == Bills(rows) + [usage]
  {
    BillsConcat(rows, [AssistantRecord(m, usage)]);
    assert [AssistantRecord(m, usage)][1..] == [];
  }

  lemma {:induction false} SteerBills(cfg: Config, s: State, arrivals: seq<Queue.Item>)
    ensures s.rows <= Steer(cfg, s, arrivals).0.rows && Bills(Steer(cfg, s, arrivals).0.rows) == Bills(s.rows)
  {
    hide Bills, Queue.Claimed, AppendSteers;
    var claimed := Queue.Claimed(EnqueueAll(s.inbox, arrivals), cfg.session);
    SteersAdded(cfg.json, s.rows, claimed);
    SameBills(s.rows, AppendSteers(cfg.json, s.rows, claimed).rows);
  }

  lemma {:induction false} TextStepBills(
    cfg: Config, s: State, reply: Reply, capped: bool, arrivals: seq<Queue.Item>)
    requires reply.Reply? && Trim(FinalText(reply)) != ""
    ensures var rows := TextStep(cfg, s, reply, capped, arrivals).s.rows;
            s.rows <= rows && Bills(rows) == Bills(s.rows) + [reply.usage]
  {
    hide Bills, Steer, BudgetExceeded, Trim, FinalText;
    var m := Message(Assistant, FinalText(reply), reply.thinking, "", []);
    OneBill(s.rows, m, reply.usage);
    SteerBills(cfg, s.(rows := s.rows + [AssistantRecord(m, reply.usage)]), arrivals);
  }

  /** The assistant's record comes first, and whatever follows it is not an assistant's. */
  lemma {:induction false} BatchStepBills(
    cfg: Config, s: State, reply: Reply, executable: seq<ToolCall>, rejected: seq<ToolCall>,
    refuse: ToolCall -> Option<string>, input: Input)
    requires reply.Reply?
    requires ValidMessage(cfg.json, Message(Assistant, reply.content, reply.thinking, "", reply.toolCalls))
    ensures var m := Message(Assistant, reply.content, reply.thinking, "", reply.toolCalls);
            var rows := BatchStep(cfg, s, reply, executable, rejected, refuse, input).s.rows;
            s.rows + [AssistantRecord(m, reply.usage)] <= rows && Bills(rows) == Bills(s.rows) + [reply.usage]
  {
    hide Bills, Steer, BudgetExceeded, ValidMessage, AppendResults;
    var m := Message(Assistant, reply.content, reply.thinking, "", reply.toolCalls);
    var logged := s.rows + [AssistantRecord(m, reply.usage)];
    OneBill(s.rows, m, reply.usage);
    var executed := AppendResults(cfg.json, logged, executable, input.outcome);
    ResultsAdded(cfg.json, logged, executable, input.outcome);
    SameBills(logged, executed.rows);
    var refused := AppendResults(cfg.json, executed.rows, rejected, refuse);
    ResultsAdded(cfg.json, executed.rows, rejected, refuse);
    SameBills(executed.rows, refused.rows);
    var ran := if executable == [] then s.ran else s.ran + [Executed(s.iterations, executable)];
    SteerBills(cfg, s.(rows := refused.rows, ran := ran), input.arrivals);
  }

  // ----- a batch with a bad call -----

  /** The batch of a reply that loop detection would stop. */
  ghost predicate LoopDetected(cfg: Config, s: State, reply: Reply)
    requires reply.Reply?
  {
    var kinds := Kinds(cfg.json, reply.toolCalls, cfg.advertised, s.seen);
    var sig := SignatureOf(OfKind(reply.toolCalls, kinds, true));
    sig != [] && Repeated(s.sigs + [sig], WINDOW, MAX_REPEATS)
  }

  /**
   * A tool step that no loop stops ends the run with nothing logged exactly when some call of the reply has a blank id,
   * a blank name or arguments that are not JSON: such a call is not answered as refused, it fails the run.
   */
  lemma {:induction false} BadCallEndsRun(cfg: Config, s: State, reply: Reply, input: Input)
    requires reply.Reply? && !LoopDetected(cfg, s, reply)
    ensures var status := ToolStep(cfg, s, reply, input);
            status.Stopped? && status.failure == Log(CorruptHistory) && status.s.rows == s.rows <==>
            exists call :: call in reply.toolCalls && !ValidCall(cfg.json, call)
  {
    hide Repeated, Kinds, OfKind, SignatureOf, CallIds, BatchStep, ValidCall, Refusal;
    var kinds := Kinds(cfg.json, reply.toolCalls, cfg.advertised, s.seen);
    var executable, rejected := OfKind(reply.toolCalls, kinds, true), OfKind(reply.toolCalls, kinds, false);
    var sig := SignatureOf(executable);
    var known := s.(seen := s.seen + CallIds(reply.toolCalls), sigs := if sig == [] then s.sigs else s.sigs + [sig]);
    assert ToolStep(cfg, s, reply, input) ==
           BatchStep(cfg, known, reply, executable, rejected, Refusal(cfg), input);
    BadBatch(cfg, known, reply, executable, rejected, Refusal(cfg), input);
  }

  lemma {:induction false} BadBatch(
    cfg: Config, s: State, reply: Reply, executable: seq<ToolCall>, rejected: seq<ToolCall>,
    refuse: ToolCall -> Option<string>, input: Input)
    requires reply.Reply?
    ensures var status := BatchStep(cfg, s, reply, executable, rejected, refuse, input);
            status.Stopped? && status.failure == Log(CorruptHistory) && status.s.rows == s.rows <==>
            exists call :: call in reply.toolCalls && !ValidCall(cfg.json, call)
  {
    hide Steer, AppendResults, ValidCall, SignatureOf, BudgetExceeded;
    var m := Message(Assistant, reply.content, reply.thinking, "", reply.toolCalls);
    if ValidMessage(cfg.json, m) {
      BatchStepBills(cfg, s, reply, executable, rejected, refuse, input);
    }
  }

  // ----- replies that are counted but not logged -----

  /** The step asks the provider: it counts an iteration and adds the usage of the answer. */
  predicate Counts(cfg: Config, s: State, input: Input) {
    !input.cancelled && BudgetExhausted(s.usage, cfg.maxTokens, cfg.maxMicros).None?
  }

  predicate AnswersInText(cfg: Config, s: State, reply: Reply)
    requires reply.Reply?
  {
    reply.toolCalls == [] || s.disabled || Capped(cfg, s)
  }

  predicate Loggable(json: Json, reply: Reply)
    requires reply.Reply?
  {
    forall call | call in reply.toolCalls :: ValidCall(json, call)
  }

  /**
   * The step counts its reply and logs nothing of it: the provider failed, the text is empty, the batch is a tool loop,
   * or it has a call that cannot be logged.
   */
  ghost predicate Lost(cfg: Config, s: State, input: Input) {
    var reply := input.reply;
    Counts(cfg, s, input) &&
    (reply.NoReply? ||
     if AnswersInText(cfg, s, reply) then Trim(FinalText(reply)) == ""
     else LoopDetected(cfg, s, reply) || !Loggable(cfg.json, reply))
  }

  lemma {:induction false} ToolStepOf(cfg: Config, s: State, input: Input)
    requires Counts(cfg, s, input) && input.reply.Reply? && !AnswersInText(cfg, s, input.reply)
    ensures var counted := s.(iterations := s.iterations + 1, usage := AddUsage(s.usage, input.reply.usage));
            Step(cfg, s, input) == ToolStep(cfg, counted, input.reply, input)
  {
    hide ToolStep, TextStep, AddUsage, BudgetExhausted;
  }

  lemma {:induction false} LoopStep(cfg: Config, s: State, reply: Reply, input: Input)
    requires reply.Reply? && LoopDetected(cfg, s, reply)
    ensures var status := ToolStep(cfg, s, reply, input); var t := status.s;
            && status.Running? && t.disabled && t.rows == s.rows && t.iterations == s.iterations && t.usage == s.usage
  {
    hide BatchStep, Repeated, Kinds, OfKind, SignatureOf, CallIds, Refusal;
  }

  /**
   * However a step ends: if it counts its reply, the reply's usage is added to the account, and it is billed in the log
   * unless the reply is lost. Tools are disabled only by a loop.
   */
  lemma {:induction false} StepBills(cfg: Config, s: State, input: Input)
    ensures !Counts(cfg, s, input) ==> Step(cfg, s, input).Stopped? && Step(cfg, s, input).s == s
    ensures var t := Step(cfg, s, input).s;
            Counts(cfg, s, input) ==>
              && t.iterations == s.iterations + 1 && t.usage == AddUsage(s.usage, input.reply.usage)
              && s.rows <= t.rows && (t.disabled == s.disabled || Lost(cfg, s, input))
              && Bills(t.rows) == if Lost(cfg, s, input) then Bills(s.rows) else Bills(s.rows) + [input.reply.usage]
  {
    hide Bills, TextStep, ToolStep, AddUsage, BudgetExhausted, LoopDetected, Loggable, Trim, FinalText;
    var counted := s.(iterations := s.iterations + 1, usage := AddUsage(s.usage, input.reply.usage));
    var reply := input.reply;
    if reply.Reply? {
      if AnswersInText(cfg, s, reply) {
        TextStepCounts(cfg, counted, reply, Capped(cfg, s), input.arrivals);
      } else {
        SameLoop(cfg, s, counted, reply);
        ToolStepBills(cfg, counted, reply, input);
      }
    }
  }

  lemma {:induction false} SameLoop(cfg: Config, s: State, t: State, reply: Reply)
    requires reply.Reply? && s.seen == t.seen && s.sigs == t.sigs
    ensures LoopDetected(cfg, s, reply) == LoopDetected(cfg, t, reply)
  {
  }

  lemma {:induction false} TextStepCounts(
    cfg: Config, s: State, reply: Reply, capped: bool, arrivals: seq<Queue.Item>)
    requires reply.Reply?
    ensures var t := TextStep(cfg, s, reply, capped, arrivals).s;
            && t == s.(rows := t.rows, inbox := t.inbox, content := t.content) && s.rows <= t.rows
            && Bills(t.rows) == if Trim(FinalText(reply)) == "" then Bills(s.rows) else Bills(s.rows) + [reply.usage]
  {
    hide Bills, Steer, BudgetExceeded, Trim, FinalText;
    if Trim(FinalText(reply)) != "" {
      TextStepBills(cfg, s, reply, capped, arrivals);
    }
  }

  lemma {:induction false} ToolStepBills(cfg: Config, s: State, reply: Reply, input: Input)
    requires reply.Reply?
    ensures var t, lost := ToolStep(cfg, s, reply, input).s, LoopDetected(cfg, s, reply) || !Loggable(cfg.json, reply);
            && t.iterations == s.iterations && t.usage == s.usage && s.rows <= t.rows
            && (t.disabled == s.disabled || lost)
            && Bills(t.rows) == if lost then Bills(s.rows) else Bills(s.rows) + [reply.usage]
  {
    hide Bills, Repeated, Kinds, OfKind, SignatureOf, CallIds, Refusal, Steer, AppendResults, ValidCall,
        BudgetExceeded;
    var kinds := Kinds(cfg.json, reply.toolCalls, cfg.advertised, s.seen);
    var executable, rejected := OfKind(reply.toolCalls, kinds, true), OfKind(reply.toolCalls, kinds, false);
    var sig := SignatureOf(executable);
    var known := s.(seen := s.seen + CallIds(reply.toolCalls), sigs := if sig == [] then s.sigs else s.sigs + [sig]);
    if !LoopDetected(cfg, s, reply) && Loggable(cfg.json, reply) {
      BatchStepBills(cfg, known, reply, executable, rejected, Refusal(cfg), input);
    }
  }

  // ----- live accounts and recovered ones -----

  /** A reply that a run counted. */
  datatype Answer = Answer(usage: Usage, lost: bool)

  ghost function Answers(cfg: Config, s: State, script: seq<Input>): seq<Answer>
    decreases |script|
  {
    if script == [] || !Counts(cfg, s, script[0]) then [] else
      var status := Step(cfg, s, script[0]);
      [Answer(script[0].reply.usage, Lost(cfg, s, script[0]))]
      + if status.Running? then Answers(cfg, status.s, script[1..]) else []
  }

  function UsagesOf(answers: seq<Answer>): seq<Usage> {
    if answers == [] then [] else [answers[0].usage] + UsagesOf(answers[1..])
  }

  function KeptOf(answers: seq<Answer>): seq<Usage> {
    if answers == [] then [] else (if answers[0].lost then [] else [answers[0].usage]) + KeptOf(answers[1..])
  }

  function LostOf(answers: seq<Answer>): seq<Usage> {
    if answers == [] then [] else (if answers[0].lost then [answers[0].usage] else []) + LostOf(answers[1..])
  }

  /** The usages of the replies that a run counted and did not log. */
  ghost function Losses(cfg: Config, s: State, script: seq<Input>): seq<Usage> {
    LostOf(Answers(cfg, s, script))
  }

  function Spend(total: Usage, us: seq<Usage>): Usage
    decreases |us|
  {
    if us == [] then total else Spend(AddUsage(total, us[0]), us[1..])
  }

  /**
   * However a run ends, the live account holds every reply it counted, and its log bills the same replies, in order,
   * but for the lost ones.
   */
  lemma {:induction false} RunBills(cfg: Config, s: State, script: seq<Input>)
    ensures var t, answers := Run(cfg, s, script).s, Answers(cfg, s, script);
            && t.iterations == s.iterations + |answers| && t.usage == Spend(s.usage, UsagesOf(answers))
            && Bills(t.rows) == Bills(s.rows) + KeptOf(answers)
    decreases |script|
  {
    hide Step, Bills, AddUsage, Lost, Counts;
    var answers := Answers(cfg, s, script);
    if answers == [] {
      if script != [] {
        StepBills(cfg, s, script[0]);
      }
      assert Bills(s.rows) + [] == Bills(s.rows);
    } else {
      StepBills(cfg, s, script[0]);
      var status := Step(cfg, s, script[0]);
      OneAnswer(answers[0]);
      assert answers == [answers[0]] + answers[1..];
      if status.Running? {
        RunBills(cfg, status.s, script[1..]);
        assert answers[1..] == Answers(cfg, status.s, script[1..]);
        if !answers[0].lost {
          ConcatAssoc(Bills(s.rows), [answers[0].usage], KeptOf(answers[1..]));
        } else {
          assert [] + KeptOf(answers[1..]) == KeptOf(answers[1..]);
        }
      } else {
        assert answers == [answers[0]];
        assert Bills(s.rows) + [] == Bills(s.rows);
      }
    }
  }

  lemma {:induction false} OneAnswer(a: Answer)
    ensures UsagesOf([a]) == [a.usage] && KeptOf([a]) == if a.lost then [] else [a.usage]
  {
    assert [a][1..] == [];
  }

  lemma {:induction false} AnswersSplit(answers: seq<Answer>)
    ensures |UsagesOf(answers)| == |answers| == |KeptOf(answers)| + |LostOf(answers)|
    ensures LostOf(answers) == [] ==> KeptOf(answers) == UsagesOf(answers)
  {
    if answers != [] {
      AnswersSplit(answers[1..]);
    }
  }

  /** However a run ends, its log counts as many iterations less than the run did as replies were lost. */
  lemma {:induction false} RunIterations(cfg: Config, s: State, script: seq<Input>)
    ensures var t := Run(cfg, s, script).s;
            |Bills(t.rows)| - |Bills(s.rows)| == t.iterations - s.iterations - |Losses(cfg, s, script)|
  {
    hide Run, Bills, Answers;
    RunBills(cfg, s, script);
    AnswersSplit(Answers(cfg, s, script));
  }

  lemma {:induction false} SpendIsAccount(before: seq<Usage>, us: seq<Usage>)
    ensures Spend(Account(before), us) == Account(before + us)
    decreases |us|
  {
    hide AddUsage;
    if us == [] {
      assert before + us == before;
    } else {
      AccountSnoc(before, us[0]);
      SpendIsAccount(before + [us[0]], us[1..]);
      assert before + [us[0]] + us[1..] == before + us;
    }
  }

  lemma {:induction false} TotalConcat(field: Usage -> int, a: seq<Usage>, b: seq<Usage>)
    ensures Total(field, a + b) == Total(field, a) + Total(field, b)
    decreases |b|
  {
    if b == [] {
      assert a + b == a;
    } else {
      assert (a + b)[..|a| + |b| - 1] == a + b[..|b| - 1];
      TotalConcat(field, a, b[..|b| - 1]);
    }
  }

  lemma {:induction false} TotalOne(field: Usage -> int, u: Usage)
    ensures Total(field, [u]) == field(u)
  {
    assert [u][..0] == [];
  }

  lemma {:induction false} TotalNone(field: Usage -> int)
    ensures Total(field, []) == 0
  {
  }

  lemma {:induction false} TotalSplits(field: Usage -> int, answers: seq<Answer>)
    ensures Total(field, KeptOf(answers)) == Total(field, UsagesOf(answers)) - Total(field, LostOf(answers))
  {
    hide Total;
    if answers == [] {
      TotalNone(field);
    } else {
      var a, rest := answers[0], answers[1..];
      TotalSplits(field, rest);
      TotalOne(field, a.usage);
      TotalConcat(field, [a.usage], UsagesOf(rest));
      if a.lost {
        TotalConcat(field, [a.usage], LostOf(rest));
        assert [] + KeptOf(rest) == KeptOf(rest);
      } else {
        TotalConcat(field, [a.usage], KeptOf(rest));
        assert [] + LostOf(rest) == LostOf(rest);
      }
    }
  }

  /** A run as it starts: what recovery counted, with tools enabled. */
  ghost predicate Accounted(s: State) {
    s.iterations == |Bills(s.rows)| && s.usage == Account(Bills(s.rows)) && !s.disabled
  }

  /** All token counts of a are those of b less those of us. */
  ghost predicate LessTokens(a: Usage, b: Usage, us: seq<Usage>) {
    && a.input == b.input - Total(INPUT_TOKENS, us) && a.output == b.output - Total(OUTPUT_TOKENS, us)
    && a.total == b.total - Total(TOTAL_TOKENS, us) && a.cacheRead == b.cacheRead - Total(CACHE_READ_TOKENS, us)
    && a.cacheWrite == b.cacheWrite - Total(CACHE_WRITE_TOKENS, us)
  }

  lemma {:induction false} ForgottenTokens(before: seq<Usage>, answers: seq<Answer>)
    ensures LessTokens(Account(before + KeptOf(answers)), Account(before + UsagesOf(answers)), LostOf(answers))
  {
    hide Account, Total, Cost, FirstCurrency;
    AccountIs(before + UsagesOf(answers));
    AccountIs(before + KeptOf(answers));
    TotalLeft(INPUT_TOKENS, before, answers);
    TotalLeft(OUTPUT_TOKENS, before, answers);
    TotalLeft(TOTAL_TOKENS, before, answers);
    TotalLeft(CACHE_READ_TOKENS, before, answers);
    TotalLeft(CACHE_WRITE_TOKENS, before, answers);
  }

  lemma {:induction false} TotalLeft(field: Usage -> int, before: seq<Usage>, answers: seq<Answer>)
    ensures Total(field, before + KeptOf(answers)) ==
            Total(field, before + UsagesOf(answers)) - Total(field, LostOf(answers))
  {
    hide Total;
    TotalSplits(field, answers);
    TotalConcat(field, before, UsagesOf(answers));
    TotalConcat(field, before, KeptOf(answers));
  }

  /**
   * Recovery against the run that wrote the log, however that run ended. The iterations come back exactly if no reply
   * was lost, and then so does the usage; otherwise as many iterations are missing as replies were lost, and their
   * tokens. The account that comes back is that of the replies which were logged.
   */
  lemma {:induction false} RecoveredVersusLive(cfg: Config, s: State, script: seq<Input>, env: Restore.Env)
    requires Accounted(s) && Restore.Restored(env, Run(cfg, s, script).s.rows).state.Ok?
    ensures var live, lost := Run(cfg, s, script).s, Losses(cfg, s, script);
            var back := Restore.Restored(env, live.rows).state.value.result;
            && back.iterations == live.iterations - |lost|
            && (back.iterations == live.iterations <==> lost == [])
            && (lost == [] ==> back.usage == live.usage)
            && LessTokens(back.usage, live.usage, lost)
            && back.usage == Account(Bills(s.rows) + KeptOf(Answers(cfg, s, script)))
            && live.usage == Account(Bills(s.rows) + UsagesOf(Answers(cfg, s, script)))
  {
    hide Run, Bills, Account, Accounts, Answers, Restore.Restored, LessTokens, Spend;
    var answers := Answers(cfg, s, script);
    RunBills(cfg, s, script);
    RunIterations(cfg, s, script);
    AnswersSplit(answers);
    SpendIsAccount(Bills(s.rows), UsagesOf(answers));
    RecoveredUsage(env, Run(cfg, s, script).s.rows);
    ForgottenTokens(Bills(s.rows), answers);
  }
}
