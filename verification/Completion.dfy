/** When recovery takes a run for completed, so that the provider is not asked again. */
module Completion {
  import opened Text
  import opened Messages
  import opened Records
  import opened ToolCalls
  import opened RunLoop
  import opened CrashRecovery
  import opened LiveLog
  import opened LiveReplay
  import opened Survival
  import opened Steers
  import R = Restore
  import Queue = Inbox

  /** The last record is an assistant's message without tool calls. */
  predicate EndsInText(rows: seq<RunRecord>) {
    rows != [] &&
    var last := rows[|rows| - 1];
    last.kind.AssistantMessage? && last.message.toolCalls == []
  }

  /**
   * A log that recovery accepts is completed exactly if its last record is an assistant's message without tool calls.
   * Then nothing is open, nothing is appended, and that message is the content. A log that it rejects is not completed.
   */
  lemma {:induction false} CompletedIff(env: R.Env, rows: seq<RunRecord>)
    ensures var back := R.Restored(env, rows);
            && (back.completed <==> back.state.Ok? && EndsInText(rows))
            && (back.completed ==>
                  && back.rows == rows && back.state.value.pending == []
                  && back.state.value.result.content == rows[|rows| - 1].message.content)
  {
    hide R.Scan, R.Complete;
    if R.Scan(env, R.START, rows).Ok? {
      NeverCompletes(env, rows, R.Scan(env, R.START, rows).value);
      if EndsInText(rows) {
        RestoredIsScan(env, rows);
        TextIsContent(env, rows);
      }
    }
  }

  /** Completing open calls is not the end of a run. */
  lemma {:induction false} NeverCompletes(env: R.Env, rows: seq<RunRecord>, s: R.Replay)
    ensures !R.Complete(env, rows, s).completed
    decreases |s.pending|
  {
    hide Load, AppendResult;
    if s.pending != [] && Load(env.stored, s.pending[0].id).Ok? {
      var r := Load(env.stored, s.pending[0].id).value;
      var m := ToolMessage(s.pending[0].id, ResultContent(r));
      if AppendResult(env.json, rows, m).Ok? {
        NeverCompletes(env, AppendResult(env.json, rows, m).value, R.Answer(s, m, r));
      }
    }
  }

  lemma {:induction false} TextIsContent(env: R.Env, rows: seq<RunRecord>)
    requires R.Scan(env, R.START, rows).Ok? && EndsInText(rows)
    ensures R.Scan(env, R.START, rows).value.result.content == rows[|rows| - 1].message.content
  {
    hide R.Scan, BudgetExceeded, AddUsage, Trim;
    var last := |rows| - 1;
    ScanPrefix(env, rows, last);
    assert rows[..last + 1] == rows;
  }

  // ----- live runs -----

  function Answered(reply: Reply): Message
    requires reply.Reply?
  {
    Message(Assistant, FinalText(reply), reply.thinking, "", [])
  }

  /** The items that a step takes from its inbox. */
  function Taken(cfg: Config, s: State, arrivals: seq<Queue.Item>): seq<Queue.Item> {
    Queue.Claimed(EnqueueAll(s.inbox, arrivals), cfg.session)
  }

  /**
   * A step that ends the run has logged its text and then the steers it took; it took some only at the cap. A text step
   * that goes on has taken some.
   */
  lemma {:induction false} TextStepLogs(cfg: Config, s: State, input: Input)
    requires HasTexts(s.inbox) && !Step(cfg, s, input).Stopped? && input.reply.Reply?
    requires AnswersInText(cfg, s, input.reply)
    ensures var status, taken := Step(cfg, s, input), Taken(cfg, s, input.arrivals); var t := status.s;
            && t.rows == s.rows + [AssistantRecord(Answered(input.reply), input.reply.usage)]
                         + UserRows(Filter(Fresh, taken))
            && t.content == FinalText(input.reply)
            && (status.Running? <==> taken != [] && !Capped(cfg, s))
  {
    hide FinalText, Trim, TextStep, ToolStep, AddUsage, BudgetExhausted, BudgetExceeded, EnqueueAll, Queue.Claimed,
         UserRows, HasTexts;
    var counted := s.(iterations := s.iterations + 1, usage := AddUsage(s.usage, input.reply.usage));
    TextOrStopped(cfg, counted, input.reply, Capped(cfg, s), input.arrivals);
    TextSteers(cfg, counted, input.reply, Capped(cfg, s), input.arrivals);
  }

  lemma {:induction false} TextOrStopped(
    cfg: Config, s: State, reply: Reply, capped: bool, arrivals: seq<Queue.Item>)
    requires reply.Reply? && !TextStep(cfg, s, reply, capped, arrivals).Stopped?
    ensures Trim(FinalText(reply)) != ""
  {
    hide Steer, BudgetExceeded, Trim, FinalText;
  }

  /** A text step logs what the model said; if it only asked for tools that it cannot have, it says why it stops. */
  lemma {:induction false} FinalTextIs(reply: Reply)
    requires reply.Reply?
    ensures Trim(reply.content) != "" ==> FinalText(reply) == reply.content
    ensures Trim(FinalText(reply)) != "" <==> Trim(reply.content) != "" || reply.toolCalls != []
    ensures Trim(reply.content) == "" && reply.toolCalls != [] ==> FinalText(reply) == STOPPED_TEXT
  {
    hide Trim;
    assert '.' in STOPPED_TEXT;
    var _, _ := TrimTakes(STOPPED_TEXT);
  }

  /** Only a text step ends a run. */
  lemma {:induction false} FinishedInText(cfg: Config, s: State, input: Input)
    requires Step(cfg, s, input).Finished?
    ensures input.reply.Reply? && AnswersInText(cfg, s, input.reply)
  {
    hide TextStep, ToolStep, AddUsage, BudgetExhausted;
    if input.reply.Reply? {
      NeverFinished(cfg, s.(iterations := s.iterations + 1, usage := AddUsage(s.usage, input.reply.usage)),
                    input.reply, input);
    }
  }

  /** The last step of a run that ends. */
  lemma {:induction false} LastStep(cfg: Config, s: State, script: seq<Input>) returns (before: State, input: Input)
    requires HasTexts(s.inbox) && Run(cfg, s, script).Finished?
    ensures HasTexts(before.inbox) && Step(cfg, before, input) == Run(cfg, s, script)
    decreases |script|
  {
    hide Step, HasTexts;
    StepDelivers(cfg, s, script[0]);
    if Step(cfg, s, script[0]).Running? {
      before, input := LastStep(cfg, Step(cfg, s, script[0]).s, script[1..]);
    } else {
      before, input := s, script[0];
    }
  }

  lemma {:induction false} LastRow(rows: seq<RunRecord>, m: Message, usage: Usage, items: seq<Queue.Item>)
    requires m.toolCalls == []
    ensures EndsInText(rows + [AssistantRecord(m, usage)] + UserRows(items)) <==> items == []
  {
  }

  /**
   * A run that has ended is recovered as completed, with its content, exactly if it logged no steer after its text; and
   * it logs one there only at the cap on its iterations.
   */
  lemma {:induction false} FinishedIsCompleted(env: R.Env, cfg: Config, s: State, script: seq<Input>)
    returns (before: State, input: Input)
    requires HasTexts(s.inbox) && Run(cfg, s, script).Finished?
    requires R.Restored(env, Run(cfg, s, script).s.rows).state.Ok?
    ensures Step(cfg, before, input) == Run(cfg, s, script) && input.reply.Reply?
    ensures var t := Run(cfg, s, script).s; var back := R.Restored(env, t.rows);
            var steers := Filter(Fresh, Taken(cfg, before, input.arrivals));
            && t.rows == before.rows + [AssistantRecord(Answered(input.reply), input.reply.usage)] + UserRows(steers)
            && (back.completed <==> steers == [])
            && (back.completed ==> back.rows == t.rows && back.state.value.result.content == t.content)
            && (!back.completed ==> Capped(cfg, before))
  {
    before, input := LastStep(cfg, s, script);
    FinishedInText(cfg, before, input);
    TextStepLogs(cfg, before, input);
    var steers := Filter(Fresh, Taken(cfg, before, input.arrivals));
    LastRow(before.rows, Answered(input.reply), input.reply.usage, steers);
    NoneTaken(Taken(cfg, before, input.arrivals));
    hide Step, Run, R.Restored, UserRows, FinalText, Taken, HasTexts, Capped, AnswersInText;
    var t := Step(cfg, before, input).s;
    CompletedIff(env, t.rows);
    if steers == [] {
      TextLast(before.rows, Answered(input.reply), input.reply.usage);
    }
  }

  lemma {:induction false} NoneTaken(items: seq<Queue.Item>)
    ensures items == [] ==> Filter(Fresh, items) == []
  {
  }

  lemma {:induction false} TextLast(rows: seq<RunRecord>, m: Message, usage: Usage)
    ensures var all := rows + [AssistantRecord(m, usage)] + UserRows([]);
            all != [] && all[|all| - 1].message == m
  {
  }

  /**
   * A run that goes on is not taken for completed, with one exception: its last step gave a text and took steers that
   * were all written to the log before, so that it logged nothing for them.
   */
  lemma {:induction false} RunningIsNotCompleted(env: R.Env, cfg: Config, s: State, input: Input)
    requires HasTexts(s.inbox) && Step(cfg, s, input).Running? && !EndsInText(s.rows)
    ensures R.Restored(env, Step(cfg, s, input).s.rows).completed <==>
            && R.Restored(env, Step(cfg, s, input).s.rows).state.Ok?
            && AnswersInText(cfg, s, input.reply) && Filter(Fresh, Taken(cfg, s, input.arrivals)) == []
  {
    var t := Step(cfg, s, input).s;
    CompletedIff(env, t.rows);
    RunningReplied(cfg, s, input);
    if AnswersInText(cfg, s, input.reply) {
      TextStepLogs(cfg, s, input);
      LastRow(s.rows, Answered(input.reply), input.reply.usage, Filter(Fresh, Taken(cfg, s, input.arrivals)));
    } else {
      BatchEnds(cfg, s, input);
    }
  }

  lemma {:induction false} RunningReplied(cfg: Config, s: State, input: Input)
    requires Step(cfg, s, input).Running?
    ensures input.reply.Reply? && Counts(cfg, s, input)
  {
    hide TextStep, ToolStep, AddUsage, BudgetExhausted;
  }

  /** Behind a batch stand its results and steers, and a loop logs nothing. */
  lemma {:induction false} BatchEnds(cfg: Config, s: State, input: Input)
    requires Step(cfg, s, input).Running? && input.reply.Reply? && !AnswersInText(cfg, s, input.reply)
    requires Counts(cfg, s, input) && !EndsInText(s.rows)
    ensures !EndsInText(Step(cfg, s, input).s.rows)
  {
    var counted := s.(iterations := s.iterations + 1, usage := AddUsage(s.usage, input.reply.usage));
    var reply := input.reply;
    ToolStepOf(cfg, s, input);
    hide Step, AddUsage, LoopDetected, ToolStep, EndsInText;
    if LoopDetected(cfg, counted, reply) {
      LoopStep(cfg, counted, reply, input);
    } else {
      BadCallEndsRun(cfg, counted, reply, input);
      LoggedBatchOf(cfg, counted, input);
      var kinds := KindsOf(cfg, counted, reply);
      var sig := SignatureOf(OfKind(reply.toolCalls, kinds, true));
      var known := counted.(seen := s.seen + CallIds(reply.toolCalls),
                            sigs := if sig == [] then s.sigs else s.sigs + [sig]);
      BatchRowsEnd(cfg, known, reply, OfKind(reply.toolCalls, kinds, true), OfKind(reply.toolCalls, kinds, false),
                   Refusal(cfg), input);
    }
  }

  lemma {:induction false} BatchRowsEnd(
    cfg: Config, s: State, reply: Reply, executable: seq<ToolCall>, rejected: seq<ToolCall>,
    refuse: ToolCall -> Option<string>, input: Input)
    requires reply.Reply? && reply.toolCalls != []
    requires BatchStep(cfg, s, reply, executable, rejected, refuse, input).Running?
    ensures !EndsInText(BatchStep(cfg, s, reply, executable, rejected, refuse, input).s.rows)
  {
    hide AppendResults, Steer, BudgetExceeded, ValidMessage, EndsInText, Executed;
    var m := Message(Assistant, reply.content, reply.thinking, "", reply.toolCalls);
    var logged := s.rows + [AssistantRecord(m, reply.usage)];
    var executed := AppendResults(cfg.json, logged, executable, input.outcome);
    var refused := AppendResults(cfg.json, executed.rows, rejected, refuse);
    ResultsAdded(cfg.json, logged, executable, input.outcome);
    ResultsAdded(cfg.json, executed.rows, rejected, refuse);
    var ran := if executable == [] then s.ran else s.ran + [Executed(s.iterations, executable)];
    SteerRows(cfg, s.(rows := refused.rows, ran := ran), input.arrivals);
    AskingIsNoText(s.rows, m, reply.usage);
    StaysNoText(logged, executed.rows);
    StaysNoText(executed.rows, refused.rows);
    StaysNoText(refused.rows, Steer(cfg, s.(rows := refused.rows, ran := ran), input.arrivals).0.rows);
  }

  lemma {:induction false} AskingIsNoText(rows: seq<RunRecord>, m: Message, usage: Usage)
    requires m.toolCalls != []
    ensures !EndsInText(rows + [AssistantRecord(m, usage)])
  {
  }

  lemma {:induction false} StaysNoText(a: seq<RunRecord>, b: seq<RunRecord>)
    requires a <= b && !EndsInText(a) && forall r | r in b[|a|..] :: !r.kind.AssistantMessage?
    ensures !EndsInText(b)
  {
    if |a| < |b| {
      assert b[|b| - 1] == b[|a|..][|b| - |a| - 1];
    }
  }

  lemma {:induction false} SteerRows(cfg: Config, s: State, arrivals: seq<Queue.Item>)
    ensures var after := Steer(cfg, s, arrivals).0.rows;
            s.rows <= after && forall r | r in after[|s.rows|..] :: !r.kind.AssistantMessage?
  {
    hide AppendSteers, Queue.Claimed, Queue.Left, EnqueueAll;
    SteersAdded(cfg.json, s.rows, Queue.Claimed(EnqueueAll(s.inbox, arrivals), cfg.session));
  }
}
