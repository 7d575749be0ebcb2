/** The runner itself: the loop over a live log and inbox, proved to be the run of RunLoop. */
module Runner {
  import opened Text
  import opened Messages
  import opened Records
  import opened ToolCalls
  import opened RunLoop
  import Queue = Inbox

  /** The state a log and an inbox are in, with the loop's own variables. */
  ghost predicate Mirrors(s: State, log: RecordLog, inbox: Queue.Inbox)
    reads log, inbox
  {
    s.rows == log.rows && s.inbox == inbox.next
  }

  method AppendToolResults(log: RecordLog, calls: seq<ToolCall>, outcome: ToolCall -> Option<string>)
    returns (failure: Option<Failure>)
    requires log.Valid()
    modifies log
    ensures log.Valid() && Appended(log.rows, failure) == AppendResults(log.json, old(log.rows), calls, outcome)
  {
    hide AppendResult;
    for i := 0 to |calls|
      invariant log.Valid()
      invariant AppendResults(log.json, old(log.rows), calls, outcome) ==
                AppendResults(log.json, log.rows, calls[i..], outcome)
    {
      assert calls[i..][1..] == calls[i + 1..];
      var content := outcome(calls[i]);
      if content.None? {
        return Some(ToolAborted);
      }
      var err := log.AppendToolResult(ToolMessage(calls[i].id, content.value));
      if err.Some? {
        return Some(Log(err.value));
      }
    }
    return None;
  }

  method ReceiveSteers(inbox: Queue.Inbox, arrivals: seq<Queue.Item>)
    modifies inbox
    ensures inbox.next == EnqueueAll(old(inbox.next), arrivals)
  {
    for i := 0 to |arrivals|
      invariant EnqueueAll(old(inbox.next), arrivals) == EnqueueAll(inbox.next, arrivals[i..])
    {
      assert arrivals[i..][1..] == arrivals[i + 1..];
      inbox.Enqueue(arrivals[i]);
    }
  }

  method ClaimAndAppendStepInbox(
    cfg: Config, log: RecordLog, inbox: Queue.Inbox, ghost s: State, arrivals: seq<Queue.Item>)
    returns (steered: bool, failure: Option<Failure>)
    requires log.Valid() && log.json == cfg.json && Mirrors(s, log, inbox)
    modifies log, inbox
    ensures log.Valid()
    ensures Steer(cfg, s, arrivals) == (s.(rows := log.rows, inbox := inbox.next), steered, failure)
  {
    hide Queue.Claimed, Queue.Left, ValidMessage;
    ReceiveSteers(inbox, arrivals);
    var claimed := inbox.ClaimStep(cfg.session);
    steered := |claimed| > 0;
    for i := 0 to |claimed|
      invariant log.Valid()
      invariant inbox.next == Queue.Left(EnqueueAll(s.inbox, arrivals), cfg.session)
      invariant AppendSteers(cfg.json, s.rows, claimed) == AppendSteers(cfg.json, log.rows, claimed[i..])
    {
      assert claimed[i..][1..] == claimed[i + 1..];
      if !claimed[i].persisted {
        UserIsValid(cfg.json, claimed[i].text);
        var err := log.AppendUser(UserMessage(claimed[i].text));
        if err.Some? {
          return steered, Some(Log(CorruptHistory));
        }
      }
    }
    return steered, None;
  }

  lemma {:induction false} UserIsValid(json: Json, text: string)
    ensures ValidMessage(json, UserMessage(text))
  {
  }

  lemma {:induction false} TextIsValid(json: Json, content: string, thinking: string)
    ensures ValidMessage(json, Message(Assistant, content, thinking, "", []))
  {
  }

  method SplitByKind(
    calls: seq<ToolCall>, kinds: seq<Kind>) returns (executable: seq<ToolCall>, rejected: seq<ToolCall>)
    requires |calls| == |kinds|
    ensures executable == OfKind(calls, kinds, true) && rejected == OfKind(calls, kinds, false)
  {
    executable, rejected := [], [];
    for i := 0 to |calls|
      invariant executable == OfKind(calls[..i], kinds[..i], true) && rejected == OfKind(calls[..i], kinds[..i], false)
    {
      assert calls[..i + 1][..i] == calls[..i] && kinds[..i + 1][..i] == kinds[..i];
      if kinds[i] == Executable {
        executable := executable + [calls[i]];
      } else {
        rejected := rejected + [calls[i]];
      }
    }
    assert calls[..|calls|] == calls && kinds[..|kinds|] == kinds;
  }

  method AnswerInText(
    cfg: Config, log: RecordLog, inbox: Queue.Inbox, s: State, reply: Reply, capped: bool, arrivals: seq<Queue.Item>)
    returns (status: Status)
    requires log.Valid() && log.json == cfg.json && Mirrors(s, log, inbox) && reply.Reply?
    modifies log, inbox
    ensures log.Valid() && status == TextStep(cfg, s, reply, capped, arrivals) && Mirrors(status.s, log, inbox)
  {
    hide Steer, ValidMessage;
    var content := reply.content;
    if |reply.toolCalls| > 0 {
      if Trim(content) == "" {
        content := STOPPED_TEXT;
      }
    }
    if Trim(content) == "" {
      return Stopped(s, EmptyResponse);
    }
    TextIsValid(cfg.json, content, reply.thinking);
    var _ := log.AppendAssistant(Message(Assistant, content, reply.thinking, "", []), reply.usage);
    var logged := s.(rows := log.rows);
    var over := BudgetExceeded(s.usage, cfg.maxTokens, cfg.maxMicros);
    if over.Some? {
      return Stopped(logged, Log(over.value));
    }
    var steered, failure := ClaimAndAppendStepInbox(cfg, log, inbox, logged, arrivals);
    var after := logged.(rows := log.rows, inbox := inbox.next);
    if failure.Some? {
      return Stopped(after, failure.value);
    }
    if steered && !capped {
      return Running(after.(content := content));
    }
    return Finished(after.(content := content));
  }

  method ExecuteBatch(cfg: Config, log: RecordLog, inbox: Queue.Inbox, s: State, reply: Reply,
                      executable: seq<ToolCall>, rejected: seq<ToolCall>, input: Input)
    returns (status: Status)
    requires log.Valid() && log.json == cfg.json && Mirrors(s, log, inbox) && reply.Reply?
    modifies log, inbox
    ensures log.Valid() && Mirrors(status.s, log, inbox)
    ensures status == BatchStep(cfg, s, reply, executable, rejected, Refusal(cfg), input)
  {
    hide Steer, ValidMessage, AppendResults, Executed, Refusal;
    var assistant := Message(Assistant, reply.content, reply.thinking, "", reply.toolCalls);
    var err := log.AppendAssistant(assistant, reply.usage);
    if err.Some? {
      return Stopped(s, Log(CorruptHistory));
    }
    var logged := s.(rows := log.rows);
    var over := BudgetExceeded(s.usage, cfg.maxTokens, cfg.maxMicros);
    if over.Some? {
      return Stopped(logged, Log(over.value));
    }
    var ran := if |executable| == 0 then s.ran else s.ran + [Executed(s.iterations, executable)];
    var failure := AppendToolResults(log, executable, input.outcome);
    var after := logged.(rows := log.rows, ran := ran);
    if failure.Some? {
      return Stopped(after, failure.value);
    }
    failure := AppendToolResults(log, rejected, Refusal(cfg));
    after := after.(rows := log.rows);
    if failure.Some? {
      return Stopped(after, failure.value);
    }
    var _, steerFailure := ClaimAndAppendStepInbox(cfg, log, inbox, after, input.arrivals);
    after := after.(rows := log.rows, inbox := inbox.next);
    if steerFailure.Some? {
      return Stopped(after, steerFailure.value);
    }
    return Running(after);
  }

  method RunTools(cfg: Config, log: RecordLog, inbox: Queue.Inbox, s: State, input: Input) returns (status: Status)
    requires log.Valid() && log.json == cfg.json && Mirrors(s, log, inbox) && input.reply.Reply?
    modifies log, inbox
    ensures log.Valid() && Mirrors(status.s, log, inbox)
    ensures status == ToolStep(cfg, s, input.reply, input)
  {
    hide BatchStep, Kinds, OfKind, CallIds, SignatureOf, Repeated, Refusal;
    var kinds, seen, _ := ClassifyToolCalls(cfg.json, input.reply.toolCalls, cfg.advertised, s.seen);
    var executable, rejected := SplitByKind(input.reply.toolCalls, kinds);
    var known := s.(seen := seen);
    var sig := SignatureOf(executable);
    if sig != [] {
      known := known.(sigs := known.sigs + [sig]);
      var repeated := HasRepeatedToolSteps(known.sigs, WINDOW, MAX_REPEATS);
      if repeated {
        return Running(known.(disabled := true));
      }
    }
    status := ExecuteBatch(cfg, log, inbox, known, input.reply, executable, rejected, input);
  }

  /** One pass of the loop. */
  method RunStep(cfg: Config, log: RecordLog, inbox: Queue.Inbox, s: State, input: Input) returns (status: Status)
    requires log.Valid() && log.json == cfg.json && Mirrors(s, log, inbox)
    modifies log, inbox
    ensures log.Valid() && Mirrors(status.s, log, inbox)
    ensures status == Step(cfg, s, input)
  {
    hide TextStep, ToolStep, AddUsage, BudgetExhausted;
    if input.cancelled {
      return Stopped(s, Cancelled);
    }
    var spent := BudgetExhausted(s.usage, cfg.maxTokens, cfg.maxMicros);
    if spent.Some? {
      return Stopped(s, Log(spent.value));
    }
    var capped := cfg.maxIterations > 0 && s.iterations + 1 >= cfg.maxIterations;
    var counted := s.(iterations := s.iterations + 1, usage := AddUsage(s.usage, input.reply.usage));
    if input.reply.NoReply? {
      return Stopped(counted, ProviderFailed);
    }
    if |input.reply.toolCalls| == 0 || s.disabled || capped {
      status := AnswerInText(cfg, log, inbox, counted, input.reply, capped, input.arrivals);
    } else {
      status := RunTools(cfg, log, inbox, counted, input);
    }
  }

  method RunAgent(
    cfg: Config, log: RecordLog, inbox: Queue.Inbox, start: State, script: seq<Input>) returns (status: Status)
    requires log.Valid() && log.json == cfg.json && Mirrors(start, log, inbox)
    modifies log, inbox
    ensures log.Valid() && Mirrors(status.s, log, inbox)
    ensures status == Run(cfg, start, script)
  {
    hide Step;
    status := Running(start);
    var i := 0;
    while i < |script| && status.Running?
      invariant 0 <= i <= |script|
      invariant log.Valid() && Mirrors(status.s, log, inbox)
      invariant Run(cfg, start, script) == if status.Running? then Run(cfg, status.s, script[i..]) else status
    {
      assert script[i..][1..] == script[i + 1..];
      status := RunStep(cfg, log, inbox, status.s, script[i]);
      i := i + 1;
    }
  }
}
