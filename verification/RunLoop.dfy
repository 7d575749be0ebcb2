/** The step loop of a run (internal/agent/runner_run.go, runner_tools.go, loop_detection.go). */
module RunLoop {
  import opened Text
  import opened Messages
  import opened Records
  import opened ToolCalls
  import Queue = Inbox

  // ----- loop detection -----

  /** Names and arguments of an executable batch; the source keeps their SHA-256. */
  type Signature = seq<(string, string)>

  const WINDOW := 10
  const MAX_REPEATS := 5

  function SignatureOf(calls: seq<ToolCall>): (r: Signature)
    ensures |r| == |calls|
  {
    if calls == [] then [] else [(Trim(calls[0].name), Trim(calls[0].arguments))] + SignatureOf(calls[1..])
  }

  function Count(sig: Signature, sigs: seq<Signature>): (n: nat)
    ensures n <= |sigs|
  {
    if sigs == [] then 0 else Count(sig, sigs[..|sigs| - 1]) + if sigs[|sigs| - 1] == sig then 1 else 0
  }

  /** Some batch occurs more than maxRepeats times among the last windowSize ones. */
  ghost predicate Repeated(sigs: seq<Signature>, windowSize: int, maxRepeats: int) {
    windowSize >= 1 && maxRepeats >= 1 && |sigs| >= windowSize &&
    exists sig :: Frequent(sig, Latest(sigs, windowSize), maxRepeats)
  }

  function Latest(sigs: seq<Signature>, windowSize: int): seq<Signature>
    requires 0 <= windowSize <= |sigs|
  {
    sigs[|sigs| - windowSize..]
  }

  predicate Frequent(sig: Signature, sigs: seq<Signature>, maxRepeats: int) {
    sig != [] && Count(sig, sigs) > maxRepeats
  }

  method HasRepeatedToolSteps(sigs: seq<Signature>, windowSize: int, maxRepeats: int) returns (r: bool)
    ensures r <==> Repeated(sigs, windowSize, maxRepeats)
  {
    if windowSize < 1 || maxRepeats < 1 {
      return false;
    }
    if |sigs| < windowSize {
      return false;
    }
    var window := Latest(sigs, windowSize);
    var counts: map<Signature, int> := map[];
    for i := 0 to |window|
      invariant forall sig :: sig != [] ==> Count(sig, window[..i]) == if sig in counts then counts[sig] else 0
      invariant forall sig :: sig != [] ==> Count(sig, window[..i]) <= maxRepeats
    {
      var sig := window[i];
      assert window[..i + 1][..i] == window[..i];
      if sig == [] {
        continue;
      }
      counts := counts[sig := (if sig in counts then counts[sig] else 0) + 1];
      if counts[sig] > maxRepeats {
        CountPrefix(sig, window, i + 1);
        assert Frequent(sig, window, maxRepeats);
        return true;
      }
    }
    assert window[..|window|] == window;
    return false;
  }

  lemma {:induction false} CountPrefix(sig: Signature, sigs: seq<Signature>, n: nat)
    requires n <= |sigs|
    ensures Count(sig, sigs[..n]) <= Count(sig, sigs)
  {
    if n < |sigs| {
      CountPrefix(sig, sigs[..|sigs| - 1], n);
      assert sigs[..|sigs| - 1][..n] == sigs[..n];
    } else {
      assert sigs[..n] == sigs;
    }
  }

  // ----- the state of a run and what a step meets -----

  datatype Config = Config(
    json: Json,
    advertised: set<string>,
    maxIterations: int,
    maxTokens: int,
    maxMicros: int,
    session: string,
    refusal: (ToolCall, Kind) -> string)

  /** A batch that was executed, the iteration that executed it, and the ids of its calls. */
  datatype ToolRun = ToolRun(iteration: nat, signature: Signature, ids: seq<string>)

  function IdsOf(calls: seq<ToolCall>): (r: seq<string>)
    ensures |r| == |calls|
    ensures forall i | 0 <= i < |calls| :: r[i] == Trim(calls[i].id)
  {
    seq(|calls|, i requires 0 <= i < |calls| => Trim(calls[i].id))
  }

  function Executed(iteration: nat, calls: seq<ToolCall>): ToolRun {
    ToolRun(iteration, SignatureOf(calls), IdsOf(calls))
  }

  datatype State = State(
    rows: seq<RunRecord>,
    inbox: seq<Queue.Item>,
    seen: set<string>,
    content: string,
    usage: Usage,
    iterations: nat,
    sigs: seq<Signature>,
    disabled: bool,
    ran: seq<ToolRun>)

  datatype Reply =
    | Reply(content: string, thinking: string, toolCalls: seq<ToolCall>, usage: Usage)
    | NoReply(usage: Usage)

  /** One pass: cancellation, the provider's answer, each tool's result (None aborts the run), steers that arrive. */
  datatype Input = Input(cancelled: bool, reply: Reply, outcome: ToolCall -> Option<string>, arrivals: seq<Queue.Item>)

  datatype Failure = Cancelled | ProviderFailed | EmptyResponse | ToolAborted | Log(error: Error)

  datatype Status = Running(s: State) | Finished(s: State) | Stopped(s: State, failure: Failure)

  const STOPPED_TEXT := "Stopped tool use: maximum steps reached or tool loop detected. "
                        + "Please continue with a new user message."

  predicate Capped(cfg: Config, s: State) {
    cfg.maxIterations > 0 && s.iterations + 1 >= cfg.maxIterations
  }

  // ----- the parts of a step -----

  datatype Appended = Appended(rows: seq<RunRecord>, failure: Option<Failure>)

  /** Results are appended one by one, in the order of the calls. */
  function AppendResults(
    json: Json, rows: seq<RunRecord>, calls: seq<ToolCall>, outcome: ToolCall -> Option<string>): Appended
    decreases |calls|
  {
    if calls == [] then Appended(rows, None)
    else if outcome(calls[0]).None? then Appended(rows, Some(ToolAborted))
    else
      match AppendResult(json, rows, ToolMessage(calls[0].id, outcome(calls[0]).value))
      case Err(e) => Appended(rows, Some(Log(e)))
      case Ok(after) => AppendResults(json, after, calls[1..], outcome)
  }

  function EnqueueAll(inbox: seq<Queue.Item>, arrivals: seq<Queue.Item>): seq<Queue.Item>
    decreases |arrivals|
  {
    if arrivals == [] then inbox else EnqueueAll(Queue.Enqueued(inbox, arrivals[0]), arrivals[1..])
  }

  function AppendSteers(json: Json, rows: seq<RunRecord>, items: seq<Queue.Item>): Appended
    decreases |items|
  {
    if items == [] then Appended(rows, None) else
      var m := UserMessage(items[0].text);
      if items[0].persisted then AppendSteers(json, rows, items[1..])
      else if Trim(m.content) == "" then Appended(rows, Some(Log(CorruptHistory)))
      else AppendSteers(json, rows + [InputRecord(m)], items[1..])
  }

  /** claimAndAppendStepInbox: the steers of the session leave the queue and enter the log. */
  function Steer(cfg: Config, s: State, arrivals: seq<Queue.Item>): (r: (State, bool, Option<Failure>))
    ensures r.0 == s.(rows := r.0.rows, inbox := r.0.inbox)
  {
    var inbox := EnqueueAll(s.inbox, arrivals);
    var claimed := Queue.Claimed(inbox, cfg.session);
    var appended := AppendSteers(cfg.json, s.rows, claimed);
    (s.(rows := appended.rows, inbox := Queue.Left(inbox, cfg.session)), claimed != [], appended.failure)
  }

  function OfKind(calls: seq<ToolCall>, kinds: seq<Kind>, executable: bool): seq<ToolCall>
    requires |calls| == |kinds|
  {
    if calls == [] then [] else
      var last := |calls| - 1;
      OfKind(calls[..last], kinds[..last], executable) +
      if (kinds[last] == Executable) == executable then [calls[last]] else []
  }

  /** Calls that were asked for without tools are ignored; a reply that says nothing else gets a text of its own. */
  function FinalText(reply: Reply): string
    requires reply.Reply?
  {
    if reply.toolCalls != [] && Trim(reply.content) == "" then STOPPED_TEXT else reply.content
  }

  /** A step without tools: the model's text ends the run, unless a steer came in and the cap allows another step. */
  function TextStep(cfg: Config, s: State, reply: Reply, capped: bool, arrivals: seq<Queue.Item>): (r: Status)
    requires reply.Reply?
    ensures r.s == s.(rows := r.s.rows, inbox := r.s.inbox, content := r.s.content)
    ensures r.Running? ==> !capped
  {
    var content := FinalText(reply);
    if Trim(content) == "" then Stopped(s, EmptyResponse) else
      var m := Message(Assistant, content, reply.thinking, "", []);
      var logged := s.(rows := s.rows + [AssistantRecord(m, reply.usage)]);
      var over := BudgetExceeded(s.usage, cfg.maxTokens, cfg.maxMicros);
      if over.Some? then Stopped(logged, Log(over.value)) else
        var (after, steered, failure) := Steer(cfg, logged, arrivals);
        if failure.Some? then Stopped(after, failure.value)
        else if steered && !capped then Running(after.(content := content))
        else Finished(after.(content := content))
  }

  /** A step with tools: executed results first, refusals after them. */
  function BatchStep(cfg: Config, s: State, reply: Reply, executable: seq<ToolCall>, rejected: seq<ToolCall>,
                     refuse: ToolCall -> Option<string>, input: Input): (r: Status)
    requires reply.Reply?
    ensures r.s == s.(rows := r.s.rows, inbox := r.s.inbox, ran := r.s.ran)
    ensures r.s.ran == s.ran || (executable != [] && r.s.ran == s.ran + [Executed(s.iterations, executable)])
    ensures r.Running? && executable != [] ==> r.s.ran != s.ran
  {
    var m := Message(Assistant, reply.content, reply.thinking, "", reply.toolCalls);
    if !ValidMessage(cfg.json, m) then Stopped(s, Log(CorruptHistory)) else
      var logged := s.(rows := s.rows + [AssistantRecord(m, reply.usage)]);
      var over := BudgetExceeded(s.usage, cfg.maxTokens, cfg.maxMicros);
      if over.Some? then Stopped(logged, Log(over.value)) else
        var ran := if executable == [] then s.ran else s.ran + [Executed(s.iterations, executable)];
        var executed := AppendResults(cfg.json, logged.rows, executable, input.outcome);
        var afterRun := logged.(rows := executed.rows, ran := ran);
        if executed.failure.Some? then Stopped(afterRun, executed.failure.value) else
          var refused := AppendResults(cfg.json, executed.rows, rejected, refuse);
          var afterAll := afterRun.(rows := refused.rows);
          if refused.failure.Some? then Stopped(afterAll, refused.failure.value) else
            var (after, _, failure) := Steer(cfg, afterAll, input.arrivals);
            if failure.Some? then Stopped(after, failure.value) else Running(after)
  }

  function Refusal(cfg: Config): ToolCall -> Option<string> {
    (call: ToolCall) => Some(cfg.refusal(call,
        if Trim(call.name) in cfg.advertised then InvalidToolCall else UnadvertisedTool))
  }

  ghost function ToolStep(cfg: Config, s: State, reply: Reply, input: Input): Status
    requires reply.Reply?
  {
    var kinds := Kinds(cfg.json, reply.toolCalls, cfg.advertised, s.seen);
    var executable, rejected := OfKind(reply.toolCalls, kinds, true), OfKind(reply.toolCalls, kinds, false);
    var known := s.(seen := s.seen + CallIds(reply.toolCalls));
    var sig := SignatureOf(executable);
    var sigs := if sig == [] then s.sigs else s.sigs + [sig];
    if sig != [] && Repeated(sigs, WINDOW, MAX_REPEATS) then Running(known.(sigs := sigs, disabled := true))
    else BatchStep(cfg, known.(sigs := sigs), reply, executable, rejected, Refusal(cfg), input)
  }

  ghost function Step(cfg: Config, s: State, input: Input): Status {
    if input.cancelled then Stopped(s, Cancelled) else
      var spent := BudgetExhausted(s.usage, cfg.maxTokens, cfg.maxMicros);
      if spent.Some? then Stopped(s, Log(spent.value)) else
        var capped := Capped(cfg, s);
        var counted := s.(iterations := s.iterations + 1, usage := AddUsage(s.usage, input.reply.usage));
        if input.reply.NoReply? then Stopped(counted, ProviderFailed)
        else if input.reply.toolCalls == [] || s.disabled || capped then
          TextStep(cfg, counted, input.reply, capped, input.arrivals)
        else ToolStep(cfg, counted, input.reply, input)
  }

  /**
   * A run against any finite sequence of provider answers, tool results and steers;
   * it may still be running at the end.
   */
  ghost function Run(cfg: Config, s: State, script: seq<Input>): Status
    decreases |script|
  {
    if script == [] then Running(s) else
      var status := Step(cfg, s, script[0]);
      if status.Running? then Run(cfg, status.s, script[1..]) else status
  }

  // ----- what every run keeps -----

  /** A step that goes on has counted one iteration and was not capped. */
  lemma {:induction false} RunningStep(cfg: Config, s: State, input: Input)
    requires Step(cfg, s, input).Running?
    ensures var next := Step(cfg, s, input).s;
            next.iterations == s.iterations + 1 && !Capped(cfg, s)
            && (s.disabled ==> next.disabled && next.ran == s.ran)
  {
    hide TextStep, BatchStep, Repeated, AddUsage, BudgetExhausted, Kinds, OfKind, SignatureOf, CallIds, Refusal;
  }

  lemma {:induction false} StepCounts(cfg: Config, s: State, input: Input)
    ensures s.iterations <= Step(cfg, s, input).s.iterations <= s.iterations + 1
    ensures var ran := Step(cfg, s, input).s.ran;
            ran == s.ran || (!s.disabled && !Capped(cfg, s) && s.ran <= ran && |ran| == |s.ran| + 1 &&
                             ran[|s.ran|].iteration == s.iterations + 1)
  {
    hide TextStep, BatchStep, Repeated, AddUsage, BudgetExhausted, Kinds, OfKind, SignatureOf, CallIds, Refusal;
  }

  /** With a cap N, a run that starts at r iterations never counts more than max(r + 1, N). */
  lemma {:induction false} IterationCap(cfg: Config, s: State, script: seq<Input>)
    requires cfg.maxIterations > 0
    ensures Run(cfg, s, script).s.iterations <= Max(s.iterations + 1, cfg.maxIterations)
    decreases |script|
  {
    hide Step;
    if script != [] {
      StepCounts(cfg, s, script[0]);
      if Step(cfg, s, script[0]).Running? {
        RunningStep(cfg, s, script[0]);
        IterationCap(cfg, Step(cfg, s, script[0]).s, script[1..]);
      }
    }
  }

  /** Under a cap N, tools run only in iterations before the N-th, whatever the provider asks for. */
  lemma {:induction false} NoToolsInCappedStep(cfg: Config, s: State, script: seq<Input>)
    requires cfg.maxIterations > 0 && forall t | t in s.ran :: t.iteration < cfg.maxIterations
    ensures forall t | t in Run(cfg, s, script).s.ran :: t.iteration < cfg.maxIterations
    decreases |script|
  {
    hide Step;
    if script != [] {
      StepCounts(cfg, s, script[0]);
      if Step(cfg, s, script[0]).Running? {
        NoToolsInCappedStep(cfg, Step(cfg, s, script[0]).s, script[1..]);
      }
    }
  }

  /** Once a tool loop was detected no tool runs again. */
  lemma {:induction false} NoToolsAfterLoop(cfg: Config, s: State, script: seq<Input>)
    requires s.disabled
    ensures Run(cfg, s, script).s.ran == s.ran
    decreases |script|
  {
    hide Step;
    if script != [] {
      StepCounts(cfg, s, script[0]);
      if Step(cfg, s, script[0]).Running? {
        RunningStep(cfg, s, script[0]);
        NoToolsAfterLoop(cfg, Step(cfg, s, script[0]).s, script[1..]);
      }
    }
  }

  function Signatures(ran: seq<ToolRun>): (r: seq<Signature>)
    ensures |r| == |ran|
    ensures forall i | 0 <= i < |ran| :: r[i] == ran[i].signature
  {
    seq(|ran|, i requires 0 <= i < |ran| => ran[i].signature)
  }

  /** At no point did the executed batches look like a loop. */
  ghost predicate NoRepeats(sigs: seq<Signature>) {
    forall n | 0 <= n <= |sigs| :: !Repeated(sigs[..n], WINDOW, MAX_REPEATS)
  }

  ghost predicate Watched(s: State) {
    NoRepeats(Signatures(s.ran)) && (!s.disabled ==> Signatures(s.ran) == s.sigs)
  }

  lemma {:induction false} OneMoreSignature(ran: seq<ToolRun>, t: ToolRun)
    requires NoRepeats(Signatures(ran)) && !Repeated(Signatures(ran) + [t.signature], WINDOW, MAX_REPEATS)
    ensures Signatures(ran + [t]) == Signatures(ran) + [t.signature] && NoRepeats(Signatures(ran + [t]))
  {
    hide Repeated;
    var more := Signatures(ran + [t]);
    assert more == Signatures(ran) + [t.signature];
    forall n | 0 <= n <= |more| ensures !Repeated(more[..n], WINDOW, MAX_REPEATS) {
      if n <= |ran| {
        assert more[..n] == Signatures(ran)[..n];
      } else {
        assert more[..n] == more;
      }
    }
  }

  lemma {:induction false} StepWatched(cfg: Config, s: State, input: Input)
    requires Watched(s)
    ensures NoRepeats(Signatures(Step(cfg, s, input).s.ran))
    ensures Step(cfg, s, input).Running? ==> Watched(Step(cfg, s, input).s)
  {
    hide TextStep, BatchStep, Repeated, NoRepeats, AddUsage, BudgetExhausted, Kinds, OfKind, SignatureOf, CallIds,
        Refusal;
    if !s.disabled && input.reply.Reply? {
      var kinds := Kinds(cfg.json, input.reply.toolCalls, cfg.advertised, s.seen);
      var executable := OfKind(input.reply.toolCalls, kinds, true);
      var sig := SignatureOf(executable);
      if sig != [] && !Repeated(s.sigs + [sig], WINDOW, MAX_REPEATS) {
        OneMoreSignature(s.ran, Executed(s.iterations + 1, executable));
      }
    }
  }

  lemma {:induction false} RunWatched(cfg: Config, s: State, script: seq<Input>)
    requires Watched(s)
    ensures NoRepeats(Signatures(Run(cfg, s, script).s.ran))
    decreases |script|
  {
    hide Step, NoRepeats;
    if script != [] {
      StepWatched(cfg, s, script[0]);
      if Step(cfg, s, script[0]).Running? {
        RunWatched(cfg, Step(cfg, s, script[0]).s, script[1..]);
      }
    }
  }

  /** Among any ten consecutive executed batches of a run no batch occurs more than five times. */
  lemma {:induction false} ExecutedWindow(cfg: Config, s: State, script: seq<Input>, i: nat, sig: Signature)
    requires s.ran == [] && s.sigs == [] && !s.disabled && sig != []
    requires i + WINDOW <= |Run(cfg, s, script).s.ran|
    ensures Count(sig, Signatures(Run(cfg, s, script).s.ran)[i..i + WINDOW]) <= MAX_REPEATS
  {
    hide Run, Count;
    assert Watched(s);
    RunWatched(cfg, s, script);
    var sigs := Signatures(Run(cfg, s, script).s.ran);
    assert Latest(sigs[..i + WINDOW], WINDOW) == sigs[i..i + WINDOW];
    assert !Frequent(sig, sigs[i..i + WINDOW], MAX_REPEATS);
    assert !Repeated(sigs[..i + WINDOW], WINDOW, MAX_REPEATS);
  }

  lemma {:induction false} CountAll(sig: Signature, sigs: seq<Signature>)
    requires forall i | 0 <= i < |sigs| :: sigs[i] == sig
    ensures Count(sig, sigs) == |sigs|
  {
    if sigs != [] {
      CountAll(sig, sigs[..|sigs| - 1]);
    }
  }

  /** A run that asks for the same batch over and over executes it nine times at most. */
  lemma {:induction false} SameBatchAtMostNine(cfg: Config, s: State, script: seq<Input>, sig: Signature)
    requires s.ran == [] && s.sigs == [] && !s.disabled && sig != []
    requires forall t | t in Run(cfg, s, script).s.ran :: t.signature == sig
    ensures |Run(cfg, s, script).s.ran| <= 9
  {
    hide Run;
    var ran := Run(cfg, s, script).s.ran;
    if |ran| >= WINDOW {
      ExecutedWindow(cfg, s, script, 0, sig);
      var window := Signatures(ran)[0..WINDOW];
      forall i | 0 <= i < WINDOW ensures window[i] == sig {
        assert ran[i] in ran;
      }
      CountAll(sig, window);
    }
  }
}
