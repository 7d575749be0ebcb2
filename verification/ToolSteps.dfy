/** What a tool step does: which batches it executes, what it logs of them, and when it takes them for a loop. */
module ToolSteps {
  import opened Text
  import opened Messages
  import opened Records
  import opened ToolCalls
  import opened RunLoop
  import opened CrashRecovery
  import opened BatchOrder
  import opened LiveLog
  import opened LiveReplay
  import opened Survival
  import opened Steers
  import opened Completion
  import opened Limits
  import Queue = Inbox

  // ----- loops -----

  /** Where a batch stands in a list of batches. */
  function Occurrences(sig: Signature, sigs: seq<Signature>): set<nat> {
    set i: nat | i < |sigs| && sigs[i] == sig
  }

  lemma {:induction false} CountIsOccurrences(sig: Signature, sigs: seq<Signature>)
    ensures Count(sig, sigs) == |Occurrences(sig, sigs)|
  {
    if sigs != [] {
      var last := |sigs| - 1;
      CountIsOccurrences(sig, sigs[..last]);
      assert Occurrences(sig, sigs) ==
             Occurrences(sig, sigs[..last]) + if sigs[last] == sig then {last} else {};
    }
  }

  lemma {:induction false} OccursIsIn(sig: Signature, sigs: seq<Signature>)
    requires |Occurrences(sig, sigs)| > 0
    ensures sig in sigs
  {
    assert sig !in sigs ==> Occurrences(sig, sigs) == {};
  }

  /** A loop is raised exactly if some batch that executes something stands more than five times among the last ten. */
  lemma {:induction false} LoopIff(sigs: seq<Signature>)
    ensures Repeated(sigs, WINDOW, MAX_REPEATS) <==>
            |sigs| >= 10 &&
            var last := sigs[|sigs| - 10..];
            exists sig | sig in last :: sig != [] && |Occurrences(sig, last)| > 5
  {
    hide Count, Occurrences;
    if |sigs| >= WINDOW {
      var window := sigs[|sigs| - 10..];
      forall sig: Signature ensures Count(sig, window) == |Occurrences(sig, window)| {
        CountIsOccurrences(sig, window);
      }
      if Repeated(sigs, WINDOW, MAX_REPEATS) {
        var sig :| Frequent(sig, Latest(sigs, WINDOW), MAX_REPEATS);
        assert |Occurrences(sig, window)| > 5;
        OccursIsIn(sig, window);
      }
      if sig :| sig in window && sig != [] && |Occurrences(sig, window)| > 5 {
        assert Frequent(sig, Latest(sigs, WINDOW), MAX_REPEATS);
      }
    }
  }

  /** Two batches count as the same exactly if they call the same tools with the same arguments, in the same order. */
  lemma {:induction false} SignatureIff(a: seq<ToolCall>, b: seq<ToolCall>)
    ensures SignatureOf(a) == SignatureOf(b) <==>
            && |a| == |b|
            && forall i | 0 <= i < |a| ::
                 Trim(a[i].name) == Trim(b[i].name) && Trim(a[i].arguments) == Trim(b[i].arguments)
    decreases |a|
  {
    hide Trim;
    if a != [] && b != [] {
      SignatureIff(a[1..], b[1..]);
      SignatureFirst(a);
      SignatureFirst(b);
      assert forall i | 1 <= i < |a| :: a[i] == a[1..][i - 1];
      assert forall i | 1 <= i < |b| :: b[i] == b[1..][i - 1];
    }
  }

  lemma {:induction false} SignatureFirst(calls: seq<ToolCall>)
    requires calls != []
    ensures SignatureOf(calls)[0] == (Trim(calls[0].name), Trim(calls[0].arguments))
    ensures SignatureOf(calls)[1..] == SignatureOf(calls[1..])
  {
    hide Trim;
  }

  // ----- refusals -----

  /** A call that can be logged is refused for the reason that was found in it. */
  lemma {:induction false} RefusalSaysWhy(cfg: Config, calls: seq<ToolCall>, seen: set<string>, i: nat)
    requires i < |calls| && ValidCall(cfg.json, calls[i])
    requires Kinds(cfg.json, calls, cfg.advertised, seen)[i] != Executable
    ensures var kind := Kinds(cfg.json, calls, cfg.advertised, seen)[i];
            && Refusal(cfg)(calls[i]) == Some(cfg.refusal(calls[i], kind))
            && (kind == UnadvertisedTool <==> Trim(calls[i].name) !in cfg.advertised)
  {
    KindAt(cfg.json, calls, cfg.advertised, seen, i);
    hide Trim, Kinds;
  }

  // ----- the step -----

  /** The rows of results, one for each call: under the trimmed id, with what the outcome says. */
  lemma {:induction false} ResultRowsAre(calls: seq<ToolCall>, outcome: ToolCall -> Option<string>)
    requires AllReturn(calls, outcome)
    ensures |ResultRows(calls, outcome)| == |calls|
    ensures forall k | 0 <= k < |calls| ::
              ResultRows(calls, outcome)[k] ==
              RunRecord(ToolResult, Message(Tool, outcome(calls[k]).value, "", calls[k].id, []), NO_USAGE,
                        Trim(calls[k].id))
    decreases |calls|
  {
    hide Trim;
    if calls != [] {
      ResultRowsAre(calls[1..], outcome);
    }
  }

  /** The rows of a batch that is answered in full: the reply, the executed calls' results, the refusals. */
  function BatchRows(cfg: Config, reply: Reply, executed: seq<ToolCall>, refused: seq<ToolCall>, input: Input)
    : seq<RunRecord>
    requires reply.Reply? && AllReturn(executed, input.outcome)
  {
    [AssistantRecord(Message(Assistant, reply.content, reply.thinking, "", reply.toolCalls), reply.usage)]
    + ResultRows(executed, input.outcome) + ResultRows(refused, Refusal(cfg))
  }

  lemma {:induction false} BatchStepDoes(cfg: Config, s: State, reply: Reply, kinds: seq<Kind>, input: Input)
    requires reply.Reply? && HasTexts(s.inbox) && |kinds| == |reply.toolCalls| && Loggable(cfg.json, reply)
    requires BudgetExceeded(s.usage, cfg.maxTokens, cfg.maxMicros).None?
    requires AllReturn(OfKind(reply.toolCalls, kinds, true), input.outcome)
    requires Unanswered(s.rows, reply.toolCalls) && DistinctIds(reply.toolCalls)
    ensures var e, r := OfKind(reply.toolCalls, kinds, true), OfKind(reply.toolCalls, kinds, false);
            BatchStep(cfg, s, reply, e, r, Refusal(cfg), input) ==
            Running(s.(rows := s.rows + BatchRows(cfg, reply, e, r, input)
                               + UserRows(Filter(Fresh, Taken(cfg, s, input.arrivals))),
                       inbox := Queue.Left(EnqueueAll(s.inbox, input.arrivals), cfg.session),
                       ran := if e == [] then s.ran else s.ran + [Executed(s.iterations, e)]))
  {
    hide AppendResults, OfKind, HasResult, ValidCall, DistinctIds, BudgetExceeded, Steer, Queue.Claimed, Queue.Left,
         EnqueueAll, UserRows, Unanswered, Executed, Filter, ResultRows;
    var calls := reply.toolCalls;
    var m := Message(Assistant, reply.content, reply.thinking, "", calls);
    var logged := s.rows + [AssistantRecord(m, reply.usage)];
    var e, r := OfKind(calls, kinds, true), OfKind(calls, kinds, false);
    SameUnanswered(s.rows, m, reply.usage, calls);
    BothAppended(cfg.json, logged, calls, kinds, input.outcome, Refusal(cfg));
    var executed := AppendResults(cfg.json, logged, e, input.outcome);
    var refused := AppendResults(cfg.json, executed.rows, r, Refusal(cfg));
    AppendedRows(cfg.json, logged, e, input.outcome);
    AppendedRows(cfg.json, executed.rows, r, Refusal(cfg));
    var ran := if e == [] then s.ran else s.ran + [Executed(s.iterations, e)];
    SteerDelivers(cfg, s.(rows := refused.rows, ran := ran), input.arrivals);
    assert refused.rows == s.rows + BatchRows(cfg, reply, e, r, input);
  }

  /**
   * The run is not cancelled, something is left of its limits, tools are not disabled and this is not its last
   * iteration; the model asks for calls that can be logged, with ids that are new and distinct, and they are no loop;
   * what it used is within the limits, and every executed tool returns.
   */
  ghost predicate RunsTools(cfg: Config, s: State, input: Input) {
    && HasTexts(s.inbox) && input.reply.Reply?
    && !input.cancelled && BelowLimits(s.usage, cfg) && !s.disabled
    && (cfg.maxIterations <= 0 || s.iterations + 1 < cfg.maxIterations)
    && input.reply.toolCalls != [] && Loggable(cfg.json, input.reply) && !LoopDetected(cfg, s, input.reply)
    && WithinLimits(AddUsage(s.usage, input.reply.usage), cfg)
    && Unanswered(s.rows, input.reply.toolCalls) && DistinctIds(input.reply.toolCalls)
    && AllReturn(OfKind(input.reply.toolCalls, KindsOf(cfg, s, input.reply), true), input.outcome)
  }

  /**
   * What such a step does, told from its input alone: the executable calls run, once, in the order of the batch, and
   * the log gains the reply, their results, the refusals of the others, and the steers that the step took.
   */
  lemma {:induction false} ToolStepDoes(cfg: Config, s: State, input: Input)
    requires RunsTools(cfg, s, input)
    ensures var reply, kinds := input.reply, KindsOf(cfg, s, input.reply); var calls := reply.toolCalls;
            var e, r := OfKind(calls, kinds, true), OfKind(calls, kinds, false);
            var sig := SignatureOf(e);
            Step(cfg, s, input) ==
            Running(s.(rows := s.rows + BatchRows(cfg, reply, e, r, input)
                               + UserRows(Filter(Fresh, Taken(cfg, s, input.arrivals))),
                       inbox := Queue.Left(EnqueueAll(s.inbox, input.arrivals), cfg.session),
                       iterations := s.iterations + 1,
                       usage := AddUsage(s.usage, reply.usage),
                       seen := s.seen + CallIds(calls),
                       sigs := if e == [] then s.sigs else s.sigs + [sig],
                       ran := if e == [] then s.ran else s.ran + [Executed(s.iterations + 1, e)]))
  {
    hide Step, ToolStep, BatchStep, AddUsage, BudgetExceeded, EnqueueAll, Queue.Claimed, Queue.Left, UserRows, Taken,
         Kinds, OfKind, SignatureOf, CallIds, Refusal, AllReturn, Unanswered, DistinctIds, LoopDetected, Loggable,
         Filter, BatchRows, HasTexts, Executed, BelowLimits, WithinLimits, Counts, AnswersInText;
    var counted := s.(iterations := s.iterations + 1, usage := AddUsage(s.usage, input.reply.usage));
    var reply := input.reply;
    NotSpent(cfg, s, input);
    ToolStepOf(cfg, s, input);
    SameLoop(cfg, s, counted, reply);
    LoggedBatchOf(cfg, counted, input);
    var kinds := KindsOf(cfg, counted, reply);
    var e := OfKind(reply.toolCalls, kinds, true);
    var sig := SignatureOf(e);
    assert sig == [] <==> e == [];
    var known := counted.(seen := s.seen + CallIds(reply.toolCalls),
                          sigs := if sig == [] then s.sigs else s.sigs + [sig]);
    BatchStepDoes(cfg, known, reply, kinds, input);
    SameTaken(cfg, s, known, input.arrivals);
  }

  lemma {:induction false} SameTaken(cfg: Config, s: State, t: State, arrivals: seq<Queue.Item>)
    requires s.inbox == t.inbox
    ensures Taken(cfg, s, arrivals) == Taken(cfg, t, arrivals)
  {
  }

  lemma {:induction false} NotSpent(cfg: Config, s: State, input: Input)
    requires !input.cancelled && BelowLimits(s.usage, cfg) && input.reply.Reply?
    requires WithinLimits(AddUsage(s.usage, input.reply.usage), cfg)
    requires !s.disabled && (cfg.maxIterations <= 0 || s.iterations + 1 < cfg.maxIterations)
    requires input.reply.toolCalls != []
    ensures Counts(cfg, s, input) && !AnswersInText(cfg, s, input.reply)
    ensures BudgetExceeded(AddUsage(s.usage, input.reply.usage), cfg.maxTokens, cfg.maxMicros).None?
  {
    hide AddUsage;
  }
}
