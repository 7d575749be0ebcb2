/** The limits on what a run spends. */
module Limits {
  import opened Records
  import opened ToolCalls
  import opened RunLoop
  import opened LiveLog
  import opened LiveReplay
  import opened Completion

  /** Something is left of every limit that is set. */
  predicate BelowLimits(usage: Usage, cfg: Config) {
    (cfg.maxTokens > 0 ==> usage.total < cfg.maxTokens) && (cfg.maxMicros > 0 ==> usage.micros < cfg.maxMicros)
  }

  /** No limit that is set is exceeded. */
  predicate WithinLimits(usage: Usage, cfg: Config) {
    (cfg.maxTokens > 0 ==> usage.total <= cfg.maxTokens) && (cfg.maxMicros > 0 ==> usage.micros <= cfg.maxMicros)
  }

  /**
   * The provider is asked exactly if the run is not cancelled and something is left of every limit. A step that goes on
   * or ends the run has stayed within the limits, unless it was a tool loop.
   */
  lemma {:induction false} StepSpends(cfg: Config, s: State, input: Input)
    ensures Counts(cfg, s, input) <==> !input.cancelled && BelowLimits(s.usage, cfg)
    ensures !Step(cfg, s, input).Stopped? && !Lost(cfg, s, input) ==> WithinLimits(Step(cfg, s, input).s.usage, cfg)
  {
    if !Step(cfg, s, input).Stopped? && !Lost(cfg, s, input) {
      StepBills(cfg, s, input);
      StepInBudget(cfg, s, input);
    }
    hide Step, Lost, AddUsage;
  }

  /** The limits stop a step: what it would have asked for is not asked, and its log stays as it is. */
  lemma {:induction false} SpentStops(cfg: Config, s: State, input: Input)
    requires !BelowLimits(s.usage, cfg)
    ensures var status := Step(cfg, s, input); status.Stopped? && status.s == s
  {
    StepSpends(cfg, s, input);
    StepBills(cfg, s, input);
  }

  /**
   * However a run ends, every reply but the last was asked for, and had come, while something was left of every limit:
   * a run exceeds a limit by its last reply at most. A run that ends in time is within its limits.
   */
  lemma {:induction false} RunSpends(cfg: Config, s: State, script: seq<Input>, n: nat)
    requires n < |Answers(cfg, s, script)|
    ensures BelowLimits(Spend(s.usage, UsagesOf(Answers(cfg, s, script)[..n])), cfg)
    decreases |script|
  {
    hide Step, Lost, AddUsage, BelowLimits;
    StepSpends(cfg, s, script[0]);
    var answers := Answers(cfg, s, script);
    if n == 0 {
      assert answers[..0] == [];
    } else {
      var next := Step(cfg, s, script[0]).s;
      StepBills(cfg, s, script[0]);
      assert answers[1..] == Answers(cfg, next, script[1..]);
      RunSpends(cfg, next, script[1..], n - 1);
      assert answers[..n] == [answers[0]] + answers[1..][..n - 1];
      assert UsagesOf(answers[..n]) == [answers[0].usage] + UsagesOf(answers[1..][..n - 1]);
    }
  }

  lemma {:induction false} FinishedWithinLimits(cfg: Config, s: State, script: seq<Input>)
    requires Run(cfg, s, script).Finished?
    ensures WithinLimits(Run(cfg, s, script).s.usage, cfg)
    decreases |script|
  {
    hide Step, Lost, WithinLimits;
    if Step(cfg, s, script[0]).Running? {
      FinishedWithinLimits(cfg, Step(cfg, s, script[0]).s, script[1..]);
    } else {
      StepSpends(cfg, s, script[0]);
      FinishedIsKept(cfg, s, script[0]);
    }
  }

  lemma {:induction false} FinishedIsKept(cfg: Config, s: State, input: Input)
    requires Step(cfg, s, input).Finished?
    ensures !Lost(cfg, s, input)
  {
    FinishedInText(cfg, s, input);
    var counted := s.(iterations := s.iterations + 1, usage := AddUsage(s.usage, input.reply.usage));
    hide AddUsage, BudgetExhausted, TextStep, ToolStep, FinalText;
    TextOrStopped(cfg, counted, input.reply, Capped(cfg, s), input.arrivals);
  }
}
