/**
 * The provider view: Build (internal/contextpack/view.go) and rebuildProviderView (internal/agent/runner_compact.go).
 */
module View {
  import opened Text
  import opened Messages
  import opened Repair
  import opened Turns
  import Pack

  const PRIOR := "[Prior"
  const TODOS := "Session todos:"
  const MIN_HISTORY_BUDGET := 2_048

  datatype ContextView = ContextView(
    prefix: seq<Message>,
    summary: seq<Message>,
    tail: seq<Message>,
    ephemeral: seq<Message>)
  {
    function Messages(): seq<Message> {
      prefix + summary + tail + ephemeral
    }
  }

  predicate IsTodo(m: Message) {
    m.role.System? && HasPrefix(m.content, TODOS)
  }

  predicate NotTodo(m: Message) {
    !IsTodo(m)
  }

  predicate IsPrior(m: Message) {
    HasPrefix(m.content, PRIOR)
  }

  function SummaryBlock(summary: string): (r: seq<Message>)
    ensures forall m | m in r :: m.role.System? && IsPrior(m)
  {
    var text := Trim(summary);
    if text == "" then []
    else if HasPrefix(text, PRIOR) then [SystemMessage(text)]
    else
      var headed := PRIOR + " session context \U{2014} compacted]\n" + text;
      assert PRIOR <= headed;
      [SystemMessage(headed)]
  }

  function Built(
    prefix: seq<Message>, history: seq<Message>, ephemeral: seq<Message>, summary: string, opt: Pack.PackOptions)
    : ContextView
  {
    ContextView(prefix, SummaryBlock(summary), Pack.Packed(history, opt).messages, ephemeral)
  }

  method Build(
    prefix: seq<Message>, history: seq<Message>, ephemeral: seq<Message>, summary: string, opt: Pack.PackOptions)
    returns (view: ContextView, compacted: bool)
    ensures view == Built(prefix, history, ephemeral, summary, opt)
    ensures compacted <==>
            view.summary != [] || Pack.Packed(history, opt).dropped > 0 || Pack.ClearedTools(history, opt) > 0
  {
    hide Pack.Packed, Pack.View, Pack.Fit, Pack.ClearedTools;
    var block: seq<Message> := [];
    var text := Trim(summary);
    if text != "" {
      if !HasPrefix(text, PRIOR) {
        text := PRIOR + " session context \U{2014} compacted]\n" + text;
      }
      block := [SystemMessage(text)];
    }
    var packed := Pack.Pack(history, opt);
    compacted := |block| > 0 || packed.droppedMessages > 0 || packed.clearedTools > 0;
    view := ContextView(prefix, block, packed.messages, ephemeral);
  }

  /** The last user message, or the length of the list. */
  function LastUser(ms: seq<Message>): (i: nat)
    ensures i <= |ms|
    ensures i < |ms| ==> ms[i].role.User?
    ensures forall j | i < j < |ms| :: !ms[j].role.User?
    ensures i == |ms| ==> forall m | m in ms :: !m.role.User?
  {
    if ms == [] then 0
    else if ms[|ms| - 1].role.User? then |ms| - 1
    else
      var i := LastUser(ms[..|ms| - 1]);
      if i == |ms| - 1 then |ms| else i
  }

  method LastUserIndex(messages: seq<Message>) returns (i: int)
    ensures i == if LastUser(messages) == |messages| then -1 else LastUser(messages)
  {
    i := |messages| - 1;
    while i >= 0
      invariant -1 <= i < |messages|
      invariant forall j | i < j < |messages| :: !messages[j].role.User?
    {
      if messages[i].role.User? {
        LastUserUnique(messages, i);
        return;
      }
      i := i - 1;
    }
    return -1;
  }

  lemma {:induction false} LastUserUnique(ms: seq<Message>, i: nat)
    requires i < |ms| && ms[i].role.User? && forall j | i < j < |ms| :: !ms[j].role.User?
    ensures LastUser(ms) == i
  {
    assert ms[i] in ms;
  }

  datatype Coding = Coding(history: seq<Message>, ephemeral: seq<Message>)

  /** The todo blocks before the last user leave the history; they and the last turn are kept apart from it. */
  function CodingSplit(rest: seq<Message>): Coding {
    var end := LastUser(rest);
    Coding(Filter(NotTodo, rest[..end]), Filter(IsTodo, rest[..end]) + rest[end..])
  }

  method SplitCodingEphemeral(rest: seq<Message>) returns (history: seq<Message>, ephemeral: seq<Message>)
    ensures Coding(history, ephemeral) == CodingSplit(rest)
  {
    hide Filter, HasPrefix;
    assert Filter(IsTodo, []) == [] && Filter(NotTodo, []) == [] by {
      FilterAll(IsTodo, []);
      FilterAll(NotTodo, []);
    }
    var userIdx := LastUserIndex(rest);
    var end := userIdx;
    if end < 0 {
      end := |rest|;
    }
    var todos: seq<Message> := [];
    history := [];
    for i := 0 to end
      invariant todos == Filter(IsTodo, rest[..i])
      invariant history == Filter(NotTodo, rest[..i])
    {
      assert rest[..i + 1] == rest[..i] + [rest[i]];
      FilterOneMore(IsTodo, rest[..i], rest[i]);
      FilterOneMore(NotTodo, rest[..i], rest[i]);
      if IsTodo(rest[i]) {
        todos := todos + [rest[i]];
        continue;
      }
      history := history + [rest[i]];
    }
    if userIdx >= 0 {
      ephemeral := todos + rest[userIdx..];
    } else {
      ephemeral := todos;
      assert rest[end..] == [];
    }
  }

  // ----- budgets -----

  function UsableWindow(contextWindow: int, maxOutput: int, reserve: int): int {
    if contextWindow <= 0 then 0 else
      var out := Max(0, maxOutput);
      var kept := if reserve <= 0 then Min(8192, Max(1024, out)) else reserve;
      Max(1024, contextWindow - out - kept)
  }

  function HistoryBudget(usable: int): int {
    if usable <= 0 then 0
    else if usable * 60 / 100 < MIN_HISTORY_BUDGET then Min(usable, MIN_HISTORY_BUDGET)
    else Min(usable, usable * 60 / 100)
  }

  function ClampMaxOutput(maxOutput: int): int {
    if maxOutput <= 0 || maxOutput > 16_384 then 8_192 else maxOutput
  }

  function RebuildBudget(window: int, maxOutput: int): int {
    var budget := HistoryBudget(UsableWindow(window, ClampMaxOutput(maxOutput), 0));
    if budget <= 0 then MIN_HISTORY_BUDGET else budget
  }

  /** A rebuild always packs under a real budget, within the usable window when the window is known. */
  lemma {:induction false} RebuildBudgetBounds(window: int, maxOutput: int)
    ensures RebuildBudget(window, maxOutput) > 0
    ensures window > 0 ==> RebuildBudget(window, maxOutput) <= UsableWindow(window, ClampMaxOutput(maxOutput), 0)
  {
    var usable := UsableWindow(window, ClampMaxOutput(maxOutput), 0);
    assert usable >= 1024 ==> usable * 60 / 100 > 0;
  }

  /**
   * A known window has room for the answer, a reserve of 1024 to 8192 tokens, and the usable part, unless that part is
   * at its least; the history takes 60 percent of it, or 2048 tokens if that is more and fits.
   */
  lemma {:induction false} WindowIsShared(window: int, maxOutput: int)
    ensures var out := ClampMaxOutput(maxOutput); var usable := UsableWindow(window, out, 0);
            var budget := HistoryBudget(usable);
            && 1 <= out <= 16_384 && (1 <= maxOutput <= 16_384 ==> out == maxOutput)
            && (window <= 0 ==> usable == 0 && budget == 0)
            && (window > 0 ==>
                  && usable >= 1024 && (usable > 1024 ==> out + 1024 <= window - usable <= out + 8192)
                  && 0 < budget <= usable && (budget < usable ==> budget >= 2048)
                  && (budget <= 2048 || (100 * budget <= 60 * usable < 100 * budget + 100)))
  {
  }

  // ----- rebuilding in mid-turn -----

  datatype Opened = Opened(prefix: seq<Message>, prior: string, rest: seq<Message>)

  /** The leading system block without its last message when that one is an earlier summary. */
  function OpenView(ms: seq<Message>): Opened {
    var n := LeadingSystem(ms);
    if n > 0 && IsPrior(ms[n - 1]) then Opened(ms[..n - 1], ms[n - 1].content, ms[n..])
    else Opened(ms[..n], "", ms[n..])
  }

  datatype Condensed = Condensed(history: seq<Message>, summary: string)

  /** What of a history is kept: all of a short one, the last two turns of a long one. */
  function KeptTurns(history: seq<Message>): seq<Message> {
    var split := HeadTail(history, 2);
    if |history| > 4 && split.head != [] then split.tail[LeadingSystem(split.tail)..] else history
  }

  /** What a rebuild packs: the conversation before the last user, less its todo blocks and summarised head. */
  function KeptHistory(ms: seq<Message>): seq<Message> {
    KeptTurns(CodingSplit(OpenView(ms).rest).history)
  }

  /** A long history gives up its head to the summariser and keeps its last two turns. */
  function Condense(history: seq<Message>, prior: string, summarize: seq<Message> -> string): Condensed {
    var split := HeadTail(history, 2);
    if |history| > 4 && split.head != [] then
      Condensed(split.tail[LeadingSystem(split.tail)..], summarize(split.head))
    else Condensed(history, prior)
  }

  function RebuildOptions(window: int, maxOutput: int, maxRunes: int): Pack.PackOptions {
    Pack.PackOptions(RebuildBudget(window, maxOutput), maxRunes, 0, 0)
  }

  function RebuiltView(ms: seq<Message>, opt: Pack.PackOptions, summarize: seq<Message> -> string): ContextView {
    var start := OpenView(ms);
    var coding := CodingSplit(start.rest);
    var condensed := Condense(coding.history, start.prior, summarize);
    Built(start.prefix, condensed.history, coding.ephemeral, condensed.summary, opt)
  }

  function Rebuilt(ms: seq<Message>, opt: Pack.PackOptions, summarize: seq<Message> -> string): seq<Message> {
    if ms == [] then ms else RebuiltView(ms, opt, summarize).Messages()
  }

  method SplitLeadingSystem(messages: seq<Message>) returns (prefix: seq<Message>, rest: seq<Message>)
    ensures prefix == messages[..LeadingSystem(messages)] && rest == messages[LeadingSystem(messages)..]
  {
    var i := 0;
    while i < |messages| && messages[i].role.System?
      invariant 0 <= i <= |messages|
      invariant forall j | 0 <= j < i :: messages[j].role.System?
    {
      i := i + 1;
    }
    LeadingSystemUnique(messages, i);
    return messages[..i], messages[i..];
  }

  method RebuildProviderView(
    messages: seq<Message>, window: int, maxOutput: int, maxRunes: int, summarize: seq<Message> -> string)
    returns (out: seq<Message>)
    ensures out == Rebuilt(messages, RebuildOptions(window, maxOutput, maxRunes), summarize)
  {
    hide CodingSplit, HeadTail, Built, LeadingSystem;
    if |messages| == 0 {
      return messages;
    }
    var prefix, rest := SplitLeadingSystem(messages);
    var existingSummary := "";
    var n := |prefix|;
    if n > 0 && IsPrior(prefix[n - 1]) {
      existingSummary := prefix[n - 1].content;
      prefix := prefix[..n - 1];
    }
    assert OpenView(messages) == Opened(prefix, existingSummary, rest);
    var history, ephemeral := SplitCodingEphemeral(rest);
    var budget := HistoryBudget(UsableWindow(window, ClampMaxOutput(maxOutput), 0));
    if budget <= 0 {
      budget := MIN_HISTORY_BUDGET;
    }
    var summary := existingSummary;
    if |history| > 4 {
      var head, tail := SplitHeadTail(history, 2);
      if |head| > 0 {
        summary := summarize(head);
        var _, kept := SplitLeadingSystem(tail);
        history := kept;
      }
    }
    var view, _ := Build(prefix, history, ephemeral, summary, Pack.PackOptions(budget, maxRunes, 0, 0));
    return view.Messages();
  }

  // ----- what a rebuild keeps -----

  predicate IsSuffix(s: seq<Message>, ms: seq<Message>) {
    |s| <= |ms| && ms[|ms| - |s|..] == s
  }

  /**
   * For every summariser and budget the rebuilt view begins with the system messages it was given, less a trailing
   * summary, and ends with the last user message and all that followed it, word for word.
   */
  lemma {:induction false} RebuildKeepsEnds(ms: seq<Message>, opt: Pack.PackOptions, summarize: seq<Message> -> string)
    requires ms != []
    ensures OpenView(ms).prefix <= Rebuilt(ms, opt, summarize)
    ensures var rest := OpenView(ms).rest; IsSuffix(rest[LastUser(rest)..], Rebuilt(ms, opt, summarize))
  {
    hide Condense, Built, LastUser, OpenView;
    var start := OpenView(ms);
    var view := RebuiltView(ms, opt, summarize);
    assert view.prefix == start.prefix && view.ephemeral == CodingSplit(start.rest).ephemeral by {
      BuiltParts(ms, opt, summarize);
    }
    var u := LastUser(start.rest);
    var front := view.prefix + view.summary + view.tail + Filter(IsTodo, start.rest[..u]);
    assert view.Messages() == front + start.rest[u..];
  }

  lemma {:induction false} BuiltParts(ms: seq<Message>, opt: Pack.PackOptions, summarize: seq<Message> -> string)
    ensures var start := OpenView(ms); var coding := CodingSplit(start.rest);
            var condensed := Condense(coding.history, start.prior, summarize);
            var view := RebuiltView(ms, opt, summarize);
            && view.prefix == start.prefix && view.ephemeral == coding.ephemeral
            && view.summary == SummaryBlock(condensed.summary)
            && view.tail == Pack.Packed(condensed.history, opt).messages
  {
  }

  /** Packing invents no system message. */
  lemma {:induction false} PackedSystems(ms: seq<Message>, opt: Pack.PackOptions, m: Message)
    requires m in Pack.Packed(ms, opt).messages && m.role.System?
    ensures m in ms
  {
    hide Pack.FitsNewestTurns, IsSynthetic;
    var view := Pack.View(ms, opt);
    if opt.budget > 0 {
      Pack.FitMembers(view, opt.budget, m);
    }
    Pack.ViewShape(ms, opt);
    RepairSources(ms);
    var i :| 0 <= i < |view| && view[i] == m;
    assert Repaired(ms)[i].role.System?;
    SystemUntouched(ms, opt, i);
    assert Repaired(ms)[i] in Repaired(ms);
    SyntheticIsTool();
  }

  lemma {:induction false} SyntheticIsTool()
    ensures forall m :: IsSynthetic(m) ==> m.role.Tool?
  {
  }

  lemma {:induction false} SystemUntouched(ms: seq<Message>, opt: Pack.PackOptions, i: nat)
    requires i < |Pack.View(ms, opt)| && |Pack.View(ms, opt)| == |Repaired(ms)| && Repaired(ms)[i].role.System?
    ensures Pack.View(ms, opt)[i] == Repaired(ms)[i]
  {
    hide Repaired;
  }

  lemma {:induction false} CondenseMembers(
    history: seq<Message>, prior: string, summarize: seq<Message> -> string, m: Message)
    requires m in Condense(history, prior, summarize).history
    ensures m in history
  {
    hide AlignCut, TailStart, Users, LeadingSystem;
    var split := HeadTail(history, 2);
    if m !in history {
      assert m in split.tail;
      SplitMembers(history, m);
    }
  }

  lemma {:induction false} SplitMembers(ms: seq<Message>, m: Message)
    requires m in HeadTail(ms, 2).tail
    ensures m in ms
  {
    hide AlignCut, TailStart, Users, LeadingSystem;
  }

  /** Every todo block survives a rebuild: each once, in order, and the conversation adds none. */
  lemma {:induction false} RebuildKeepsTodos(ms: seq<Message>, opt: Pack.PackOptions, summarize: seq<Message> -> string)
    requires ms != []
    ensures Filter(IsTodo, Rebuilt(ms, opt, summarize)) ==
            Filter(IsTodo, OpenView(ms).prefix) + Filter(IsTodo, OpenView(ms).rest)
  {
    hide Condense, OpenView, SummaryBlock, Pack.Packed, Filter, HasPrefix, LastUser, Built;
    BuiltParts(ms, opt, summarize);
    var start := OpenView(ms);
    var rest := start.rest;
    var u := LastUser(rest);
    var view := RebuiltView(ms, opt, summarize);
    forall m | m in view.tail ensures !IsTodo(m) {
      if m.role.System? {
        var coding := CodingSplit(rest);
        PackedSystems(Condense(coding.history, start.prior, summarize).history, opt, m);
        CondenseMembers(coding.history, start.prior, summarize, m);
      }
    }
    FilterNone(IsTodo, view.tail);
    PriorIsNoTodo(view.summary);
    TodosOfParts(view.prefix, view.summary, view.tail, rest, u);
  }

  lemma {:induction false} TodosOfParts(
    prefix: seq<Message>, summary: seq<Message>, tail: seq<Message>, rest: seq<Message>, u: nat)
    requires u <= |rest| && Filter(IsTodo, summary) == [] && Filter(IsTodo, tail) == []
    ensures Filter(IsTodo, prefix + summary + tail + (Filter(IsTodo, rest[..u]) + rest[u..])) ==
            Filter(IsTodo, prefix) + Filter(IsTodo, rest)
  {
    hide Filter, IsTodo;
    var todos := Filter(IsTodo, rest[..u]);
    FilterAll(IsTodo, todos);
    FilterConcat(IsTodo, todos, rest[u..]);
    assert rest == rest[..u] + rest[u..];
    FilterConcat(IsTodo, rest[..u], rest[u..]);
    FilterConcat(IsTodo, prefix + summary + tail, todos + rest[u..]);
    FilterConcat(IsTodo, prefix + summary, tail);
    FilterConcat(IsTodo, prefix, summary);
  }

  lemma {:induction false} PriorIsNoTodo(block: seq<Message>)
    requires forall m | m in block :: IsPrior(m)
    ensures Filter(IsTodo, block) == []
  {
    forall m | m in block ensures !IsTodo(m) {
      assert m.content[0] == PRIOR[0];
      assert TODOS[0] != PRIOR[0];
    }
    FilterNone(IsTodo, block);
  }

  /**
   * A rebuild of a paired view is paired exactly when the packing of the history it keeps breaks no pair, for every
   * summariser; and that is so whatever the budget if that history starts with a user.
   */
  lemma {:induction false} RebuildPaired(ms: seq<Message>, opt: Pack.PackOptions, summarize: seq<Message> -> string)
    requires ms != [] && Paired(ms, {})
    ensures Paired(Rebuilt(ms, opt, summarize), {}) <==> Pack.KeepsPairs(KeptHistory(ms), opt)
    ensures Pack.StartsWithUser(KeptHistory(ms)) ==> Paired(Rebuilt(ms, opt, summarize), {})
  {
    hide Pack.KeepsPairs, Pack.Packed, Paired, Pack.StartsWithUser, Rebuilt, RebuiltView, KeptHistory, Repaired;
    var kept := KeptHistory(ms);
    RebuildPairedParts(ms, opt, summarize);
    Pack.PackPairedIff(kept, opt);
    FixedPointIffPaired(Pack.Packed(kept, opt).messages);
    if Pack.StartsWithUser(kept) {
      Pack.UserFirstKeepsPairs(kept, opt);
    }
  }

  /** System block, packed middle and last turn: only the middle can lose a pair. */
  lemma {:induction false} RebuildPairedParts(
    ms: seq<Message>, opt: Pack.PackOptions, summarize: seq<Message> -> string)
    requires ms != [] && Paired(ms, {})
    ensures Paired(Rebuilt(ms, opt, summarize), {}) <==> Paired(Pack.Packed(KeptHistory(ms), opt).messages, {})
  {
    hide HeadTail, SummaryBlock, Pack.Packed, Paired;
    BuiltParts(ms, opt, summarize);
    var start := OpenView(ms);
    var rest := start.rest;
    var u := LastUser(rest);
    var view := RebuiltView(ms, opt, summarize);
    LastTurnPaired(ms);
    var todos := Filter(IsTodo, rest[..u]);
    SystemPrefixPaired(todos, rest[u..]);
    assert view.ephemeral != [] ==> Boundary(view.ephemeral[0]) by {
      if todos != [] { assert todos[0] in todos && view.ephemeral[0] == todos[0]; }
    }
    PairedConcat(view.tail, view.ephemeral, {});
    var system := view.prefix + view.summary;
    assert forall m | m in system :: m.role.System? by {
      assert forall m | m in view.prefix :: m.role.System?;
    }
    SystemPrefixPaired(system, view.tail + view.ephemeral);
    assert view.Messages() == system + (view.tail + view.ephemeral);
  }

  lemma {:induction false} LastTurnPaired(ms: seq<Message>)
    requires Paired(ms, {})
    ensures var rest := OpenView(ms).rest; Paired(rest[LastUser(rest)..], {})
  {
    hide Paired, LastUser;
    var n := LeadingSystem(ms);
    var system, rest := ms[..n], ms[n..];
    assert forall i | 0 <= i < |system| :: system[i] == ms[i];
    assert ms == system + rest;
    SystemPrefixPaired(system, rest);
    DropUserTurn(rest, LastUser(rest));
  }
}
