/** No tool call is executed twice: not within a batch, not in a run, and not after any number of recoveries. */
module Executions {
  import opened Text
  import opened Messages
  import opened Records
  import opened ToolCalls
  import opened RunLoop
  import opened LiveLog
  import Restore
  import opened CrashRecovery
  import Queue = Inbox

  /** The ids of the executed calls, in order. */
  function AllIds(ran: seq<ToolRun>): seq<string> {
    if ran == [] then [] else AllIds(ran[..|ran| - 1]) + ran[|ran| - 1].ids
  }

  predicate DistinctTexts(ids: seq<string>) {
    forall i, j | 0 <= i < j < |ids| :: ids[i] != ids[j]
  }

  /** The ids that the assistant records of a log ask for. */
  function LoggedIds(rows: seq<RunRecord>): set<string> {
    if rows == [] then {}
    else (if rows[0].kind.AssistantMessage? then CallIds(rows[0].message.toolCalls) else {}) + LoggedIds(rows[1..])
  }

  lemma {:induction false} LoggedConcat(a: seq<RunRecord>, b: seq<RunRecord>)
    ensures LoggedIds(a + b) == LoggedIds(a) + LoggedIds(b)
  {
    if a == [] {
      assert a + b == b;
    } else {
      assert (a + b)[0] == a[0] && (a + b)[1..] == a[1..] + b;
      LoggedConcat(a[1..], b);
    }
  }

  lemma {:induction false} LoggedGrows(a: seq<RunRecord>, b: seq<RunRecord>)
    requires a <= b
    ensures LoggedIds(a) <= LoggedIds(b)
  {
    assert b == a + b[|a|..];
    LoggedConcat(a, b[|a|..]);
  }

  lemma {:induction false} LoggedBatch(rows: seq<RunRecord>, m: Message, usage: Usage)
    ensures LoggedIds(rows + [AssistantRecord(m, usage)]) == LoggedIds(rows) + CallIds(m.toolCalls)
  {
    LoggedConcat(rows, [AssistantRecord(m, usage)]);
    assert [AssistantRecord(m, usage)][1..] == [];
  }

  /** Every executed id was executed once, was seen, and is in the log. */
  ghost predicate Once(s: State) {
    && DistinctTexts(AllIds(s.ran))
    && forall id | id in AllIds(s.ran) :: id in s.seen && id in LoggedIds(s.rows)
  }

  /** The executable calls of a batch carry distinct ids that the run has not seen. */
  lemma {:induction false} ExecutableIds(json: Json, calls: seq<ToolCall>, advertised: set<string>, seen: set<string>)
    ensures var ids := IdsOf(OfKind(calls, Kinds(json, calls, advertised, seen), true));
            DistinctTexts(ids) && forall id | id in ids :: id !in seen && id in CallIds(calls)
  {
    hide Trim, Inspect, CallIds, OfKind, DistinctTexts;
    if calls == [] {
      NothingExecutable(json, advertised, seen);
    } else {
      var last := |calls| - 1;
      var front, x, kinds := calls[..last], calls[last], Kinds(json, calls, advertised, seen);
      ExecutableIds(json, front, advertised, seen);
      assert kinds[..last] == Kinds(json, front, advertised, seen);
      assert calls == front + [x];
      IdsOneMore(front, x);
      ExecutableOneMore(calls, kinds);
      var before := OfKind(front, kinds[..last], true);
      if kinds[last] == Executable {
        ExecutableIsNew(json, x, advertised, seen + CallIds(front), CallIds(front));
        OneIsDistinct(Trim(x.id));
        DistinctJoin(IdsOf(before), [Trim(x.id)]);
      }
    }
  }

  lemma {:induction false} OneIsDistinct(id: string)
    ensures DistinctTexts([id])
  {
  }

  lemma {:induction false} NothingExecutable(json: Json, advertised: set<string>, seen: set<string>)
    ensures IdsOf(OfKind([], Kinds(json, [], advertised, seen), true)) == [] && DistinctTexts([])
  {
  }

  lemma {:induction false} ExecutableOneMore(calls: seq<ToolCall>, kinds: seq<Kind>)
    requires calls != [] && |calls| == |kinds|
    ensures var last := |calls| - 1; var before := OfKind(calls[..last], kinds[..last], true);
            IdsOf(OfKind(calls, kinds, true)) ==
            if kinds[last] == Executable then IdsOf(before) + [Trim(calls[last].id)] else IdsOf(before)
  {
    hide Trim;
  }

  lemma {:induction false} ExecutableIsNew(
    json: Json, call: ToolCall, advertised: set<string>, seen: set<string>, batch: set<string>)
    requires Inspect(json, call, advertised, seen, batch) == Executable
    ensures Trim(call.id) != "" && Trim(call.id) !in seen && Trim(call.id) !in batch
  {
    hide Trim;
  }

  lemma {:induction false} OneMoreRun(ran: seq<ToolRun>, t: ToolRun)
    ensures AllIds(ran + [t]) == AllIds(ran) + t.ids
  {
    assert (ran + [t])[..|ran|] == ran;
  }

  lemma {:induction false} DistinctJoin(a: seq<string>, b: seq<string>)
    requires DistinctTexts(a) && DistinctTexts(b) && forall id | id in b :: id !in a
    ensures DistinctTexts(a + b)
  {
    assert forall i | 0 <= i < |b| :: b[i] in b;
    assert forall i | 0 <= i < |a| :: a[i] in a;
  }

  lemma {:induction false} DistinctParts(a: seq<string>, b: seq<string>)
    requires DistinctTexts(a + b)
    ensures DistinctTexts(a) && DistinctTexts(b) && forall id | id in b :: id !in a
  {
    var all := a + b;
    assert forall i | 0 <= i < |a| :: all[i] == a[i];
    assert forall i | |a| <= i < |all| :: all[i] == b[i - |a|];
    forall i, j | 0 <= i < |a| && 0 <= j < |b| ensures a[i] != b[j] {
      assert all[i] != all[|a| + j];
    }
    forall i, j | 0 <= i < j < |b| ensures b[i] != b[j] {
      assert all[|a| + i] != all[|a| + j];
    }
  }

  /** A step that executes a batch has logged it first. */
  lemma {:induction false} BatchStepOnce(
    cfg: Config, s: State, reply: Reply, executable: seq<ToolCall>, rejected: seq<ToolCall>,
    refuse: ToolCall -> Option<string>, input: Input)
    requires reply.Reply? && Once(s)
    requires DistinctTexts(IdsOf(executable))
    requires forall id | id in IdsOf(executable) ::
      id in s.seen && id in CallIds(reply.toolCalls) && id !in AllIds(s.ran)
    ensures Once(BatchStep(cfg, s, reply, executable, rejected, refuse, input).s)
  {
    var m := Message(Assistant, reply.content, reply.thinking, "", reply.toolCalls);
    var after := BatchStep(cfg, s, reply, executable, rejected, refuse, input).s;
    if ValidMessage(cfg.json, m) {
      BatchStepBills(cfg, s, reply, executable, rejected, refuse, input);
      var logged := s.rows + [AssistantRecord(m, reply.usage)];
      LoggedBatch(s.rows, m, reply.usage);
      LoggedGrows(logged, after.rows);
      OneMoreRun(s.ran, Executed(s.iterations, executable));
      hide LoggedIds, CallIds, BatchStep, AllIds, Executed;
      DistinctJoin(AllIds(s.ran), IdsOf(executable));
    }
  }

  lemma {:induction false} ToolStepOnce(cfg: Config, s: State, reply: Reply, input: Input)
    requires reply.Reply? && Once(s)
    ensures Once(ToolStep(cfg, s, reply, input).s)
  {
    hide Repeated, Kinds, OfKind, SignatureOf, CallIds, Refusal, BatchStep, DistinctTexts;
    var kinds := Kinds(cfg.json, reply.toolCalls, cfg.advertised, s.seen);
    var executable := OfKind(reply.toolCalls, kinds, true);
    var sig := SignatureOf(executable);
    var known := s.(seen := s.seen + CallIds(reply.toolCalls), sigs := if sig == [] then s.sigs else s.sigs + [sig]);
    ExecutableIds(cfg.json, reply.toolCalls, cfg.advertised, s.seen);
    assert Once(known);
    BatchStepOnce(cfg, known, reply, executable, OfKind(reply.toolCalls, kinds, false), Refusal(cfg), input);
  }

  lemma {:induction false} RowsGrowOnce(s: State, t: State)
    requires Once(s) && s.rows <= t.rows && t.ran == s.ran && t.seen == s.seen
    ensures Once(t)
  {
    hide DistinctTexts, AllIds, LoggedIds;
    LoggedGrows(s.rows, t.rows);
  }

  lemma {:induction false} TextRowsGrow(cfg: Config, s: State, reply: Reply, capped: bool, arrivals: seq<Queue.Item>)
    requires reply.Reply?
    ensures s.rows <= TextStep(cfg, s, reply, capped, arrivals).s.rows
  {
    hide Steer, BudgetExceeded, Trim, Bills;
    var content := FinalText(reply);
    var m := Message(Assistant, content, reply.thinking, "", []);
    SteerBills(cfg, s.(rows := s.rows + [AssistantRecord(m, reply.usage)]), arrivals);
  }

  lemma {:induction false} StepOnce(cfg: Config, s: State, input: Input)
    requires Once(s)
    ensures Once(Step(cfg, s, input).s)
  {
    hide TextStep, ToolStep, AddUsage, BudgetExhausted, DistinctTexts, AllIds, LoggedIds;
    var counted := s.(iterations := s.iterations + 1, usage := AddUsage(s.usage, input.reply.usage));
    if input.reply.Reply? {
      TextRowsGrow(cfg, counted, input.reply, Capped(cfg, s), input.arrivals);
      RowsGrowOnce(counted, TextStep(cfg, counted, input.reply, Capped(cfg, s), input.arrivals).s);
      ToolStepOnce(cfg, counted, input.reply, input);
    }
  }

  lemma {:induction false} RunKeepsOnce(cfg: Config, s: State, script: seq<Input>)
    requires Once(s)
    ensures Once(Run(cfg, s, script).s)
    decreases |script|
  {
    hide Step, Once;
    if script != [] {
      StepOnce(cfg, s, script[0]);
      if Step(cfg, s, script[0]).Running? {
        RunKeepsOnce(cfg, Step(cfg, s, script[0]).s, script[1..]);
      }
    }
  }

  /** A new run as `Prepare` starts it. */
  function Prepared(initial: seq<Message>, inbox: seq<Queue.Item>): State {
    State(InputRows(initial), inbox, {}, "", NO_USAGE, 0, [], false, [])
  }

  /** A new run has executed nothing. */
  lemma {:induction false} PreparedIsOnce(initial: seq<Message>, inbox: seq<Queue.Item>)
    ensures Once(Prepared(initial, inbox))
  {
  }

  /** However a run ends, no id was executed twice in it, and the log has asked for each. */
  lemma {:induction false} RunOnce(cfg: Config, initial: seq<Message>, inbox: seq<Queue.Item>, script: seq<Input>)
    ensures var t := Run(cfg, Prepared(initial, inbox), script).s;
            DistinctTexts(AllIds(t.ran)) && forall id | id in AllIds(t.ran) :: id in LoggedIds(t.rows)
  {
    PreparedIsOnce(initial, inbox);
    hide Run, Prepared, DistinctTexts, AllIds, LoggedIds;
    RunKeepsOnce(cfg, Prepared(initial, inbox), script);
  }

  // ----- what a run adds -----

  /** However a step ends, log and executions only grow. */
  lemma {:induction false} StepAdds(cfg: Config, s: State, input: Input)
    ensures s.rows <= Step(cfg, s, input).s.rows && s.ran <= Step(cfg, s, input).s.ran
  {
    hide TextStep, BatchStep, AddUsage, BudgetExhausted, Repeated, Kinds, OfKind, SignatureOf, CallIds, Refusal;
    var counted := s.(iterations := s.iterations + 1, usage := AddUsage(s.usage, input.reply.usage));
    var reply := input.reply;
    if reply.Reply? {
      TextRowsGrow(cfg, counted, reply, Capped(cfg, s), input.arrivals);
      var kinds := Kinds(cfg.json, reply.toolCalls, cfg.advertised, s.seen);
      var e, r := OfKind(reply.toolCalls, kinds, true), OfKind(reply.toolCalls, kinds, false);
      var sig := SignatureOf(e);
      var known := counted.(seen := s.seen + CallIds(reply.toolCalls),
                            sigs := if sig == [] then s.sigs else s.sigs + [sig]);
      BatchRowsGrow(cfg, known, reply, e, r, Refusal(cfg), input);
    }
  }

  lemma {:induction false} BatchRowsGrow(
    cfg: Config, s: State, reply: Reply, executable: seq<ToolCall>, rejected: seq<ToolCall>,
    refuse: ToolCall -> Option<string>, input: Input)
    requires reply.Reply?
    ensures s.rows <= BatchStep(cfg, s, reply, executable, rejected, refuse, input).s.rows
  {
    hide Steer, AppendResults, BudgetExceeded, Bills;
    if ValidMessage(cfg.json, Message(Assistant, reply.content, reply.thinking, "", reply.toolCalls)) {
      BatchStepBills(cfg, s, reply, executable, rejected, refuse, input);
    }
  }

  lemma {:induction false} RunAdds(cfg: Config, s: State, script: seq<Input>)
    ensures s.rows <= Run(cfg, s, script).s.rows && s.ran <= Run(cfg, s, script).s.ran
    decreases |script|
  {
    hide Step;
    if script != [] {
      StepAdds(cfg, s, script[0]);
      if Step(cfg, s, script[0]).Running? {
        RunAdds(cfg, Step(cfg, s, script[0]).s, script[1..]);
      }
    }
  }

  // ----- crashes -----

  function AskedBy(rows: seq<RunRecord>): ToolRun -> bool {
    (t: ToolRun) => forall id | id in t.ids :: id in LoggedIds(rows)
  }

  /**
   * A crash leaves the first k records. A batch is executed after its assistant record is written, so at most those
   * batches had been executed whose ids these records ask for.
   */
  function Crashed(t: State, k: nat): State
    requires k <= |t.rows|
  {
    t.(rows := t.rows[..k], inbox := [], ran := Filter(AskedBy(t.rows[..k]), t.ran))
  }

  lemma {:induction false} FilteredOnce(ran: seq<ToolRun>, rows: seq<RunRecord>)
    requires DistinctTexts(AllIds(ran))
    ensures var left := AllIds(Filter(AskedBy(rows), ran));
            DistinctTexts(left) && forall id | id in left :: id in AllIds(ran) && id in LoggedIds(rows)
  {
    hide LoggedIds, Filter, DistinctTexts;
    if ran == [] {
      FilterNone(AskedBy(rows), ran);
    } else {
      var front, last := ran[..|ran| - 1], ran[|ran| - 1];
      assert ran == front + [last];
      OneMoreRun(front, last);
      DistinctParts(AllIds(front), last.ids);
      FilteredOnce(front, rows);
      FilterOneMore(AskedBy(rows), front, last);
      OneMoreRun(Filter(AskedBy(rows), front), last);
      hide AllIds;
      if AskedBy(rows)(last) {
        DistinctJoin(AllIds(Filter(AskedBy(rows), front)), last.ids);
      }
    }
  }

  lemma {:induction false} CrashedOnce(t: State, k: nat)
    requires Once(t) && k <= |t.rows|
    ensures Once(Crashed(t, k))
  {
    hide DistinctTexts, AllIds, LoggedIds, AskedBy;
    FilteredOnce(t.ran, t.rows[..k]);
  }

  lemma {:induction false} IdsOfRun(ran: seq<ToolRun>, t: ToolRun)
    requires t in ran
    ensures forall id | id in t.ids :: id in AllIds(ran)
  {
    if t != ran[|ran| - 1] {
      IdsOfRun(ran[..|ran| - 1], t);
    }
  }

  /** A crash after the records of s does not undo what was executed before. */
  lemma {:induction false} CrashKeepsExecutions(s: State, t: State, k: nat)
    requires Once(s) && s.ran <= t.ran && s.rows <= t.rows && |s.rows| <= k <= |t.rows|
    ensures s.ran <= Crashed(t, k).ran
  {
    hide DistinctTexts, AllIds, LoggedIds;
    var cut := t.rows[..k];
    LoggedGrows(s.rows, cut);
    forall r | r in s.ran ensures AskedBy(cut)(r) {
      IdsOfRun(s.ran, r);
    }
    assert t.ran == s.ran + t.ran[|s.ran|..];
    FilterConcat(AskedBy(cut), s.ran, t.ran[|s.ran|..]);
    FilterAll(AskedBy(cut), s.ran);
  }

  // ----- across recoveries -----

  /** The ids a replay has seen are those of the log. */
  lemma {:induction false} ScanSeen(env: Restore.Env, p: Restore.Replay, rows: seq<RunRecord>)
    requires Restore.Scan(env, p, rows).Ok?
    ensures Restore.Scan(env, p, rows).value.seen == p.seen + LoggedIds(rows)
    decreases |rows|
  {
    hide Restore.ResultResponse, BudgetExceeded, AddUsage, HasToolCallIds, CallIds;
    if rows != [] {
      NoIds();
      ScanSeen(env, Restore.Read(env, p, rows[0]).value, rows[1..]);
    }
  }

  /** A run taken up from its log, as recovery starts it; the history of executions is kept for the record. */
  function Resumed(env: Restore.Env, s: State): Option<State> {
    var back := Restore.Restored(env, s.rows);
    match back.state
    case Err(_) => None
    case Ok(p) =>
      var r := p.result;
      Some(State(back.rows, s.inbox, p.seen, r.content, r.usage, r.iterations, [], false, s.ran))
  }

  lemma {:induction false} ResumedOnce(env: Restore.Env, s: State)
    requires Once(s) && Resumed(env, s).Some?
    ensures Once(Resumed(env, s).value)
  {
    hide Restore.Scan, Restore.Restored, DistinctTexts, AllIds, LoggedIds;
    CrashRecovery.RestoredIsScan(env, s.rows);
    var rows := Restore.Restored(env, s.rows).rows;
    ScanSeen(env, Restore.START, rows);
    LoggedGrows(s.rows, rows);
  }

  /** One stretch of a run: it follows a script, crashes when so many records are written, and is recovered. */
  datatype Stretch = Stretch(cfg: Config, script: seq<Input>, written: nat, env: Restore.Env)

  ghost function Lived(s: State, stretches: seq<Stretch>): Option<State>
    decreases |stretches|
  {
    if stretches == [] then Some(s) else
      var stretch := stretches[0];
      var t := Run(stretch.cfg, s, stretch.script).s;
      if !(|s.rows| <= stretch.written <= |t.rows|) then None
      else match Resumed(stretch.env, Crashed(t, stretch.written))
        case None => None
        case Some(next) => Lived(next, stretches[1..])
  }

  lemma {:induction false} LivesOnce(s: State, stretches: seq<Stretch>)
    requires Once(s) && Lived(s, stretches).Some?
    ensures Once(Lived(s, stretches).value) && s.ran <= Lived(s, stretches).value.ran
    decreases |stretches|
  {
    if stretches != [] {
      var stretch := stretches[0];
      var t := Run(stretch.cfg, s, stretch.script).s;
      RunKeepsOnce(stretch.cfg, s, stretch.script);
      RunAdds(stretch.cfg, s, stretch.script);
      CrashedOnce(t, stretch.written);
      CrashKeepsExecutions(s, t, stretch.written);
      ResumedOnce(stretch.env, Crashed(t, stretch.written));
      assert Resumed(stretch.env, Crashed(t, stretch.written)).value.ran == Crashed(t, stretch.written).ran;
      hide Once, Run, Resumed, Crashed;
      LivesOnce(Resumed(stretch.env, Crashed(t, stretch.written)).value, stretches[1..]);
    }
  }

  /**
   * A run that is started once and then crashes and is recovered any number of times, after whatever record each time,
   * never executes a call id twice, and what it had executed stays executed.
   */
  lemma {:induction false} ExecutedOnceEver(
    initial: seq<Message>, inbox: seq<Queue.Item>, stretches: seq<Stretch>, more: seq<Stretch>)
    requires Lived(Prepared(initial, inbox), stretches).Some?
    requires Lived(Lived(Prepared(initial, inbox), stretches).value, more).Some?
    ensures var now := Lived(Prepared(initial, inbox), stretches).value; var later := Lived(now, more).value;
            DistinctTexts(AllIds(later.ran)) && now.ran <= later.ran
  {
    PreparedIsOnce(initial, inbox);
    hide Lived, Prepared, DistinctTexts, AllIds, LoggedIds;
    LivesOnce(Prepared(initial, inbox), stretches);
    LivesOnce(Lived(Prepared(initial, inbox), stretches).value, more);
  }
}
