/** Which batches a run survives, and what becomes of the log of one that it does not. */
module Survival {
  import opened Text
  import opened Messages
  import opened Records
  import opened ToolCalls
  import opened RunLoop
  import opened CrashRecovery
  import opened BatchOrder
  import opened LiveLog
  import opened LiveReplay
  import opened LiveCrash
  import R = Restore
  import Queue = Inbox

  // ----- appending results -----

  predicate AllReturn(calls: seq<ToolCall>, outcome: ToolCall -> Option<string>) {
    forall c | c in calls :: outcome(c).Some?
  }

  lemma {:induction false} AppendsAll(
    json: Json, rows: seq<RunRecord>, calls: seq<ToolCall>, outcome: ToolCall -> Option<string>)
    requires AllReturn(calls, outcome) && Unanswered(rows, calls) && DistinctIds(calls)
    ensures AppendResults(json, rows, calls, outcome) == Appended(rows + ResultRows(calls, outcome), None)
    decreases |calls|
  {
    hide Trim;
    if calls != [] {
      var row := ToolRecord(ToolMessage(calls[0].id, outcome(calls[0]).value));
      forall c | c in calls[1..]
        ensures Trim(c.id) != "" && !HasResult(rows + [row], Trim(c.id)) && outcome(c).Some?
      {
        var j :| 1 <= j < |calls| && calls[j] == c;
        ResultOneMore(rows, row, Trim(c.id));
      }
      hide HasResult;
      AppendsAll(json, rows + [row], calls[1..], outcome);
      assert rows + [row] + ResultRows(calls[1..], outcome) == rows + ([row] + ResultRows(calls[1..], outcome));
    } else {
      assert rows + [] == rows;
    }
  }

  lemma {:induction false} AppendedIds(
    json: Json, rows: seq<RunRecord>, calls: seq<ToolCall>, outcome: ToolCall -> Option<string>)
    requires AppendResults(json, rows, calls, outcome).failure == None
    ensures forall c | c in calls :: Trim(c.id) != ""
    decreases |calls|
  {
    hide ValidMessage, HasResult, Trim;
    if calls != [] {
      var row := ToolRecord(ToolMessage(calls[0].id, outcome(calls[0]).value));
      AppendedIds(json, rows + [row], calls[1..], outcome);
      assert forall c | c in calls :: c == calls[0] || c in calls[1..];
    }
  }

  /** Results are appended to the last exactly if every tool returns, and every id is new and asked for once. */
  lemma {:induction false} AppendsIff(
    json: Json, rows: seq<RunRecord>, calls: seq<ToolCall>, outcome: ToolCall -> Option<string>)
    ensures AppendResults(json, rows, calls, outcome).failure == None <==>
            AllReturn(calls, outcome) && Unanswered(rows, calls) && DistinctIds(calls)
  {
    hide AppendResults, HasResult, Trim;
    if AppendResults(json, rows, calls, outcome).failure == None {
      AppendedRows(json, rows, calls, outcome);
      AppendedDistinct(json, rows, calls, outcome);
      AppendedIds(json, rows, calls, outcome);
    }
    if AllReturn(calls, outcome) && Unanswered(rows, calls) && DistinctIds(calls) {
      AppendsAll(json, rows, calls, outcome);
    }
  }

  lemma {:induction false} ResultsAfter(
    rows: seq<RunRecord>, calls: seq<ToolCall>, outcome: ToolCall -> Option<string>, id: string)
    requires AllReturn(calls, outcome)
    ensures HasResult(rows + ResultRows(calls, outcome), id) <==>
            HasResult(rows, id) || exists c :: c in calls && Trim(c.id) == id
    decreases |calls|
  {
    hide Trim, HasResult;
    if calls == [] {
      assert rows + ResultRows(calls, outcome) == rows;
    } else {
      var row := ToolRecord(ToolMessage(calls[0].id, outcome(calls[0]).value));
      ResultsAfter(rows + [row], calls[1..], outcome, id);
      assert rows + [row] + ResultRows(calls[1..], outcome) == rows + ResultRows(calls, outcome);
      hide ResultRows;
      ResultOneMore(rows, row, id);
      assert forall c :: c in calls <==> c == calls[0] || c in calls[1..];
    }
  }

  lemma {:induction false} SameResults(rows: seq<RunRecord>, m: Message, usage: Usage)
    ensures forall id :: HasResult(rows + [AssistantRecord(m, usage)], id) <==> HasResult(rows, id)
  {
    var more := rows + [AssistantRecord(m, usage)];
    assert forall r | r in rows :: r in more;
    assert forall r | r in more :: r in rows || r == AssistantRecord(m, usage);
  }

  // ----- the two parts of a batch -----

  predicate NoCommonId(a: seq<ToolCall>, b: seq<ToolCall>) {
    forall c, d | c in a && d in b :: Trim(c.id) != Trim(d.id)
  }

  lemma {:induction false} PartMembers(calls: seq<ToolCall>, kinds: seq<Kind>)
    requires |calls| == |kinds|
    ensures forall c :: c in calls <==> c in OfKind(calls, kinds, true) || c in OfKind(calls, kinds, false)
  {
    if calls != [] {
      var last := |calls| - 1;
      PartMembers(calls[..last], kinds[..last]);
      assert calls == calls[..last] + [calls[last]];
    }
  }

  lemma {:induction false} DistinctOneMore(calls: seq<ToolCall>, call: ToolCall)
    ensures DistinctIds(calls + [call]) <==>
            DistinctIds(calls) && forall c | c in calls :: Trim(c.id) != Trim(call.id)
  {
    hide Trim;
    var more := calls + [call];
    assert forall i | 0 <= i < |calls| :: more[i] == calls[i] && calls[i] in calls;
    if DistinctIds(more) {
      forall c | c in calls ensures Trim(c.id) != Trim(call.id) {
        var i :| 0 <= i < |calls| && calls[i] == c;
        assert Trim(more[i].id) != Trim(more[|calls|].id);
      }
    }
  }

  /** The ids of a batch are distinct exactly if those of both parts are and the parts share none. */
  lemma {:induction false} PartsDistinct(calls: seq<ToolCall>, kinds: seq<Kind>)
    requires |calls| == |kinds|
    ensures var e, r := OfKind(calls, kinds, true), OfKind(calls, kinds, false);
            DistinctIds(calls) <==> DistinctIds(e) && DistinctIds(r) && NoCommonId(e, r)
  {
    hide Trim, DistinctIds;
    if calls == [] {
      NothingOpen();
    } else {
      var last := |calls| - 1;
      var front, x := calls[..last], calls[last];
      var e, r := OfKind(front, kinds[..last], true), OfKind(front, kinds[..last], false);
      PartsDistinct(front, kinds[..last]);
      PartMembers(front, kinds[..last]);
      assert calls == front + [x];
      DistinctOneMore(front, x);
      assert OfKind(calls, kinds, true) == (if kinds[last] == Executable then e + [x] else e);
      assert OfKind(calls, kinds, false) == (if kinds[last] == Executable then r else r + [x]);
      hide OfKind;
      if kinds[last] == Executable {
        DistinctOneMore(e, x);
        CommonOneMore(e, r, x);
      } else {
        DistinctOneMore(r, x);
        CommonOneMore(r, e, x);
      }
    }
  }

  lemma {:induction false} CommonOneMore(a: seq<ToolCall>, b: seq<ToolCall>, x: ToolCall)
    ensures NoCommonId(a + [x], b) <==> NoCommonId(a, b) && forall d | d in b :: Trim(d.id) != Trim(x.id)
    ensures NoCommonId(a, b) <==> NoCommonId(b, a)
    ensures NoCommonId(a + [x], b) <==> NoCommonId(b, a + [x])
  {
    hide Trim;
    assert forall c :: c in a + [x] <==> c in a || c == x;
  }

  // ----- a batch -----

  /** No steer that a step claims is empty. */
  predicate SteersHaveText(cfg: Config, s: State, arrivals: seq<Queue.Item>) {
    forall item | item in Queue.Claimed(EnqueueAll(s.inbox, arrivals), cfg.session) ::
      item.persisted || Trim(item.text) != ""
  }

  lemma {:induction false} SteersIff(json: Json, rows: seq<RunRecord>, items: seq<Queue.Item>)
    ensures AppendSteers(json, rows, items).failure == None <==>
            forall item | item in items :: item.persisted || Trim(item.text) != ""
    decreases |items|
  {
    hide Trim;
    if items != [] {
      assert forall item :: item in items <==> item == items[0] || item in items[1..];
      var m := UserMessage(items[0].text);
      SteersIff(json, if items[0].persisted then rows else rows + [InputRecord(m)], items[1..]);
    }
  }

  /** Both parts of a batch are answered in full exactly if its ids are new and distinct, and every tool returns. */
  lemma {:induction false} BothAppended(
    json: Json, logged: seq<RunRecord>, calls: seq<ToolCall>, kinds: seq<Kind>,
    done: ToolCall -> Option<string>, refused: ToolCall -> Option<string>)
    requires |calls| == |kinds| && forall c: ToolCall :: refused(c).Some?
    ensures var e, r := OfKind(calls, kinds, true), OfKind(calls, kinds, false);
            var executed := AppendResults(json, logged, e, done);
            executed.failure == None && AppendResults(json, executed.rows, r, refused).failure == None <==>
            AllReturn(e, done) && Unanswered(logged, calls) && DistinctIds(calls)
  {
    hide AppendResults, OfKind, HasResult, Trim, DistinctIds, ResultRows;
    var e, r := OfKind(calls, kinds, true), OfKind(calls, kinds, false);
    PartMembers(calls, kinds);
    PartsDistinct(calls, kinds);
    AppendsIff(json, logged, e, done);
    var executed := AppendResults(json, logged, e, done);
    if executed.failure == None {
      AppendedRows(json, logged, e, done);
      AppendsIff(json, executed.rows, r, refused);
      forall c | c in r
        ensures HasResult(executed.rows, Trim(c.id)) <==>
                HasResult(logged, Trim(c.id)) || exists d :: d in e && Trim(d.id) == Trim(c.id)
      {
        ResultsAfter(logged, e, done, Trim(c.id));
      }
    }
  }

  lemma {:induction false} BatchStepIff(
    cfg: Config, s: State, reply: Reply, kinds: seq<Kind>, input: Input)
    requires reply.Reply? && |reply.toolCalls| == |kinds|
    ensures var calls := reply.toolCalls;
            var e, r := OfKind(calls, kinds, true), OfKind(calls, kinds, false);
            BatchStep(cfg, s, reply, e, r, Refusal(cfg), input).Running? <==>
            && (forall c | c in calls :: ValidCall(cfg.json, c))
            && BudgetExceeded(s.usage, cfg.maxTokens, cfg.maxMicros).None?
            && AllReturn(e, input.outcome) && Unanswered(s.rows, calls) && DistinctIds(calls)
            && SteersHaveText(cfg, s, input.arrivals)
  {
    hide AppendResults, OfKind, HasResult, ValidCall, DistinctIds, BudgetExceeded, AppendSteers, Queue.Claimed,
         Queue.Left, EnqueueAll, AllReturn;
    var calls := reply.toolCalls;
    var m := Message(Assistant, reply.content, reply.thinking, "", calls);
    var logged := s.rows + [AssistantRecord(m, reply.usage)];
    var e, r := OfKind(calls, kinds, true), OfKind(calls, kinds, false);
    SameResults(s.rows, m, reply.usage);
    BothAppended(cfg.json, logged, calls, kinds, input.outcome, Refusal(cfg));
    var executed := AppendResults(cfg.json, logged, e, input.outcome);
    var refused := AppendResults(cfg.json, executed.rows, r, Refusal(cfg));
    SteersIff(cfg.json, refused.rows, Queue.Claimed(EnqueueAll(s.inbox, input.arrivals), cfg.session));
  }

  /**
   * The run goes on after a tool step that no loop stops exactly if every call is well-formed, the budget holds, every
   * executed tool returns, every id is new to the log and asked for once, and no steer is empty. So a call that is
   * refused because its id is not new ends the run: its refusal is a second result for that id.
   */
  lemma {:induction false} BatchGoesOnIff(cfg: Config, s: State, reply: Reply, input: Input)
    requires reply.Reply? && !LoopDetected(cfg, s, reply)
    ensures var calls := reply.toolCalls;
            ToolStep(cfg, s, reply, input).Running? <==>
            && (forall c | c in calls :: ValidCall(cfg.json, c))
            && BudgetExceeded(s.usage, cfg.maxTokens, cfg.maxMicros).None?
            && AllReturn(OfKind(calls, KindsOf(cfg, s, reply), true), input.outcome)
            && Unanswered(s.rows, calls) && DistinctIds(calls)
            && SteersHaveText(cfg, s, input.arrivals)
  {
    hide Repeated, Kinds, OfKind, SignatureOf, CallIds, BatchStep, ValidCall, Refusal, AllReturn, Unanswered,
         DistinctIds, BudgetExceeded, SteersHaveText;
    var kinds := KindsOf(cfg, s, reply);
    var sig := SignatureOf(OfKind(reply.toolCalls, kinds, true));
    var known := s.(seen := s.seen + CallIds(reply.toolCalls), sigs := if sig == [] then s.sigs else s.sigs + [sig]);
    SameSteers(cfg, s, known, input.arrivals);
    BatchStepIff(cfg, known, reply, kinds, input);
  }

  lemma {:induction false} SameSteers(cfg: Config, s: State, t: State, arrivals: seq<Queue.Item>)
    requires s.inbox == t.inbox
    ensures SteersHaveText(cfg, s, arrivals) == SteersHaveText(cfg, t, arrivals)
  {
  }

  /** A call whose id has a result already, or that the batch asks for twice, ends the run. */
  lemma {:induction false} KnownIdEndsRun(cfg: Config, s: State, reply: Reply, input: Input)
    requires reply.Reply? && !LoopDetected(cfg, s, reply)
    requires (exists c :: c in reply.toolCalls && HasResult(s.rows, Trim(c.id))) || !DistinctIds(reply.toolCalls)
    ensures ToolStep(cfg, s, reply, input).Stopped?
  {
    BatchGoesOnIff(cfg, s, reply, input);
    hide Repeated, Kinds, OfKind, SignatureOf, CallIds, BatchStep, ValidCall, Refusal, AllReturn, DistinctIds,
         BudgetExceeded, SteersHaveText, HasResult;
    NeverFinished(cfg, s, reply, input);
  }

  lemma {:induction false} NeverFinished(cfg: Config, s: State, reply: Reply, input: Input)
    requires reply.Reply?
    ensures !ToolStep(cfg, s, reply, input).Finished?
  {
    hide Repeated, Kinds, OfKind, SignatureOf, CallIds, Refusal, AppendResults, Steer, BudgetExceeded, ValidMessage;
  }

  // ----- its log -----

  /** The record at p asks for an id that was answered before, or for one id twice. */
  predicate AsksAgain(rows: seq<RunRecord>, p: nat)
    requires p < |rows|
  {
    var calls := rows[p].message.toolCalls;
    && rows[p].kind.AssistantMessage?
    && ((exists c :: c in calls && HasResult(rows[..p], Trim(c.id))) || !DistinctIds(calls))
  }

  predicate TrimmedResults(rows: seq<RunRecord>) {
    forall r | r in rows && r.kind.ToolResult? :: r.toolCallId == Trim(r.message.toolCallId)
  }

  /**
   * Whatever is stored, and whatever else the log holds, recovery never accepts it: two results of one id would have to
   * be in it, which the unique index forbids.
   */
  lemma {:induction false} AskedAgainNeverRecovers(env: R.Env, rows: seq<RunRecord>, p: nat)
    requires p < |rows| && AsksAgain(rows, p) && UniqueResults(rows) && TrimmedResults(rows)
    ensures R.Restored(env, rows).state.Err?
  {
    hide R.Scan, R.Restored, Trim, HasResult, DistinctIds;
    if R.Restored(env, rows).state.Ok? {
      RestoredIsScan(env, rows);
      var all := R.Restored(env, rows).rows;
      assert all[..p] == rows[..p] && all[p] == rows[p];
      assert TrimmedResults(all);
      AnswersFollow(env, all, p);
      hide UniqueResults, TrimmedResults;
      TwoAnswers(all, p);
    }
  }

  lemma {:induction false} CleanIsTrimmed(rows: seq<RunRecord>)
    requires CleanLog(rows)
    ensures UniqueResults(rows) && TrimmedResults(rows)
  {
    hide Trim;
  }

  /** So a well-formed reply that asks for a known id ends the run for good. */
  lemma {:induction false} KnownIdIsFatal(cfg: Config, s: State, reply: Reply, input: Input, env: R.Env)
    requires reply.Reply? && !LoopDetected(cfg, s, reply) && CleanLog(s.rows)
    requires forall c | c in reply.toolCalls :: ValidCall(cfg.json, c)
    requires (exists c :: c in reply.toolCalls && HasResult(s.rows, Trim(c.id))) || !DistinctIds(reply.toolCalls)
    ensures var status := ToolStep(cfg, s, reply, input);
            status.Stopped? && R.Restored(env, status.s.rows).state.Err?
  {
    hide Repeated, Kinds, OfKind, SignatureOf, CallIds, BatchStep, ValidCall, Refusal, DistinctIds, HasResult, Bills,
         CleanLog, R.Restored;
    KnownIdEndsRun(cfg, s, reply, input);
    var kinds := KindsOf(cfg, s, reply);
    var e, r := OfKind(reply.toolCalls, kinds, true), OfKind(reply.toolCalls, kinds, false);
    var sig := SignatureOf(e);
    var known := s.(seen := s.seen + CallIds(reply.toolCalls), sigs := if sig == [] then s.sigs else s.sigs + [sig]);
    BatchStepBills(cfg, known, reply, e, r, Refusal(cfg), input);
    BatchStepStaysClean(cfg, known, reply, e, r, Refusal(cfg), input);
    var rows := ToolStep(cfg, s, reply, input).s.rows;
    CleanIsTrimmed(rows);
    assert rows[..|s.rows|] == s.rows;
    AskedAgainNeverRecovers(env, rows, |s.rows|);
  }

  predicate AnsweredBelow(rows: seq<RunRecord>, p: nat)
    requires p < |rows|
  {
    var calls := rows[p].message.toolCalls;
    && p + |calls| < |rows|
    && forall j | p < j <= p + |calls| ::
         rows[j].kind.ToolResult? && rows[j].message.toolCallId == calls[j - p - 1].id
  }

  /** In an accepted log with nothing open, the results of a batch stand right behind it. */
  lemma {:induction false} AnswersFollow(env: R.Env, rows: seq<RunRecord>, p: nat)
    requires p < |rows| && rows[p].kind.AssistantMessage?
    requires R.Scan(env, R.START, rows).Ok? && R.Scan(env, R.START, rows).value.pending == []
    ensures AnsweredBelow(rows, p)
  {
    hide R.Scan, BudgetExceeded, AddUsage, HasToolCallIds;
    var calls := rows[p].message.toolCalls;
    ScanPrefix(env, rows, p);
    var next := R.Scan(env, R.START, rows[..p + 1]);
    ScanPrefix(env, rows, p + 1);
    assert next.value.pending == calls;
    assert rows == rows[..p + 1] + rows[p + 1..];
    ScanConcat(env, R.START, rows[..p + 1], rows[p + 1..]);
    ScanMakesSense(env, R.START, rows[..p + 1]);
    OpenCallsAnswered(env, next.value, rows[p + 1..]);
    assert forall j | p < j <= p + |calls| :: rows[j] == rows[p + 1..][j - p - 1];
  }

  lemma {:induction false} TwoAnswers(rows: seq<RunRecord>, p: nat)
    requires p < |rows| && AsksAgain(rows, p) && TrimmedResults(rows)
    requires AnsweredBelow(rows, p)
    ensures !UniqueResults(rows)
  {
    hide Trim;
    var calls := rows[p].message.toolCalls;
    forall i | 0 <= i < |calls| ensures rows[p + 1 + i].toolCallId == Trim(calls[i].id) {
      assert rows[p + 1 + i] in rows;
    }
    if !DistinctIds(calls) {
      var i, j :| 0 <= i < j < |calls| && Trim(calls[i].id) == Trim(calls[j].id);
      assert rows[p + 1 + i].toolCallId == rows[p + 1 + j].toolCallId;
    } else {
      var c :| c in calls && HasResult(rows[..p], Trim(c.id));
      var r :| r in rows[..p] && r.kind.ToolResult? && r.toolCallId == Trim(c.id);
      var i :| 0 <= i < p && rows[..p][i] == r;
      var j :| 0 <= j < |calls| && calls[j] == c;
      assert rows[i].toolCallId == rows[p + 1 + j].toolCallId;
    }
  }
}
