/** What recovery guarantees: cut logs, repeated crashes, pairing, accounting. */
module CrashRecovery {
  import opened Text
  import opened Messages
  import opened Records
  import opened ToolCalls
  import opened Restore
  import opened Repair

  // ----- scanning in parts -----

  lemma {:induction false} ScanConcat(env: Env, s: Replay, a: seq<RunRecord>, b: seq<RunRecord>)
    ensures Scan(env, s, a + b) == match Scan(env, s, a) case Err(e) => Err(e) case Ok(next) => Scan(env, next, b)
    decreases |a|
  {
    hide Read;
    if a == [] {
      assert a + b == b;
    } else {
      assert (a + b)[0] == a[0] && (a + b)[1..] == a[1..] + b;
      match Read(env, s, a[0])
      case Err(_) =>
      case Ok(next) => ScanConcat(env, next, a[1..], b);
    }
  }

  lemma {:induction false} ScanOneMore(env: Env, rows: seq<RunRecord>, row: RunRecord)
    requires Scan(env, START, rows).Ok?
    ensures Scan(env, START, rows + [row]) == Read(env, Scan(env, START, rows).value, row)
  {
    hide Read;
    ScanConcat(env, START, rows, [row]);
    var s := Scan(env, START, rows).value;
    assert [row][1..] == [];
    assert Scan(env, s, [row]) == Read(env, s, row);
  }

  lemma {:induction false} ScanPrefix(env: Env, rows: seq<RunRecord>, k: nat)
    requires k <= |rows| && Scan(env, START, rows).Ok?
    ensures Scan(env, START, rows[..k]).Ok?
    ensures k < |rows| ==> Scan(env, START, rows[..k + 1]) == Read(env, Scan(env, START, rows[..k]).value, rows[k])
  {
    hide Read, Scan;
    assert rows == rows[..k] + rows[k..];
    ScanConcat(env, START, rows[..k], rows[k..]);
    if k < |rows| {
      assert rows[..k + 1] == rows[..k] + [rows[k]];
      ScanOneMore(env, rows[..k], rows[k]);
    }
  }

  /** Open calls are those of an assistant record: the run has begun, and every one has an id. */
  predicate PendingMakesSense(s: Replay) {
    s.pending != [] ==> s.generated && HasToolCallIds(s.pending)
  }

  lemma {:induction false} ScanMakesSense(env: Env, s: Replay, rows: seq<RunRecord>)
    requires PendingMakesSense(s) && Scan(env, s, rows).Ok?
    ensures PendingMakesSense(Scan(env, s, rows).value)
    decreases |rows|
  {
    hide ResultResponse, AddUsage, BudgetExceeded;
    if rows != [] {
      ScanMakesSense(env, Read(env, s, rows[0]).value, rows[1..]);
    }
  }

  lemma {:induction false} FinishedHasNoPending(env: Env, rows: seq<RunRecord>)
    requires Scan(env, START, rows).Ok? && Finished(rows)
    ensures Scan(env, START, rows).value.pending == []
  {
    hide Scan, AddUsage, BudgetExceeded;
    var last := |rows| - 1;
    ScanPrefix(env, rows, last);
    assert rows[..last + 1] == rows;
  }

  // ----- completion is a scan of what it appends -----

  lemma {:induction false} CompletingStep(env: Env, s: Replay, r: Response)
    requires s.pending != [] && Load(env.stored, s.pending[0].id) == Ok(r)
    ensures var m := ToolMessage(s.pending[0].id, ResultContent(r)); Read(env, s, ToolRecord(m)) == Ok(Answer(s, m, r))
  {
    hide Load;
  }

  lemma {:induction false} CompleteIsScan(env: Env, rows: seq<RunRecord>, s: Replay)
    requires Scan(env, START, rows) == Ok(s) && Complete(env, rows, s).state.Ok?
    ensures var r := Complete(env, rows, s);
            && rows <= r.rows && Scan(env, START, r.rows) == r.state && r.state.value.pending == []
            && (UniqueResults(rows) ==> UniqueResults(r.rows))
            && forall row | row in r.rows ::
                 row in rows || row == ToolRecord(ToolMessage(row.message.toolCallId, row.message.content))
    decreases |s.pending|
  {
    hide Scan, Read, Load, Answer, ValidMessage;
    if s.pending != [] {
      var r := Load(env.stored, s.pending[0].id).value;
      var m := ToolMessage(s.pending[0].id, ResultContent(r));
      CompletingStep(env, s, r);
      ScanOneMore(env, rows, ToolRecord(m));
      CompleteIsScan(env, rows + [ToolRecord(m)], Answer(s, m, r));
    }
  }

  /** The recovered state is what a scan of the recovered log gives, and nothing is left open. */
  lemma {:induction false} RestoredIsScan(env: Env, rows: seq<RunRecord>)
    requires Restored(env, rows).state.Ok?
    ensures var r := Restored(env, rows);
            && rows <= r.rows && Scan(env, START, r.rows) == r.state && r.state.value.pending == []
            && (UniqueResults(rows) ==> UniqueResults(r.rows))
            && forall row | row in r.rows ::
                 row in rows || row == ToolRecord(ToolMessage(row.message.toolCallId, row.message.content))
  {
    hide Scan, Complete;
    if Finished(rows) {
      FinishedHasNoPending(env, rows);
    } else {
      CompleteIsScan(env, rows, Scan(env, START, rows).value);
    }
  }

  /** Recovering again changes nothing: the log and the state are already there. */
  lemma {:induction false} RecoveryConverges(env: Env, rows: seq<RunRecord>)
    requires Restored(env, rows).state.Ok?
    ensures var r := Restored(env, rows); Restored(env, r.rows).rows == r.rows && Restored(env, r.rows).state == r.state
  {
    hide Scan;
    RestoredIsScan(env, rows);
  }

  // ----- cutting a log -----

  /** Tool rows that hold no more than AppendToolResult writes for a result. */
  predicate PlainResults(rows: seq<RunRecord>) {
    forall r | r in rows && r.kind.ToolResult? :: r == ToolRecord(ToolMessage(r.message.toolCallId, r.message.content))
  }

  predicate AllStored(env: Env, calls: seq<ToolCall>) {
    forall call | call in calls :: Load(env.stored, call.id).Ok?
  }

  /** No two calls have the same id once white space is trimmed. */
  predicate DistinctIds(calls: seq<ToolCall>) {
    forall i, j | 0 <= i < j < |calls| :: Trim(calls[i].id) != Trim(calls[j].id)
  }

  predicate Unanswered(rows: seq<RunRecord>, calls: seq<ToolCall>) {
    forall c | c in calls :: Trim(c.id) != "" && !HasResult(rows, Trim(c.id))
  }

  lemma {:induction false} DistinctFirst(calls: seq<ToolCall>)
    requires calls != []
    ensures DistinctIds(calls) <==>
            DistinctIds(calls[1..]) && forall c | c in calls[1..] :: Trim(c.id) != Trim(calls[0].id)
  {
    hide Trim;
    var rest := calls[1..];
    assert forall i | 0 <= i < |rest| :: rest[i] == calls[i + 1] && rest[i] in rest;
    if DistinctIds(calls) {
      forall c | c in rest ensures Trim(c.id) != Trim(calls[0].id) {
        var i :| 0 <= i < |rest| && rest[i] == c;
        assert Trim(calls[0].id) != Trim(calls[i + 1].id);
      }
    }
  }

  /** Open calls can be completed exactly if their responses are stored and their ids are new and distinct. */
  lemma {:induction false} CompleteIff(env: Env, rows: seq<RunRecord>, s: Replay)
    ensures Complete(env, rows, s).state.Ok? <==>
            AllStored(env, s.pending) && Unanswered(rows, s.pending) && DistinctIds(s.pending)
    decreases |s.pending|
  {
    hide Load, HasResult, Trim, DistinctIds;
    if s.pending == [] {
      NothingOpen();
    } else {
      var call, rest := s.pending[0], s.pending[1..];
      assert forall c :: c in s.pending <==> c == call || c in rest;
      DistinctFirst(s.pending);
      if Load(env.stored, call.id).Ok? {
        var r := Load(env.stored, call.id).value;
        var m := ToolMessage(call.id, ResultContent(r));
        if AppendResult(env.json, rows, m).Ok? {
          CompleteIff(env, rows + [ToolRecord(m)], Answer(s, m, r));
          forall c | c in rest
            ensures HasResult(rows + [ToolRecord(m)], Trim(c.id)) <==>
                    HasResult(rows, Trim(c.id)) || Trim(call.id) == Trim(c.id)
          {
            ResultOneMore(rows, ToolRecord(m), Trim(c.id));
          }
        }
      }
    }
  }

  lemma {:induction false} NothingOpen()
    ensures DistinctIds([])
  {
  }

  /**
   * A log that can be replayed is recovered exactly if the calls it leaves open have their responses stored, and ids
   * that are new to it and distinct.
   */
  lemma {:induction false} RestoresIff(env: Env, rows: seq<RunRecord>)
    requires Scan(env, START, rows).Ok?
    ensures var open := Scan(env, START, rows).value.pending;
            Restored(env, rows).state.Ok? <==> AllStored(env, open) && Unanswered(rows, open) && DistinctIds(open)
  {
    hide Scan, Complete, DistinctIds, AllStored, Unanswered;
    CompleteIff(env, rows, Scan(env, START, rows).value);
    if Finished(rows) {
      FinishedHasNoPending(env, rows);
      NoneOpen(env, rows);
    }
  }

  lemma {:induction false} NoneOpen(env: Env, rows: seq<RunRecord>)
    ensures AllStored(env, []) && Unanswered(rows, []) && DistinctIds([])
  {
  }

  /** With a call open, the next record of an accepted log is that call's result, as recovery would write it. */
  lemma {:induction false} NextIsResult(env: Env, rows: seq<RunRecord>, k: nat)
    requires k < |rows| && Scan(env, START, rows).Ok? && PlainResults(rows)
    requires Scan(env, START, rows[..k]).Ok?
    requires var s := Scan(env, START, rows[..k]).value;
             s.pending != [] && Load(env.stored, s.pending[0].id).Ok?
    ensures var s := Scan(env, START, rows[..k]).value; var r := Load(env.stored, s.pending[0].id).value;
            var m := ToolMessage(s.pending[0].id, ResultContent(r));
            rows[k] == ToolRecord(m) && Scan(env, START, rows[..k + 1]) == Ok(Answer(s, m, r))
  {
    hide Scan, Load, AddUsage, BudgetExceeded;
    ScanPrefix(env, rows, k);
    ScanPrefix(env, rows, k + 1);
    var s := Scan(env, START, rows[..k]).value;
    assert PendingMakesSense(START);
    ScanMakesSense(env, START, rows[..k]);
    assert rows[k] in rows;
  }

  lemma {:induction false} AppendsNext(env: Env, rows: seq<RunRecord>, k: nat, id: string, content: string)
    requires k < |rows| && UniqueResults(rows) && rows[k] == ToolRecord(ToolMessage(id, content)) && Trim(id) != ""
    ensures AppendResult(env.json, rows[..k], ToolMessage(id, content)) == Ok(rows[..k + 1])
  {
    assert rows[..k + 1] == rows[..k] + [rows[k]];
    assert !HasResult(rows[..k], rows[k].toolCallId);
  }

  lemma {:induction false} CompleteFollows(env: Env, rows: seq<RunRecord>, k: nat)
    requires k <= |rows| && UniqueResults(rows) && PlainResults(rows)
    requires Scan(env, START, rows).Ok? && Restored(env, rows).state.Ok?
    requires Scan(env, START, rows[..k]).Ok? && !Finished(rows[..k])
    requires AllStored(env, Scan(env, START, rows[..k]).value.pending)
    ensures var s := Scan(env, START, rows[..k]).value; var r := Complete(env, rows[..k], s);
            r.state.Ok? && r.rows <= Restored(env, rows).rows && |r.rows| == k + |s.pending|
    decreases |rows| - k
  {
    hide Scan, Load, Read, HasToolCallIds, ValidMessage, AppendResult;
    RestoredIsScan(env, rows);
    var s := Scan(env, START, rows[..k]).value;
    if s.pending == [] {
    } else if k == |rows| {
      assert rows[..k] == rows;
      CompleteLength(env, rows, s);
    } else {
      NextIsResult(env, rows, k);
      PendingHasId(env, rows[..k]);
      var r := Load(env.stored, s.pending[0].id).value;
      var m := ToolMessage(s.pending[0].id, ResultContent(r));
      AppendsNext(env, rows, k, s.pending[0].id, ResultContent(r));
      assert rows[..k + 1][k] == rows[k];
      CompleteFollows(env, rows, k + 1);
    }
  }

  lemma {:induction false} PendingHasId(env: Env, rows: seq<RunRecord>)
    requires Scan(env, START, rows).Ok? && Scan(env, START, rows).value.pending != []
    ensures Trim(Scan(env, START, rows).value.pending[0].id) != ""
  {
    ScanMakesSense(env, START, rows);
  }

  lemma {:induction false} CompleteLength(env: Env, rows: seq<RunRecord>, s: Replay)
    requires Complete(env, rows, s).state.Ok?
    ensures |Complete(env, rows, s).rows| == |rows| + |s.pending| && AllStored(env, s.pending)
    decreases |s.pending|
  {
    hide Load, Answer, ValidMessage;
    if s.pending != [] {
      var r := Load(env.stored, s.pending[0].id).value;
      var m := ToolMessage(s.pending[0].id, ResultContent(r));
      CompleteLength(env, rows + [ToolRecord(m)], Answer(s, m, r));
      assert forall call | call in s.pending :: call == s.pending[0] || call in s.pending[1..];
    }
  }

  lemma {:induction false} ScanExtends(env: Env, s: Replay, rows: seq<RunRecord>)
    requires Scan(env, s, rows).Ok?
    ensures Scan(env, s, rows).value.messages == s.messages + MessagesOf(rows)
    ensures s.result.toolCalls <= Scan(env, s, rows).value.result.toolCalls
    decreases |rows|
  {
    hide ResultResponse, AddUsage, BudgetExceeded, HasToolCallIds;
    if rows != [] {
      ScanExtends(env, Read(env, s, rows[0]).value, rows[1..]);
    }
  }

  function MessagesOf(rows: seq<RunRecord>): seq<Message> {
    if rows == [] then [] else [rows[0].message] + MessagesOf(rows[1..])
  }

  /**
   * A run that crashed anywhere picks up where it was. Cut any accepted log after any record: recovery accepts the
   * cut exactly when every call left open has a stored response, and then it re-appends, in order, just the results
   * that the uncut log, or its own completion, holds there. The conversation and the responses are prefixes too.
   */
  lemma {:induction false} CutRecovers(env: Env, rows: seq<RunRecord>, k: nat)
    requires k <= |rows| && UniqueResults(rows) && PlainResults(rows) && Restored(env, rows).state.Ok?
    ensures Scan(env, START, rows[..k]).Ok?
    ensures var open := Scan(env, START, rows[..k]).value.pending;
            var cut, whole := Restored(env, rows[..k]), Restored(env, rows);
            && (cut.state.Ok? <==> AllStored(env, open))
            && (cut.state.Ok? ==>
                  && |cut.rows| == k + |open| && cut.rows <= whole.rows
                  && cut.state.value.messages <= whole.state.value.messages
                  && cut.state.value.result.toolCalls <= whole.state.value.result.toolCalls)
  {
    hide Scan, AllStored, Complete;
    RestoredIsScan(env, rows);
    ScanPrefix(env, Restored(env, rows).rows, |rows|);
    assert Restored(env, rows).rows[..|rows|] == rows;
    ScanPrefix(env, rows, k);
    var s := Scan(env, START, rows[..k]).value;
    if Finished(rows[..k]) {
      FinishedHasNoPending(env, rows[..k]);
      NothingToStore(env);
    } else {
      if AllStored(env, s.pending) {
        CompleteFollows(env, rows, k);
      }
      if Complete(env, rows[..k], s).state.Ok? {
        CompleteLength(env, rows[..k], s);
      }
    }
    if Restored(env, rows[..k]).state.Ok? {
      RestoredIsScan(env, rows[..k]);
      PrefixStates(env, Restored(env, rows[..k]).rows, Restored(env, rows).rows);
    }
  }

  lemma {:induction false} NothingToStore(env: Env)
    ensures AllStored(env, [])
  {
  }

  lemma {:induction false} PrefixStates(env: Env, a: seq<RunRecord>, b: seq<RunRecord>)
    requires a <= b && Scan(env, START, a).Ok? && Scan(env, START, b).Ok?
    ensures Scan(env, START, a).value.messages <= Scan(env, START, b).value.messages
    ensures Scan(env, START, a).value.result.toolCalls <= Scan(env, START, b).value.result.toolCalls
  {
    hide Scan;
    assert b == a + b[|a|..];
    ScanConcat(env, START, a, b[|a|..]);
    ScanExtends(env, Scan(env, START, a).value, b[|a|..]);
  }

  /** What completion appends to a cut log agrees with the log that was cut, as far as that goes. */
  lemma {:induction false} CompleteAgrees(env: Env, rows: seq<RunRecord>, k: nat)
    requires k <= |rows| && PlainResults(rows) && Scan(env, START, rows).Ok? && Scan(env, START, rows[..k]).Ok?
    requires Complete(env, rows[..k], Scan(env, START, rows[..k]).value).state.Ok?
    ensures var cut := Complete(env, rows[..k], Scan(env, START, rows[..k]).value).rows; cut <= rows || rows <= cut
    decreases |rows| - k
  {
    hide Scan, Load, Read, HasToolCallIds, ValidMessage;
    var s := Scan(env, START, rows[..k]).value;
    if s.pending == [] {
    } else if k == |rows| {
      assert rows[..k] == rows;
      CompleteIsScan(env, rows, s);
    } else {
      var r := Load(env.stored, s.pending[0].id).value;
      var m := ToolMessage(s.pending[0].id, ResultContent(r));
      NextIsResult(env, rows, k);
      assert rows[..k + 1] == rows[..k] + [rows[k]];
      CompleteAgrees(env, rows, k + 1);
    }
  }

  /** What was stored when the run crashed: no more than later, and a response never changes. */
  ghost predicate Earlier(crash: Env, later: Env) {
    && crash == later.(stored := crash.stored)
    && forall id | id in crash.stored && Load(crash.stored, id).Ok? ::
         Load(later.stored, id) == Load(crash.stored, id)
  }

  /** The response of every result in the log was stored, or refused for good, before the result was written. */
  predicate StoredFirst(crash: Env, later: Env, rows: seq<RunRecord>) {
    forall r | r in rows && r.kind.ToolResult? ::
      Load(crash.stored, r.message.toolCallId) == Load(later.stored, r.message.toolCallId)
  }

  lemma {:induction false} ScanAtCrash(crash: Env, later: Env, s: Replay, rows: seq<RunRecord>)
    requires Earlier(crash, later) && StoredFirst(crash, later, rows)
    ensures Scan(crash, s, rows) == Scan(later, s, rows)
    decreases |rows|
  {
    hide BudgetExceeded, AddUsage, HasToolCallIds;
    if rows != [] && Read(crash, s, rows[0]).Ok? {
      ScanAtCrash(crash, later, Read(crash, s, rows[0]).value, rows[1..]);
    }
  }

  lemma {:induction false} CompleteAtCrash(crash: Env, later: Env, rows: seq<RunRecord>, s: Replay)
    requires Earlier(crash, later) && AllStored(crash, s.pending)
    ensures Complete(crash, rows, s) == Complete(later, rows, s)
    decreases |s.pending|
  {
    hide ValidMessage;
    if s.pending != [] {
      var r := Load(crash.stored, s.pending[0].id).value;
      var m := ToolMessage(s.pending[0].id, ResultContent(r));
      assert forall call | call in s.pending[1..] :: call in s.pending;
      if AppendResult(crash.json, rows, m).Ok? {
        CompleteAtCrash(crash, later, rows + [ToolRecord(m)], Answer(s, m, r));
      }
    }
  }

  /** The same law with what was stored at the time of the crash. */
  lemma {:induction false} CrashRecovers(crash: Env, later: Env, rows: seq<RunRecord>, k: nat)
    requires k <= |rows| && UniqueResults(rows) && PlainResults(rows) && Restored(later, rows).state.Ok?
    requires Earlier(crash, later) && StoredFirst(crash, later, rows[..k])
    ensures Scan(crash, START, rows[..k]).Ok?
    ensures var open := Scan(crash, START, rows[..k]).value.pending;
            var cut, whole := Restored(crash, rows[..k]), Restored(later, rows);
            && (cut.state.Ok? <==> AllStored(crash, open))
            && (cut.state.Ok? ==>
                  && |cut.rows| == k + |open| && cut.rows <= whole.rows
                  && cut.state.value.messages <= whole.state.value.messages
                  && cut.state.value.result.toolCalls <= whole.state.value.result.toolCalls)
  {
    hide Scan, Complete, AllStored, Earlier, StoredFirst, UniqueResults, PlainResults;
    CutRecovers(later, rows, k);
    ScanAtCrash(crash, later, START, rows[..k]);
    var s := Scan(crash, START, rows[..k]).value;
    if Finished(rows[..k]) {
      FinishedHasNoPending(crash, rows[..k]);
      NothingToStore(crash);
    } else if AllStored(crash, s.pending) {
      CompleteAtCrash(crash, later, rows[..k], s);
      StoredLater(crash, later, s.pending);
    } else if Complete(crash, rows[..k], s).state.Ok? {
      CompleteLength(crash, rows[..k], s);
    }
  }

  lemma {:induction false} StoredLater(crash: Env, later: Env, calls: seq<ToolCall>)
    requires Earlier(crash, later) && AllStored(crash, calls)
    ensures AllStored(later, calls)
  {
  }

  /**
   * Cut a log that can be replayed after any record, with what was stored when the run crashed: the cut is replayed,
   * and recovered exactly if the calls it leaves open have their responses stored and ids that are new and distinct.
   * What is re-appended agrees with the log that was cut.
   */
  lemma {:induction false} CutRestoresIff(crash: Env, later: Env, rows: seq<RunRecord>, k: nat)
    requires k <= |rows| && PlainResults(rows) && Scan(later, START, rows).Ok?
    requires Earlier(crash, later) && StoredFirst(crash, later, rows[..k])
    ensures Scan(crash, START, rows[..k]).Ok?
    ensures var open := Scan(crash, START, rows[..k]).value.pending; var cut := Restored(crash, rows[..k]);
            && (cut.state.Ok? <==> AllStored(crash, open) && Unanswered(rows[..k], open) && DistinctIds(open))
            && (cut.state.Ok? ==> |cut.rows| == k + |open| && (cut.rows <= rows || rows <= cut.rows))
  {
    hide Scan, Complete, AllStored, Earlier, StoredFirst, PlainResults, Unanswered, DistinctIds;
    ScanPrefix(later, rows, k);
    ScanAtCrash(crash, later, START, rows[..k]);
    RestoresIff(crash, rows[..k]);
    var s := Scan(crash, START, rows[..k]).value;
    if Finished(rows[..k]) {
      FinishedHasNoPending(crash, rows[..k]);
    } else if Complete(crash, rows[..k], s).state.Ok? {
      CompleteLength(crash, rows[..k], s);
      CompleteAtCrash(crash, later, rows[..k], s);
      CompleteAgrees(later, rows, k);
    }
  }

  // ----- the recovered conversation -----

  predicate PlainInputs(rows: seq<RunRecord>) {
    forall r | r in rows && r.kind.InputMessage? :: r.message.role.System? || r.message.role.User?
  }

  /** While calls are open, the coming records answer them one by one. */
  lemma {:induction false} OpenCallsAnswered(env: Env, s: Replay, rows: seq<RunRecord>)
    requires PendingMakesSense(s) && Scan(env, s, rows).Ok? && Scan(env, s, rows).value.pending == []
    ensures |s.pending| <= |rows|
    ensures forall j | 0 <= j < |s.pending| :: rows[j].kind.ToolResult? && rows[j].message.toolCallId == s.pending[j].id
    decreases |rows|
  {
    hide ResultResponse, AddUsage, BudgetExceeded;
    if s.pending != [] {
      var next := Read(env, s, rows[0]).value;
      OpenCallsAnswered(env, next, rows[1..]);
      assert forall j | 1 <= j < |s.pending| :: s.pending[j] == next.pending[j - 1] && rows[j] == rows[1..][j - 1];
    }
  }

  /** Rows whose message is valid and whose role is the one of their kind: what every written row is. */
  predicate SoundRow(json: Json, r: RunRecord) {
    && ValidMessage(json, r.message) && WrittenRow(r)
    && (r.kind.AssistantMessage? ==> r.message.role.Assistant?)
  }

  predicate SoundRows(json: Json, rows: seq<RunRecord>) {
    forall r | r in rows :: SoundRow(json, r)
  }

  /** Answering the first open call leaves the ids of the others, because results are stored under distinct ids. */
  lemma {:induction false} FirstIdDropsOut(json: Json, pending: seq<ToolCall>, rows: seq<RunRecord>)
    requires pending != [] && |pending| <= |rows| && UniqueResults(rows) && SoundRows(json, rows)
    requires forall j | 0 <= j < |pending| ::
      rows[j].kind.ToolResult? && rows[j].message.toolCallId == pending[j].id
    ensures Trim(pending[0].id) in CallIds(pending)
    ensures CallIds(pending) - {Trim(pending[0].id)} == CallIds(pending[1..])
  {
    hide ValidMessage, Trim;
    forall j | 0 <= j < |pending|
      ensures rows[j].toolCallId == Trim(pending[j].id) != ""
    {
      assert rows[j] in rows && SoundRow(json, rows[j]);
    }
    var id := Trim(pending[0].id);
    assert pending[0] in pending;
    forall call | call in pending[1..]
      ensures Trim(call.id) != id
    {
      var j :| 1 <= j < |pending| && pending[j] == call;
      assert rows[0].toolCallId != rows[j].toolCallId;
    }
    assert forall call :: call in pending <==> call == pending[0] || call in pending[1..];
  }

  lemma {:induction false} ScanPaired(env: Env, s: Replay, rows: seq<RunRecord>)
    requires PendingMakesSense(s) && Scan(env, s, rows).Ok? && Scan(env, s, rows).value.pending == []
    requires UniqueResults(rows) && SoundRows(env.json, rows) && PlainInputs(rows)
    ensures Paired(MessagesOf(rows), CallIds(s.pending))
    decreases |rows|
  {
    hide ResultResponse, AddUsage, BudgetExceeded, CallIds, ValidMessage, HasToolCallIds, Trim;
    NoCallIds();
    if rows != [] {
      var next := Read(env, s, rows[0]).value;
      assert rows[0] in rows && SoundRow(env.json, rows[0]);
      SenseOneMore(env, s, rows[0]);
      assert forall r | r in rows[1..] :: r in rows;
      ScanPaired(env, next, rows[1..]);
      if s.pending != [] {
        OpenCallsAnswered(env, s, rows);
        FirstIdDropsOut(env.json, s.pending, rows);
      }
    }
  }

  lemma {:induction false} NoCallIds()
    ensures CallIds([]) == {}
  {
  }

  lemma {:induction false} SenseOneMore(env: Env, s: Replay, row: RunRecord)
    requires PendingMakesSense(s) && Read(env, s, row).Ok?
    ensures PendingMakesSense(Read(env, s, row).value)
  {
    hide ResultResponse, AddUsage, BudgetExceeded;
  }

  lemma {:induction false} CompleteIsSound(env: Env, rows: seq<RunRecord>, s: Replay)
    requires Complete(env, rows, s).state.Ok? && SoundRows(env.json, rows) && PlainInputs(rows)
    ensures SoundRows(env.json, Complete(env, rows, s).rows) && PlainInputs(Complete(env, rows, s).rows)
    decreases |s.pending|
  {
    hide Load, ValidMessage, Trim, Answer;
    if s.pending != [] {
      var r := Load(env.stored, s.pending[0].id).value;
      var m := ToolMessage(s.pending[0].id, ResultContent(r));
      CompleteIsSound(env, rows + [ToolRecord(m)], Answer(s, m, r));
    }
  }

  lemma {:induction false} ListedIsSound(json: Json, rows: seq<RunRecord>)
    requires Listable(json, rows) && WrittenRows(rows)
    ensures SoundRows(json, rows)
  {
    hide ValidMessage;
    assert forall r | r in rows :: ValidRecord(json, r) && WrittenRow(r);
  }

  /**
   * The conversation a recovery returns needs no repair, whenever the log it is given can be listed and its inputs
   * are system and user messages: the unique index on results already rules out batches that repeat an id.
   */
  lemma {:induction false} RecoveredNeedsNoRepair(env: Env, rows: seq<RunRecord>)
    requires Restored(env, rows).state.Ok?
    requires UniqueResults(rows) && Listable(env.json, rows) && WrittenRows(rows) && PlainInputs(rows)
    ensures var ms := Restored(env, rows).state.value.messages; Repaired(ms) == ms
  {
    hide Scan, Paired, Complete, SoundRows, PlainInputs, Listable, WrittenRows;
    ListedIsSound(env.json, rows);
    RestoredIsScan(env, rows);
    var after := Restored(env, rows).rows;
    if !Finished(rows) {
      CompleteIsSound(env, rows, Scan(env, START, rows).value);
    }
    ScanPaired(env, START, after);
    ScanExtends(env, START, after);
    NoCallIds();
    assert START.messages + MessagesOf(after) == MessagesOf(after);
    FixedPointIffPaired(MessagesOf(after));
  }

  // ----- accounting -----

  function BillOf(row: RunRecord): seq<Usage> {
    if row.kind.AssistantMessage? then [row.usage] else []
  }

  /** The usages of the assistant records. */
  function Bills(rows: seq<RunRecord>): seq<Usage> {
    if rows == [] then [] else BillOf(rows[0]) + Bills(rows[1..])
  }

  /** addUsage over all of them. */
  function Account(us: seq<Usage>): Usage {
    if us == [] then NO_USAGE else AddUsage(Account(us[..|us| - 1]), us[|us| - 1])
  }

  function Total(field: Usage -> int, us: seq<Usage>): int {
    if us == [] then 0 else Total(field, us[..|us| - 1]) + field(us[|us| - 1])
  }

  /** The position of the first usage that names a currency, or the length. */
  function FirstCurrency(us: seq<Usage>): (f: nat)
    ensures f <= |us|
    ensures forall i | 0 <= i < f :: us[i].currency == ""
    ensures f < |us| ==> us[f].currency != ""
  {
    if us == [] then 0 else
      var f := FirstCurrency(us[..|us| - 1]);
      if f < |us| - 1 || us[|us| - 1].currency != "" then f else |us|
  }

  predicate Billed(us: seq<Usage>, f: nat, i: nat)
    requires f <= |us| && i < |us|
  {
    i < f || us[i].currency == us[f].currency
  }

  /** The cost of those before the first currency is named, and of those in that currency. */
  function Cost(us: seq<Usage>, f: nat, n: nat): int
    requires f <= |us| && n <= |us|
  {
    if n == 0 then 0 else Cost(us, f, n - 1) + if Billed(us, f, n - 1) then us[n - 1].micros else 0
  }

  lemma {:induction false} CostOfPrefix(us: seq<Usage>, u: Usage, n: nat)
    requires n <= |us|
    ensures Cost(us + [u], FirstCurrency(us + [u]), n) == Cost(us, FirstCurrency(us), n)
  {
    var more := us + [u];
    assert more[..|us|] == us;
    if n > 0 {
      CostOfPrefix(us, u, n - 1);
      assert Billed(more, FirstCurrency(more), n - 1) == Billed(us, FirstCurrency(us), n - 1);
    }
  }

  const INPUT_TOKENS: Usage -> int := (u: Usage) => u.input
  const OUTPUT_TOKENS: Usage -> int := (u: Usage) => u.output
  const TOTAL_TOKENS: Usage -> int := (u: Usage) => u.total
  const CACHE_READ_TOKENS: Usage -> int := (u: Usage) => u.cacheRead
  const CACHE_WRITE_TOKENS: Usage -> int := (u: Usage) => u.cacheWrite

  /** Tokens of every kind are summed; costs are summed in the first currency named, and others are left out. */
  ghost predicate Accounts(usage: Usage, us: seq<Usage>) {
    && usage.input == Total(INPUT_TOKENS, us) && usage.output == Total(OUTPUT_TOKENS, us)
    && usage.total == Total(TOTAL_TOKENS, us) && usage.cacheRead == Total(CACHE_READ_TOKENS, us)
    && usage.cacheWrite == Total(CACHE_WRITE_TOKENS, us)
    && usage.currency == (if FirstCurrency(us) < |us| then us[FirstCurrency(us)].currency else "")
    && usage.micros == Cost(us, FirstCurrency(us), |us|)
  }

  lemma {:induction false} AccountIs(us: seq<Usage>)
    ensures Accounts(Account(us), us)
  {
    if us != [] {
      var front, u := us[..|us| - 1], us[|us| - 1];
      assert us == front + [u];
      AccountIs(front);
      CostOfPrefix(front, u, |front|);
      hide Cost;
      assert Cost(us, FirstCurrency(us), |us|) ==
             Cost(front, FirstCurrency(front), |front|)
             + if Billed(us, FirstCurrency(us), |front|) then u.micros else 0 by {
        CostStep(us, FirstCurrency(us), |us|);
      }
    }
  }

  lemma {:induction false} CostStep(us: seq<Usage>, f: nat, n: nat)
    requires f <= |us| && 0 < n <= |us|
    ensures Cost(us, f, n) == Cost(us, f, n - 1) + if Billed(us, f, n - 1) then us[n - 1].micros else 0
  {
  }

  lemma {:induction false} ReadAccounts(env: Env, s: Replay, row: RunRecord)
    requires Read(env, s, row).Ok?
    ensures var r := Read(env, s, row).value.result;
            && r.usage == (if row.kind.AssistantMessage? then AddUsage(s.result.usage, row.usage) else s.result.usage)
            && r.iterations == s.result.iterations + |BillOf(row)|
  {
    hide ResultResponse, BudgetExceeded, HasToolCallIds, AddUsage;
  }

  lemma {:induction false} ScanAccounts(env: Env, s: Replay, rows: seq<RunRecord>, before: seq<Usage>)
    requires Scan(env, s, rows).Ok? && s.result.usage == Account(before)
    ensures var r := Scan(env, s, rows).value.result;
            r.usage == Account(before + Bills(rows)) && r.iterations == s.result.iterations + |Bills(rows)|
    decreases |rows|
  {
    hide Read, AddUsage, Account;
    if rows == [] {
      assert before + Bills(rows) == before;
    } else {
      var row := rows[0];
      assert before + BillOf(row) + Bills(rows[1..]) == before + Bills(rows);
      AccountSnoc(before, row.usage);
      ReadAccounts(env, s, row);
      ScanAccounts(env, Read(env, s, row).value, rows[1..], before + BillOf(row));
    }
  }

  lemma {:induction false} AccountSnoc(us: seq<Usage>, u: Usage)
    ensures Account(us + [u]) == AddUsage(Account(us), u)
    ensures us + [] == us
  {
    assert (us + [u])[..|us|] == us;
  }

  /** Recovered usage and iterations are those of the assistant records of the log, however often it was recovered. */
  lemma {:induction false} RecoveredUsage(env: Env, rows: seq<RunRecord>)
    requires Restored(env, rows).state.Ok?
    ensures var r := Restored(env, rows).state.value.result;
            r.usage == Account(Bills(rows)) && Accounts(r.usage, Bills(rows)) && r.iterations == |Bills(rows)|
  {
    hide Scan, Accounts, Account, Bills;
    var s := Scan(env, START, rows).value;
    AccountNone();
    ScanAccounts(env, START, rows, []);
    assert [] + Bills(rows) == Bills(rows);
    AccountIs(Bills(rows));
    if !Finished(rows) {
      CompleteKeepsUsage(env, rows, s);
    }
  }

  lemma {:induction false} AccountNone()
    ensures Account([]) == NO_USAGE
  {
  }

  lemma {:induction false} CompleteKeepsUsage(env: Env, rows: seq<RunRecord>, s: Replay)
    requires Complete(env, rows, s).state.Ok?
    ensures var r := Complete(env, rows, s).state.value.result;
            r.usage == s.result.usage && r.iterations == s.result.iterations
    decreases |s.pending|
  {
    hide Load, AppendResult;
    if s.pending != [] {
      var r := Load(env.stored, s.pending[0].id).value;
      var m := ToolMessage(s.pending[0].id, ResultContent(r));
      CompleteKeepsUsage(env, AppendResult(env.json, rows, m).value, Answer(s, m, r));
    }
  }
}
