/** Which logs of a run recovery can read: a batch is logged executed calls first, and read back in call order. */
module BatchOrder {
  import opened Text
  import opened Messages
  import opened Records
  import opened ToolCalls
  import opened Restore
  import opened CrashRecovery
  import opened RunLoop

  /** No refused call stands before an executable one. */
  predicate RefusedLast(kinds: seq<Kind>) {
    forall i, j | 0 <= i < j < |kinds| :: kinds[i] != Executable ==> kinds[j] != Executable
  }

  predicate DistinctCalls(calls: seq<ToolCall>) {
    forall i, j | 0 <= i < j < |calls| :: calls[i].id != calls[j].id
  }

  /** The order in which a batch's results reach the log. */
  function LoggedOrder(calls: seq<ToolCall>, kinds: seq<Kind>): seq<ToolCall>
    requires |calls| == |kinds|
  {
    OfKind(calls, kinds, true) + OfKind(calls, kinds, false)
  }

  predicate SameIds(a: seq<ToolCall>, b: seq<ToolCall>) {
    |a| == |b| && forall i | 0 <= i < |a| :: a[i].id == b[i].id
  }

  lemma {:induction false} OfKindCount(calls: seq<ToolCall>, kinds: seq<Kind>)
    requires |calls| == |kinds|
    ensures |LoggedOrder(calls, kinds)| == |calls|
  {
    if calls != [] {
      OfKindCount(calls[..|calls| - 1], kinds[..|calls| - 1]);
    }
  }

  /** A call of one of the two parts is one of the batch, of that kind. */
  lemma {:induction false} KindOfMember(
    calls: seq<ToolCall>, kinds: seq<Kind>, executable: bool, call: ToolCall) returns (i: nat)
    requires |calls| == |kinds| && call in OfKind(calls, kinds, executable)
    ensures i < |calls| && calls[i] == call && (kinds[i] == Executable) == executable
  {
    var last := |calls| - 1;
    if call in OfKind(calls[..last], kinds[..last], executable) {
      i := KindOfMember(calls[..last], kinds[..last], executable, call);
    } else {
      i := last;
    }
  }

  lemma {:induction false} InOrderWhenRefusedLast(calls: seq<ToolCall>, kinds: seq<Kind>)
    requires |calls| == |kinds| && RefusedLast(kinds)
    ensures LoggedOrder(calls, kinds) == calls
  {
    if calls != [] {
      var last := |calls| - 1;
      InOrderWhenRefusedLast(calls[..last], kinds[..last]);
      var executable, rejected := OfKind(calls[..last], kinds[..last], true),
                                OfKind(calls[..last], kinds[..last], false);
      if kinds[last] == Executable {
        NoneRefused(calls[..last], kinds[..last]);
        assert LoggedOrder(calls, kinds) == executable + [calls[last]];
      } else {
        assert LoggedOrder(calls, kinds) == executable + rejected + [calls[last]];
      }
      assert calls == calls[..last] + [calls[last]];
    }
  }

  lemma {:induction false} NoneRefused(calls: seq<ToolCall>, kinds: seq<Kind>)
    requires |calls| == |kinds| && forall i | 0 <= i < |kinds| :: kinds[i] == Executable
    ensures OfKind(calls, kinds, false) == []
  {
    if calls != [] {
      NoneRefused(calls[..|calls| - 1], kinds[..|calls| - 1]);
    }
  }

  /** If the ids stand where they stood, then so do the kinds: executable calls first. */
  lemma {:induction false} KindAtPosition(calls: seq<ToolCall>, kinds: seq<Kind>, i: nat)
    requires |calls| == |kinds| && DistinctCalls(calls) && SameIds(LoggedOrder(calls, kinds), calls) && i < |calls|
    ensures kinds[i] == Executable <==> i < |OfKind(calls, kinds, true)|
  {
    hide OfKind;
    var logged, n := LoggedOrder(calls, kinds), |OfKind(calls, kinds, true)|;
    assert logged[i] in OfKind(calls, kinds, i < n);
    var j := KindOfMember(calls, kinds, i < n, logged[i]);
    assert calls[j].id == calls[i].id;
  }

  /** The log keeps call order exactly when refused calls come last. */
  lemma {:induction false} OrderKeptIff(calls: seq<ToolCall>, kinds: seq<Kind>)
    requires |calls| == |kinds| && DistinctCalls(calls)
    ensures SameIds(LoggedOrder(calls, kinds), calls) <==> RefusedLast(kinds)
  {
    hide OfKind;
    if RefusedLast(kinds) {
      InOrderWhenRefusedLast(calls, kinds);
    }
    if SameIds(LoggedOrder(calls, kinds), calls) {
      forall i, j | 0 <= i < j < |kinds| && kinds[i] != Executable ensures kinds[j] != Executable {
        KindAtPosition(calls, kinds, i);
        KindAtPosition(calls, kinds, j);
      }
    }
  }

  /** Result rows for calls, as AppendResults writes them. */
  function ResultRows(calls: seq<ToolCall>, outcome: ToolCall -> Option<string>): (r: seq<RunRecord>)
    requires forall c | c in calls :: outcome(c).Some?
    ensures |r| == |calls|
  {
    if calls == [] then []
    else [ToolRecord(ToolMessage(calls[0].id, outcome(calls[0]).value))] + ResultRows(calls[1..], outcome)
  }

  lemma {:induction false} AppendedRows(
    json: Json, rows: seq<RunRecord>, calls: seq<ToolCall>, outcome: ToolCall -> Option<string>)
    requires AppendResults(json, rows, calls, outcome).failure == None
    ensures forall c | c in calls :: outcome(c).Some?
    ensures AppendResults(json, rows, calls, outcome).rows == rows + ResultRows(calls, outcome)
    decreases |calls|
  {
    hide ValidMessage, HasResult;
    if calls != [] {
      var row := ToolRecord(ToolMessage(calls[0].id, outcome(calls[0]).value));
      AppendedRows(json, rows + [row], calls[1..], outcome);
      assert rows + [row] + ResultRows(calls[1..], outcome) == rows + ([row] + ResultRows(calls[1..], outcome));
      assert forall c | c in calls :: c == calls[0] || c in calls[1..];
    }
  }

  /** Recovery knows the result: it repeats a stored response, or is an observation of a call without one. */
  predicate Known(env: Env, m: Message) {
    match Load(env.stored, m.toolCallId)
    case Ok(r) => ResultMatches(r, m.content)
    case Err(e) => e == RecoveryBlocked && IsObservation(env.json, m.content)
  }

  predicate Acknowledged(env: Env, call: ToolCall, content: string) {
    Known(env, ToolMessage(call.id, content))
  }

  predicate KnownRows(env: Env, rows: seq<RunRecord>) {
    forall r | r in rows && r.kind.ToolResult? :: Known(env, r.message)
  }

  /** Recovery replays no result that it does not know. */
  lemma {:induction false} ScanKnown(env: Env, s: Replay, rows: seq<RunRecord>)
    requires Scan(env, s, rows).Ok?
    ensures KnownRows(env, rows)
    decreases |rows|
  {
    hide Load, BudgetExceeded, AddUsage, HasToolCallIds, ResultMatches;
    if rows != [] {
      ScanKnown(env, Read(env, s, rows[0]).value, rows[1..]);
      assert forall r | r in rows :: r == rows[0] || r in rows[1..];
    }
  }

  /** Results are appended in order, up to the first that fails. */
  lemma {:induction false} AppendedPart(
    json: Json, rows: seq<RunRecord>, calls: seq<ToolCall>, outcome: ToolCall -> Option<string>) returns (j: nat)
    ensures j <= |calls| && forall c | c in calls[..j] :: outcome(c).Some?
    ensures AppendResults(json, rows, calls, outcome).rows == rows + ResultRows(calls[..j], outcome)
    ensures AppendResults(json, rows, calls, outcome).failure == None ==> j == |calls|
    decreases |calls|
  {
    hide ValidMessage, HasResult, Trim;
    j := 0;
    assert rows + [] == rows;
    if calls != [] && outcome(calls[0]).Some? {
      var m := ToolMessage(calls[0].id, outcome(calls[0]).value);
      if AppendResult(json, rows, m).Ok? {
        var row := ToolRecord(m);
        var i := AppendedPart(json, rows + [row], calls[1..], outcome);
        j := i + 1;
        OneMoreRow(calls, i, outcome);
        var part := calls[1..][..i];
        hide ResultRows, AppendResults;
        assert rows + [row] + ResultRows(part, outcome) == rows + ([row] + ResultRows(part, outcome));
      }
    }
  }

  lemma {:induction false} OneMoreRow(calls: seq<ToolCall>, i: nat, outcome: ToolCall -> Option<string>)
    requires i < |calls| && outcome(calls[0]).Some? && forall c | c in calls[1..][..i] :: outcome(c).Some?
    ensures forall c | c in calls[..i + 1] :: outcome(c).Some?
    ensures ResultRows(calls[..i + 1], outcome) ==
            [ToolRecord(ToolMessage(calls[0].id, outcome(calls[0]).value))] + ResultRows(calls[1..][..i], outcome)
  {
    hide Trim;
    var part := calls[..i + 1];
    assert part[0] == calls[0] && part[1..] == calls[1..][..i];
    assert forall c | c in part :: c == calls[0] || c in part[1..];
  }

  lemma {:induction false} RowsKnown(env: Env, calls: seq<ToolCall>, outcome: ToolCall -> Option<string>)
    requires forall c | c in calls :: outcome(c).Some?
    requires KnownRows(env, ResultRows(calls, outcome))
    ensures forall c | c in calls :: Acknowledged(env, c, outcome(c).value)
    decreases |calls|
  {
    hide Known, Trim;
    if calls != [] {
      var rows := ResultRows(calls, outcome);
      assert rows[0] in rows && rows[1..] == ResultRows(calls[1..], outcome);
      assert forall r | r in rows[1..] :: r in rows;
      RowsKnown(env, calls[1..], outcome);
      assert forall c | c in calls :: c == calls[0] || c in calls[1..];
    }
  }

  lemma {:induction false} ResultsReplay(
    env: Env, s: Replay, calls: seq<ToolCall>, outcome: ToolCall -> Option<string>)
    requires |calls| <= |s.pending|
    requires forall c | c in calls :: outcome(c).Some? && Acknowledged(env, c, outcome(c).value)
    ensures var read := Scan(env, s, ResultRows(calls, outcome));
            && (read.Ok? <==> forall i | 0 <= i < |calls| :: calls[i].id == s.pending[i].id)
            && (read.Ok? ==> read.value.pending == s.pending[|calls|..])
    decreases |calls|
  {
    hide Read, Acknowledged;
    if calls != [] {
      var row := ToolRecord(ToolMessage(calls[0].id, outcome(calls[0]).value));
      var rows := ResultRows(calls, outcome);
      assert rows[0] == row && rows[1..] == ResultRows(calls[1..], outcome);
      ResultReplays(env, s, calls[0], outcome(calls[0]).value);
      if calls[0].id == s.pending[0].id {
        var next := Read(env, s, row).value;
        ResultsReplay(env, next, calls[1..], outcome);
        assert forall i | 1 <= i < |calls| :: calls[1..][i - 1] == calls[i] && next.pending[i - 1] == s.pending[i];
      }
    }
  }

  lemma {:induction false} ResultReplays(env: Env, s: Replay, call: ToolCall, content: string)
    requires s.pending != [] && Acknowledged(env, call, content)
    ensures var read := Read(env, s, ToolRecord(ToolMessage(call.id, content)));
            (read.Ok? <==> call.id == s.pending[0].id) && (read.Ok? ==> read.value.pending == s.pending[1..])
  {
    hide Load, Trim;
  }

  /**
   * A run logs a batch and recovery reads it back exactly when no refused call stands before an executable one. In
   * any other batch the run goes on, but its log is one that recovery rejects as corrupt.
   */
  lemma {:induction false} BatchReadBackIff(
    env: Env, s: Replay, calls: seq<ToolCall>, kinds: seq<Kind>, outcome: ToolCall -> Option<string>)
    requires |calls| == |kinds| && DistinctCalls(calls) && s.pending == calls
    requires forall c | c in calls :: outcome(c).Some? && Acknowledged(env, c, outcome(c).value)
    ensures forall c | c in LoggedOrder(calls, kinds) :: c in calls
    ensures var read := Scan(env, s, ResultRows(LoggedOrder(calls, kinds), outcome));
            (read.Ok? <==> RefusedLast(kinds)) && (read.Ok? ==> read.value.pending == [])
  {
    hide Scan, OfKind, Acknowledged, RefusedLast, DistinctCalls, ResultRows;
    OfKindCount(calls, kinds);
    var logged := LoggedOrder(calls, kinds);
    forall c | c in logged ensures c in calls {
      var _ := KindOfMember(calls, kinds, c in OfKind(calls, kinds, true), c);
    }
    ResultsReplay(env, s, logged, outcome);
    OrderKeptIff(calls, kinds);
  }

  lemma {:induction false} ResultRowsJoin(
    a: seq<ToolCall>, b: seq<ToolCall>, done: ToolCall -> Option<string>, refused: ToolCall -> Option<string>,
    both: ToolCall -> Option<string>)
    requires forall c | c in a :: done(c).Some? && both(c) == done(c)
    requires forall c | c in b :: refused(c).Some? && both(c) == refused(c)
    ensures ResultRows(a, done) + ResultRows(b, refused) == ResultRows(a + b, both)
    decreases |a|, |b|
  {
    if a != [] {
      assert (a + b)[0] == a[0] && (a + b)[1..] == a[1..] + b;
      ResultRowsJoin(a[1..], b, done, refused, both);
    } else if b != [] {
      assert a + b == b;
      assert [] + b[1..] == b[1..];
      ResultRowsJoin([], b[1..], done, refused, both);
    }
  }

  /** The law on the log a run really writes: assistant record, executed results, refusals. */
  lemma {:induction false} LoggedBatchReadable(
    env: Env, json: Json, logged: seq<RunRecord>, calls: seq<ToolCall>, kinds: seq<Kind>,
    done: ToolCall -> Option<string>, refused: ToolCall -> Option<string>)
    requires |calls| == |kinds| && DistinctCalls(calls)
    requires Scan(env, START, logged).Ok? && Scan(env, START, logged).value.pending == calls
    requires var executed := AppendResults(json, logged, OfKind(calls, kinds, true), done);
             executed.failure == None
             && AppendResults(json, executed.rows, OfKind(calls, kinds, false), refused).failure == None
    requires forall c | c in OfKind(calls, kinds, true) :: done(c).Some? ==> Acknowledged(env, c, done(c).value)
    requires forall c | c in OfKind(calls, kinds, false) :: refused(c).Some? ==> Acknowledged(env, c, refused(c).value)
    ensures var executed := AppendResults(json, logged, OfKind(calls, kinds, true), done);
            var after := AppendResults(json, executed.rows, OfKind(calls, kinds, false), refused).rows;
            && (Scan(env, START, after).Ok? <==> RefusedLast(kinds))
            && (Scan(env, START, after).Ok? ==> Scan(env, START, after).value.pending == [])
  {
    hide Scan, OfKind, Acknowledged, RefusedLast, DistinctCalls, ResultRows, AppendResults;
    var e, r := OfKind(calls, kinds, true), OfKind(calls, kinds, false);
    var executed := AppendResults(json, logged, e, done);
    AppendedRows(json, logged, e, done);
    AppendedRows(json, executed.rows, r, refused);
    var both := (c: ToolCall) => if c in e then done(c) else refused(c);
    forall c | c in r ensures c !in e {
      var i := KindOfMember(calls, kinds, false, c);
      if c in e {
        var j := KindOfMember(calls, kinds, true, c);
        SameCallOnce(calls, i, j);
      }
    }
    ResultRowsJoin(e, r, done, refused, both);
    var after := AppendResults(json, executed.rows, r, refused).rows;
    assert after == logged + ResultRows(e + r, both);
    ScanConcat(env, START, logged, ResultRows(e + r, both));
    forall c | c in calls ensures both(c).Some? && Acknowledged(env, c, both(c).value) {
      var i :| 0 <= i < |calls| && calls[i] == c;
      MemberOfKind(calls, kinds, i);
    }
    BatchReadBackIff(env, Scan(env, START, logged).value, calls, kinds, both);
  }

  lemma {:induction false} SameCallOnce(calls: seq<ToolCall>, i: nat, j: nat)
    requires DistinctCalls(calls) && i < |calls| && j < |calls| && calls[i] == calls[j]
    ensures i == j
  {
  }

  lemma {:induction false} MemberOfKind(calls: seq<ToolCall>, kinds: seq<Kind>, i: nat)
    requires |calls| == |kinds| && i < |calls|
    ensures calls[i] in OfKind(calls, kinds, kinds[i] == Executable)
  {
    var last := |calls| - 1;
    if i < last {
      MemberOfKind(calls[..last], kinds[..last], i);
    }
  }
}
