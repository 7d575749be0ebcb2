/**
 * What a user says while a turn runs. The session service (internal/chatsession/steer.go) writes it to the log of the
 * run at once, at whatever place the run has reached, and queues it for the next step.
 */
module SteeredLogs {
  import opened Text
  import opened Messages
  import opened Records
  import opened ToolCalls
  import opened Restore
  import opened CrashRecovery
  import opened BatchOrder
  import opened Recovered
  import opened RunLoop
  import opened Survival
  import opened LiveReplay
  import opened Steers
  import opened ToolSteps
  import opened Completion
  import opened Limits
  import opened LiveLog
  import Queue = Inbox

  /** A row that the run wrote, or a text that a user sent. */
  datatype Entry = Wrote(row: RunRecord) | Said(text: string)

  function RowOf(e: Entry): RunRecord {
    match e
    case Wrote(row) => row
    case Said(text) => InputRecord(UserMessage(text))
  }

  /** The log as it stands. */
  function Log(es: seq<Entry>): (rows: seq<RunRecord>)
    ensures |rows| == |es|
    ensures forall i | 0 <= i < |es| :: rows[i] == RowOf(es[i])
  {
    seq(|es|, i requires 0 <= i < |es| => RowOf(es[i]))
  }

  /** What the run wrote of it. */
  function Written(es: seq<Entry>): seq<RunRecord> {
    if es == [] then [] else
      var before := Written(es[..|es| - 1]);
      match es[|es| - 1]
      case Wrote(row) => before + [row]
      case Said(_) => before
  }

  lemma {:induction false} LogOneMore(es: seq<Entry>, e: Entry)
    ensures Log(es + [e]) == Log(es) + [RowOf(e)]
    ensures Written(es + [e]) == match e case Wrote(row) => Written(es) + [row] case Said(_) => Written(es)
  {
    assert (es + [e])[..|es|] == es;
  }

  /** What users say changes neither the open calls nor the bills, nor whether the run has begun. */
  lemma {:induction false} SameState(es: seq<Entry>)
    ensures Open(Log(es)) == Open(Written(es)) && Bills(Log(es)) == Bills(Written(es))
    ensures Begun(Log(es)) == Begun(Written(es))
    decreases |es|
  {
    hide Open, Bills, Begun, Log, Written;
    if es == [] {
      NothingSaid();
    } else {
      var front, e := es[..|es| - 1], es[|es| - 1];
      assert es == front + [e];
      SameState(front);
      LogOneMore(front, e);
      OpenOneMore(Log(front), RowOf(e));
      BillsOneMore(Log(front), RowOf(e));
      BegunOneMore(Log(front), RowOf(e));
      OpenOneMore(Written(front), RowOf(e));
      BillsOneMore(Written(front), RowOf(e));
      BegunOneMore(Written(front), RowOf(e));
    }
  }

  lemma {:induction false} NothingSaid()
    ensures Log([]) == [] == Written([])
  {
  }

  /** Nothing is said while a call is open. */
  predicate SaidInTime(es: seq<Entry>) {
    forall k | 0 <= k < |es| && es[k].Said? :: Open(Written(es[..k])) == []
  }

  lemma {:induction false} SaidOneMore(es: seq<Entry>, e: Entry)
    ensures SaidInTime(es + [e]) <==> SaidInTime(es) && (e.Said? ==> Open(Written(es)) == [])
  {
    hide Open, Written;
    var more := es + [e];
    assert more[..|es|] == es && more[|es|] == e;
    assert forall k | 0 <= k < |es| :: more[..k] == es[..k] && more[k] == es[k];
  }

  lemma {:induction false} FollowsSame(env: Env, a: seq<RunRecord>, b: seq<RunRecord>, r: RunRecord)
    requires Open(a) == Open(b) && Bills(a) == Bills(b) && Begun(a) == Begun(b)
    ensures Follows(env, a, r) == Follows(env, b, r)
  {
    hide Open, Bills, Begun, Known, Account, Trim;
  }

  /** Before the first reply no call is open. */
  lemma {:induction false} BegunIfOpen(rows: seq<RunRecord>)
    ensures Open(rows) != [] ==> Begun(rows)
    decreases |rows|
  {
    if rows != [] {
      var front, r := rows[..|rows| - 1], rows[|rows| - 1];
      assert rows == front + [r];
      BegunIfOpen(front);
      hide Open, Begun;
      OpenOneMore(front, r);
      BegunOneMore(front, r);
    } else {
      assert Open([]) == [];
    }
  }

  lemma {:induction false} SaidFollows(env: Env, rows: seq<RunRecord>, text: string)
    ensures Follows(env, rows, InputRecord(UserMessage(text))) <==> Open(rows) == []
  {
    BegunIfOpen(rows);
    hide Open, Begun;
  }

  lemma {:induction false} FollowOneMore(env: Env, rows: seq<RunRecord>, r: RunRecord)
    ensures AllFollow(env, rows + [r]) <==> AllFollow(env, rows) && Follows(env, rows, r)
  {
    hide AllFollow, Follows;
    FollowsLast(env, rows + [r]);
    assert (rows + [r])[..|rows|] == rows;
  }

  /**
   * A log is read exactly if recovery reads what the run wrote of it, and nothing was said while a call was open. The
   * place of what is said among inputs and texts does not matter.
   */
  lemma {:induction false} SteeredReadIff(env: Env, es: seq<Entry>)
    ensures Scan(env, START, Log(es)).Ok? <==> Scan(env, START, Written(es)).Ok? && SaidInTime(es)
    decreases |es|
  {
    hide Scan, AllFollow, Follows, Open, Bills, Begun, Log, Written, SaidInTime;
    ReplayedIff(env, Log(es));
    ReplayedIff(env, Written(es));
    if es == [] {
      NothingSaid();
      InTimeNone();
    } else {
      var front, e := es[..|es| - 1], es[|es| - 1];
      assert es == front + [e];
      SteeredReadIff(env, front);
      ReplayedIff(env, Log(front));
      ReplayedIff(env, Written(front));
      SameState(front);
      LogOneMore(front, e);
      SaidOneMore(front, e);
      FollowOneMore(env, Log(front), RowOf(e));
      FollowOneMore(env, Written(front), RowOf(e));
      FollowsSame(env, Log(front), Written(front), RowOf(e));
      if e.Said? {
        SaidFollows(env, Log(front), e.text);
      }
    }
  }

  lemma {:induction false} InTimeNone()
    ensures SaidInTime([])
  {
  }

  /** Nothing recovers a log in which something was said while a call was open, whatever was written behind it. */
  lemma {:induction false} SaidTooSoonIsFatal(env: Env, es: seq<Entry>)
    requires !SaidInTime(es)
    ensures !Restored(env, Log(es)).state.Ok?
  {
    hide Scan, Complete, SaidInTime, Log;
    SteeredReadIff(env, es);
  }

  /**
   * What was said before the model finished its text does not count: a log that recovery accepts is taken for completed
   * exactly if its last row is a text of the model.
   */
  lemma {:induction false} CompletedWhateverWasSaid(env: Env, es: seq<Entry>)
    ensures Restored(env, Log(es)).completed <==>
            && Scan(env, START, Written(es)).Ok? && SaidInTime(es)
            && es != [] && es[|es| - 1].Wrote?
            && es[|es| - 1].row.kind.AssistantMessage? && es[|es| - 1].row.message.toolCalls == []
  {
    hide Scan, Complete, SaidInTime;
    SteeredReadIff(env, es);
    CompletedIff(env, Log(es));
    hide Written;
    if Scan(env, START, Log(es)).Ok? && EndsInText(Log(es)) {
      RestoredIfText(env, Log(es));
    }
  }

  lemma {:induction false} RestoredIfText(env: Env, rows: seq<RunRecord>)
    requires Scan(env, START, rows).Ok? && EndsInText(rows)
    ensures Restored(env, rows).state.Ok?
  {
  }

  // ----- while tools run -----

  /** All of it written by the run. */
  function AllWrote(rows: seq<RunRecord>): (es: seq<Entry>)
    ensures |es| == |rows|
    ensures forall i | 0 <= i < |rows| :: es[i] == Wrote(rows[i])
  {
    seq(|rows|, i requires 0 <= i < |rows| => Wrote(rows[i]))
  }

  /** A log of the run with one text said at position k. */
  function SaidAt(rows: seq<RunRecord>, k: nat, text: string): seq<RunRecord>
    requires k <= |rows|
  {
    rows[..k] + [InputRecord(UserMessage(text))] + rows[k..]
  }

  lemma {:induction false} WrittenWrote(es: seq<Entry>, rows: seq<RunRecord>)
    ensures Written(es + AllWrote(rows)) == Written(es) + rows
    decreases |rows|
  {
    hide Written, AllWrote;
    if rows == [] {
      assert es + AllWrote(rows) == es && Written(es) + rows == Written(es);
    } else {
      var front, r := rows[..|rows| - 1], rows[|rows| - 1];
      assert rows == front + [r];
      WrittenWrote(es, front);
      WroteOneMore(front, r);
      assert es + (AllWrote(front) + [Wrote(r)]) == es + AllWrote(front) + [Wrote(r)];
      LogOneMore(es + AllWrote(front), Wrote(r));
      assert Written(es) + front + [r] == Written(es) + (front + [r]);
    }
  }

  lemma {:induction false} WroteOneMore(rows: seq<RunRecord>, r: RunRecord)
    ensures AllWrote(rows + [r]) == AllWrote(rows) + [Wrote(r)]
  {
  }

  /** One text, said at k, is the end of a log exactly if a call was open there. */
  lemma {:induction false} SaidAtIff(env: Env, rows: seq<RunRecord>, k: nat, text: string)
    requires k <= |rows| && Scan(env, START, rows).Ok?
    ensures Scan(env, START, SaidAt(rows, k, text)).Ok? <==> Open(rows[..k]) == []
  {
    hide Scan, Open, Written;
    var es := AllWrote(rows[..k]) + [Said(text)] + AllWrote(rows[k..]);
    assert Log(es) == SaidAt(rows, k, text);
    WrittenParts(rows, k, text);
    SteeredReadIff(env, es);
    assert es[..k] == AllWrote(rows[..k]);
    assert forall i | 0 <= i < |es| && es[i].Said? :: i == k;
  }

  lemma {:induction false} WrittenParts(rows: seq<RunRecord>, k: nat, text: string)
    requires k <= |rows|
    ensures Written(AllWrote(rows[..k])) == rows[..k]
    ensures Written(AllWrote(rows[..k]) + [Said(text)] + AllWrote(rows[k..])) == rows
  {
    hide Written;
    NothingSaid();
    WrittenWrote([], rows[..k]);
    assert [] + AllWrote(rows[..k]) == AllWrote(rows[..k]) && [] + rows[..k] == rows[..k];
    LogOneMore(AllWrote(rows[..k]), Said(text));
    WrittenWrote(AllWrote(rows[..k]) + [Said(text)], rows[k..]);
    assert rows == rows[..k] + rows[k..];
  }

  /** Results close the calls of a batch one by one. */
  lemma {:induction false} OpenInBatch(rows: seq<RunRecord>, asked: RunRecord, results: seq<RunRecord>)
    requires asked.kind.AssistantMessage? && |results| <= |asked.message.toolCalls|
    requires forall r | r in results :: r.kind.ToolResult?
    ensures Open(rows + [asked] + results) == asked.message.toolCalls[|results|..]
    decreases |results|
  {
    hide Open;
    if results == [] {
      OpenOneMore(rows, asked);
      assert rows + [asked] + results == rows + [asked];
    } else {
      var front, r := results[..|results| - 1], results[|results| - 1];
      OpenInBatch(rows, asked, front);
      OpenOneMore(rows + [asked] + front, r);
      assert rows + [asked] + results == rows + [asked] + front + [r];
    }
  }

  lemma {:induction false} OpenBehindInputs(rows: seq<RunRecord>, inputs: seq<RunRecord>)
    requires forall r | r in inputs :: r.kind.InputMessage?
    ensures Open(rows + inputs) == Open(rows)
    decreases |inputs|
  {
    hide Open;
    if inputs == [] {
      assert rows + inputs == rows;
    } else {
      var front, r := inputs[..|inputs| - 1], inputs[|inputs| - 1];
      OpenBehindInputs(rows, front);
      OpenOneMore(rows + front, r);
      assert rows + inputs == rows + front + [r];
    }
  }

  /** The open calls at the places of a batch: none before it, then all, one less with every result, none behind it. */
  lemma {:induction false} OpenAtPlace(
    rows: seq<RunRecord>, asked: RunRecord, results: seq<RunRecord>, inputs: seq<RunRecord>, k: nat)
    requires asked.kind.AssistantMessage? && |results| == |asked.message.toolCalls| && Open(rows) == []
    requires (forall r | r in results :: r.kind.ToolResult?) && forall r | r in inputs :: r.kind.InputMessage?
    requires |rows| <= k <= |rows + [asked] + results + inputs|
    ensures var all := rows + [asked] + results + inputs;
            Open(all[..k]) == [] <==> k == |rows| || k > |rows| + |results|
  {
    hide Open;
    var all, n := rows + [asked] + results + inputs, |rows|;
    if k == n {
      assert all[..k] == rows;
    } else if k <= n + 1 + |results| {
      assert all[..k] == rows + [asked] + results[..k - n - 1];
      OpenInBatch(rows, asked, results[..k - n - 1]);
    } else {
      assert all[..k] == rows + [asked] + results + inputs[..k - n - 1 - |results|];
      OpenInBatch(rows, asked, results);
      OpenBehindInputs(rows + [asked] + results, inputs[..k - n - 1 - |results|]);
    }
  }

  /**
   * A user speaks during a tool step of a run, of which recovery could read the log: it still can exactly if the text
   * was written before the model's reply was, or after the last result of its batch. While tools run it is lost.
   */
  lemma {:induction false} SaidDuringTools(env: Env, cfg: Config, s: State, input: Input, k: nat, text: string)
    requires RunsTools(cfg, s, input) && Scan(env, START, Step(cfg, s, input).s.rows).Ok?
    requires |s.rows| <= k <= |Step(cfg, s, input).s.rows|
    ensures Scan(env, START, SaidAt(Step(cfg, s, input).s.rows, k, text)).Ok? <==>
            k == |s.rows| || k > |s.rows| + |input.reply.toolCalls|
  {
    hide Scan, Step, Open, SaidAt, RunsTools;
    var all := Step(cfg, s, input).s.rows;
    SaidAtIff(env, all, k, text);
    var asked, results, inputs := StepParts(cfg, s, input);
    assert all[..|s.rows|] == s.rows && all[|s.rows|] == asked;
    ReplayedIff(env, all);
    AskedWhenClosed(env, all, |s.rows|);
    OpenAtPlace(s.rows, asked, results, inputs, k);
  }

  lemma {:induction false} AskedWhenClosed(env: Env, rows: seq<RunRecord>, k: nat)
    requires k < |rows| && AllFollow(env, rows) && rows[k].kind.AssistantMessage?
    ensures Open(rows[..k]) == []
  {
    hide Open;
    assert Follows(env, rows[..k], rows[k]);
  }

  /** The rows that a tool step adds. */
  lemma {:induction false} StepParts(cfg: Config, s: State, input: Input)
    returns (asked: RunRecord, results: seq<RunRecord>, inputs: seq<RunRecord>)
    requires RunsTools(cfg, s, input)
    ensures Step(cfg, s, input).s.rows == s.rows + [asked] + results + inputs
    ensures asked.kind.AssistantMessage? && asked.message.toolCalls == input.reply.toolCalls
    ensures |results| == |input.reply.toolCalls| && forall r | r in results :: r.kind.ToolResult?
    ensures forall r | r in inputs :: r.kind.InputMessage?
  {
    hide Step, OfKind, Kinds, ResultRows, Filter, UserRows, Executed, SignatureOf, CallIds, Taken, Queue.Left, Refusal,
         EnqueueAll, LoopDetected, Loggable, AddUsage, BelowLimits, WithinLimits, HasTexts, Unanswered, DistinctIds;
    ToolStepDoes(cfg, s, input);
    var reply, kinds := input.reply, KindsOf(cfg, s, input.reply);
    var e, r := OfKind(reply.toolCalls, kinds, true), OfKind(reply.toolCalls, kinds, false);
    asked := AssistantRecord(Message(Assistant, reply.content, reply.thinking, "", reply.toolCalls), reply.usage);
    RefusalsReturn(cfg, r);
    var a, b := ResultRows(e, input.outcome), ResultRows(r, Refusal(cfg));
    results := a + b;
    inputs := UserRows(Filter(Fresh, Taken(cfg, s, input.arrivals)));
    OfKindCount(reply.toolCalls, kinds);
    ResultsAreResults(e, input.outcome);
    ResultsAreResults(r, Refusal(cfg));
    PartsOf(Step(cfg, s, input).s.rows, s.rows, asked, a, b, inputs);
    InputsAreInputs(Filter(Fresh, Taken(cfg, s, input.arrivals)));
  }

  lemma {:induction false} RefusalsReturn(cfg: Config, calls: seq<ToolCall>)
    ensures AllReturn(calls, Refusal(cfg))
  {
  }

  lemma {:induction false} InputsAreInputs(items: seq<Queue.Item>)
    ensures forall r | r in UserRows(items) :: r.kind.InputMessage?
  {
  }

  lemma {:induction false} ResultsAreResults(calls: seq<ToolCall>, outcome: ToolCall -> Option<string>)
    requires AllReturn(calls, outcome)
    ensures |ResultRows(calls, outcome)| == |calls|
    ensures forall r | r in ResultRows(calls, outcome) :: r.kind.ToolResult?
  {
    ResultRowsAre(calls, outcome);
    hide ResultRows;
  }

  lemma {:induction false} PartsOf(
    all: seq<RunRecord>, rows: seq<RunRecord>, asked: RunRecord, a: seq<RunRecord>, b: seq<RunRecord>,
    inputs: seq<RunRecord>)
    requires all == rows + ([asked] + a + b) + inputs
    ensures all == rows + [asked] + (a + b) + inputs
  {
  }

  // ----- an example -----

  const ASKED: RunRecord :=
    AssistantRecord(Message(Assistant, "", "", "", [ToolCall("a", "t", "{}")]), NO_USAGE)
  const ANSWERED: RunRecord := RunRecord(ToolResult, ToolMessage("a", "ok"), NO_USAGE, "a")

  /** One tool, whose response is stored. */
  function OneStored(json: Json): Env {
    Env(json, {"t"}, map["a" := StoredCall("succeeded", Some(Decoded(Response("a", "t", "ok", None))))], 0, 0)
  }

  const ASKS: seq<Entry> := [Wrote(InputRecord(UserMessage("go"))), Wrote(ASKED)]
  const SPOKEN: seq<Entry> := ASKS + [Said("more")] + [Wrote(ANSWERED)]

  lemma {:induction false} SpokenIs()
    ensures Written(ASKS) == [InputRecord(UserMessage("go")), ASKED]
    ensures Written(SPOKEN) == [InputRecord(UserMessage("go")), ASKED, ANSWERED]
  {
    hide Written;
    var go := Wrote(InputRecord(UserMessage("go")));
    NothingSaid();
    LogOneMore([], go);
    LogOneMore([go], Wrote(ASKED));
    assert [] + [go] == [go] && [go] + [Wrote(ASKED)] == ASKS;
    LogOneMore(ASKS, Said("more"));
    LogOneMore(ASKS + [Said("more")], Wrote(ANSWERED));
  }

  /** A tool runs, and while it does the user says "more": without that the log is read, and with it it is not. */
  lemma {:induction false} SaidDuringToolsIsLost(json: Json)
    ensures Scan(OneStored(json), START, Written(SPOKEN)).Ok? && !Restored(OneStored(json), Log(SPOKEN)).state.Ok?
  {
    hide Restored, Scan, Written, Open;
    SpokenIs();
    AskedAndAnswered(json, InputRecord(UserMessage("go")));
    assert SPOKEN[..2] == ASKS && SPOKEN[2] == Said("more");
    SaidTooSoonIsFatal(OneStored(json), SPOKEN);
  }

  lemma {:induction false} AskedAndAnswered(json: Json, go: RunRecord)
    requires go == InputRecord(UserMessage("go"))
    ensures Scan(OneStored(json), START, [go, ASKED, ANSWERED]).Ok? && Open([go, ASKED]) != []
  {
    var env, rows := OneStored(json), [go, ASKED, ANSWERED];
    ReplayedIff(env, rows);
    assert TrimLeft("a") == "a" && TrimRight("a") == "a" && TrimLeft("t") == "t" && TrimRight("t") == "t";
    assert Trim("a") == "a" && Trim("t") == "t";
    hide Trim, Scan, Account, Bills;
    assert rows[..0] == [] && rows[..1] == [go] && rows[..2] == [go, ASKED];
    assert [go][..0] == [] && [go, ASKED][..1] == [go];
    assert Open([]) == [] && Open([go]) == [] && Open([go, ASKED]) == ASKED.message.toolCalls;
    assert Known(env, ANSWERED.message);
    hide Known, Open;
    assert Follows(env, rows[..0], rows[0]) && Follows(env, rows[..1], rows[1]) && Follows(env, rows[..2], rows[2]);
  }
}
