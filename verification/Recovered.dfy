/** Which logs recovery can read, record by record, and what it writes to complete one. */
module Recovered {
  import opened Text
  import opened Messages
  import opened Records
  import opened ToolCalls
  import opened Restore
  import opened CrashRecovery
  import opened BatchOrder

  /** The calls that a log leaves open: those of its last batch that no later record answers. */
  function Open(rows: seq<RunRecord>): seq<ToolCall> {
    if rows == [] then [] else
      var before := Open(rows[..|rows| - 1]);
      match rows[|rows| - 1].kind
      case InputMessage => before
      case AssistantMessage => rows[|rows| - 1].message.toolCalls
      case ToolResult => if before == [] then [] else before[1..]
  }

  predicate Begun(rows: seq<RunRecord>) {
    exists r | r in rows :: !r.kind.InputMessage?
  }

  predicate WithinBudget(env: Env, usage: Usage) {
    (env.maxTokens > 0 ==> usage.total <= env.maxTokens) && (env.maxMicros > 0 ==> usage.micros <= env.maxMicros)
  }

  /**
   * The record can stand behind those before it. An input stands before the first reply, or is a user message that
   * comes while no call is open. A reply comes while no call is open, leaves the account within the limits, and says
   * something or asks for calls with ids. A result answers the first open call, and is known.
   */
  predicate Follows(env: Env, before: seq<RunRecord>, r: RunRecord) {
    match r.kind
    case InputMessage => Begun(before) ==> r.message.role.User? && Open(before) == []
    case AssistantMessage =>
      && Open(before) == [] && WithinBudget(env, Account(Bills(before) + [r.usage]))
      && if r.message.toolCalls == [] then Trim(r.message.content) != ""
         else forall c | c in r.message.toolCalls :: Trim(c.id) != ""
    case ToolResult =>
      Open(before) != [] && r.message.toolCallId == Open(before)[0].id && Known(env, r.message)
  }

  predicate AllFollow(env: Env, rows: seq<RunRecord>) {
    forall k | 0 <= k < |rows| :: Follows(env, rows[..k], rows[k])
  }

  /** What a replay has seen so far. */
  ghost predicate Seen(rows: seq<RunRecord>, s: Replay) {
    s.pending == Open(rows) && (s.generated <==> Begun(rows)) && s.result.usage == Account(Bills(rows))
  }

  lemma {:induction false} ReadIff(env: Env, before: seq<RunRecord>, s: Replay, r: RunRecord)
    requires Seen(before, s)
    ensures Read(env, s, r).Ok? <==> Follows(env, before, r)
    ensures Read(env, s, r).Ok? ==> Seen(before + [r], Read(env, s, r).value)
  {
    BillsOneMore(before, r);
    OpenOneMore(before, r);
    BegunOneMore(before, r);
    AccountSnoc(Bills(before), r.usage);
    hide Load, Account, Bills, Open, Begun, AddUsage, Trim, ResultMatches, IsObservation;
  }

  lemma {:induction false} BillsOneMore(rows: seq<RunRecord>, r: RunRecord)
    ensures Bills(rows + [r]) == Bills(rows) + BillOf(r)
    decreases |rows|
  {
    if rows == [] {
      assert rows + [r] == [r] && [r][1..] == [];
    } else {
      assert (rows + [r])[1..] == rows[1..] + [r];
      BillsOneMore(rows[1..], r);
    }
  }

  lemma {:induction false} OpenOneMore(rows: seq<RunRecord>, r: RunRecord)
    ensures Open(rows + [r]) ==
            match r.kind
            case InputMessage => Open(rows)
            case AssistantMessage => r.message.toolCalls
            case ToolResult => if Open(rows) == [] then [] else Open(rows)[1..]
  {
    assert (rows + [r])[..|rows|] == rows;
  }

  lemma {:induction false} BegunOneMore(rows: seq<RunRecord>, r: RunRecord)
    ensures Begun(rows + [r]) <==> Begun(rows) || !r.kind.InputMessage?
  {
    assert forall x :: x in rows + [r] <==> x in rows || x == r;
  }

  /** Recovery reads a log exactly if each of its records can stand behind those before it. */
  lemma {:induction false} ReplayedIff(env: Env, rows: seq<RunRecord>)
    ensures Scan(env, START, rows).Ok? <==> AllFollow(env, rows)
    ensures Scan(env, START, rows).Ok? ==> Seen(rows, Scan(env, START, rows).value)
    decreases |rows|
  {
    hide Scan, Read, Follows, Seen;
    if rows == [] {
      NothingSeen(env);
    } else {
      var front, r := rows[..|rows| - 1], rows[|rows| - 1];
      assert rows == front + [r];
      ReplayedIff(env, front);
      ScanConcat(env, START, front, [r]);
      assert forall k | 0 <= k < |front| :: rows[..k] == front[..k] && rows[k] == front[k];
      if Scan(env, START, front).Ok? {
        var s := Scan(env, START, front).value;
        ScanOneMore(env, front, r);
        ReadIff(env, front, s, r);
        FollowsLast(env, rows);
      } else {
        var k :| 0 <= k < |front| && !Follows(env, front[..k], front[k]);
        assert !Follows(env, rows[..k], rows[k]);
      }
    }
  }

  lemma {:induction false} NothingSeen(env: Env)
    ensures Scan(env, START, []) == Ok(START) && Seen([], START)
  {
    AccountNone();
  }

  lemma {:induction false} FollowsLast(env: Env, rows: seq<RunRecord>)
    requires rows != []
    ensures AllFollow(env, rows) <==>
            AllFollow(env, rows[..|rows| - 1]) && Follows(env, rows[..|rows| - 1], rows[|rows| - 1])
  {
    hide Follows;
    var front := rows[..|rows| - 1];
    assert forall k | 0 <= k < |front| :: rows[..k] == front[..k] && rows[k] == front[k];
  }

  // ----- stored responses -----

  /** The call succeeded, and its response was stored under its own id. */
  predicate StoredAs(env: Env, id: string, r: Response) {
    && id in env.stored && env.stored[id].state == "succeeded" && env.stored[id].payload == Some(Decoded(r))
    && r.callId == id && Trim(r.tool) != ""
  }

  /** No call under this id is known to have succeeded with a response. */
  predicate NeverStored(env: Env, id: string) {
    id !in env.stored || env.stored[id].state != "succeeded" || env.stored[id].payload == None
  }

  /** What a response says: its output, or where there is none its artifact, or an empty object. */
  function TextOf(r: Response): string {
    if r.output != "" then r.output else match r.artifact case Some(a) => a case None => "{}"
  }

  /** What recovery takes from storage. */
  lemma {:induction false} LoadIff(env: Env, id: string, r: Response)
    ensures Load(env.stored, id) == Ok(r) <==> StoredAs(env, id, r)
    ensures Load(env.stored, id) == Err(RecoveryBlocked) <==> NeverStored(env, id)
  {
    hide Trim;
  }

  /**
   * A result is known exactly if it repeats the stored response; or if none is stored, and it is a refusal or a failure
   * that the agent itself reports.
   */
  lemma {:induction false} KnownIff(env: Env, m: Message)
    ensures Known(env, m) <==>
            || (exists r :: StoredAs(env, m.toolCallId, r) && m.content == TextOf(r))
            || (&& NeverStored(env, m.toolCallId)
                && env.json.errorKind(m.content) in
                   {"tool_denied", "tool_failed", "unadvertised_tool", "invalid_tool_call", "unknown_tool"})
  {
    hide Trim, StoredAs;
    if Load(env.stored, m.toolCallId).Ok? {
      LoadIff(env, m.toolCallId, Load(env.stored, m.toolCallId).value);
    }
    forall r: Response ensures Load(env.stored, m.toolCallId) == Ok(r) <==> StoredAs(env, m.toolCallId, r)
    {
      LoadIff(env, m.toolCallId, r);
    }
    LoadIff(env, m.toolCallId, Response("", "", "", None));
    hide Load, NeverStored;
  }

  /** The results that complete the open calls: one for each, in call order, with what its stored response says. */
  ghost predicate Completes(env: Env, open: seq<ToolCall>, added: seq<RunRecord>, responses: seq<Response>) {
    && |added| == |open| == |responses|
    && forall i | 0 <= i < |open| ::
         && StoredAs(env, open[i].id, responses[i])
         && added[i] == RunRecord(ToolResult, Message(Tool, TextOf(responses[i]), "", open[i].id, []), NO_USAGE,
                                  Trim(open[i].id))
  }

  lemma {:induction false} CompleteWrites(env: Env, rows: seq<RunRecord>, s: Replay)
    returns (added: seq<RunRecord>, responses: seq<Response>)
    requires Complete(env, rows, s).state.Ok?
    ensures Complete(env, rows, s).rows == rows + added && Completes(env, s.pending, added, responses)
    ensures Complete(env, rows, s).state.value.result.toolCalls == s.result.toolCalls + responses
    decreases |s.pending|
  {
    hide Load, ValidMessage, Trim, StoredAs, TextOf;
    if s.pending == [] {
      added, responses := [], [];
      assert rows + added == rows && s.result.toolCalls + responses == s.result.toolCalls;
    } else {
      var r := Load(env.stored, s.pending[0].id).value;
      var m := ToolMessage(s.pending[0].id, ResultContent(r));
      LoadIff(env, s.pending[0].id, r);
      TextIs(r);
      var more, others := CompleteWrites(env, rows + [ToolRecord(m)], Answer(s, m, r));
      added, responses := [ToolRecord(m)] + more, [r] + others;
      assert rows + [ToolRecord(m)] + more == rows + added;
      assert s.result.toolCalls + [r] + others == s.result.toolCalls + responses;
    }
  }

  lemma {:induction false} TextIs(r: Response)
    ensures ResultContent(r) == TextOf(r)
  {
  }

  /**
   * A log that recovery accepts stays as it is, but for the results of the calls it leaves open: they are appended in
   * call order, each with what its stored response says, and the recovered responses end with these.
   */
  lemma {:induction false} RecoveryWrites(env: Env, rows: seq<RunRecord>)
    returns (added: seq<RunRecord>, responses: seq<Response>)
    requires Restored(env, rows).state.Ok?
    ensures AllFollow(env, rows)
    ensures Restored(env, rows).rows == rows + added && Completes(env, Open(rows), added, responses)
    ensures |responses| <= |Restored(env, rows).state.value.result.toolCalls|
    ensures var all := Restored(env, rows).state.value.result.toolCalls; all[|all| - |responses|..] == responses
  {
    hide Scan, Complete, Completes, AllFollow;
    ReplayedIff(env, rows);
    var s := Scan(env, START, rows).value;
    if Finished(rows) {
      FinishedHasNoPending(env, rows);
      added, responses := [], [];
      NoneToComplete(env);
      assert rows + [] == rows;
    } else {
      added, responses := CompleteWrites(env, rows, s);
    }
  }

  lemma {:induction false} NoneToComplete(env: Env)
    ensures Completes(env, [], [], [])
  {
  }
}
