/** Recovery of a run from its log (internal/agent/runner_restore.go). */
module Restore {
  import opened Text
  import opened Messages
  import opened Records
  import opened ToolCalls

  /** What recovery reads besides the log. */
  datatype Env = Env(
    json: Json,
    advertised: set<string>,
    stored: map<string, StoredCall>,
    maxTokens: int,
    maxMicros: int)

  datatype RunResult = RunResult(content: string, usage: Usage, iterations: nat, toolCalls: seq<Response>)

  datatype Replay = Replay(
    messages: seq<Message>,
    pending: seq<ToolCall>,
    generated: bool,
    seen: set<string>,
    result: RunResult)

  const START := Replay([], [], false, {}, RunResult("", NO_USAGE, 0, []))

  // ----- reading one record -----

  function ReadInput(s: Replay, m: Message): Result<Replay> {
    if s.generated && (!m.role.User? || s.pending != []) then Err(CorruptHistory)
    else Ok(s.(messages := s.messages + [m]))
  }

  function ReadAssistant(env: Env, s: Replay, m: Message, usage: Usage): Result<Replay> {
    if s.pending != [] then Err(CorruptHistory) else
      var total := AddUsage(s.result.usage, usage);
      var result := s.result.(iterations := s.result.iterations + 1, usage := total);
      var over := BudgetExceeded(total, env.maxTokens, env.maxMicros);
      if over.Some? then Err(over.value)
      else if m.toolCalls == [] then
        if Trim(m.content) == "" then Err(CorruptHistory)
        else Ok(s.(generated := true, result := result.(content := m.content), messages := s.messages + [m]))
      else if !HasToolCallIds(m.toolCalls) then Err(CorruptHistory)
      else Ok(Replay(s.messages + [m], m.toolCalls, true, s.seen + CallIds(m.toolCalls), result))
  }

  /** The response a tool result stands for: the stored one, which it must repeat, or an observation of a refusal. */
  function ResultResponse(env: Env, call: ToolCall, m: Message): Result<Response> {
    match Load(env.stored, m.toolCallId)
    case Ok(r) => if ResultMatches(r, m.content) then Ok(r) else Err(CorruptHistory)
    case Err(e) =>
      if e != RecoveryBlocked || !IsObservation(env.json, m.content) then Err(e)
      else Ok(Response(m.toolCallId, call.name, m.content, None))
  }

  function Answer(s: Replay, m: Message, r: Response): (next: Replay)
    requires s.pending != []
    ensures next.pending == s.pending[1..]
  {
    s.(generated := true, messages := s.messages + [m], pending := s.pending[1..],
       result := s.result.(toolCalls := s.result.toolCalls + [r]))
  }

  function ReadResult(env: Env, s: Replay, m: Message): Result<Replay> {
    if s.pending == [] || m.toolCallId != s.pending[0].id then Err(CorruptHistory) else
      match ResultResponse(env, s.pending[0], m)
      case Err(e) => Err(e)
      case Ok(r) => Ok(Answer(s, m, r))
  }

  function Read(env: Env, s: Replay, record: RunRecord): Result<Replay> {
    match record.kind
    case InputMessage => ReadInput(s, record.message)
    case AssistantMessage => ReadAssistant(env, s, record.message, record.usage)
    case ToolResult => ReadResult(env, s, record.message)
  }

  function Scan(env: Env, s: Replay, rows: seq<RunRecord>): Result<Replay>
    decreases |rows|
  {
    if rows == [] then Ok(s) else
      match Read(env, s, rows[0])
      case Err(e) => Err(e)
      case Ok(next) => Scan(env, next, rows[1..])
  }

  // ----- completing what was interrupted -----

  /** The log after recovery, and either the recovered state or why there is none. */
  datatype Recovery = Recovery(rows: seq<RunRecord>, state: Result<Replay>, completed: bool)

  function Complete(env: Env, rows: seq<RunRecord>, s: Replay): Recovery
    decreases |s.pending|
  {
    if s.pending == [] then Recovery(rows, Ok(s), false) else
      match Load(env.stored, s.pending[0].id)
      case Err(e) => Recovery(rows, Err(e), false)
      case Ok(r) =>
        var m := ToolMessage(s.pending[0].id, ResultContent(r));
        match AppendResult(env.json, rows, m)
        case Err(e) => Recovery(rows, Err(e), false)
        case Ok(after) => Complete(env, after, Answer(s, m, r))
  }

  /** A log that ends with an assistant's text is a finished run. */
  predicate Finished(rows: seq<RunRecord>) {
    rows != [] && rows[|rows| - 1].kind.AssistantMessage? && rows[|rows| - 1].message.toolCalls == []
  }

  function Restored(env: Env, rows: seq<RunRecord>): Recovery {
    match Scan(env, START, rows)
    case Err(e) => Recovery(rows, Err(e), false)
    case Ok(s) => if Finished(rows) then Recovery(rows, Ok(s), true) else Complete(env, rows, s)
  }

  // ----- the source's loop -----

  method ReadOne(env: Env, s: Replay, record: RunRecord) returns (r: Result<Replay>)
    ensures r == Read(env, s, record)
  {
    match record.kind {
      case InputMessage =>
        if s.generated && !record.message.role.User? {
          return Err(CorruptHistory);
        }
        if s.generated && |s.pending| != 0 {
          return Err(CorruptHistory);
        }
        return Ok(s.(messages := s.messages + [record.message]));
      case AssistantMessage =>
        if |s.pending| != 0 {
          return Err(CorruptHistory);
        }
        var result := s.result.(iterations := s.result.iterations + 1, usage := AddUsage(s.result.usage, record.usage));
        var over := BudgetExceeded(result.usage, env.maxTokens, env.maxMicros);
        if over.Some? {
          return Err(over.value);
        }
        var m := record.message;
        if |m.toolCalls| == 0 {
          if Trim(m.content) == "" {
            return Err(CorruptHistory);
          }
          return Ok(s.(generated := true, result := result.(content := m.content), messages := s.messages + [m]));
        }
        var _, seen, failed := ClassifyToolCalls(env.json, m.toolCalls, env.advertised, s.seen);
        if failed && !HasToolCallIds(m.toolCalls) {
          return Err(CorruptHistory);
        }
        if !failed {
          ExecutableHasIds(env.json, m.toolCalls, env.advertised, s.seen);
        }
        return Ok(Replay(s.messages + [m], m.toolCalls, true, seen, result));
      case ToolResult =>
        var m := record.message;
        if |s.pending| == 0 || m.toolCallId != s.pending[0].id {
          return Err(CorruptHistory);
        }
        var loaded := Load(env.stored, m.toolCallId);
        var response: Response;
        if loaded.Err? {
          if loaded.error != RecoveryBlocked || !IsObservation(env.json, m.content) {
            return Err(loaded.error);
          }
          response := Response(m.toolCallId, s.pending[0].name, m.content, None);
        } else {
          if !ResultMatches(loaded.value, m.content) {
            return Err(CorruptHistory);
          }
          response := loaded.value;
        }
        return Ok(Answer(s, m, response));
    }
  }

  lemma {:induction false} ExecutableHasIds(
    json: Json, calls: seq<ToolCall>, advertised: set<string>, seen: set<string>)
    requires calls != [] && AllExecutable(Kinds(json, calls, advertised, seen))
    ensures HasToolCallIds(calls)
  {
    hide Inspect;
    forall call | call in calls ensures Trim(call.id) != "" {
      var i :| 0 <= i < |calls| && calls[i] == call;
      KindAt(json, calls, advertised, seen, i);
      assert Kinds(json, calls, advertised, seen)[i] in Kinds(json, calls, advertised, seen);
      InspectHasId(json, call, advertised, seen + CallIds(calls[..i]), CallIds(calls[..i]));
    }
  }

  method RestoreRun(log: RecordLog, env: Env) returns (state: Result<Replay>, completed: bool)
    requires log.Valid() && env.json == log.json
    modifies log
    ensures log.Valid()
    ensures Recovery(log.rows, state, completed) == Restored(env, old(log.rows))
  {
    hide Read, Load, AppendResult, Answer;
    var records := log.rows;
    var s := START;
    completed := false;
    var index := 0;
    while index < |records|
      invariant 0 <= index <= |records| && log.rows == records && log.Valid()
      invariant index > 0 && index == |records| ==> !Finished(records)
      invariant Scan(env, START, records) == Scan(env, s, records[index..])
    {
      assert records[index..][0] == records[index] && records[index..][1..] == records[index + 1..];
      state := ReadOne(env, s, records[index]);
      if state.Err? {
        return;
      }
      s := state.value;
      if records[index].kind.AssistantMessage? && |records[index].message.toolCalls| == 0 && index == |records| - 1 {
        completed := true;
        return;
      }
      index := index + 1;
    }
    state := Ok(s);
    assert Scan(env, START, records) == Ok(s);
    while |s.pending| > 0
      invariant log.Valid() && state == Ok(s)
      invariant !Finished(records) && Restored(env, records) == Complete(env, log.rows, s)
      decreases |s.pending|
    {
      var call := s.pending[0];
      var loaded := Load(env.stored, call.id);
      if loaded.Err? {
        state := Err(loaded.error);
        return;
      }
      var toolMessage := ToolMessage(call.id, ResultContent(loaded.value));
      var err := log.AppendToolResult(toolMessage);
      if err.Some? {
        state := Err(err.value);
        return;
      }
      s := Answer(s, toolMessage, loaded.value);
      state := Ok(s);
    }
  }
}
