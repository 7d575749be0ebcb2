/** The append-only run log (internal/agent/store.go). A record's position is its index. */
module Records {
  import opened Text
  import opened Messages

  /** What the model takes from a JSON library: validity, and the "error" field of an object, "" if none. */
  datatype Json = Json(valid: string -> bool, errorKind: string -> string)

  datatype Error =
    | CorruptHistory | RecoveryConflict | RecoveryBlocked | TokenBudgetExceeded | CostBudgetExceeded | StorageFailed

  datatype Result<+T> = Ok(value: T) | Err(error: Error)

  datatype Usage = Usage(input: int, output: int, total: int, cacheRead: int, cacheWrite: int, currency: string,
      micros: int)

  const NO_USAGE := Usage(0, 0, 0, 0, 0, "", 0)

  datatype RecordType = InputMessage | AssistantMessage | ToolResult

  datatype RunRecord = RunRecord(kind: RecordType, message: Message, usage: Usage, toolCallId: string)

  function InputRecord(m: Message): RunRecord {
    RunRecord(InputMessage, m, NO_USAGE, "")
  }

  function AssistantRecord(m: Message, usage: Usage): RunRecord {
    RunRecord(AssistantMessage, m, usage, "")
  }

  function ToolRecord(m: Message): RunRecord {
    RunRecord(ToolResult, m, NO_USAGE, Trim(m.toolCallId))
  }

  predicate ValidCall(json: Json, call: ToolCall) {
    Trim(call.id) != "" && Trim(call.name) != "" && json.valid(call.arguments)
  }

  predicate ValidMessage(json: Json, m: Message) {
    && !m.role.Other?
    && (if m.role.Tool? then Trim(m.toolCallId) != "" && m.toolCalls == [] else m.toolCallId == "")
    && (m.toolCalls != [] ==> m.role.Assistant?)
    && forall call | call in m.toolCalls :: ValidCall(json, call)
  }

  /** Role by role: results carry an id and no calls, replies calls with ids, names and JSON, others neither. */
  lemma {:induction false} ValidByRole(json: Json, m: Message)
    ensures ValidMessage(json, m) <==>
            match m.role
            case Tool => Trim(m.toolCallId) != "" && |m.toolCalls| == 0
            case Assistant =>
              && m.toolCallId == ""
              && forall i | 0 <= i < |m.toolCalls| ::
                   var call := m.toolCalls[i];
                   Trim(call.id) != "" && Trim(call.name) != "" && json.valid(call.arguments)
            case System => m.toolCallId == "" && |m.toolCalls| == 0
            case User => m.toolCallId == "" && |m.toolCalls| == 0
            case Other(_) => false
  {
    hide Trim;
    if m.role.Assistant? {
      assert forall i | 0 <= i < |m.toolCalls| :: m.toolCalls[i] in m.toolCalls;
      forall call | call in m.toolCalls ensures exists i :: 0 <= i < |m.toolCalls| && m.toolCalls[i] == call {
      }
    }
  }

  predicate ValidRecord(json: Json, r: RunRecord) {
    && ValidMessage(json, r.message)
    && match r.kind
       case InputMessage => r.toolCallId == ""
       case AssistantMessage => r.message.role.Assistant? && r.toolCallId == ""
       case ToolResult => r.message.role.Tool? && r.toolCallId != "" && r.message.toolCallId == r.toolCallId
  }

  /** The unique index on (run_id, tool_call_id) of tool results. */
  predicate UniqueResults(rows: seq<RunRecord>) {
    forall i, j | 0 <= i < j < |rows| && rows[i].kind.ToolResult? && rows[j].kind.ToolResult? ::
      rows[i].toolCallId != rows[j].toolCallId
  }

  /** Tool result rows as AppendToolResult writes them. */
  predicate WrittenRow(r: RunRecord) {
    r.kind.ToolResult? ==> r.message.role.Tool? && r.toolCallId == Trim(r.message.toolCallId) && r.toolCallId != ""
  }

  predicate WrittenRows(rows: seq<RunRecord>) {
    forall r | r in rows :: WrittenRow(r)
  }

  /** What a listing accepts: every row valid. */
  predicate Listable(json: Json, rows: seq<RunRecord>) {
    forall r | r in rows :: ValidRecord(json, r)
  }

  predicate HasResult(rows: seq<RunRecord>, id: string) {
    exists r | r in rows :: r.kind.ToolResult? && r.toolCallId == id
  }

  lemma {:induction false} ResultOneMore(rows: seq<RunRecord>, row: RunRecord, id: string)
    requires row.kind.ToolResult?
    ensures HasResult(rows + [row], id) <==> HasResult(rows, id) || row.toolCallId == id
  {
    assert (rows + [row])[|rows|] == row;
    assert forall r | r in rows :: r in rows + [row];
  }

  /** The rows after an append, or why it fails. */
  function Append(json: Json, rows: seq<RunRecord>, r: RunRecord): Result<seq<RunRecord>> {
    if !ValidMessage(json, r.message) then Err(CorruptHistory)
    else if r.kind.ToolResult? && HasResult(rows, r.toolCallId) then Err(StorageFailed)
    else Ok(rows + [r])
  }

  function AppendResult(json: Json, rows: seq<RunRecord>, m: Message): Result<seq<RunRecord>> {
    if !m.role.Tool? || Trim(m.toolCallId) == "" then Err(CorruptHistory) else Append(json, rows, ToolRecord(m))
  }

  /**
   * A written row can be read back exactly when its call id carries no white space around it: a row is stored under
   * the trimmed id, and reading demands that the message says the same id.
   */
  lemma {:induction false} ReadBackIffTrimmed(json: Json, rows: seq<RunRecord>, m: Message)
    requires AppendResult(json, rows, m).Ok? && Listable(json, rows)
    ensures Listable(json, AppendResult(json, rows, m).value) <==> Trim(m.toolCallId) == m.toolCallId
  {
    var after := AppendResult(json, rows, m).value;
    assert after[|rows|] == ToolRecord(m) && ToolRecord(m) in after;
  }

  /** A result that is accepted under an id with a space before it, and makes the log unreadable. */
  lemma {:induction false} SpacedIdIsLost(json: Json)
    ensures var m := ToolMessage(" a", "ok");
            AppendResult(json, [], m).Ok? && Listable(json, []) && !Listable(json, AppendResult(json, [], m).value)
  {
    var m := ToolMessage(" a", "ok");
    assert " a"[1..] == "a" && TrimLeft("a") == "a" && TrimRight("a") == "a";
    assert Trim(" a") == "a";
    hide Trim;
    ReadBackIffTrimmed(json, [], m);
  }

  class RecordLog {
    var rows: seq<RunRecord>
    const json: Json

    ghost predicate Valid()
      reads this
    {
      UniqueResults(rows) && WrittenRows(rows)
    }

    constructor (json: Json)
      ensures Valid() && rows == [] && this.json == json
    {
      this.json := json;
      rows := [];
    }

    method Insert(record: RunRecord) returns (err: Option<Error>)
      requires Valid() && WrittenRow(record)
      modifies this
      ensures Valid()
      ensures match Append(json, old(rows), record)
              case Ok(after) => err == None && rows == after
              case Err(e) => err == Some(e) && rows == old(rows)
    {
      if !ValidMessage(json, record.message) {
        return Some(CorruptHistory);
      }
      if record.kind.ToolResult? && HasResult(rows, record.toolCallId) {
        return Some(StorageFailed);
      }
      rows := rows + [record];
      return None;
    }

    method AppendAssistant(message: Message, usage: Usage) returns (err: Option<Error>)
      requires Valid()
      modifies this
      ensures Valid()
      ensures err == None <==> message.role.Assistant? && ValidMessage(json, message)
      ensures rows == if err == None then old(rows) + [AssistantRecord(message, usage)] else old(rows)
    {
      if !message.role.Assistant? {
        return Some(CorruptHistory);
      }
      err := Insert(AssistantRecord(message, usage));
    }

    method AppendUser(message: Message) returns (err: Option<Error>)
      requires Valid()
      modifies this
      ensures Valid()
      ensures err == None <==> message.role.User? && Trim(message.content) != "" && ValidMessage(json, message)
      ensures rows == if err == None then old(rows) + [InputRecord(message)] else old(rows)
    {
      if !message.role.User? || Trim(message.content) == "" {
        return Some(CorruptHistory);
      }
      err := Insert(InputRecord(message));
    }

    method AppendToolResult(message: Message) returns (err: Option<Error>)
      requires Valid()
      modifies this
      ensures Valid()
      ensures match AppendResult(json, old(rows), message)
              case Ok(after) => err == None && rows == after
              case Err(e) => err == Some(e) && rows == old(rows)
    {
      if !message.role.Tool? || Trim(message.toolCallId) == "" {
        return Some(CorruptHistory);
      }
      err := Insert(ToolRecord(message));
    }

    method List() returns (r: Result<seq<RunRecord>>)
      requires Valid()
      ensures r == if Listable(json, rows) then Ok(rows) else Err(CorruptHistory)
    {
      if forall row | row in rows :: ValidRecord(json, row) {
        return Ok(rows);
      }
      return Err(CorruptHistory);
    }

    /** Writes the initial messages of a new run; on a known run demands the same prefix. */
    method Prepare(initial: seq<Message>) returns (r: Result<seq<RunRecord>>)
      requires Valid()
      modifies this
      ensures Valid()
      ensures rows == if r.Ok? && old(rows) == [] then InputRows(initial) else old(rows)
      ensures r.Ok? <==> initial != [] && (forall m | m in initial :: ValidMessage(json, m)) &&
                         Listable(json, old(rows)) && (old(rows) == [] || InputRows(initial) <= WithoutUsage(old(rows)))
      ensures r.Ok? ==> r.value == rows
    {
      hide ValidMessage;
      if |initial| == 0 || !(forall m | m in initial :: ValidMessage(json, m)) {
        return Err(RecoveryConflict);
      }
      var listed := List();
      if listed.Err? {
        return listed;
      }
      var records := listed.value;
      if |records| == 0 {
        records := [];
        for position := 0 to |initial|
          invariant records == InputRows(initial[..position])
        {
          assert initial[..position + 1][..position] == initial[..position];
          records := records + [InputRecord(initial[position])];
        }
        assert initial[..|initial|] == initial;
        InputRowsValid(json, initial);
        rows := records;
        return Ok(records);
      }
      InputRowsAt(initial);
      if |records| < |initial| {
        return Err(RecoveryConflict);
      }
      for i := 0 to |initial|
        invariant forall j | 0 <= j < i :: WithoutUsage(records)[j] == InputRecord(initial[j])
      {
        var row := records[i];
        assert row in records && ValidRecord(json, row);
        if !row.kind.InputMessage? || row.message != initial[i] {
          assert WithoutUsage(records)[i] != InputRecord(initial[i]);
          assert InputRows(initial)[i] == InputRecord(initial[i]);
          return Err(RecoveryConflict);
        }
      }
      return Ok(records);
    }
  }

  function InputRows(ms: seq<Message>): (r: seq<RunRecord>)
    ensures |r| == |ms|
  {
    if ms == [] then [] else InputRows(ms[..|ms| - 1]) + [InputRecord(ms[|ms| - 1])]
  }

  lemma {:induction false} InputRowsAt(ms: seq<Message>)
    ensures forall i | 0 <= i < |ms| :: InputRows(ms)[i] == InputRecord(ms[i])
  {
    if ms != [] {
      InputRowsAt(ms[..|ms| - 1]);
    }
  }

  lemma {:induction false} InputRowsValid(json: Json, ms: seq<Message>)
    ensures UniqueResults(InputRows(ms)) && WrittenRows(InputRows(ms))
  {
    InputRowsAt(ms);
  }

  /** Rows compared as verifyInitialPrefix compares them: the type and the message. */
  function WithoutUsage(rows: seq<RunRecord>): (r: seq<RunRecord>)
    ensures |r| == |rows|
  {
    seq(|rows|, i requires 0 <= i < |rows| => rows[i].(usage := NO_USAGE))
  }
}
