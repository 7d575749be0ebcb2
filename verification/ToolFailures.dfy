/** What a failed tool call leaves in the log (internal/agent/runner_tools.go), and when recovery reads it back. */
module ToolFailures {
  import opened Records
  import opened ToolCalls
  import opened Restore
  import opened BatchOrder
  import opened Messages

  /** The field "error" of an object. */
  datatype ErrorField = Absent | Text(kind: string) | NotText

  /** What a failed call gives back besides its error. */
  datatype Output = NoObject | Fields(error: ErrorField)

  /** mergeToolFailureOutput: the fields that are written; an object keeps an error field of its own. */
  function Merged(output: Output): ErrorField {
    match output
    case NoObject => Text("tool_failed")
    case Fields(Absent) => Text("tool_failed")
    case Fields(own) => own
  }

  /** observationKind: what it reads from a field that it decodes as a text. */
  function Reading(field: ErrorField): string {
    match field
    case Text(kind) => kind
    case _ => ""
  }

  /** The content that is logged for a failed call says what Merged says. */
  ghost predicate Says(json: Json, content: string, output: Output) {
    json.errorKind(content) == Reading(Merged(output))
  }

  /**
   * Recovery reads the result of a failed call back exactly if the tool named no error of its own, or one of those that
   * the agent uses itself: no response is stored for the call, so the content has to be an observation.
   */
  lemma {:induction false} FailureReadBackIff(env: Env, call: ToolCall, content: string, output: Output)
    requires Load(env.stored, call.id) == Err(RecoveryBlocked) && Says(env.json, content, output)
    ensures Acknowledged(env, call, content) <==>
            output.NoObject? || output.error.Absent? || (output.error.Text? && output.error.kind in OBSERVATIONS)
  {
    hide Load;
  }

  /** A log with a result that recovery does not know is never recovered. */
  lemma {:induction false} UnknownNeverRecovers(env: Env, rows: seq<RunRecord>)
    requires !KnownRows(env, rows)
    ensures Restored(env, rows).state.Err?
  {
    if Scan(env, START, rows).Ok? {
      ScanKnown(env, START, rows);
    }
  }

  /** So a tool that names an error of its own makes the log of the run unreadable. */
  lemma {:induction false} OwnErrorIsLost(
    env: Env, rows: seq<RunRecord>, call: ToolCall, content: string, output: Output)
    requires ToolRecord(ToolMessage(call.id, content)) in rows
    requires Load(env.stored, call.id) == Err(RecoveryBlocked) && Says(env.json, content, output)
    requires output.Fields? && (output.error.NotText? || (output.error.Text? && output.error.kind !in OBSERVATIONS))
    ensures Restored(env, rows).state.Err?
  {
    hide Load, Restored, ResultMatches;
    FailureReadBackIff(env, call, content, output);
    assert !Known(env, ToolMessage(call.id, content));
    UnknownNeverRecovers(env, rows);
  }
}
