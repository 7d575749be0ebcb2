/** Tool calls and their results in a run (internal/agent/runner_util.go, and the stored calls of store.go). */
module ToolCalls {
  import opened Text
  import opened Messages
  import opened Records

  /** The artifact stands for its encoded reference. */
  datatype Response = Response(callId: string, tool: string, output: string, artifact: Option<string>)

  datatype Payload = Undecodable | Decoded(response: Response)

  datatype StoredCall = StoredCall(state: string, payload: Option<Payload>)

  datatype Kind = Executable | UnadvertisedTool | InvalidToolCall

  function Inspect(json: Json, call: ToolCall, advertised: set<string>, seen: set<string>, batch: set<string>): Kind {
    var id, name := Trim(call.id), Trim(call.name);
    if id == "" || name == "" || !json.valid(call.arguments) then InvalidToolCall
    else if name !in advertised then UnadvertisedTool
    else if id in seen || id in batch then InvalidToolCall
    else Executable
  }

  /** Kinds of the first n calls, each judged against the ids seen before it. */
  function Kinds(json: Json, calls: seq<ToolCall>, advertised: set<string>, seen: set<string>): (kinds: seq<Kind>)
    ensures |kinds| == |calls|
  {
    if calls == [] then [] else
      var last := |calls| - 1;
      Kinds(json, calls[..last], advertised, seen) +
      [Inspect(json, calls[last], advertised, seen + CallIds(calls[..last]), CallIds(calls[..last]))]
  }

  lemma {:induction false} KindAt(json: Json, calls: seq<ToolCall>, advertised: set<string>, seen: set<string>, i: nat)
    requires i < |calls|
    ensures Kinds(json, calls, advertised, seen)[i] ==
            Inspect(json, calls[i], advertised, seen + CallIds(calls[..i]), CallIds(calls[..i]))
  {
    hide Inspect, CallIds;
    var last := |calls| - 1;
    if i < last {
      KindAt(json, calls[..last], advertised, seen, i);
      assert calls[..last][..i] == calls[..i];
    }
  }

  lemma {:induction false} InspectHasId(
    json: Json, call: ToolCall, advertised: set<string>, seen: set<string>, batch: set<string>)
    requires Inspect(json, call, advertised, seen, batch) == Executable
    ensures Trim(call.id) != ""
  {
  }

  lemma {:induction false} IdsOneMore(calls: seq<ToolCall>, call: ToolCall)
    ensures CallIds(calls + [call]) == CallIds(calls) + if Trim(call.id) == "" then {} else {Trim(call.id)}
  {
    assert forall c :: c in calls + [call] <==> c in calls || c == call;
  }

  predicate AllExecutable(kinds: seq<Kind>) {
    forall k | k in kinds :: k == Executable
  }

  lemma {:induction false} AllExecutableNone()
    ensures AllExecutable([])
  {
  }

  lemma {:induction false} OneMoreKind(kinds: seq<Kind>, kind: Kind)
    ensures AllExecutable(kinds + [kind]) <==> AllExecutable(kinds) && kind == Executable
  {
    var more := kinds + [kind];
    assert more[|kinds|] == kind && kind in more;
    assert forall j | 0 <= j < |kinds| :: more[j] == kinds[j] && kinds[j] in more;
  }

  lemma {:induction false} NoIds()
    ensures CallIds([]) == {}
  {
  }

  /**
   * A call is executable exactly if it is well-formed, advertised, and its id was seen neither in the run nor earlier
   * in the batch.
   */
  lemma {:induction false} ExecutableIff(
    json: Json, calls: seq<ToolCall>, advertised: set<string>, seen: set<string>, i: nat)
    requires i < |calls|
    ensures Kinds(json, calls, advertised, seen)[i] == Executable <==>
            && Trim(calls[i].id) != "" && Trim(calls[i].name) in advertised && Trim(calls[i].name) != ""
            && json.valid(calls[i].arguments) && Trim(calls[i].id) !in seen
            && forall j | 0 <= j < i :: Trim(calls[j].id) != Trim(calls[i].id)
  {
    KindAt(json, calls, advertised, seen, i);
    hide Kinds, Trim;
    assert forall j | 0 <= j < i :: calls[..i][j] == calls[j] && calls[j] in calls[..i];
    assert forall c | c in calls[..i] :: exists j :: 0 <= j < i && calls[j] == c;
  }

  /** So no id is executed twice: not within a batch, and not again once it was seen. */
  lemma {:induction false} ExecutedOnce(
    json: Json, calls: seq<ToolCall>, advertised: set<string>, seen: set<string>, i: nat, j: nat)
    requires i < j < |calls|
    requires Kinds(json, calls, advertised, seen)[i] == Executable
        && Kinds(json, calls, advertised, seen)[j] == Executable
    ensures Trim(calls[i].id) != Trim(calls[j].id)
    ensures Trim(calls[i].id) !in seen && Trim(calls[i].id) in seen + CallIds(calls)
  {
    ExecutableIff(json, calls, advertised, seen, i);
    ExecutableIff(json, calls, advertised, seen, j);
    hide Kinds, Trim;
    assert calls[i] in calls;
  }

  method ClassifyToolCalls(json: Json, calls: seq<ToolCall>, advertised: set<string>, seen: set<string>)
    returns (kinds: seq<Kind>, seen': set<string>, failed: bool)
    ensures kinds == Kinds(json, calls, advertised, seen)
    ensures seen' == seen + CallIds(calls)
    ensures failed <==> !AllExecutable(kinds)
  {
    hide Inspect, CallIds, AllExecutable;
    AllExecutableNone();
    var batch: set<string> := {};
    assert batch == CallIds([]) by { NoIds(); }
    kinds, seen', failed := [], seen, false;
    for i := 0 to |calls|
      invariant batch == CallIds(calls[..i]) && seen' == seen + batch
      invariant kinds == Kinds(json, calls[..i], advertised, seen)
      invariant failed <==> !AllExecutable(kinds)
    {
      assert calls[..i + 1][..i] == calls[..i] && calls[..i + 1] == calls[..i] + [calls[i]];
      IdsOneMore(calls[..i], calls[i]);
      var kind := Inspect(json, calls[i], advertised, seen', batch);
      OneMoreKind(kinds, kind);
      kinds := kinds + [kind];
      if kind != Executable {
        failed := true;
      }
      var id := Trim(calls[i].id);
      if id != "" {
        batch := batch + {id};
        seen' := seen' + {id};
      }
    }
    assert calls[..|calls|] == calls;
  }

  predicate HasToolCallIds(calls: seq<ToolCall>) {
    |calls| > 0 && forall call | call in calls :: Trim(call.id) != ""
  }

  function ResultContent(r: Response): string {
    if |r.output| > 0 then r.output
    else if r.artifact.Some? then r.artifact.value
    else "{}"
  }

  predicate ResultMatches(r: Response, content: string) {
    if |r.output| > 0 then r.output == content else ResultContent(r) == content
  }

  const OBSERVATIONS := {"tool_denied", "tool_failed", "unadvertised_tool", "invalid_tool_call", "unknown_tool"}

  predicate IsObservation(json: Json, content: string) {
    json.errorKind(content) in OBSERVATIONS
  }

  /** The stored response of a call that succeeded. */
  function Load(stored: map<string, StoredCall>, id: string): Result<Response> {
    if id !in stored then Err(RecoveryBlocked)
    else if stored[id].state != "succeeded" || stored[id].payload.None? then Err(RecoveryBlocked)
    else
      match stored[id].payload.value
      case Undecodable => Err(CorruptHistory)
      case Decoded(r) => if r.callId != id || Trim(r.tool) == "" then Err(CorruptHistory) else Ok(r)
  }

  function AddUsage(total: Usage, next: Usage): Usage {
    var sum := total.(input := total.input + next.input, output := total.output + next.output,
                      total := total.total + next.total, cacheRead := total.cacheRead + next.cacheRead,
                      cacheWrite := total.cacheWrite + next.cacheWrite);
    if total.currency == "" || total.currency == next.currency then
      sum.(currency := if total.currency == "" then next.currency else total.currency,
          micros := total.micros + next.micros)
    else sum
  }

  function BudgetExceeded(usage: Usage, maxTokens: int, maxMicros: int): Option<Error> {
    if maxTokens > 0 && usage.total > maxTokens then Some(TokenBudgetExceeded)
    else if maxMicros > 0 && usage.micros > maxMicros then Some(CostBudgetExceeded)
    else None
  }

  function BudgetExhausted(usage: Usage, maxTokens: int, maxMicros: int): Option<Error> {
    if maxTokens > 0 && usage.total >= maxTokens then Some(TokenBudgetExceeded)
    else if maxMicros > 0 && usage.micros >= maxMicros then Some(CostBudgetExceeded)
    else None
  }
}
