/** Provider-neutral messages (pkg/providerapi). */
module Messages {
  import opened Text

  /** The four known roles; `Other` is any other role text, which some loops pass through untouched. */
  datatype Role = System | User | Assistant | Tool | Other(name: string)

  datatype ToolCall = ToolCall(id: string, name: string, arguments: string)

  datatype Message = Message(
    role: Role,
    content: string,
    thinking: string,
    toolCallId: string,
    toolCalls: seq<ToolCall>)

  /** The ids under which results are expected: trimmed, and not blank. */
  function CallIds(calls: seq<ToolCall>): (ids: set<string>)
    ensures calls == [] ==> ids == {}
  {
    set c | c in calls && Trim(c.id) != "" :: Trim(c.id)
  }

  function SystemMessage(content: string): Message {
    Message(System, content, "", "", [])
  }

  function UserMessage(content: string): Message {
    Message(User, content, "", "", [])
  }

  function ToolMessage(id: string, content: string): Message {
    Message(Tool, content, "", id, [])
  }

  predicate KnownRoles(ms: seq<Message>) {
    forall m | m in ms :: !m.role.Other?
  }

  /** Two lists that differ in bodies at most: same roles, call ids and tool calls, position by position. */
  predicate SameShape(a: seq<Message>, b: seq<Message>) {
    |a| == |b| && forall i | 0 <= i < |a| ::
      a[i].role == b[i].role && a[i].toolCallId == b[i].toolCallId && a[i].toolCalls == b[i].toolCalls
  }

  /** Length of the leading run of system messages. */
  function LeadingSystem(ms: seq<Message>): (n: nat)
    ensures n <= |ms|
    ensures forall i | 0 <= i < n :: ms[i].role.System?
    ensures n < |ms| ==> !ms[n].role.System?
  {
    if ms == [] || !ms[0].role.System? then 0 else
      var n := LeadingSystem(ms[1..]);
      assert forall i | 0 < i < n + 1 :: ms[i] == ms[1..][i - 1];
      n + 1
  }

  lemma {:induction false} LeadingSystemUnique(ms: seq<Message>, n: nat)
    requires n <= |ms|
    requires forall i | 0 <= i < n :: ms[i].role.System?
    requires n < |ms| ==> !ms[n].role.System?
    ensures LeadingSystem(ms) == n
  {
  }
}
