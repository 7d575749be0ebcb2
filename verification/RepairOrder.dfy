/** The errors that repair puts in: for which calls, in which order, and what each of them says. */
module RepairOrder {
  import opened Text
  import opened Messages
  import opened Repair

  /** The first position of an id, or the length. */
  function First(order: seq<string>, id: string): (n: nat)
    ensures n <= |order|
    ensures n < |order| <==> id in order
    ensures n < |order| ==> order[n] == id
    ensures forall i | 0 <= i < n :: order[i] != id
  {
    if order == [] || order[0] == id then 0 else
      var n := First(order[1..], id);
      assert forall i | 0 < i < n + 1 :: order[i] == order[1..][i - 1];
      n + 1
  }

  /** The first call with an id, or the length. */
  function FirstCall(calls: seq<ToolCall>, id: string): (n: nat)
    ensures n <= |calls|
    ensures n < |calls| ==> Trim(calls[n].id) == id
    ensures forall i | 0 <= i < n :: Trim(calls[i].id) != id
  {
    if calls == [] then 0 else
      var last := |calls| - 1;
      var n := FirstCall(calls[..last], id);
      if n < last || Trim(calls[last].id) == id then n else |calls|
  }

  /** The last call with an id. */
  predicate IsLastCall(calls: seq<ToolCall>, id: string, n: nat) {
    && n < |calls| && Trim(calls[n].id) == id
    && forall i | n < i < |calls| :: Trim(calls[i].id) != id
  }

  // ----- the queue -----

  /** Each error is about its own pending call. */
  ghost predicate AboutPending(errors: seq<Message>, pending: Pending) {
    forall e | e in errors :: e.toolCallId in pending && e == Synthetic(e.toolCallId, pending[e.toolCallId])
  }

  /** The errors stand in the order of their ids in the queue. */
  predicate InOrder(errors: seq<Message>, order: seq<string>) {
    forall i, j | 0 <= i < j < |errors| ::
      First(order, errors[i].toolCallId) < First(order, errors[j].toolCallId)
  }

  /** The ids that a list of errors is about. */
  function Ids(errors: seq<Message>): set<string> {
    set e | e in errors :: e.toolCallId
  }

  lemma {:induction false} FirstLater(order: seq<string>, id: string)
    requires order != [] && order[0] != id
    ensures First(order, id) == First(order[1..], id) + 1
  {
  }

  /** Errors in the order of a queue are in the order of a longer one whose first id is not among them. */
  lemma {:induction false} OrderLater(errors: seq<Message>, order: seq<string>, id: string)
    requires InOrder(errors, order) && id !in Ids(errors)
    ensures InOrder(errors, [id] + order)
    ensures forall e | e in errors :: First([id] + order, e.toolCallId) > 0
  {
    hide First;
    forall e | e in errors
      ensures First([id] + order, e.toolCallId) == First(order, e.toolCallId) + 1
    {
      FirstBehind(order, id, e.toolCallId);
    }
    assert forall i | 0 <= i < |errors| :: errors[i] in errors;
  }

  lemma {:induction false} FirstBehind(order: seq<string>, x: string, id: string)
    requires x != id
    ensures First([x] + order, id) == First(order, id) + 1
  {
    assert ([x] + order)[1..] == order;
  }

  lemma {:induction false} FlushOrder(order: seq<string>, pending: Pending)
    requires Queued(pending, order)
    ensures var errors := Flush(order, pending);
            AboutPending(errors, pending) && InOrder(errors, order) && Ids(errors) == pending.Keys
  {
    hide Synthetic, IsSynthetic, Trim, AboutPending, InOrder, First;
    if order == [] {
      NoErrors(order, pending);
      assert pending.Keys == {};
    } else {
      var id, rest := order[0], order[1..];
      assert order == [id] + rest;
      if id in pending {
        var less := pending - {id};
        FlushOrder(rest, less);
        assert less.Keys == pending.Keys - {id};
        var errors, e := Flush(rest, less), Synthetic(id, pending[id]);
        IdsOneMore(e, errors);
        AboutOneMore(errors, pending, id);
        FirstError(errors, rest, e);
      } else {
        FlushOrder(rest, pending);
        OrderLater(Flush(rest, pending), rest, id);
      }
    }
  }

  lemma {:induction false} NoErrors(order: seq<string>, pending: Pending)
    ensures AboutPending([], pending) && InOrder([], order) && Ids([]) == {}
  {
  }

  lemma {:induction false} IdsOneMore(e: Message, errors: seq<Message>)
    ensures Ids([e] + errors) == {e.toolCallId} + Ids(errors)
  {
    assert forall m :: m in [e] + errors <==> m == e || m in errors;
  }

  lemma {:induction false} AboutOneMore(errors: seq<Message>, pending: Pending, id: string)
    requires id in pending && AboutPending(errors, pending - {id})
    ensures AboutPending([Synthetic(id, pending[id])] + errors, pending)
  {
    hide Synthetic, IsSynthetic;
    var all := [Synthetic(id, pending[id])] + errors;
    assert forall m | m in all :: m == all[0] || m in errors;
  }

  lemma {:induction false} FirstError(errors: seq<Message>, order: seq<string>, e: Message)
    requires InOrder(errors, order) && e.toolCallId !in Ids(errors)
    ensures InOrder([e] + errors, [e.toolCallId] + order)
  {
    OrderLater(errors, order, e.toolCallId);
    FirstIsFirst(order, e.toolCallId);
    hide First, Ids;
    OrderCons(errors, [e.toolCallId] + order, e);
  }

  lemma {:induction false} FirstIsFirst(order: seq<string>, x: string)
    ensures First([x] + order, x) == 0
  {
  }

  lemma {:induction false} OrderCons(errors: seq<Message>, queue: seq<string>, e: Message)
    requires InOrder(errors, queue) && forall m | m in errors :: First(queue, e.toolCallId) < First(queue, m.toolCallId)
    ensures InOrder([e] + errors, queue)
  {
    hide First;
    var all := [e] + errors;
    assert forall i | 0 < i < |all| :: all[i] == errors[i - 1] && errors[i - 1] in errors;
  }

  /** Taking an id out of the queue does not change the order of the others. */
  lemma {:induction false} RemoveKeepsOrder(order: seq<string>, x: string, a: string, b: string)
    requires a != x && b != x && a in order && b in order
    ensures First(RemoveFirst(order, x), a) < First(RemoveFirst(order, x), b) <==> First(order, a) < First(order, b)
  {
    if order[0] == x {
      FirstLater(order, a);
      FirstLater(order, b);
    } else {
      var less := RemoveFirst(order, x);
      assert less[1..] == RemoveFirst(order[1..], x);
      if a != order[0] {
        FirstLater(order, a);
        FirstLater(less, a);
      }
      if b != order[0] {
        FirstLater(order, b);
        FirstLater(less, b);
      }
      if a != order[0] && b != order[0] {
        RemoveKeepsOrder(order[1..], x, a, b);
      }
    }
  }

  lemma {:induction false} OrderBefore(errors: seq<Message>, order: seq<string>, x: string)
    requires InOrder(errors, RemoveFirst(order, x))
    requires forall e | e in errors :: e.toolCallId != x && e.toolCallId in order
    ensures InOrder(errors, order)
  {
    hide First, RemoveFirst;
    forall i, j | 0 <= i < j < |errors|
      ensures First(order, errors[i].toolCallId) < First(order, errors[j].toolCallId)
    {
      assert errors[i] in errors && errors[j] in errors;
      RemoveKeepsOrder(order, x, errors[i].toolCallId, errors[j].toolCallId);
    }
  }

  lemma {:induction false} FewerPending(errors: seq<Message>, pending: Pending, order: seq<string>, x: string)
    requires AboutPending(errors, pending - {x}) && Queued(pending, order)
    ensures AboutPending(errors, pending)
    ensures forall e | e in errors :: e.toolCallId != x && e.toolCallId in order
  {
    hide Synthetic, IsSynthetic, Trim;
  }

  // ----- one batch -----

  predicate NoBoundary(ms: seq<Message>) {
    forall m | m in ms :: !Boundary(m)
  }

  /** The messages that are kept while ids are open: any but a tool result, and first answers. */
  function KeptIn(ms: seq<Message>, open: set<string>): seq<Message> {
    if ms == [] then []
    else if !ms[0].role.Tool? then [ms[0]] + KeptIn(ms[1..], open)
    else if ResultId(ms[0]) in open then [ms[0]] + KeptIn(ms[1..], open - {ResultId(ms[0])})
    else KeptIn(ms[1..], open)
  }

  function AnsweredIn(ms: seq<Message>): set<string> {
    set m | m in ms && m.role.Tool? :: ResultId(m)
  }

  lemma {:induction false} AnsweredFirst(ms: seq<Message>)
    requires ms != []
    ensures AnsweredIn(ms) == AnsweredIn(ms[1..]) + if ms[0].role.Tool? then {ResultId(ms[0])} else {}
  {
    hide Trim;
    assert forall m :: m in ms <==> m == ms[0] || m in ms[1..];
  }

  lemma {:induction false} RepairsBatch(ms: seq<Message>, pending: Pending, order: seq<string>)
    returns (errors: seq<Message>)
    requires NoBoundary(ms) && Queued(pending, order)
    ensures RepairFrom(ms, pending, order) == KeptIn(ms, pending.Keys) + errors
    ensures AboutPending(errors, pending) && InOrder(errors, order) && Ids(errors) == pending.Keys - AnsweredIn(ms)
  {
    hide RepairFrom, KeptIn, Trim, AboutPending, InOrder, Ids, AnsweredIn, First, Queued, RemoveFirst, Boundary;
    if ms == [] {
      FlushOrder(order, pending);
      NoneLeft(pending, order);
      errors := Flush(order, pending);
    } else {
      var m, rest := ms[0], ms[1..];
      var id := ResultId(m);
      assert NoBoundary(rest);
      AnsweredFirst(ms);
      OneRepaired(ms, pending, order);
      if m.role.Tool? && id in pending {
        var less := pending - {id};
        assert less.Keys == pending.Keys - {id};
        FewerQueued(pending, order, id);
        errors := RepairsBatch(rest, less, RemoveFirst(order, id));
        FewerPending(errors, pending, order, id);
        OrderBefore(errors, order, id);
        assert [m] + (KeptIn(rest, less.Keys) + errors) == [m] + KeptIn(rest, less.Keys) + errors;
      } else {
        errors := RepairsBatch(rest, pending, order);
        assert [m] + (KeptIn(rest, pending.Keys) + errors) == [m] + KeptIn(rest, pending.Keys) + errors;
      }
    }
  }

  lemma {:induction false} NoneLeft(pending: Pending, order: seq<string>)
    ensures RepairFrom([], pending, order) == Flush(order, pending) && KeptIn([], pending.Keys) == []
    ensures AnsweredIn([]) == {}
  {
  }

  lemma {:induction false} OneRepaired(ms: seq<Message>, pending: Pending, order: seq<string>)
    requires ms != [] && !Boundary(ms[0]) && Queued(pending, order)
    ensures var m, rest := ms[0], ms[1..]; var id := ResultId(m);
            if m.role.Tool? && id in pending then
              && RepairFrom(ms, pending, order) == [m] + RepairFrom(rest, pending - {id}, RemoveFirst(order, id))
              && KeptIn(ms, pending.Keys) == [m] + KeptIn(rest, pending.Keys - {id})
            else if m.role.Tool? then
              && RepairFrom(ms, pending, order) == RepairFrom(rest, pending, order)
              && KeptIn(ms, pending.Keys) == KeptIn(rest, pending.Keys)
            else
              && RepairFrom(ms, pending, order) == [m] + RepairFrom(rest, pending, order)
              && KeptIn(ms, pending.Keys) == [m] + KeptIn(rest, pending.Keys)
  {
    hide Trim, RemoveFirst, Flush;
  }

  lemma {:induction false} FewerQueued(pending: Pending, order: seq<string>, id: string)
    requires Queued(pending, order)
    ensures Queued(pending - {id}, RemoveFirst(order, id))
  {
    hide Trim;
  }

  // ----- the queue of a batch -----

  lemma {:induction false} FirstSnoc(order: seq<string>, x: string, id: string)
    ensures First(order + [x], id) == if id in order then First(order, id) else if x == id then |order| else |order| + 1
  {
    if order == [] {
      assert order + [x] == [x] && [x][1..] == [];
    } else if order[0] != id {
      assert (order + [x])[1..] == order[1..] + [x];
      FirstSnoc(order[1..], x, id);
    }
  }

  /** Ids are queued in the order of their first calls. */
  lemma {:induction false} QueueOrder(calls: seq<ToolCall>, a: string, b: string)
    requires a in CallIds(calls) && b in CallIds(calls)
    ensures First(OrderOf(calls), a) < First(OrderOf(calls), b) <==> FirstCall(calls, a) < FirstCall(calls, b)
  {
    NotEmpty(calls, a);
    NotEmpty(calls, b);
    var last := |calls| - 1;
    var front, x := calls[..last], Trim(calls[last].id);
    assert calls == front + [calls[last]];
    BatchSnoc(front, calls[last]);
    hide Trim, OrderOf, CallIds, First;
    CallAt(front, a);
    CallAt(front, b);
    if x != "" {
      FirstSnoc(OrderOf(front), x, a);
      FirstSnoc(OrderOf(front), x, b);
    }
    if a in CallIds(front) && b in CallIds(front) {
      QueueOrder(front, a, b);
    }
  }

  lemma {:induction false} CallAt(calls: seq<ToolCall>, id: string)
    requires id != ""
    ensures id in CallIds(calls) <==> FirstCall(calls, id) < |calls|
  {
    hide Trim;
    var n := FirstCall(calls, id);
    if n < |calls| {
      assert calls[n] in calls;
    }
    if id in CallIds(calls) {
      var c :| c in calls && Trim(c.id) == id;
      var i :| 0 <= i < |calls| && calls[i] == c;
    }
  }

  lemma {:induction false} NotEmpty(calls: seq<ToolCall>, id: string)
    requires id in CallIds(calls)
    ensures calls != [] && id != ""
  {
  }

  lemma {:induction false} BatchSnoc(front: seq<ToolCall>, x: ToolCall)
    ensures var id := Trim(x.id); var calls := front + [x];
            && CallIds(calls) == CallIds(front) + (if id == "" then {} else {id})
            && PendingOf(calls) == (if id == "" then PendingOf(front) else PendingOf(front)[id := x])
            && OrderOf(calls) == OrderOf(front) + if id == "" then [] else [id]
  {
    hide Trim;
    assert (front + [x])[..|front|] == front;
    assert forall c :: c in front + [x] <==> c in front || c == x;
  }

  /** What is pending under an id is the last call with that id. */
  lemma {:induction false} PendingIsLast(calls: seq<ToolCall>, id: string) returns (n: nat)
    requires id in CallIds(calls)
    ensures IsLastCall(calls, id, n) && PendingOf(calls)[id] == calls[n]
  {
    hide Trim, PendingOf, OrderOf, CallIds;
    var last := |calls| - 1;
    NotEmpty(calls, id);
    var front, x := calls[..last], calls[last];
    assert calls == front + [x];
    BatchSnoc(front, x);
    if Trim(x.id) == id {
      n := last;
    } else {
      n := PendingIsLast(front, id);
    }
  }

  // ----- what repair adds -----

  /** An error for the last call with its id. */
  ghost predicate IsErrorOf(e: Message, calls: seq<ToolCall>) {
    exists n: nat :: IsLastCall(calls, e.toolCallId, n) && e == ToolMessage(e.toolCallId, OrphanContent(calls[n]))
  }

  /**
   * A batch and what follows it up to the next boundary: the messages that are kept come first, and then one error for
   * each id that nothing answered, in the order of the calls, each about the last call with its id.
   */
  lemma {:induction false} ErrorsInCallOrder(m: Message, rest: seq<Message>) returns (errors: seq<Message>)
    requires Boundary(m) && NoBoundary(rest)
    ensures Repaired([m] + rest) == [m] + KeptIn(rest, Offered(m)) + errors
    ensures Ids(errors) == Offered(m) - AnsweredIn(rest)
    ensures forall e | e in errors :: IsErrorOf(e, Batch(m))
    ensures forall i, j | 0 <= i < j < |errors| ::
              FirstCall(Batch(m), errors[i].toolCallId) < FirstCall(Batch(m), errors[j].toolCallId)
  {
    hide Trim, OrphanContent, RepairFrom, FirstCall, First, PendingOf, OrderOf, KeptIn, AnsweredIn;
    var calls := Batch(m);
    var pending, order := PendingOf(calls), OrderOf(calls);
    BatchQueued(calls);
    errors := RepairsBatch(rest, pending, order);
    BatchFirst(m, rest);
    forall e | e in errors ensures IsErrorOf(e, calls) {
      var n := PendingIsLast(calls, e.toolCallId);
    }
    forall i, j | 0 <= i < j < |errors|
      ensures FirstCall(calls, errors[i].toolCallId) < FirstCall(calls, errors[j].toolCallId)
    {
      assert errors[i] in errors && errors[j] in errors;
      QueueOrder(calls, errors[i].toolCallId, errors[j].toolCallId);
    }
  }

  lemma {:induction false} BatchFirst(m: Message, rest: seq<Message>)
    requires Boundary(m)
    ensures Repaired([m] + rest) == [m] + RepairFrom(rest, PendingOf(Batch(m)), OrderOf(Batch(m)))
  {
    hide PendingOf, OrderOf;
    FlushNothing([]);
    assert ([m] + rest)[1..] == rest;
  }

  /** Every call has an id of its own. */
  predicate OwnIds(calls: seq<ToolCall>) {
    && (forall c | c in calls :: Trim(c.id) != "")
    && (forall i, j | 0 <= i < j < |calls| :: Trim(calls[i].id) != Trim(calls[j].id))
  }

  lemma {:induction false} OwnIdsFront(calls: seq<ToolCall>)
    requires OwnIds(calls) && calls != []
    ensures OwnIds(calls[..|calls| - 1]) && Trim(calls[|calls| - 1].id) != ""
    ensures forall k | 0 <= k < |calls| - 1 :: Trim(calls[k].id) != Trim(calls[|calls| - 1].id)
  {
    hide Trim;
  }

  /** Queue and map of such a batch, call by call. */
  predicate QueuedEach(calls: seq<ToolCall>, order: seq<string>, pending: Pending) {
    && |order| == |calls|
    && forall k | 0 <= k < |calls| ::
         order[k] == Trim(calls[k].id) && order[k] in pending && pending[order[k]] == calls[k]
  }

  lemma {:induction false} QueuedOneMore(front: seq<ToolCall>, order: seq<string>, pending: Pending, x: ToolCall)
    requires QueuedEach(front, order, pending) && forall k | 0 <= k < |front| :: Trim(front[k].id) != Trim(x.id)
    ensures QueuedEach(front + [x], order + [Trim(x.id)], pending[Trim(x.id) := x])
  {
    hide Trim;
  }

  /** A batch that nothing answers, with an id for each call: error k is about call k. */
  lemma {:induction false} LoneBatch(m: Message)
    requires m.role.Assistant? && OwnIds(m.toolCalls)
    ensures var out := Repaired([m]);
            && |out| == |m.toolCalls| + 1 && out[0] == m
            && forall k | 0 <= k < |m.toolCalls| ::
                 out[k + 1] == ToolMessage(Trim(m.toolCalls[k].id), OrphanContent(m.toolCalls[k]))
  {
    hide Trim, OrphanContent, RepairFrom, PendingOf, OrderOf;
    BatchFirst(m, []);
    assert [m] + [] == [m];
    LoneFlush(m.toolCalls);
    assert RepairFrom([], PendingOf(m.toolCalls), OrderOf(m.toolCalls)) ==
           Flush(OrderOf(m.toolCalls), PendingOf(m.toolCalls)) by {
      EmptyFlushes(PendingOf(m.toolCalls), OrderOf(m.toolCalls));
    }
  }

  lemma {:induction false} EmptyFlushes(pending: Pending, order: seq<string>)
    ensures RepairFrom([], pending, order) == Flush(order, pending)
  {
  }

  lemma {:induction false} LoneFlush(calls: seq<ToolCall>)
    requires OwnIds(calls)
    ensures var out := Flush(OrderOf(calls), PendingOf(calls));
            && |out| == |calls|
            && forall k | 0 <= k < |calls| ::
                 out[k] == ToolMessage(Trim(calls[k].id), OrphanContent(calls[k]))
  {
    hide Trim, OrphanContent, Flush, PendingOf, OrderOf;
    OwnQueue(calls);
    FlushAll(OrderOf(calls), PendingOf(calls));
  }

  lemma {:induction false} OwnQueue(calls: seq<ToolCall>)
    requires OwnIds(calls)
    ensures QueuedEach(calls, OrderOf(calls), PendingOf(calls))
  {
    NoCalls();
    hide Trim, OrderOf, PendingOf, CallIds, OwnIds, QueuedEach;
    if calls == [] {
      NoneQueued(PendingOf(calls));
    } else {
      var last := |calls| - 1;
      OwnIdsFront(calls);
      OwnQueue(calls[..last]);
      assert calls == calls[..last] + [calls[last]];
      BatchSnoc(calls[..last], calls[last]);
      QueuedOneMore(calls[..last], OrderOf(calls[..last]), PendingOf(calls[..last]), calls[last]);
    }
  }

  lemma {:induction false} NoneQueued(pending: Pending)
    ensures QueuedEach([], [], pending)
  {
  }

  lemma {:induction false} NoCalls()
    ensures OrderOf([]) == []
  {
  }

  lemma {:induction false} FlushAll(order: seq<string>, pending: Pending)
    requires forall id | id in order :: id in pending
    requires forall i, j | 0 <= i < j < |order| :: order[i] != order[j]
    ensures |Flush(order, pending)| == |order|
    ensures forall k | 0 <= k < |order| ::
              order[k] in pending && Flush(order, pending)[k] == ToolMessage(order[k], OrphanContent(pending[order[k]]))
  {
    hide OrphanContent;
    if order != [] {
      FlushAll(order[1..], pending - {order[0]});
    }
  }

  // ----- what an error says -----

  /** Undoes the escapes of a quoted text. */
  function Unescape(s: string): string {
    if s == "" then ""
    else if s[0] == '\\' && |s| >= 2 then
      [match s[1] case 'n' => '\n' case 'r' => '\r' case 't' => '\t' case c => c] + Unescape(s[2..])
    else [s[0]] + Unescape(s[1..])
  }

  lemma {:induction false} QuoteReads(s: string)
    ensures Unescape(QuoteBody(s)) == s
  {
    if s != "" {
      QuoteReads(s[1..]);
      var body := QuoteBody(s);
      if s[0] in {'"', '\\', '\n', '\r', '\t'} {
        assert body[2..] == QuoteBody(s[1..]);
      } else {
        assert body[1..] == QuoteBody(s[1..]);
      }
    }
  }

  /** The error that stands for a missing result names the tool that was called, whatever characters its name has. */
  lemma {:induction false} ErrorNamesTool(id: string, call: ToolCall) returns (name: string, rest: string)
    ensures Synthetic(id, call).content == "{\"error\":\"orphan_tool_call\",\"tool\":" + ("\"" + name + "\"") + rest
    ensures Unescape(name) == if Trim(call.name) == "" then "unknown" else Trim(call.name)
  {
    hide Trim, QuoteBody;
    var tool := if Trim(call.name) == "" then "unknown" else Trim(call.name);
    name := QuoteBody(tool);
    rest := ",\"hint\":\"No tool result was recorded; synthetic error injected for provider protocol integrity.\"}";
    QuoteReads(tool);
    assert Quote(tool) == "\"" + name + "\"";
    hide Quote;
  }
}
