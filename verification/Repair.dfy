/** RepairToolMessages (internal/contextpack/repair.go) and what it makes of any message list. */
module Repair {
  import opened Text
  import opened Messages

  /** Messages that close an open tool batch. */
  predicate Boundary(m: Message) {
    m.role.System? || m.role.User? || m.role.Assistant?
  }

  function ResultId(m: Message): string {
    Trim(m.toolCallId)
  }

  /** The tool calls a message opens: an assistant's batch. */
  function Batch(m: Message): seq<ToolCall> {
    if m.role.Assistant? then m.toolCalls else []
  }

  function Offered(m: Message): set<string> {
    CallIds(Batch(m))
  }

  /** The Go verb %q, for the escapes that have a letter of their own. */
  function Quote(s: string): string {
    "\"" + QuoteBody(s) + "\""
  }

  function QuoteBody(s: string): string {
    if s == "" then "" else
      (match s[0]
       case '"' => "\\\""
       case '\\' => "\\\\"
       case '\n' => "\\n"
       case '\r' => "\\r"
       case '\t' => "\\t"
       case c => [c]) + QuoteBody(s[1..])
  }

  function OrphanContent(call: ToolCall): string {
    var name := if Trim(call.name) == "" then "unknown" else Trim(call.name);
    "{\"error\":\"orphan_tool_call\",\"tool\":" + Quote(name) +
    ",\"hint\":\"No tool result was recorded; synthetic error injected for provider protocol integrity.\"}"
  }

  function Synthetic(id: string, call: ToolCall): (m: Message)
    ensures m.role.Tool? && m.toolCallId == id && IsSynthetic(m)
  {
    hide OrphanContent;
    ToolMessage(id, OrphanContent(call))
  }

  ghost predicate IsSynthetic(m: Message) {
    m.role.Tool? && exists call: ToolCall :: m.content == OrphanContent(call)
  }

  // ----- the loop state, as functions -----

  type Pending = map<string, ToolCall>

  function PendingOf(calls: seq<ToolCall>): (p: Pending)
    ensures p.Keys == CallIds(calls)
  {
    if calls == [] then map[] else
      var last := calls[|calls| - 1];
      var before := PendingOf(calls[..|calls| - 1]);
      assert forall c :: c in calls <==> c in calls[..|calls| - 1] || c == last;
      if Trim(last.id) == "" then before else before[Trim(last.id) := last]
  }

  function OrderOf(calls: seq<ToolCall>): (order: seq<string>)
    ensures forall id :: id in order <==> id in CallIds(calls)
  {
    if calls == [] then [] else
      var last := calls[|calls| - 1];
      var before := OrderOf(calls[..|calls| - 1]);
      assert forall c :: c in calls <==> c in calls[..|calls| - 1] || c == last;
      if Trim(last.id) == "" then before else before + [Trim(last.id)]
  }

  function RemoveFirst(order: seq<string>, id: string): (r: seq<string>)
    ensures forall x | x != id :: x in r <==> x in order
  {
    if order == [] then [] else if order[0] == id then order[1..] else [order[0]] + RemoveFirst(order[1..], id)
  }

  /** Synthetic results for the calls still pending, in call order. */
  function Flush(order: seq<string>, pending: Pending): seq<Message> {
    if order == [] then []
    else if order[0] in pending then [Synthetic(order[0], pending[order[0]])] + Flush(order[1..], pending - {order[0]})
    else Flush(order[1..], pending)
  }

  function RepairFrom(ms: seq<Message>, pending: Pending, order: seq<string>): seq<Message> {
    if ms == [] then Flush(order, pending) else
      var m, rest := ms[0], ms[1..];
      if Boundary(m) then Flush(order, pending) + ([m] + RepairFrom(rest, PendingOf(Batch(m)), OrderOf(Batch(m))))
      else if !m.role.Tool? then [m] + RepairFrom(rest, pending, order)
      else if ResultId(m) == "" || ResultId(m) !in pending then RepairFrom(rest, pending, order)
      else [m] + RepairFrom(rest, pending - {ResultId(m)}, RemoveFirst(order, ResultId(m)))
  }

  function Repaired(ms: seq<Message>): seq<Message> {
    RepairFrom(ms, map[], [])
  }

  /** Every pending id is a trimmed, non-blank text that is still queued. */
  predicate Queued(pending: Pending, order: seq<string>) {
    forall id | id in pending :: id in order && id != "" && Trim(id) == id
  }

  lemma {:induction false} BatchQueued(calls: seq<ToolCall>)
    ensures Queued(PendingOf(calls), OrderOf(calls))
  {
    forall id | id in PendingOf(calls) ensures id in OrderOf(calls) && id != "" && Trim(id) == id {
      var c :| c in calls && Trim(c.id) == id && id != "";
      TrimIdempotent(c.id);
    }
  }

  // ----- the source's loop -----

  /** The closure flushMissing: appends to `out`, deletes what it flushed. */
  method FlushMissing(out: seq<Message>, pending: Pending, order: seq<string>)
    returns (out': seq<Message>, pending': Pending)
    ensures out' == out + Flush(order, pending)
    ensures Queued(pending, order) ==> pending' == map[]
  {
    hide Synthetic, IsSynthetic;
    out', pending' := out, pending;
    var i := 0;
    while i < |order|
      invariant 0 <= i <= |order|
      invariant out' + Flush(order[i..], pending') == out + Flush(order, pending)
      invariant pending'.Keys <= pending.Keys
      invariant forall id | id in pending' :: id !in order[..i]
    {
      var id := order[i];
      assert order[i..][1..] == order[i + 1..];
      if id in pending' {
        out' := out' + [Synthetic(id, pending'[id])];
        pending' := pending' - {id};
      }
      i := i + 1;
    }
    if Queued(pending, order) {
      assert pending'.Keys == {};
    }
  }

  method OpenBatch(calls: seq<ToolCall>) returns (pending: Pending, order: seq<string>)
    ensures pending == PendingOf(calls) && order == OrderOf(calls)
  {
    pending, order := map[], [];
    for i := 0 to |calls|
      invariant pending == PendingOf(calls[..i]) && order == OrderOf(calls[..i])
    {
      assert calls[..i + 1][..i] == calls[..i];
      var id := Trim(calls[i].id);
      if id != "" {
        pending := pending[id := calls[i]];
        order := order + [id];
      }
    }
    assert calls[..|calls|] == calls;
  }

  /** Drops the first entry equal to id, as the inner loop over `order` does. */
  method Compact(order: seq<string>, id: string) returns (order': seq<string>)
    ensures order' == RemoveFirst(order, id)
  {
    for i := 0 to |order|
      invariant order[..i] + RemoveFirst(order[i..], id) == RemoveFirst(order, id)
    {
      if order[i] == id {
        return order[..i] + order[i + 1..];
      }
      assert order[i..][1..] == order[i + 1..];
    }
    return order;
  }

  lemma {:induction false} FlushStep(out: seq<Message>, flushed: seq<Message>, m: Message, tail: seq<Message>)
    ensures (out + flushed + [m]) + tail == out + (flushed + ([m] + tail))
  {
  }

  method RepairToolMessages(messages: seq<Message>) returns (out: seq<Message>)
    ensures out == Repaired(messages)
  {
    hide Flush, OrphanContent;
    if |messages| == 0 {
      FlushNothing([]);
      return messages;
    }
    out := [];
    var pending: Pending := map[];
    var order: seq<string> := [];
    var i := 0;
    while i < |messages|
      invariant 0 <= i <= |messages|
      invariant Queued(pending, order)
      invariant out + RepairFrom(messages[i..], pending, order) == Repaired(messages)
    {
      var msg := messages[i];
      ghost var rest := messages[i + 1..];
      assert messages[i..][1..] == rest;
      ghost var before, p0, o0 := out, pending, order;
      match msg.role {
        case Assistant =>
          out, pending := FlushMissing(out, pending, order);
          out := out + [msg];
          pending, order := OpenBatch(msg.toolCalls);
          BatchQueued(msg.toolCalls);
          FlushStep(before, Flush(o0, p0), msg, RepairFrom(rest, pending, order));
        case Tool =>
          var id := Trim(msg.toolCallId);
          if id != "" && id in pending {
            pending := pending - {id};
            order := Compact(order, id);
            out := out + [msg];
            ConcatAssoc(before, [msg], RepairFrom(rest, pending, order));
          }
        case Other(_) =>
          out := out + [msg];
          ConcatAssoc(before, [msg], RepairFrom(rest, pending, order));
        case _ =>
          out, pending := FlushMissing(out, pending, order);
          order := [];
          out := out + [msg];
          FlushStep(before, Flush(o0, p0), msg, RepairFrom(rest, pending, order));
      }
      i := i + 1;
    }
    out, pending := FlushMissing(out, pending, order);
  }

  // ----- what a repaired list is -----

  /**
   * Pairing, read left to right: `open` holds the ids still to be answered. A boundary needs them all
   * answered, and a result must answer one of them.
   */
  predicate Paired(ms: seq<Message>, open: set<string>) {
    if ms == [] then open == {} else
      var m, rest := ms[0], ms[1..];
      if Boundary(m) then open == {} && Paired(rest, Offered(m))
      else if m.role.Tool? then ResultId(m) in open && Paired(rest, open - {ResultId(m)})
      else Paired(rest, open)
  }

  lemma {:induction false} FlushPairs(order: seq<string>, pending: Pending, rest: seq<Message>)
    requires Queued(pending, order)
    requires Paired(rest, {})
    ensures Paired(Flush(order, pending) + rest, pending.Keys)
  {
    hide Synthetic, IsSynthetic, Trim;
    var out := Flush(order, pending) + rest;
    if order == [] {
      assert pending.Keys == {};
      assert out == rest;
    } else if order[0] in pending {
      var id := order[0];
      var less := pending - {id};
      assert less.Keys == pending.Keys - {id};
      FlushPairs(order[1..], less, rest);
      assert out[0] == Synthetic(id, pending[id]) && out[1..] == Flush(order[1..], less) + rest;
    } else {
      FlushPairs(order[1..], pending, rest);
    }
  }

  lemma {:induction false} RepairFromPairs(ms: seq<Message>, pending: Pending, order: seq<string>)
    requires Queued(pending, order)
    ensures Paired(RepairFrom(ms, pending, order), pending.Keys)
  {
    hide Flush, Trim;
    if ms == [] {
      FlushPairs(order, pending, []);
      assert Flush(order, pending) + [] == Flush(order, pending);
    } else {
      var m, rest := ms[0], ms[1..];
      if Boundary(m) {
        BatchQueued(Batch(m));
        RepairFromPairs(rest, PendingOf(Batch(m)), OrderOf(Batch(m)));
        var after := RepairFrom(rest, PendingOf(Batch(m)), OrderOf(Batch(m)));
        assert ([m] + after)[1..] == after;
        FlushPairs(order, pending, [m] + after);
      } else if !m.role.Tool? || ResultId(m) == "" || ResultId(m) !in pending {
        RepairFromPairs(rest, pending, order);
      } else {
        var less := pending - {ResultId(m)};
        assert less.Keys == pending.Keys - {ResultId(m)};
        RepairFromPairs(rest, less, RemoveFirst(order, ResultId(m)));
      }
    }
  }

  lemma {:induction false} RepairedIsPaired(ms: seq<Message>)
    ensures Paired(Repaired(ms), {})
  {
    RepairFromPairs(ms, map[], []);
    NoKeys();
  }

  lemma {:induction false} NoKeys()
    ensures var none: Pending := map[]; none.Keys == {}
  {
  }

  lemma {:induction false} FlushNothing(order: seq<string>)
    ensures Flush(order, map[]) == []
  {
    if order != [] {
      FlushNothing(order[1..]);
    }
  }

  lemma {:induction false} PairedIsUnchanged(ms: seq<Message>, pending: Pending, order: seq<string>)
    requires Queued(pending, order)
    requires Paired(ms, pending.Keys)
    ensures RepairFrom(ms, pending, order) == ms
  {
    if pending.Keys == {} {
      assert pending == map[];
      FlushNothing(order);
    }
    if ms != [] {
      var m, rest := ms[0], ms[1..];
      if Boundary(m) {
        BatchQueued(Batch(m));
        PairedIsUnchanged(rest, PendingOf(Batch(m)), OrderOf(Batch(m)));
      } else if m.role.Tool? {
        var less := pending - {ResultId(m)};
        assert less.Keys == pending.Keys - {ResultId(m)};
        PairedIsUnchanged(rest, less, RemoveFirst(order, ResultId(m)));
      } else {
        PairedIsUnchanged(rest, pending, order);
      }
    }
  }

  /** Repair leaves a list alone exactly when its calls and results are already paired. */
  lemma {:induction false} FixedPointIffPaired(ms: seq<Message>)
    ensures Repaired(ms) == ms <==> Paired(ms, {})
  {
    RepairedIsPaired(ms);
    if Paired(ms, {}) {
      NoKeys();
      PairedIsUnchanged(ms, map[], []);
    }
  }

  lemma {:induction false} RepairIdempotent(ms: seq<Message>)
    ensures Repaired(Repaired(ms)) == Repaired(ms)
  {
    RepairedIsPaired(ms);
    FixedPointIffPaired(Repaired(ms));
  }

  // ----- nothing else changes -----

  predicate NotTool(m: Message) {
    !m.role.Tool?
  }

  lemma {:induction false} FlushIsTools(order: seq<string>, pending: Pending)
    ensures forall m | m in Flush(order, pending) :: m.role.Tool? && IsSynthetic(m)
  {
    hide Synthetic, IsSynthetic, Trim;
    if order != [] {
      if order[0] in pending {
        FlushIsTools(order[1..], pending - {order[0]});
      } else {
        FlushIsTools(order[1..], pending);
      }
    }
  }

  lemma {:induction false} RepairFromKeepsOthers(ms: seq<Message>, pending: Pending, order: seq<string>)
    ensures Filter(NotTool, RepairFrom(ms, pending, order)) == Filter(NotTool, ms)
  {
    hide Flush, IsSynthetic, Trim, PendingOf, OrderOf;
    if ms == [] {
      FlushIsTools(order, pending);
      FilterNone(NotTool, Flush(order, pending));
    } else {
      var m, rest := ms[0], ms[1..];
      if Boundary(m) {
        var after := RepairFrom(rest, PendingOf(Batch(m)), OrderOf(Batch(m)));
        RepairFromKeepsOthers(rest, PendingOf(Batch(m)), OrderOf(Batch(m)));
        FlushIsTools(order, pending);
        FilterNone(NotTool, Flush(order, pending));
        FilterConcat(NotTool, Flush(order, pending), [m] + after);
        FilterConcat(NotTool, [m], after);
        assert Filter(NotTool, [m]) == [m];
      } else if !m.role.Tool? {
        RepairFromKeepsOthers(rest, pending, order);
        FilterConcat(NotTool, [m], RepairFrom(rest, pending, order));
      } else if ResultId(m) == "" || ResultId(m) !in pending {
        RepairFromKeepsOthers(rest, pending, order);
      } else {
        var less, shorter := pending - {ResultId(m)}, RemoveFirst(order, ResultId(m));
        RepairFromKeepsOthers(rest, less, shorter);
        FilterConcat(NotTool, [m], RepairFrom(rest, less, shorter));
      }
    }
  }

  /** The messages that are not tool results come out unchanged and in order. */
  lemma {:induction false} RepairKeepsOthers(ms: seq<Message>)
    ensures Filter(NotTool, Repaired(ms)) == Filter(NotTool, ms)
  {
    RepairFromKeepsOthers(ms, map[], []);
  }

  /** The ids still unanswered before position i: those of the nearest boundary, less the results since. */
  function OpenAt(ms: seq<Message>, i: nat): set<string>
    requires i <= |ms|
  {
    if i == 0 then {} else
      var m := ms[i - 1];
      if Boundary(m) then Offered(m)
      else if m.role.Tool? then OpenAt(ms, i - 1) - {ResultId(m)}
      else OpenAt(ms, i - 1)
  }

  /** A message repair must keep: any but a tool result, and a result that is the first answer to an open call. */
  predicate Kept(ms: seq<Message>, k: nat)
    requires k < |ms|
  {
    ms[k].role.Tool? ==> ResultId(ms[k]) in OpenAt(ms, k)
  }

  lemma {:induction false} RepairFromSources(ms: seq<Message>, i: nat, pending: Pending, order: seq<string>)
    requires i <= |ms|
    requires pending.Keys == OpenAt(ms, i) && Queued(pending, order)
    ensures forall m | m in RepairFrom(ms[i..], pending, order) ::
              IsSynthetic(m) || exists k :: i <= k < |ms| && Kept(ms, k) && ms[k] == m
    decreases |ms| - i
  {
    hide Flush, IsSynthetic, Trim, CallIds;
    FlushIsTools(order, pending);
    if i < |ms| {
      var m, rest := ms[i], ms[i + 1..];
      assert ms[i..][0] == m && ms[i..][1..] == rest;
      if Boundary(m) {
        BatchQueued(Batch(m));
        RepairFromSources(ms, i + 1, PendingOf(Batch(m)), OrderOf(Batch(m)));
      } else if m.role.Tool? && ResultId(m) in pending {
        var less := pending - {ResultId(m)};
        assert less.Keys == pending.Keys - {ResultId(m)};
        RepairFromSources(ms, i + 1, less, RemoveFirst(order, ResultId(m)));
      } else {
        assert OpenAt(ms, i + 1) == OpenAt(ms, i);
        RepairFromSources(ms, i + 1, pending, order);
      }
    }
  }

  /** The kept messages from position i on, in order. */
  function KeptFrom(ms: seq<Message>, i: nat): seq<Message>
    requires i <= |ms|
    decreases |ms| - i
  {
    if i == |ms| then [] else (if Kept(ms, i) then [ms[i]] else []) + KeptFrom(ms, i + 1)
  }

  /** The list `out` is `kept`, each message once and in order, with synthetic errors put in between. */
  ghost predicate Weaves(out: seq<Message>, kept: seq<Message>)
    decreases |out|
  {
    if out == [] then kept == []
    else
      || (kept != [] && out[0] == kept[0] && Weaves(out[1..], kept[1..]))
      || (IsSynthetic(out[0]) && Weaves(out[1..], kept))
  }

  lemma {:induction false} WeaveErrors(errors: seq<Message>, out: seq<Message>, kept: seq<Message>)
    requires (forall m | m in errors :: IsSynthetic(m)) && Weaves(out, kept)
    ensures Weaves(errors + out, kept)
  {
    hide IsSynthetic;
    if errors == [] {
      assert errors + out == out;
    } else {
      assert (errors + out)[1..] == errors[1..] + out;
      WeaveErrors(errors[1..], out, kept);
    }
  }

  lemma {:induction false} WeaveOne(m: Message, out: seq<Message>, kept: seq<Message>)
    requires Weaves(out, kept)
    ensures Weaves([m] + out, [m] + kept)
  {
    assert ([m] + out)[1..] == out && ([m] + kept)[1..] == kept;
  }

  lemma {:induction false} RepairFromWeaves(ms: seq<Message>, i: nat, pending: Pending, order: seq<string>)
    requires i <= |ms|
    requires pending.Keys == OpenAt(ms, i) && Queued(pending, order)
    ensures Weaves(RepairFrom(ms[i..], pending, order), KeptFrom(ms, i))
    decreases |ms| - i
  {
    hide Flush, IsSynthetic, Trim, CallIds, Weaves;
    FlushIsTools(order, pending);
    NothingWoven();
    if i == |ms| {
      WeaveErrors(Flush(order, pending), [], []);
      assert Flush(order, pending) + [] == Flush(order, pending);
    } else {
      var m, rest := ms[i], ms[i + 1..];
      assert ms[i..][0] == m && ms[i..][1..] == rest;
      if Boundary(m) {
        BatchQueued(Batch(m));
        RepairFromWeaves(ms, i + 1, PendingOf(Batch(m)), OrderOf(Batch(m)));
        var after := RepairFrom(rest, PendingOf(Batch(m)), OrderOf(Batch(m)));
        WeaveOne(m, after, KeptFrom(ms, i + 1));
        WeaveErrors(Flush(order, pending), [m] + after, [m] + KeptFrom(ms, i + 1));
      } else if m.role.Tool? && ResultId(m) in pending {
        var less := pending - {ResultId(m)};
        assert less.Keys == pending.Keys - {ResultId(m)};
        RepairFromWeaves(ms, i + 1, less, RemoveFirst(order, ResultId(m)));
        WeaveOne(m, RepairFrom(rest, less, RemoveFirst(order, ResultId(m))), KeptFrom(ms, i + 1));
      } else {
        assert OpenAt(ms, i + 1) == OpenAt(ms, i);
        RepairFromWeaves(ms, i + 1, pending, order);
        if !m.role.Tool? {
          WeaveOne(m, RepairFrom(rest, pending, order), KeptFrom(ms, i + 1));
        } else {
          assert !Kept(ms, i) && KeptFrom(ms, i) == KeptFrom(ms, i + 1);
        }
      }
    }
  }

  lemma {:induction false} NothingWoven()
    ensures Weaves([], [])
  {
  }

  /** The kept messages come out, each once and in order, and besides them only synthetic errors. */
  lemma {:induction false} RepairSources(ms: seq<Message>)
    ensures Weaves(Repaired(ms), KeptFrom(ms, 0))
    ensures forall m | m in Repaired(ms) :: IsSynthetic(m) || exists k :: 0 <= k < |ms| && Kept(ms, k) && ms[k] == m
  {
    assert ms[0..] == ms;
    NoKeys();
    RepairFromWeaves(ms, 0, map[], []);
    RepairFromSources(ms, 0, map[], []);
  }

  // ----- the same predicate, by positions -----

  /** h is the nearest boundary before position i. */
  predicate Header(ms: seq<Message>, h: nat, i: nat) {
    h < i <= |ms| && Boundary(ms[h]) && forall j | h < j < i :: !Boundary(ms[j])
  }

  predicate Answered(ms: seq<Message>, h: nat, i: nat, id: string)
    requires h <= i <= |ms|
  {
    exists j :: h < j < i && ms[j].role.Tool? && ResultId(ms[j]) == id
  }

  /** Every result answers, once, a call of the nearest boundary before it. */
  ghost predicate ResultsAnswer(ms: seq<Message>) {
    forall k | 0 <= k < |ms| && ms[k].role.Tool? ::
      exists h: nat :: Header(ms, h, k) && ResultId(ms[k]) in Offered(ms[h]) && !Answered(ms, h, k, ResultId(ms[k]))
  }

  /** Every non-blank call id is answered before the next boundary, or the end. */
  ghost predicate CallsAnswered(ms: seq<Message>) {
    forall h: nat, i: nat, id | h < |ms| && Header(ms, h, i) && (i == |ms| || Boundary(ms[i]))
        && id in Offered(ms[h]) ::
      Answered(ms, h, i, id)
  }

  lemma {:induction false} OpenAtMeaning(ms: seq<Message>, i: nat, id: string)
    requires i <= |ms|
    ensures id in OpenAt(ms, i) <==>
            exists h: nat :: Header(ms, h, i) && id in Offered(ms[h]) && !Answered(ms, h, i, id)
  {
    hide Trim, CallIds;
    if i > 0 {
      var m := ms[i - 1];
      OpenAtMeaning(ms, i - 1, id);
      if Boundary(m) {
        assert Header(ms, i - 1, i);
        assert !Answered(ms, i - 1, i, id);
        forall h: nat | Header(ms, h, i) ensures h == i - 1 {
        }
      } else {
        forall h: nat ensures Header(ms, h, i) <==> Header(ms, h, i - 1) {
          if h == i - 1 { assert !Boundary(ms[h]); }
        }
        forall h: nat | Header(ms, h, i)
          ensures Answered(ms, h, i, id) <==> Answered(ms, h, i - 1, id) || (m.role.Tool? && ResultId(m) == id)
        {
        }
      }
    }
  }

  /** Position i is in order with respect to the ids open there. */
  predicate FineAt(ms: seq<Message>, i: nat)
    requires i <= |ms|
  {
    if i == |ms| || Boundary(ms[i]) then OpenAt(ms, i) == {}
    else ms[i].role.Tool? ==> ResultId(ms[i]) in OpenAt(ms, i)
  }

  lemma {:induction false} PairedByPosition(ms: seq<Message>, i: nat)
    requires i <= |ms|
    ensures Paired(ms[i..], OpenAt(ms, i)) <==> forall k | i <= k <= |ms| :: FineAt(ms, k)
    decreases |ms| - i
  {
    if i < |ms| {
      assert ms[i..][1..] == ms[i + 1..];
      PairedByPosition(ms, i + 1);
      var m, open := ms[i], OpenAt(ms, i);
      assert ms[i..][0] == m;
      assert Paired(ms[i..], open) <==> FineAt(ms, i) && Paired(ms[i + 1..], OpenAt(ms, i + 1));
    } else {
      assert ms[i..] == [];
      assert FineAt(ms, i) <==> OpenAt(ms, i) == {};
    }
    assert (forall k | i <= k <= |ms| :: FineAt(ms, k)) <==>
           FineAt(ms, i) && forall k | i + 1 <= k <= |ms| :: FineAt(ms, k);
  }

  /** The left-to-right predicate says what the two readable ones say. */
  lemma {:induction false} PairedMeaning(ms: seq<Message>)
    ensures Paired(ms, {}) <==> ResultsAnswer(ms) && CallsAnswered(ms)
  {
    assert ms[0..] == ms;
    PairedByPosition(ms, 0);
    forall i: nat, id | i <= |ms|
      ensures id in OpenAt(ms, i) <==>
              exists h: nat :: Header(ms, h, i) && id in Offered(ms[h]) && !Answered(ms, h, i, id)
    {
      OpenAtMeaning(ms, i, id);
    }
    if Paired(ms, {}) {
      forall k: nat | k < |ms| && ms[k].role.Tool?
        ensures exists h: nat ::
                  Header(ms, h, k) && ResultId(ms[k]) in Offered(ms[h]) && !Answered(ms, h, k, ResultId(ms[k]))
      {
        assert FineAt(ms, k);
      }
      forall h: nat, i: nat, id | h < |ms| && Header(ms, h, i) && (i == |ms| || Boundary(ms[i])) && id in Offered(ms[h])
        ensures Answered(ms, h, i, id)
      {
        assert FineAt(ms, i);
        assert id !in OpenAt(ms, i);
      }
    }
    if ResultsAnswer(ms) && CallsAnswered(ms) {
      forall k: nat | k <= |ms| ensures FineAt(ms, k) {
        if k == |ms| || Boundary(ms[k]) {
          assert forall id :: id !in OpenAt(ms, k);
        }
      }
    }
  }

  // ----- cutting and joining -----

  lemma {:induction false} PairedConcat(a: seq<Message>, b: seq<Message>, open: set<string>)
    requires b == [] || Boundary(b[0])
    ensures Paired(a + b, open) <==> Paired(a, open) && Paired(b, {})
  {
    if a == [] {
      assert a + b == b;
    } else {
      assert (a + b)[0] == a[0] && (a + b)[1..] == a[1..] + b;
      PairedConcat(a[1..], b, Offered(a[0]));
      PairedConcat(a[1..], b, open - {ResultId(a[0])});
      PairedConcat(a[1..], b, open);
    }
  }

  lemma {:induction false} RepairFromConcat(a: seq<Message>, b: seq<Message>, pending: Pending, order: seq<string>)
    requires b == [] || Boundary(b[0])
    ensures RepairFrom(a + b, pending, order) == RepairFrom(a, pending, order) + Repaired(b)
  {
    hide IsSynthetic, Trim, PendingOf, OrderOf, Synthetic;
    FlushNothing([]);
    if a == [] {
      assert a + b == b;
    } else {
      assert (a + b)[0] == a[0] && (a + b)[1..] == a[1..] + b;
      var m := a[0];
      if Boundary(m) {
        RepairFromConcat(a[1..], b, PendingOf(Batch(m)), OrderOf(Batch(m)));
        ConcatAssoc(Flush(order, pending), [m] + RepairFrom(a[1..], PendingOf(Batch(m)), OrderOf(Batch(m))),
            Repaired(b));
        ConcatAssoc([m], RepairFrom(a[1..], PendingOf(Batch(m)), OrderOf(Batch(m))), Repaired(b));
      } else if !m.role.Tool? || ResultId(m) == "" || ResultId(m) !in pending {
        RepairFromConcat(a[1..], b, pending, order);
      } else {
        RepairFromConcat(a[1..], b, pending - {ResultId(m)}, RemoveFirst(order, ResultId(m)));
      }
    }
  }

  lemma {:induction false} ConcatAssoc<T>(a: seq<T>, b: seq<T>, c: seq<T>)
    ensures (a + b) + c == a + (b + c)
  {
  }

  /** Repair works turn by turn: it commutes with a cut before any boundary. */
  lemma {:induction false} RepairConcat(a: seq<Message>, b: seq<Message>)
    requires b == [] || Boundary(b[0])
    ensures Repaired(a + b) == Repaired(a) + Repaired(b)
  {
    RepairFromConcat(a, b, map[], []);
  }

  lemma {:induction false} PairedByShape(a: seq<Message>, b: seq<Message>, open: set<string>)
    requires SameShape(a, b)
    ensures Paired(a, open) <==> Paired(b, open)
  {
    if a != [] {
      PairedByShape(a[1..], b[1..], Offered(a[0]));
      PairedByShape(a[1..], b[1..], open - {ResultId(a[0])});
      PairedByShape(a[1..], b[1..], open);
    }
  }

  lemma {:induction false} AllBoundaryPaired(ms: seq<Message>)
    requires forall m | m in ms :: m.role.System?
    ensures Paired(ms, {})
  {
    if ms != [] {
      AllBoundaryPaired(ms[1..]);
    }
  }
}
