/** The next-step inbox (internal/agent/inbox.go). */
module Inbox {
  import opened Text

  datatype Item = Item(id: string, session: string, text: string, persisted: bool)

  function Normalized(item: Item): Item {
    item.(id := Trim(item.id), session := Trim(item.session), text := Trim(item.text))
  }

  function OfSession(session: string): Item -> bool {
    (item: Item) => item.session == session
  }

  function NotOfSession(session: string): Item -> bool {
    (item: Item) => item.session != session
  }

  predicate Accepts(next: seq<Item>, item: Item) {
    item.text != "" && item.session != "" && (item.id != "" ==> forall x | x in next :: x.id != item.id)
  }

  function Enqueued(next: seq<Item>, item: Item): seq<Item> {
    if Accepts(next, Normalized(item)) then next + [Normalized(item)] else next
  }

  function Claimed(next: seq<Item>, session: string): seq<Item> {
    if Trim(session) == "" then [] else Filter(OfSession(Trim(session)), next)
  }

  function Left(next: seq<Item>, session: string): seq<Item> {
    if Trim(session) == "" then next else Filter(NotOfSession(Trim(session)), next)
  }

  class Inbox {
    var next: seq<Item>

    constructor ()
      ensures next == []
    {
      next := [];
    }

    method Enqueue(item: Item)
      modifies this
      ensures next == Enqueued(old(next), item)
    {
      var it := Normalized(item);
      if it.text == "" || it.session == "" {
        return;
      }
      for i := 0 to |next|
        invariant next == old(next)
        invariant it.id != "" ==> forall j | 0 <= j < i :: next[j].id != it.id
      {
        if next[i].id != "" && next[i].id == it.id {
          assert next[i] in next;
          return;
        }
      }
      next := next + [it];
    }

    method ClaimStep(sessionID: string) returns (claimed: seq<Item>)
      modifies this
      ensures claimed == Claimed(old(next), sessionID) && next == Left(old(next), sessionID)
    {
      var session := Trim(sessionID);
      if session == "" {
        return [];
      }
      claimed := [];
      var kept: seq<Item> := [];
      for i := 0 to |next|
        invariant next == old(next)
        invariant claimed == Filter(OfSession(session), next[..i])
        invariant kept == Filter(NotOfSession(session), next[..i])
      {
        assert next[..i + 1] == next[..i] + [next[i]];
        FilterOneMore(OfSession(session), next[..i], next[i]);
        FilterOneMore(NotOfSession(session), next[..i], next[i]);
        if next[i].session != session {
          kept := kept + [next[i]];
        } else {
          claimed := claimed + [next[i]];
        }
      }
      assert next[..|next|] == next;
      next := kept;
    }

    method Clear(sessionID: string)
      modifies this
      ensures next == if Trim(sessionID) == "" then [] else Left(old(next), sessionID)
    {
      if Trim(sessionID) == "" {
        next := [];
      } else {
        var _ := ClaimStep(sessionID);
      }
    }
  }

  // ----- whole runs of steers and claims -----

  datatype Op = Enqueue(item: Item) | Claim(session: string)

  datatype Queue = Queue(next: seq<Item>, accepted: seq<Item>, delivered: seq<Item>)

  function Do(q: Queue, op: Op): Queue {
    match op
    case Enqueue(item) =>
      Queue(Enqueued(q.next, item),
            if Accepts(q.next, Normalized(item)) then q.accepted + [Normalized(item)] else q.accepted, q.delivered)
    case Claim(session) =>
      Queue(Left(q.next, session), q.accepted, q.delivered + Claimed(q.next, session))
  }

  function DoAll(q: Queue, ops: seq<Op>): Queue
    decreases |ops|
  {
    if ops == [] then q else DoAll(Do(q, ops[0]), ops[1..])
  }

  predicate Conserved(q: Queue, session: string) {
    Filter(OfSession(session), q.accepted) ==
    Filter(OfSession(session), q.delivered) + Filter(OfSession(session), q.next)
  }

  lemma {:induction false} SplitBySession(items: seq<Item>, s: string, other: string)
    ensures Filter(OfSession(s), Filter(OfSession(other), items)) ==
            if s == other then Filter(OfSession(s), items) else []
    ensures Filter(OfSession(s), Filter(NotOfSession(other), items)) ==
            if s == other then [] else Filter(OfSession(s), items)
  {
    hide Filter;
    FilterAll(OfSession(s), []);
    FilterAll(OfSession(other), []);
    FilterAll(NotOfSession(other), []);
    if items != [] {
      var before, x := items[..|items| - 1], items[|items| - 1];
      assert items == before + [x];
      SplitBySession(before, s, other);
      FilterOneMore(OfSession(s), before, x);
      FilterOneMore(OfSession(other), before, x);
      FilterOneMore(NotOfSession(other), before, x);
      FilterOneMore(OfSession(s), Filter(OfSession(other), before), x);
      FilterOneMore(OfSession(s), Filter(NotOfSession(other), before), x);
    }
  }

  lemma {:induction false} DoConserves(q: Queue, op: Op, session: string)
    requires Conserved(q, session)
    ensures Conserved(Do(q, op), session)
  {
    hide Filter, Accepts, Normalized, Trim;
    match op
    case Enqueue(item) =>
      FilterOneMore(OfSession(session), q.next, Normalized(item));
      FilterOneMore(OfSession(session), q.accepted, Normalized(item));
    case Claim(other) =>
      SplitBySession(q.next, session, Trim(other));
      FilterConcat(OfSession(session), q.delivered, Claimed(q.next, other));
      FilterAll(OfSession(session), []);
  }

  /**
   * For each session, what was accepted is what was delivered, then what still waits:
   * nothing lost, doubled or reordered.
   */
  lemma {:induction false} InboxConserves(q: Queue, ops: seq<Op>, session: string)
    requires Conserved(q, session)
    ensures Conserved(DoAll(q, ops), session)
    decreases |ops|
  {
    if ops != [] {
      DoConserves(q, ops[0], session);
      InboxConserves(Do(q, ops[0]), ops[1..], session);
    }
  }
}
