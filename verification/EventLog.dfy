/** The append-only event table of internal/events/store.go. */
module EventLog {
  import opened Text

  const MAX_LIST_LIMIT: nat := 1000

  /** `occurredAt` is None for the zero time, which the store replaces by the time of the append. */
  datatype Envelope = Envelope(
    sequence: nat, id: string, kind: string, aggregateType: string, aggregateID: string, aggregateVersion: nat,
    occurredAt: Option<int>, producer: string, schemaVersion: int,
    traceID: string, causationID: string, correlationID: string, payload: string)

  datatype Outcome = Appended(event: Envelope) | Known(event: Envelope) | Invalid | IDConflict | VersionTaken

  /** `compact` is JSON validation and compaction: None for text that is not JSON. */
  function Normalize(e: Envelope, now: int, compact: string -> Option<string>): Option<Envelope> {
    var payload := compact(if e.payload == "" then "{}" else e.payload);
    if e.sequence != 0
       || Trim(e.id) == "" || Trim(e.kind) == "" || Trim(e.aggregateType) == "" || Trim(e.aggregateID) == ""
       || Trim(e.producer) == "" || e.aggregateVersion == 0 || e.schemaVersion <= 0 || payload.None? then None
    else Some(e.(occurredAt := if e.occurredAt.None? then Some(now) else e.occurredAt, payload := payload.value))
  }

  /** Equal but for the sequence, and for the time unless the caller gave one. */
  predicate Equivalent(stored: Envelope, candidate: Envelope, compareTime: bool) {
    && stored.(sequence := 0, occurredAt := None) == candidate.(sequence := 0, occurredAt := None)
    && (compareTime ==> stored.occurredAt == candidate.occurredAt)
  }

  function Find(rows: seq<Envelope>, id: string): (r: Option<Envelope>)
    ensures r.None? <==> forall e | e in rows :: e.id != id
    ensures r.Some? ==> r.value in rows && r.value.id == id
  {
    if rows == [] then None else if rows[0].id == id then Some(rows[0]) else Find(rows[1..], id)
  }

  predicate SameVersion(a: Envelope, b: Envelope) {
    a.aggregateType == b.aggregateType && a.aggregateID == b.aggregateID && a.aggregateVersion == b.aggregateVersion
  }

  /** The two unique keys of the table. */
  ghost predicate Insertable(rows: seq<Envelope>, e: Envelope) {
    forall r | r in rows :: r.id != e.id && !SameVersion(r, e)
  }

  predicate Increasing(rows: seq<Envelope>) {
    forall i, j | 0 <= i < j < |rows| :: rows[i].sequence < rows[j].sequence
  }

  ghost predicate Keyed(rows: seq<Envelope>) {
    forall i, j | 0 <= i < j < |rows| :: rows[i].id != rows[j].id && !SameVersion(rows[i], rows[j])
  }

  /** The number of rows with a sequence of at most x. */
  function UpTo(rows: seq<Envelope>, x: nat): (n: nat)
    ensures n <= |rows|
    decreases |rows|
  {
    if rows == [] then 0
    else if rows[|rows| - 1].sequence <= x then |rows| else UpTo(rows[..|rows| - 1], x)
  }

  /** The rows after x, in order. */
  function Later(rows: seq<Envelope>, x: nat): seq<Envelope> {
    rows[UpTo(rows, x)..]
  }

  function Page(rows: seq<Envelope>, x: nat, limit: nat): seq<Envelope> {
    Later(rows, x)[..Min(limit, |Later(rows, x)|)]
  }

  /** Later and Page are cut at the one place that separates the sequences up to x from those above it. */
  lemma {:induction false} UpToSplits(rows: seq<Envelope>, x: nat)
    requires Increasing(rows)
    ensures forall i | 0 <= i < |rows| :: rows[i].sequence <= x <==> i < UpTo(rows, x)
    decreases |rows|
  {
    if rows != [] && rows[|rows| - 1].sequence > x {
      var shorter := rows[..|rows| - 1];
      UpToSplits(shorter, x);
      assert forall i | 0 <= i < |shorter| :: shorter[i] == rows[i];
      assert UpTo(rows, x) == UpTo(shorter, x);
    }
  }

  /** So the rows after x are the ones with a larger sequence, and no other. */
  lemma {:induction false} LaterIsLater(rows: seq<Envelope>, x: nat, e: Envelope)
    requires Increasing(rows) && e in rows
    ensures e in Later(rows, x) <==> e.sequence > x
  {
    UpToSplits(rows, x);
    hide UpTo, Increasing;
    var n := UpTo(rows, x);
    var i :| 0 <= i < |rows| && rows[i] == e;
    assert forall k | 0 <= k < |rows| - n :: rows[n..][k] == rows[n + k];
    assert i >= n ==> rows[n..][i - n] == e;
  }

  /** The cut is the only one, so it can be read off any index. */
  lemma {:induction false} UpToAt(rows: seq<Envelope>, x: nat, n: nat)
    requires Increasing(rows) && n <= |rows|
    requires n > 0 ==> rows[n - 1].sequence <= x
    requires n < |rows| ==> x < rows[n].sequence
    ensures UpTo(rows, x) == n
  {
    UpToSplits(rows, x);
  }

  lemma {:induction false} NormalizeKeepsID(e: Envelope, now: int, compact: string -> Option<string>)
    requires Normalize(e, now, compact).Some?
    ensures Normalize(e, now, compact).value.id == e.id
  {
  }

  lemma {:induction false} InsertKeepsValid(rows: seq<Envelope>, last: nat, e: Envelope)
    requires Increasing(rows) && Keyed(rows) && (forall r | r in rows :: 0 < r.sequence <= last) && Insertable(rows, e)
    ensures var longer := rows + [e.(sequence := last + 1)];
      Increasing(longer) && Keyed(longer) && forall r | r in longer :: 0 < r.sequence <= last + 1
  {
  }

  class EventStore {
    var rows: seq<Envelope>
    /** The largest sequence ever given out. */
    var last: nat

    ghost predicate Valid()
      reads this
    {
      Increasing(rows) && Keyed(rows) && forall e | e in rows :: 0 < e.sequence <= last
    }

    constructor ()
      ensures Valid() && rows == []
    {
      rows, last := [], 0;
    }

    method Append(draft: Envelope, now: int, compact: string -> Option<string>) returns (r: Outcome)
      requires Valid()
      modifies this
      ensures Valid()
      ensures r.Invalid? <==> Normalize(draft, now, compact).None?
      ensures r.Appended? <==>
              Normalize(draft, now, compact).Some? && Insertable(old(rows), Normalize(draft, now, compact).value)
      ensures r.Appended? ==> r.event == Normalize(draft, now, compact).value.(sequence := last)
      ensures r.Appended? ==> rows == old(rows) + [r.event] && last > old(last)
      ensures !r.Appended? ==> rows == old(rows) && last == old(last)
      ensures r.Known? ==>
                r.event in rows && Equivalent(r.event, Normalize(draft, now, compact).value, draft.occurredAt.Some?)
      ensures r.IDConflict? ==>
                exists e | e in rows ::
                  e.id == draft.id && !Equivalent(e, Normalize(draft, now, compact).value, draft.occurredAt.Some?)
      ensures r.VersionTaken? ==> forall e | e in rows :: e.id != draft.id
    {
      hide Normalize, Equivalent, Increasing, Keyed, SameVersion;
      var normalized := Normalize(draft, now, compact);
      if normalized.None? {
        return Invalid;
      }
      var candidate := normalized.value;
      NormalizeKeepsID(draft, now, compact);
      var free := true;
      for i := 0 to |rows|
        invariant free <==> Insertable(rows[..i], candidate)
      {
        free := free && rows[i].id != candidate.id && !SameVersion(rows[i], candidate);
        assert rows[..i + 1] == rows[..i] + [rows[i]];
      }
      assert rows[..|rows|] == rows;
      if free {
        InsertKeepsValid(rows, last, candidate);
        last := last + 1;
        rows := rows + [candidate.(sequence := last)];
        return Appended(rows[|rows| - 1]);
      }
      var existing := Find(rows, candidate.id);
      if existing.None? {
        return VersionTaken;
      }
      if Equivalent(existing.value, candidate, draft.occurredAt.Some?) {
        return Known(existing.value);
      }
      return IDConflict;
    }

    method ListAfter(sequence: nat, limit: int) returns (r: Option<seq<Envelope>>)
      requires Valid()
      ensures r.Some? <==> 0 < limit <= MAX_LIST_LIMIT
      ensures r.Some? ==> r.value == Page(rows, sequence, limit)
    {
      if limit <= 0 || limit > MAX_LIST_LIMIT {
        return None;
      }
      UpToSplits(rows, sequence);
      hide UpTo, Increasing, Keyed;
      ghost var start := UpTo(rows, sequence);
      var items: seq<Envelope> := [];
      var i := 0;
      while i < |rows| && |items| < limit
        invariant i <= |rows|
        invariant items == if i <= start then [] else rows[start..i]
        invariant |items| <= limit
      {
        if rows[i].sequence > sequence {
          items := items + [rows[i]];
        }
        i := i + 1;
      }
      return Some(items);
    }
  }

  /**
   * A retry of an accepted append finds its own event, whatever the clock says:
   * it is never a conflict nor a second row.
   */
  lemma {:induction false} RetryIsKnown(rows: seq<Envelope>, draft: Envelope, first: int, second: int,
                                        compact: string -> Option<string>, sequence: nat)
    requires Keyed(rows) && Normalize(draft, first, compact).Some?
    requires Normalize(draft, first, compact).value.(sequence := sequence) in rows
    ensures Normalize(draft, second, compact).Some?
    ensures var again := Normalize(draft, second, compact).value;
      && !Insertable(rows, again)
      && Find(rows, again.id) == Some(Normalize(draft, first, compact).value.(sequence := sequence))
      && Equivalent(Find(rows, again.id).value, again, draft.occurredAt.Some?)
  {
    var stored := Normalize(draft, first, compact).value.(sequence := sequence);
    var found := Find(rows, stored.id).value;
    var i :| 0 <= i < |rows| && rows[i] == stored;
    var j :| 0 <= j < |rows| && rows[j] == found;
    assert i == j;
  }

  /**
   * A draft is accepted exactly if it has no sequence yet, an id, a kind, an aggregate with a version, a producer, a
   * schema version, and a payload that is JSON; an empty payload stands for an empty object. What is stored is the
   * draft, at the time it gives, or else at the time of the append, with its payload compacted.
   */
  lemma {:induction false} AcceptedIff(draft: Envelope, now: int, compact: string -> Option<string>)
    ensures var r := Normalize(draft, now, compact);
            var payload := compact(if draft.payload == "" then "{}" else draft.payload);
            && (r.Some? <==>
                  && draft.sequence == 0 && draft.aggregateVersion >= 1 && draft.schemaVersion >= 1 && payload.Some?
                  && forall text | text in [draft.id, draft.kind, draft.aggregateType, draft.aggregateID,
                                            draft.producer] :: Trim(text) != "")
            && (r.Some? ==>
                  && r.value.(occurredAt := draft.occurredAt, payload := draft.payload) == draft
                  && r.value.payload == payload.value
                  && r.value.occurredAt == Some(match draft.occurredAt case Some(t) => t case None => now))
  {
    hide Trim;
    var texts := [draft.id, draft.kind, draft.aggregateType, draft.aggregateID, draft.producer];
    assert texts[0] in texts && texts[1] in texts && texts[2] in texts && texts[3] in texts && texts[4] in texts;
  }

  /**
   * A draft under a known id is taken for a retry exactly if the stored event says the same in every field, but for
   * the sequence, and for the time if the draft gives none.
   */
  lemma {:induction false} RetryIff(stored: Envelope, draft: Envelope, now: int, compact: string -> Option<string>)
    requires Normalize(draft, now, compact).Some? && stored.id == draft.id
    ensures Equivalent(stored, Normalize(draft, now, compact).value, draft.occurredAt.Some?) <==>
            && stored.kind == draft.kind
            && stored.aggregateType == draft.aggregateType && stored.aggregateID == draft.aggregateID
            && stored.aggregateVersion == draft.aggregateVersion
            && stored.producer == draft.producer && stored.schemaVersion == draft.schemaVersion
            && stored.traceID == draft.traceID && stored.causationID == draft.causationID
            && stored.correlationID == draft.correlationID
            && compact(if draft.payload == "" then "{}" else draft.payload) == Some(stored.payload)
            && (draft.occurredAt.Some? ==> stored.occurredAt == draft.occurredAt)
  {
    AcceptedIff(draft, now, compact);
    hide Normalize, Trim;
  }
}
