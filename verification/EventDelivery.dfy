/**
 * The event stream over whole runs: appends, pages and broken connections in any order, and a
 * reader that reconnects after the last event it saw.
 */
module EventDelivery {
  import opened Text
  import opened EventLog
  import opened EventStream

  /** `start`: where the reader resumed; `after`: the server's cursor; `printed`: the text of this connection. */
  datatype State = State(log: seq<Envelope>, last: nat, start: nat, after: nat, printed: string,
      delivered: seq<Envelope>)

  /** `Break(n, eof)`: the reader got the first n characters, at a clean end or not, and connects again. */
  datatype Event = Append(event: Envelope) | Page | Break(n: nat, eof: bool)

  function Begin(origin: nat): State {
    State([], 0, origin, origin, "", [])
  }

  function Cursor(items: seq<Envelope>, start: nat): nat {
    if items == [] then start else items[|items| - 1].sequence
  }

  /** The reader keeps the largest sequence it has seen. */
  function Highest(after: nat, got: seq<Envelope>): nat
    decreases |got|
  {
    if got == [] then after else Highest(Max(after, got[0].sequence), got[1..])
  }

  predicate Enabled(s: State, e: Event) {
    match e
    case Append(event) => event.sequence > s.last
    case Page => true
    case Break(n, _) => n <= |s.printed|
  }

  function Read(c: Codec, s: State, n: nat, eof: bool): seq<Envelope>
    requires n <= |s.printed|
  {
    Decoded(c, Parse(s.printed[..n], EMPTY, eof))
  }

  function Next(c: Codec, s: State, e: Event): State
    requires Enabled(s, e)
  {
    match e
    case Append(event) => s.(log := s.log + [event], last := event.sequence)
    case Page =>
      var items := EventLog.Page(s.log, s.after, PAGE);
      s.(printed := s.printed + Print(c, items), after := Cursor(items, s.after))
    case Break(n, eof) =>
      var got := Read(c, s, n, eof);
      var resume := Highest(s.start, got);
      s.(delivered := s.delivered + got, start := resume, after := resume, printed := "")
  }

  function After(c: Codec, origin: nat, trace: seq<Event>): Option<State>
    decreases |trace|
  {
    if trace == [] then Some(Begin(origin))
    else match After(c, origin, trace[..|trace| - 1])
      case None => None
      case Some(s) =>
        var e := trace[|trace| - 1];
        if Enabled(s, e) then Some(Next(c, s, e)) else None
  }

  function Between(log: seq<Envelope>, a: nat, b: nat): seq<Envelope>
    requires UpTo(log, a) <= UpTo(log, b)
  {
    log[UpTo(log, a)..UpTo(log, b)]
  }

  ghost predicate LogFine(s: State) {
    Increasing(s.log) && forall e | e in s.log :: e.sequence <= s.last
  }

  /** The text of the connection is what lies between its start and the cursor; everything before was delivered. */
  ghost predicate Inv(c: Codec, origin: nat, s: State) {
    && LogFine(s)
    && UpTo(s.log, origin) <= UpTo(s.log, s.start) <= UpTo(s.log, s.after)
    && (s.after <= s.last || s.after == s.start == origin)
    && s.start <= s.after
    && s.printed == Print(c, Between(s.log, s.start, s.after))
    && s.delivered == Between(s.log, origin, s.start)
  }

  lemma {:induction false} UpToMonotone(rows: seq<Envelope>, a: nat, b: nat)
    requires a <= b
    ensures UpTo(rows, a) <= UpTo(rows, b)
    decreases |rows|
  {
    if rows != [] {
      UpToMonotone(rows[..|rows| - 1], a, b);
    }
  }

  lemma {:induction false} UpToAppend(rows: seq<Envelope>, e: Envelope, x: nat)
    ensures UpTo(rows + [e], x) == if e.sequence <= x then |rows| + 1 else UpTo(rows, x)
  {
    assert (rows + [e])[..|rows|] == rows;
  }

  lemma {:induction false} LogGrows(s: State, e: Envelope)
    requires LogFine(s) && e.sequence > s.last
    ensures LogFine(s.(log := s.log + [e], last := e.sequence))
  {
  }

  lemma {:induction false} Glue<T>(s: seq<T>, a: nat, b: nat, c: nat)
    requires a <= b <= c <= |s|
    ensures s[a..b] + s[b..c] == s[a..c]
    ensures s[a..c] == s[a..][..c - a]
  {
  }

  lemma {:induction false} SliceOfLonger<T>(s: seq<T>, x: T, a: nat, b: nat)
    requires a <= b <= |s|
    ensures (s + [x])[a..b] == s[a..b]
  {
  }

  lemma {:induction false} AppendKeeps(c: Codec, origin: nat, s: State, e: Envelope)
    requires Inv(c, origin, s) && e.sequence > s.last && origin <= s.start
    ensures Inv(c, origin, Next(c, s, Append(e)))
  {
    hide UpTo, Print, LogFine;
    LogGrows(s, e);
    assert e.sequence <= s.after ==> s.after == s.start == origin;
    UpToAppend(s.log, e, origin);
    UpToAppend(s.log, e, s.start);
    UpToAppend(s.log, e, s.after);
    SliceOfLonger(s.log, e, UpTo(s.log, s.start), UpTo(s.log, s.after));
    SliceOfLonger(s.log, e, UpTo(s.log, origin), UpTo(s.log, s.start));
    assert e.sequence <= s.after ==> Between(s.log, origin, origin) == [] == Between(s.log + [e], origin, origin);
  }

  lemma {:induction false} CursorSplits(rows: seq<Envelope>, k: nat, n: nat, x: nat)
    requires Increasing(rows) && UpTo(rows, x) == k && k <= n <= |rows|
    ensures UpTo(rows, Cursor(rows[k..n], x)) == n
    ensures x <= Cursor(rows[k..n], x)
  {
    UpToSplits(rows, x);
    if k < n {
      UpToAt(rows, Cursor(rows[k..n], x), n);
    }
  }

  lemma {:induction false} PageIsNext(rows: seq<Envelope>, x: nat)
    ensures var items, k := EventLog.Page(rows, x, PAGE), UpTo(rows, x);
      k + |items| <= |rows| && items == rows[k..k + |items|]
  {
    hide UpTo;
  }

  /** The last of some rows is within the log's bound. */
  lemma {:induction false} CursorBound(s: State, k: nat, n: nat, x: nat)
    requires LogFine(s) && k <= n <= |s.log|
    ensures k < n ==> Cursor(s.log[k..n], x) <= s.last
  {
  }

  lemma {:induction false} PageKeeps(c: Codec, origin: nat, s: State)
    requires Inv(c, origin, s)
    ensures Inv(c, origin, Next(c, s, Page))
  {
    hide UpTo, Print, EventLog.Page, Cursor, Increasing;
    var k := UpTo(s.log, s.after);
    var items := EventLog.Page(s.log, s.after, PAGE);
    PageIsNext(s.log, s.after);
    CursorSplits(s.log, k, k + |items|, s.after);
    CursorBound(s, k, k + |items|, s.after);
    CursorNone(s.after);
    hide LogFine;
    PrintConcat(c, Between(s.log, s.start, s.after), items);
    Glue(s.log, UpTo(s.log, s.start), k, k + |items|);
  }

  lemma {:induction false} CursorNone(x: nat)
    ensures Cursor([], x) == x
  {
  }

  /** Resuming after the largest sequence seen is resuming after the last event received. */
  lemma {:induction false} HighestIsCursor(after: nat, got: seq<Envelope>)
    requires Increasing(got) && forall e | e in got :: e.sequence > after
    ensures Highest(after, got) == Cursor(got, after)
    decreases |got|
  {
    if got != [] {
      assert forall e | e in got[1..] :: e.sequence > got[0].sequence;
      HighestIsCursor(got[0].sequence, got[1..]);
    }
  }

  /** Every event of the log has a type of one line, and survives its encoding. */
  ghost predicate Streams(c: Codec, log: seq<Envelope>) {
    Faithful(c, log) && forall e | e in log :: OneLine(e.kind)
  }

  /** What the reader has of this connection is the next few events after its start. */
  lemma {:induction false} ReadIsNext(c: Codec, origin: nat, s: State, n: nat, eof: bool)
    requires Inv(c, origin, s) && Streams(c, s.log) && n <= |s.printed|
    ensures var got, k := Read(c, s, n, eof), UpTo(s.log, s.start);
      k + |got| <= UpTo(s.log, s.after) && got == s.log[k..k + |got|]
    ensures n == |s.printed| ==> Read(c, s, n, eof) == Between(s.log, s.start, s.after)
  {
    hide UpTo, Increasing, OneLine, Parse, Print, Received, Decoded, Keyed;
    var es := Between(s.log, s.start, s.after);
    assert AllPrintable(c, es);
    ReaderSeesPrefix(c, es, n, eof);
    ReceivedAll(c, es, eof);
  }

  lemma {:induction false} BreakKeeps(c: Codec, origin: nat, s: State, n: nat, eof: bool)
    requires Inv(c, origin, s) && Streams(c, s.log) && n <= |s.printed|
    ensures Inv(c, origin, Next(c, s, Break(n, eof)))
  {
    hide UpTo, Print, Read, Cursor, Highest, Increasing, Streams;
    ReadIsNext(c, origin, s, n, eof);
    var got, k := Read(c, s, n, eof), UpTo(s.log, s.start);
    ResumeIsCursor(s.log, s.start, k, k + |got|);
    CursorSplits(s.log, k, k + |got|, s.start);
    CursorBound(s, k, k + |got|, s.start);
    CursorNone(s.start);
    hide LogFine;
    PrintNothing(c);
    var resume := Highest(s.start, got);
    assert Between(s.log, resume, resume) == [];
    Glue(s.log, UpTo(s.log, origin), k, k + |got|);
  }

  lemma {:induction false} PrintNothing(c: Codec)
    ensures Print(c, []) == ""
  {
  }

  lemma {:induction false} ResumeIsCursor(rows: seq<Envelope>, x: nat, k: nat, n: nat)
    requires Increasing(rows) && k == UpTo(rows, x) && k <= n <= |rows|
    ensures Highest(x, rows[k..n]) == Cursor(rows[k..n], x)
  {
    UpToSplits(rows, x);
    hide UpTo;
    HighestIsCursor(x, rows[k..n]);
  }

  lemma {:induction false} StepsKeep(c: Codec, origin: nat, trace: seq<Event>)
    requires After(c, origin, trace).Some?
    requires Streams(c, After(c, origin, trace).value.log)
    ensures var s := After(c, origin, trace).value; Inv(c, origin, s) && origin <= s.start
    decreases |trace|
  {
    if trace != [] {
      var before, e := trace[..|trace| - 1], trace[|trace| - 1];
      var s := After(c, origin, before).value;
      StreamsBefore(c, s, e);
      StepsKeep(c, origin, before);
      hide Inv, Next, Streams;
      match e
      case Append(event) => AppendKeeps(c, origin, s, event);
      case Page => PageKeeps(c, origin, s);
      case Break(n, eof) => BreakKeeps(c, origin, s, n, eof);
      StartGrows(c, origin, s, e);
    }
  }

  lemma {:induction false} StreamsBefore(c: Codec, s: State, e: Event)
    requires Enabled(s, e) && Streams(c, Next(c, s, e).log)
    ensures Streams(c, s.log)
  {
    hide OneLine, Read, Print;
    assert s.log <= Next(c, s, e).log;
  }

  lemma {:induction false} HighestGrows(after: nat, got: seq<Envelope>)
    ensures Highest(after, got) >= after
    decreases |got|
  {
    if got != [] {
      HighestGrows(Max(after, got[0].sequence), got[1..]);
    }
  }

  lemma {:induction false} StartGrows(c: Codec, origin: nat, s: State, e: Event)
    requires Enabled(s, e)
    ensures Next(c, s, e).start >= s.start
  {
    if e.Break? {
      HighestGrows(s.start, Read(c, s, e.n, e.eof));
    }
  }

  /**
    * End to end: at every moment of every run the reader has seen the first few events after its
    * origin, each once and in order, however often the connection broke and wherever it was cut.
    */
  lemma {:induction false} DeliveryIsExact(c: Codec, origin: nat, trace: seq<Event>, n: nat, eof: bool)
    requires After(c, origin, trace).Some?
    requires Streams(c, After(c, origin, trace).value.log)
    requires n <= |After(c, origin, trace).value.printed|
    ensures var s := After(c, origin, trace).value;
      s.delivered + Read(c, s, n, eof) <= Later(s.log, origin)
  {
    hide UpTo, Print, Read, Streams, LogFine, After;
    StepsKeep(c, origin, trace);
    var s := After(c, origin, trace).value;
    ReadIsNext(c, origin, s, n, eof);
    var k := UpTo(s.log, s.start);
    Glue(s.log, UpTo(s.log, origin), k, k + |Read(c, s, n, eof)|);
  }

  /** Nothing is left out: a reader that has the whole text of a caught-up server has every event after its origin. */
  lemma {:induction false} DeliveryIsComplete(c: Codec, origin: nat, trace: seq<Event>, eof: bool)
    requires After(c, origin, trace).Some?
    requires Streams(c, After(c, origin, trace).value.log)
    requires var s := After(c, origin, trace).value; EventLog.Page(s.log, s.after, PAGE) == []
    ensures var s := After(c, origin, trace).value;
      s.delivered + Read(c, s, |s.printed|, eof) == Later(s.log, origin)
  {
    hide UpTo, Print, Read, Streams, LogFine, After;
    StepsKeep(c, origin, trace);
    var s := After(c, origin, trace).value;
    ReadIsNext(c, origin, s, |s.printed|, eof);
    PageIsNext(s.log, s.after);
    assert |Later(s.log, s.after)| == 0;
    Glue(s.log, UpTo(s.log, origin), UpTo(s.log, s.start), |s.log|);
  }
}
