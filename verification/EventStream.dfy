/**
 * The event stream from the table to the client: the paging loop and frames of
 * internal/gateway/handlers_events.go, the line parser StreamSSE and StreamEvents of
 * internal/gatewayclient, and the reconnecting reader of internal/tui/run.go.
 */
module EventStream {
  import opened Text
  import opened EventLog

  const PAGE: nat := 100

  /** JSON encoding of an event and its decoding. */
  datatype Codec = Codec(marshal: Envelope -> string, unmarshal: string -> Option<Envelope>)

  /** Text that survives as the value of one line. */
  predicate OneLine(s: string) {
    '\n' !in s && (s != "" ==> s[|s| - 1] != '\r')
  }

  /** The event is encoded on one line, and decodes to itself. */
  predicate FaithfulAt(c: Codec, e: Envelope) {
    c.unmarshal(c.marshal(e)) == Some(e) && c.marshal(e) != "" && OneLine(c.marshal(e))
  }

  predicate Faithful(c: Codec, es: seq<Envelope>) {
    forall e | e in es :: FaithfulAt(c, e)
  }

  // --- what the server prints ---------------------------------------------------------------

  function IdLine(e: Envelope): string { "id: " + Decimal(e.sequence) }
  function KindLine(e: Envelope): string { "event: " + e.kind }
  function DataLine(c: Codec, e: Envelope): string { "data: " + c.marshal(e) }

  function Frame(c: Codec, e: Envelope): string {
    IdLine(e) + "\n" + KindLine(e) + "\n" + DataLine(c, e) + "\n\n"
  }

  function Print(c: Codec, es: seq<Envelope>): string {
    if es == [] then "" else Frame(c, es[0]) + Print(c, es[1..])
  }

  lemma {:induction false} PrintConcat(c: Codec, a: seq<Envelope>, b: seq<Envelope>)
    ensures Print(c, a + b) == Print(c, a) + Print(c, b)
  {
    if a == [] {
      assert a + b == b;
    } else {
      assert (a + b)[1..] == a[1..] + b;
      PrintConcat(c, a[1..], b);
    }
  }

  /** One pass of the paging loop: every item is printed and moves the cursor. */
  method PrintPage(c: Codec, items: seq<Envelope>, start: nat) returns (frames: string, after: nat)
    ensures frames == Print(c, items)
    ensures after == if items == [] then start else items[|items| - 1].sequence
  {
    frames, after := "", start;
    for i := 0 to |items|
      invariant frames == Print(c, items[..i])
      invariant after == if i == 0 then start else items[i - 1].sequence
    {
      PrintConcat(c, items[..i], [items[i]]);
      assert items[..i + 1] == items[..i] + [items[i]];
      assert Print(c, [items[i]][1..]) == "";
      frames := frames + Frame(c, items[i]);
      after := items[i].sequence;
    }
    assert items[..|items|] == items;
  }

  // --- what the client parses ---------------------------------------------------------------

  datatype Sse = Sse(id: string, event: string, data: Option<string>)

  const EMPTY: Sse := Sse("", "", None)

  /** The index of the first occurrence, or the length. */
  function First(s: string, x: char): (n: nat)
    ensures n <= |s|
    ensures x !in s[..n]
    ensures n < |s| ==> s[n] == x
  {
    if s == "" || s[0] == x then 0
    else
      var n := 1 + First(s[1..], x);
      assert s[..n] == [s[0]] + s[1..][..n - 1];
      n
  }

  /** strings.TrimRight(line, "\r\n"). */
  function TrimEnd(s: string): (r: string)
    ensures r <= s
    ensures r != "" ==> r[|r| - 1] != '\r' && r[|r| - 1] != '\n'
  {
    if s != "" && (s[|s| - 1] == '\r' || s[|s| - 1] == '\n') then TrimEnd(s[..|s| - 1]) else s
  }

  /** The effect of one non-blank line. */
  function Feed(cur: Sse, line: string): Sse {
    var colon := First(line, ':');
    var field := line[..colon];
    var rest := if colon < |line| then line[colon + 1..] else "";
    var value := if HasPrefix(rest, " ") then rest[1..] else rest;
    if field == "id" then cur.(id := value)
    else if field == "event" then cur.(event := value)
    else if field == "data" then cur.(data := Some(if cur.data.None? then value else cur.data.value + "\n" + value))
    else cur // unknown fields, and comments, whose field is empty
  }

  function Emit(cur: Sse): seq<Sse> {
    if cur != EMPTY then [cur] else []
  }

  /** `eof`: the stream ends cleanly, and not with a read error. An unterminated line is lost either way. */
  function Parse(text: string, cur: Sse, eof: bool): seq<Sse>
    decreases |text|
  {
    var n := First(text, '\n');
    if n == |text| then (if eof then Emit(cur) else [])
    else
      var line := TrimEnd(text[..n + 1]);
      if line == "" then Emit(cur) + Parse(text[n + 1..], EMPTY, eof)
      else Parse(text[n + 1..], Feed(cur, line), eof)
  }

  /** The lines after position `at`. */
  lemma {:induction false} ParseFrom(text: string, at: nat, cur: Sse, eof: bool)
    requires at <= |text|
    ensures var n := First(text[at..], '\n');
      Parse(text[at..], cur, eof) ==
        if at + n == |text| then (if eof then Emit(cur) else [])
        else
          var line := TrimEnd(text[at..][..n + 1]);
          if line == "" then Emit(cur) + Parse(text[at + n + 1..], EMPTY, eof)
          else Parse(text[at + n + 1..], Feed(cur, line), eof)
  {
    hide Feed, Emit, TrimEnd;
    var n := First(text[at..], '\n');
    if at + n < |text| {
      assert text[at..][n + 1..] == text[at + n + 1..];
    }
  }

  lemma {:induction false} FeedComment(cur: Sse, line: string)
    requires HasPrefix(line, ":")
    ensures Feed(cur, line) == cur
  {
    assert line[0] == ':';
    assert First(line, ':') == 0;
  }

  lemma {:induction false} EmitIfAny(cur: Sse)
    ensures Emit(cur) == if cur.data.Some? || cur.event != "" || cur.id != "" then [cur] else []
  {
  }

  method StreamSSE(text: string, eof: bool) returns (events: seq<Sse>)
    ensures events == Parse(text, EMPTY, eof)
  {
    hide Feed, TrimEnd, First, Parse, HasPrefix, Emit;
    events := [];
    var current := EMPTY;
    var at := 0;
    assert text[0..] == text;
    while true
      invariant at <= |text|
      invariant events + Parse(text[at..], current, eof) == Parse(text, EMPTY, eof)
      decreases |text| - at
    {
      ParseFrom(text, at, current, eof);
      EmitIfAny(current);
      var n := First(text[at..], '\n');
      if at + n == |text| {
        if eof && (current.data.Some? || current.event != "" || current.id != "") {
          events := events + [current];
        }
        return;
      }
      var line := TrimEnd(text[at..][..n + 1]);
      at := at + n + 1;
      if line == "" {
        assert events + (Emit(current) + Parse(text[at..], EMPTY, eof)) ==
               events + Emit(current) + Parse(text[at..], EMPTY, eof);
        if current.data.Some? || current.event != "" || current.id != "" {
          events := events + [current];
        }
        current := EMPTY;
        continue;
      }
      if HasPrefix(line, ":") {
        FeedComment(current, line);
        continue;
      }
      current := Feed(current, line);
    }
  }

  lemma {:induction false} FirstAt(before: string, x: char, rest: string)
    requires x !in before
    ensures First(before + [x] + rest, x) == |before|
  {
    var s := before + [x] + rest;
    var n := First(s, x);
    assert s[|before|] == x;
    assert forall k | 0 <= k < n :: s[..n][k] == s[k] != x;
    assert forall k | 0 <= k < |before| :: s[k] == before[k] != x;
  }

  lemma {:induction false} ParseLine(line: string, rest: string, cur: Sse, eof: bool)
    requires OneLine(line)
    ensures Parse(line + "\n" + rest, cur, eof) ==
            if line == "" then Emit(cur) + Parse(rest, EMPTY, eof) else Parse(rest, Feed(cur, line), eof)
  {
    var text := line + "\n" + rest;
    FirstAt(line, '\n', rest);
    assert text[..|line| + 1] == line + "\n";
    assert (line + "\n")[..|line|] == line;
    assert TrimEnd(line + "\n") == TrimEnd(line) == line;
    assert text[|line| + 1..] == rest;
  }

  lemma {:induction false} ParseCut(text: string, cur: Sse, eof: bool)
    requires '\n' !in text
    ensures Parse(text, cur, eof) == if eof then Emit(cur) else []
  {
  }

  lemma {:induction false} FeedField(cur: Sse, name: string, value: string)
    requires ':' !in name
    ensures Feed(cur, name + ": " + value) ==
      if name == "id" then cur.(id := value)
      else if name == "event" then cur.(event := value)
      else if name == "data" then cur.(data := Some(if cur.data.None? then value else cur.data.value + "\n" + value))
      else cur
  {
    var line := name + ": " + value;
    assert line == name + ":" + (" " + value);
    FirstAt(name, ':', " " + value);
    assert line[..|name|] == name;
    assert line[|name| + 1..] == " " + value;
    assert (" " + value)[1..] == value;
  }

  function Got(c: Codec, e: Envelope): Sse {
    Sse(Decimal(e.sequence), e.kind, Some(c.marshal(e)))
  }

  lemma {:induction false} FeedFrame(c: Codec, e: Envelope)
    ensures Feed(EMPTY, IdLine(e)) == Sse(Decimal(e.sequence), "", None)
    ensures Feed(Sse(Decimal(e.sequence), "", None), KindLine(e)) == Sse(Decimal(e.sequence), e.kind, None)
    ensures Feed(Sse(Decimal(e.sequence), e.kind, None), DataLine(c, e)) == Got(c, e)
  {
    hide Decimal, Feed;
    FeedField(EMPTY, "id", Decimal(e.sequence));
    FeedField(Sse(Decimal(e.sequence), "", None), "event", e.kind);
    FeedField(Sse(Decimal(e.sequence), e.kind, None), "data", c.marshal(e));
    assert IdLine(e) == "id" + ": " + Decimal(e.sequence);
    assert KindLine(e) == "event" + ": " + e.kind;
    assert DataLine(c, e) == "data" + ": " + c.marshal(e);
  }

  lemma {:induction false} OneLineField(name: string, value: string)
    requires OneLine(value) && '\n' !in name
    ensures OneLine(name + ": " + value) && name + ": " + value != ""
  {
    var line := name + ": " + value;
    assert line[|line| - 1] == if value == "" then ' ' else value[|value| - 1];
  }

  lemma {:induction false} DecimalIsOneLine(n: nat)
    ensures OneLine(Decimal(n))
  {
    var d := Decimal(n);
    hide Decimal;
    assert d[|d| - 1] in d;
  }

  lemma {:induction false} FrameLines(c: Codec, e: Envelope)
    requires OneLine(e.kind) && OneLine(c.marshal(e))
    ensures OneLine(IdLine(e)) && OneLine(KindLine(e)) && OneLine(DataLine(c, e))
    ensures IdLine(e) != "" && KindLine(e) != "" && DataLine(c, e) != ""
  {
    hide Decimal;
    DecimalIsOneLine(e.sequence);
    hide OneLine;
    OneLineField("id", Decimal(e.sequence));
    OneLineField("event", e.kind);
    OneLineField("data", c.marshal(e));
    assert IdLine(e) == "id" + ": " + Decimal(e.sequence);
    assert KindLine(e) == "event" + ": " + e.kind;
    assert DataLine(c, e) == "data" + ": " + c.marshal(e);
  }

  predicate Printable(c: Codec, e: Envelope) {
    OneLine(e.kind) && OneLine(c.marshal(e))
  }

  /** A frame is three lines and a blank one, whatever follows. */
  lemma {:induction false} FrameShape(c: Codec, e: Envelope, rest: string)
    ensures Frame(c, e) + rest == IdLine(e) + "\n" + AfterId(c, e, rest)
    ensures |Frame(c, e)| == |IdLine(e)| + |KindLine(e)| + |DataLine(c, e)| + 4
  {
    hide IdLine, KindLine, DataLine;
  }

  function AfterId(c: Codec, e: Envelope, rest: string): string {
    KindLine(e) + "\n" + AfterKind(c, e, rest)
  }

  function AfterKind(c: Codec, e: Envelope, rest: string): string {
    DataLine(c, e) + "\n" + ("" + "\n" + rest)
  }

  lemma {:induction false} ParseFrame(c: Codec, e: Envelope, rest: string, eof: bool)
    requires Printable(c, e)
    ensures Parse(Frame(c, e) + rest, EMPTY, eof) == [Got(c, e)] + Parse(rest, EMPTY, eof)
  {
    FrameLines(c, e);
    FeedFrame(c, e);
    FrameShape(c, e, rest);
    assert OneLine("");
    hide Decimal, Feed, OneLine, Parse, IdLine, KindLine, DataLine, Frame;
    ParseLine(IdLine(e), AfterId(c, e, rest), EMPTY, eof);
    ParseLine(KindLine(e), AfterKind(c, e, rest), Sse(Decimal(e.sequence), "", None), eof);
    ParseLine(DataLine(c, e), "" + "\n" + rest, Sse(Decimal(e.sequence), e.kind, None), eof);
    ParseLine("", rest, Got(c, e), eof);
  }

  // --- a connection that breaks -------------------------------------------------------------

  /** What the parser holds after n characters of a frame. */
  function Partial(c: Codec, e: Envelope, n: nat): Sse {
    var first := |IdLine(e)|;
    var second := first + 1 + |KindLine(e)|;
    var third := second + 1 + |DataLine(c, e)|;
    if n <= first then EMPTY
    else if n <= second then Sse(Decimal(e.sequence), "", None)
    else if n <= third then Sse(Decimal(e.sequence), e.kind, None)
    else Got(c, e)
  }

  /** What the parser emits for the first n characters of a stream of frames. */
  function CutEvents(c: Codec, es: seq<Envelope>, n: nat, eof: bool): seq<Sse> {
    if es == [] then []
    else if n >= |Frame(c, es[0])| then [Got(c, es[0])] + CutEvents(c, es[1..], n - |Frame(c, es[0])|, eof)
    else if eof then Emit(Partial(c, es[0], n)) else []
  }

  lemma {:induction false} ParsePrefixLine(line: string, tail: string, n: nat, cur: Sse, eof: bool)
    requires OneLine(line) && line != "" && n <= |line| + 1 + |tail|
    ensures Parse((line + "\n" + tail)[..n], cur, eof) ==
            if n <= |line| then (if eof then Emit(cur) else [])
            else Parse(tail[..n - |line| - 1], Feed(cur, line), eof)
  {
    hide Parse, Feed;
    var text := line + "\n" + tail;
    if n <= |line| {
      assert text[..n] == line[..n];
      ParseCut(line[..n], cur, eof);
    } else {
      assert text[..n] == line + "\n" + tail[..n - |line| - 1];
      ParseLine(line, tail[..n - |line| - 1], cur, eof);
    }
  }

  function KindAt(e: Envelope): nat { |IdLine(e)| + 1 }
  function DataAt(e: Envelope): nat { KindAt(e) + |KindLine(e)| + 1 }

  lemma {:induction false} ParseCutData(c: Codec, e: Envelope, n: nat, eof: bool)
    requires Printable(c, e) && n <= |DataLine(c, e)| + 1
    ensures Parse(AfterKind(c, e, "")[..n], Sse(Decimal(e.sequence), e.kind, None), eof) ==
            if eof then Emit(Partial(c, e, DataAt(e) + n)) else []
  {
    FrameLines(c, e);
    FeedFrame(c, e);
    hide Decimal, Feed, OneLine, Parse, IdLine, KindLine, DataLine, Emit;
    ParsePrefixLine(DataLine(c, e), "" + "\n" + "", n, Sse(Decimal(e.sequence), e.kind, None), eof);
    if n > |DataLine(c, e)| {
      assert ("" + "\n" + "")[..n - |DataLine(c, e)| - 1] == "";
      ParseCut("", Got(c, e), eof);
    }
  }

  lemma {:induction false} AfterKindLength(c: Codec, e: Envelope)
    ensures |AfterKind(c, e, "")| == |DataLine(c, e)| + 2
  {
    hide DataLine;
  }

  lemma {:induction false} PartialAtKind(c: Codec, e: Envelope, n: nat)
    requires n <= |KindLine(e)|
    ensures Partial(c, e, KindAt(e) + n) == Sse(Decimal(e.sequence), "", None)
  {
    hide IdLine, KindLine, DataLine, Decimal;
  }

  lemma {:induction false} ParseCutKind(c: Codec, e: Envelope, n: nat, eof: bool)
    requires Printable(c, e) && n <= |KindLine(e)| + |DataLine(c, e)| + 2
    ensures Parse(AfterId(c, e, "")[..n], Sse(Decimal(e.sequence), "", None), eof) ==
            if eof then Emit(Partial(c, e, KindAt(e) + n)) else []
  {
    FrameLines(c, e);
    FeedFrame(c, e);
    AfterKindLength(c, e);
    hide Decimal, Feed, OneLine, Printable, Parse, IdLine, KindLine, DataLine, Emit, AfterKind, Partial, KindAt;
    assert AfterId(c, e, "") == KindLine(e) + "\n" + AfterKind(c, e, "");
    hide AfterId;
    var id := Sse(Decimal(e.sequence), "", None);
    ParsePrefixLine(KindLine(e), AfterKind(c, e, ""), n, id, eof);
    if n <= |KindLine(e)| {
      PartialAtKind(c, e, n);
    } else {
      ParseCutData(c, e, n - |KindLine(e)| - 1, eof);
    }
  }

  lemma {:induction false} FrameIs(c: Codec, e: Envelope)
    ensures Frame(c, e) == IdLine(e) + "\n" + AfterId(c, e, "")
    ensures |AfterId(c, e, "")| == |KindLine(e)| + |DataLine(c, e)| + 3
  {
    FrameShape(c, e, "");
    hide IdLine, KindLine, DataLine, Frame;
    assert Frame(c, e) + "" == Frame(c, e);
  }

  lemma {:induction false} ParseCutFrame(c: Codec, e: Envelope, n: nat, eof: bool)
    requires Printable(c, e) && n < |Frame(c, e)|
    ensures Parse(Frame(c, e)[..n], EMPTY, eof) == if eof then Emit(Partial(c, e, n)) else []
  {
    hide Decimal, Feed, OneLine, Parse, IdLine, KindLine, DataLine, Frame, Emit, AfterId, AfterKind;
    FrameLines(c, e);
    FrameIs(c, e);
    ParsePrefixLine(IdLine(e), AfterId(c, e, ""), n, EMPTY, eof);
    if n > |IdLine(e)| {
      FeedFrame(c, e);
      ParseCutKind(c, e, n - |IdLine(e)| - 1, eof);
    }
  }

  ghost predicate AllPrintable(c: Codec, es: seq<Envelope>) {
    forall e | e in es :: Printable(c, e)
  }

  /** A stream cut anywhere yields the events of its whole frames, and at a clean end one more that may be partial. */
  lemma {:induction false} ParseCutStream(c: Codec, es: seq<Envelope>, n: nat, eof: bool)
    requires AllPrintable(c, es) && n <= |Print(c, es)|
    ensures Parse(Print(c, es)[..n], EMPTY, eof) == CutEvents(c, es, n, eof)
  {
    hide Parse, Frame, Printable, Partial;
    if es == [] {
      ParseCut("", EMPTY, eof);
      assert Print(c, es)[..n] == "";
    } else {
      var frame, rest := Frame(c, es[0]), Print(c, es[1..]);
      if n >= |frame| {
        assert (frame + rest)[..n] == frame + rest[..n - |frame|];
        ParseFrame(c, es[0], rest[..n - |frame|], eof);
        ParseCutStream(c, es[1..], n - |frame|, eof);
      } else {
        assert (frame + rest)[..n] == frame[..n];
        ParseCutFrame(c, es[0], n, eof);
      }
    }
  }

  // --- a whole stream -----------------------------------------------------------------------

  function Expected(c: Codec, es: seq<Envelope>): seq<Sse> {
    if es == [] then [] else [Got(c, es[0])] + Expected(c, es[1..])
  }

  lemma {:induction false} ParsePrinted(c: Codec, es: seq<Envelope>, eof: bool)
    requires AllPrintable(c, es)
    ensures Parse(Print(c, es), EMPTY, eof) == Expected(c, es)
  {
    hide Parse, Frame, Printable;
    if es == [] {
      ParseCut("", EMPTY, eof);
    } else {
      ParseFrame(c, es[0], Print(c, es[1..]), eof);
      ParsePrinted(c, es[1..], eof);
    }
  }

  /** Position n splits no frame behind its id line, except to leave out the newline that ends it. */
  predicate SplitsNoEvent(c: Codec, es: seq<Envelope>, n: nat) {
    es == [] ||
    var length := |Frame(c, es[0])|;
    if n >= length then SplitsNoEvent(c, es[1..], n - length) else n <= |IdLine(es[0])| || n == length - 1
  }

  lemma {:induction false} PartialIs(c: Codec, e: Envelope, n: nat)
    requires n < |Frame(c, e)|
    ensures Emit(Partial(c, e, n)) <= [Got(c, e)] <==> n <= |IdLine(e)| || n == |Frame(c, e)| - 1
    ensures |Emit(Partial(c, e, n))| <= 1
  {
    FrameShape(c, e, "");
    hide IdLine, KindLine, DataLine, Frame, Decimal;
    var partial := Partial(c, e, n);
    assert [partial] <= [Got(c, e)] <==> [partial][0] == [Got(c, e)][0];
  }

  lemma {:induction false} CutEventsComplete(c: Codec, es: seq<Envelope>, n: nat, eof: bool)
    requires n <= |Print(c, es)|
    ensures CutEvents(c, es, n, eof) <= Expected(c, es) <==> !eof || SplitsNoEvent(c, es, n)
  {
    hide Frame, Partial, Got, IdLine, Emit;
    if es != [] {
      var length := |Frame(c, es[0])|;
      if n >= length {
        CutEventsComplete(c, es[1..], n - length, eof);
        SameHead(Got(c, es[0]), CutEvents(c, es[1..], n - length, eof), Expected(c, es[1..]));
      } else {
        PartialIs(c, es[0], n);
        ShortPrefix(Emit(Partial(c, es[0], n)), Got(c, es[0]), Expected(c, es[1..]));
      }
    }
  }

  lemma {:induction false} SameHead<T>(x: T, a: seq<T>, b: seq<T>)
    ensures [x] + a <= [x] + b <==> a <= b
  {
    assert ([x] + a)[1..] == a && ([x] + b)[1..] == b;
    if [x] + a <= [x] + b {
      assert a == ([x] + b)[..|a| + 1][1..];
    }
  }

  lemma {:induction false} ShortPrefix<T>(a: seq<T>, x: T, b: seq<T>)
    requires |a| <= 1
    ensures a <= [x] + b <==> a <= [x]
  {
  }

  /**
   * A broken stream makes the parser emit an event that was never sent exactly when it ends cleanly and in the middle
   * of a frame: behind the line of the id and before the blank line. Anywhere else, or after a read error, what was
   * emitted are the first events.
   */
  lemma {:induction false} CutIsCompleteIff(c: Codec, es: seq<Envelope>, n: nat, eof: bool)
    requires AllPrintable(c, es) && n <= |Print(c, es)|
    ensures Parse(Print(c, es)[..n], EMPTY, eof) <= Expected(c, es) <==> !eof || SplitsNoEvent(c, es, n)
  {
    hide Parse, Print, CutEvents, Expected, SplitsNoEvent, AllPrintable;
    ParseCutStream(c, es, n, eof);
    CutEventsComplete(c, es, n, eof);
  }

  /** Any event will do: behind its id line, a clean end yields an event with neither type nor data. */
  lemma {:induction false} CleanEndCanMislead(c: Codec, e: Envelope)
    requires Printable(c, e)
    ensures var read := Parse(Print(c, [e])[..|IdLine(e)| + 1], EMPTY, true);
            read == [Sse(Decimal(e.sequence), "", None)] && !(read <= Expected(c, [e]))
  {
    FrameShape(c, e, "");
    hide Parse, Printable, Decimal;
    ParseCutStream(c, [e], |IdLine(e)| + 1, true);
    hide IdLine, KindLine, DataLine, Frame;
    assert Print(c, [e]) == Frame(c, e) + "";
    assert Expected(c, [e])[0] == Got(c, e);
  }

  lemma {:induction false} FeedKeepsOneLine(cur: Sse, line: string)
    requires OneLine(cur.event) && OneLine(line)
    ensures OneLine(Feed(cur, line).event)
  {
    var colon := First(line, ':');
    var rest := if colon < |line| then line[colon + 1..] else "";
    assert OneLine(rest);
    assert HasPrefix(rest, " ") ==> OneLine(rest[1..]);
  }

  lemma {:induction false} TrimmedIsOneLine(line: string)
    requires '\n' !in line
    ensures OneLine(TrimEnd(line + "\n"))
  {
    assert (line + "\n")[..|line|] == line;
    assert TrimEnd(line + "\n") == TrimEnd(line);
    var t := TrimEnd(line);
    assert forall k | 0 <= k < |t| :: t[k] == line[k];
  }

  /** No text whatever makes the parser emit an event name that holds a newline or ends in a carriage return. */
  lemma {:induction false} ParsedNamesAreOneLine(text: string, cur: Sse, eof: bool)
    requires OneLine(cur.event)
    ensures forall e | e in Parse(text, cur, eof) :: OneLine(e.event)
    decreases |text|
  {
    var n := First(text, '\n');
    if n < |text| {
      assert text[..n + 1] == text[..n] + "\n";
      TrimmedIsOneLine(text[..n]);
      var line := TrimEnd(text[..n + 1]);
      FeedKeepsOneLine(cur, line);
      hide Feed, TrimEnd, OneLine;
      ParsedNamesAreOneLine(text[n + 1..], if line == "" then EMPTY else Feed(cur, line), eof) by {
        assert OneLine("");
      }
    }
  }

  /** The stream reads back as printed exactly when every event type fits on one line. */
  lemma {:induction false} ReadBackIffTypesFit(c: Codec, es: seq<Envelope>, eof: bool)
    requires Faithful(c, es)
    ensures Parse(Print(c, es), EMPTY, eof) == Expected(c, es) <==> forall e | e in es :: OneLine(e.kind)
  {
    hide Parse, Print;
    if forall e | e in es :: OneLine(e.kind) {
      ParsePrinted(c, es, eof);
    }
    assert OneLine("");
    hide OneLine;
    ParsedNamesAreOneLine(Print(c, es), EMPTY, eof);
    forall e | e in es
      ensures Got(c, e) in Expected(c, es)
    {
      ExpectedHas(c, es, e);
    }
    assert forall e :: Got(c, e).event == e.kind;
  }

  lemma {:induction false} ExpectedHas(c: Codec, es: seq<Envelope>, e: Envelope)
    requires e in es
    ensures Got(c, e) in Expected(c, es)
  {
    if es[0] != e {
      ExpectedHas(c, es[1..], e);
    }
  }

  // --- the decoding reader ------------------------------------------------------------------

  /** StreamEvents: events without data are skipped, and undecodable data ends the stream. */
  function Decoded(c: Codec, parsed: seq<Sse>): seq<Envelope> {
    if parsed == [] then []
    else if parsed[0].data.None? || parsed[0].data.value == "" then Decoded(c, parsed[1..])
    else match c.unmarshal(parsed[0].data.value)
      case None => []
      case Some(e) => [e] + Decoded(c, parsed[1..])
  }

  /** How many of the frames in the first n characters reach the reader. */
  function Received(c: Codec, es: seq<Envelope>, n: nat, eof: bool): (k: nat)
    ensures k <= |es|
  {
    if es == [] then 0
    else if n >= |Frame(c, es[0])| then 1 + Received(c, es[1..], n - |Frame(c, es[0])|, eof)
    else if eof && n == |Frame(c, es[0])| - 1 then 1 else 0
  }

  /** A partial event never reaches the reader: whatever the cut, it sees the first events, whole and in order. */
  lemma {:induction false} ReaderSeesPrefix(c: Codec, es: seq<Envelope>, n: nat, eof: bool)
    requires Faithful(c, es) && AllPrintable(c, es) && n <= |Print(c, es)|
    ensures Decoded(c, Parse(Print(c, es)[..n], EMPTY, eof)) == es[..Received(c, es, n, eof)]
  {
    ParseCutStream(c, es, n, eof);
    DecodeCut(c, es, n, eof);
  }

  lemma {:induction false} DecodeCut(c: Codec, es: seq<Envelope>, n: nat, eof: bool)
    requires Faithful(c, es) && n <= |Print(c, es)|
    ensures Decoded(c, CutEvents(c, es, n, eof)) == es[..Received(c, es, n, eof)]
  {
    hide OneLine, Decimal, Frame, Partial, Emit;
    if es != [] {
      assert es[0] in es && FaithfulAt(c, es[0]);
      assert forall e | e in es[1..] :: e in es;
      var frame := Frame(c, es[0]);
      if n >= |frame| {
        DecodeCut(c, es[1..], n - |frame|, eof);
        var tail := CutEvents(c, es[1..], n - |frame|, eof);
        assert ([Got(c, es[0])] + tail)[1..] == tail;
        var k := Received(c, es[1..], n - |frame|, eof);
        assert es[..1 + k] == [es[0]] + es[1..][..k];
      } else if eof {
        DecodeOne(c, es[0], n);
      }
    }
  }

  lemma {:induction false} DecodeOne(c: Codec, e: Envelope, n: nat)
    requires FaithfulAt(c, e) && n < |Frame(c, e)|
    ensures Decoded(c, Emit(Partial(c, e, n))) == if n == |Frame(c, e)| - 1 then [e] else []
  {
    hide OneLine, Decimal;
    var p := Partial(c, e, n);
    assert |Frame(c, e)| == |IdLine(e)| + |KindLine(e)| + |DataLine(c, e)| + 4;
    assert n == |Frame(c, e)| - 1 ==> p == Got(c, e);
    assert n < |Frame(c, e)| - 1 ==> p.data.None?;
    hide Partial, Frame;
    assert Decoded(c, []) == [];
    assert [p][1..] == [];
  }

  lemma {:induction false} ReceivedAll(c: Codec, es: seq<Envelope>, eof: bool)
    ensures Received(c, es, |Print(c, es)|, eof) == |es|
  {
    hide Frame;
    if es != [] {
      ReceivedAll(c, es[1..], eof);
    }
  }

  // --- a type that does not survive ---------------------------------------------------------

  const TWO_LINES: Envelope := Envelope(0, "1", "a\nb", "task", "7", 1, Some(0), "core", 1, "", "", "", "{}")

  lemma {:induction false} TwoLinesAccepted(compact: string -> Option<string>)
    requires compact("{}") == Some("{}")
    ensures Normalize(TWO_LINES, 0, compact) == Some(TWO_LINES)
  {
    Untrimmed("1");
    Untrimmed("a\nb");
    Untrimmed("task");
    Untrimmed("7");
    Untrimmed("core");
    hide Trim;
  }

  /** The store accepts an event whose type holds a newline, and its frame does not read back. */
  lemma {:induction false} TypeCanBreakTheStream(c: Codec, sequence: nat, compact: string -> Option<string>)
    requires compact("{}") == Some("{}") && FaithfulAt(c, TWO_LINES.(sequence := sequence))
    ensures Normalize(TWO_LINES, 0, compact) == Some(TWO_LINES)
    ensures var es := [TWO_LINES.(sequence := sequence)]; Parse(Print(c, es), EMPTY, true) != Expected(c, es)
  {
    hide Normalize, Parse, Print, Expected;
    TwoLinesAccepted(compact);
    var e := TWO_LINES.(sequence := sequence);
    assert e.kind[1] == '\n' && !OneLine(e.kind);
    hide OneLine;
    assert e in [e];
    ReadBackIffTypesFit(c, [e], true);
  }

  lemma {:induction false} Untrimmed(s: string)
    requires s != "" && !IsSpace(s[0]) && !IsSpace(s[|s| - 1])
    ensures Trim(s) == s
  {
    assert TrimLeft(s) == s;
  }
}
