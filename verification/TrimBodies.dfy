/** Body trimming: trimRunes (internal/contextpack/pack.go, and its copy in internal/agent/trim.go) and its callers. */
module TrimBodies {
  import opened Text
  import opened Messages

  const DEFAULT_MAX_RUNES := 32 * 1024
  const MIN_RUNES := 16
  const MARKER_TEXT := 45 // runes of the marker besides the count

  function Marker(omitted: nat): (m: string)
    ensures |m| == MARKER_TEXT + |Decimal(omitted)|
  {
    "\n...[trimmed " + Decimal(omitted) + " runes for provider context]...\n"
  }

  /** The limit that is really applied. */
  function Limit(maxRunes: int): int {
    if maxRunes < MIN_RUNES then MIN_RUNES else maxRunes
  }

  /** Runes left for the text itself beside a marker that prints the full length. */
  function Keep(content: string, maxRunes: int): int {
    Limit(maxRunes) - |Marker(|content|)|
  }

  /** The head and the tail that trimRunes settles on before it fits the real marker. */
  function FirstTail(keep: int): int
    requires keep >= 1
  {
    keep - keep / 2
  }

  function FirstHead(keep: int): int
    requires keep >= 1
  {
    Max(1, keep / 2)
  }

  /** The count printed in the marker. */
  function Printed(content: string, maxRunes: int): nat
    requires |content| > Limit(maxRunes) && Keep(content, maxRunes) >= 1
  {
    |content| - FirstHead(Keep(content, maxRunes)) - FirstTail(Keep(content, maxRunes))
  }

  /** Runes kept at the end: the first guess, unless the single spare rune went to the head. */
  function TailLength(content: string, maxRunes: int): (tail: nat)
    requires |content| > Limit(maxRunes) && Keep(content, maxRunes) >= 1
  {
    var keep := Keep(content, maxRunes);
    var digits := |Decimal(Printed(content, maxRunes))|;
    if keep == 1 && digits == |Decimal(|content|)| then 0 else FirstTail(keep)
  }

  function Trimmed(content: string, maxRunes: int): string {
    var limit := Limit(maxRunes);
    if |content| <= limit then content
    else if Keep(content, maxRunes) < 1 then content[..limit]
    else
      MarkerFits(content, maxRunes);
      var marker := Marker(Printed(content, maxRunes));
      var tail := TailLength(content, maxRunes);
      content[..limit - |marker| - tail] + marker + content[|content| - tail..]
  }

  /** Dropping two runes shortens the printed count by one digit at most. */
  lemma {:induction false} DropTwo(n: nat)
    requires n >= 16
    ensures |Decimal(n)| - 1 <= |Decimal(n - 2)| <= |Decimal(n)|
  {
    DecimalMonotone(n - 2, n);
    DecimalMonotone(n / 10, n - 2);
  }

  lemma {:induction false} MarkerFits(content: string, maxRunes: int)
    requires |content| > Limit(maxRunes) && Keep(content, maxRunes) >= 1
    ensures |Marker(Printed(content, maxRunes))| <= |Marker(|content|)|
    ensures 0 <= Limit(maxRunes) - |Marker(Printed(content, maxRunes))| - TailLength(content, maxRunes) < |content|
  {
    hide Marker, Decimal;
    DecimalMonotone(Printed(content, maxRunes), |content|);
    if Keep(content, maxRunes) == 1 {
      DropTwo(|content|);
    }
  }

  method FirstGuess(keep: int) returns (head: int, tail: int)
    requires keep >= 1
    ensures head == FirstHead(keep) >= 1 && tail == FirstTail(keep) >= 1
    ensures head + tail <= keep + 1
  {
    head := keep / 2;
    tail := keep - head;
    if head < 1 {
      head := 1;
    }
    if tail < 1 {
      tail := 1;
    }
  }

  /** Fits head, marker and tail to the limit: spare runes go to the head, missing ones come from the tail first. */
  method Refit(head: int, tail: int, markerLen: int, limit: int) returns (h: int, t: int)
    requires head >= 1 && tail >= 1
    ensures var over := head + markerLen + tail - limit;
            if over < tail then h == head - Min(0, over) && t == tail - Max(0, over)
            else t == 0 && h == Max(0, head + tail - over)
  {
    h, t := head, tail;
    if h + markerLen + t < limit {
      var extra := limit - h - markerLen - t;
      h := h + extra;
    }
    if h + markerLen + t > limit {
      var overflow := h + markerLen + t - limit;
      if t > overflow {
        t := t - overflow;
      } else {
        overflow := overflow - t;
        t := 0;
        if h > overflow {
          h := h - overflow;
        } else {
          h := 0;
        }
      }
    }
  }

  method TrimRunes(content: string, maxRunes: int) returns (r: string)
    ensures r == Trimmed(content, maxRunes)
    ensures |r| == Min(|content|, Limit(maxRunes))
  {
    hide Marker, Trimmed, TailLength, Decimal, FirstHead, FirstTail;
    TrimmedLength(content, maxRunes);
    TrimmedCases(content, maxRunes);
    var limit := maxRunes;
    if limit < MIN_RUNES {
      limit := MIN_RUNES;
    }
    var runes := |content|;
    if runes <= limit {
      return content;
    }
    var marker := Marker(runes);
    var markerLen := |marker|;
    if markerLen >= limit {
      return content[..limit];
    }
    var keep := limit - markerLen;
    var head, tail := FirstGuess(keep);
    if head + tail >= runes {
      return content;
    }
    var omitted := runes - head - tail;
    ghost var head0, tail0 := head, tail;
    marker := Marker(omitted);
    markerLen := |marker|;
    head, tail := Refit(head, tail, markerLen, limit);
    RefitSettles(content, maxRunes, head, tail);
    if head + tail >= runes || head < 0 || tail < 0 {
      // the source falls back to a plain prefix here, but the fitted lengths never get this far
      assert false;
    }
    return content[..head] + marker + content[runes - tail..];
  }

  lemma {:induction false} TrimmedCases(content: string, maxRunes: int)
    ensures |content| <= Limit(maxRunes) ==> Trimmed(content, maxRunes) == content
    ensures |content| > Limit(maxRunes) && Keep(content, maxRunes) < 1 ==>
              Trimmed(content, maxRunes) == content[..Limit(maxRunes)]
  {
  }

  lemma {:induction false} RefitSettles(content: string, maxRunes: int, h: int, t: int)
    requires |content| > Limit(maxRunes) && Keep(content, maxRunes) >= 1
    requires var head, tail := FirstHead(Keep(content, maxRunes)), FirstTail(Keep(content, maxRunes));
             var over := head + |Marker(Printed(content, maxRunes))| + tail - Limit(maxRunes);
             if over < tail then h == head - Min(0, over) && t == tail - Max(0, over)
             else t == 0 && h == Max(0, head + tail - over)
    ensures t == TailLength(content, maxRunes)
    ensures h == Limit(maxRunes) - |Marker(Printed(content, maxRunes))| - t
    ensures h >= 0 && h + t < |content|
    ensures Trimmed(content, maxRunes) ==
            content[..h] + Marker(Printed(content, maxRunes)) + content[|content| - t..]
  {
    RefitLengths(content, maxRunes, h, t);
    hide Marker, Decimal, TailLength, FirstHead, FirstTail, Printed, Keep;
  }

  lemma {:induction false} RefitLengths(content: string, maxRunes: int, h: int, t: int)
    requires |content| > Limit(maxRunes) && Keep(content, maxRunes) >= 1
    requires var head, tail := FirstHead(Keep(content, maxRunes)), FirstTail(Keep(content, maxRunes));
             var over := head + |Marker(Printed(content, maxRunes))| + tail - Limit(maxRunes);
             if over < tail then h == head - Min(0, over) && t == tail - Max(0, over)
             else t == 0 && h == Max(0, head + tail - over)
    ensures t == TailLength(content, maxRunes)
    ensures h == Limit(maxRunes) - |Marker(Printed(content, maxRunes))| - t
    ensures h >= 0 && h + t < |content|
  {
    hide Marker, Decimal, Trimmed;
    MarkerFits(content, maxRunes);
    if Keep(content, maxRunes) == 1 {
      DropTwo(|content|);
    }
  }

  /** A trimmed text has exactly the limit's length, so the limit always holds and nothing shorter is touched. */
  lemma {:induction false} TrimmedLength(content: string, maxRunes: int)
    ensures |Trimmed(content, maxRunes)| == Min(|content|, Limit(maxRunes))
  {
    hide Marker, Decimal;
    if |content| > Limit(maxRunes) && Keep(content, maxRunes) >= 1 {
      MarkerFits(content, maxRunes);
    }
  }

  lemma {:induction false} TrimIdempotent(content: string, maxRunes: int)
    ensures Trimmed(Trimmed(content, maxRunes), maxRunes) == Trimmed(content, maxRunes)
  {
    TrimmedLength(content, maxRunes);
  }

  /** The result is a prefix of the text, or a prefix, a marker and a suffix that do not overlap. */
  ghost predicate CutOut(content: string, r: string, head: nat, tail: nat, printed: nat) {
    head + tail < |content| && r == content[..head] + Marker(printed) + content[|content| - tail..]
  }

  lemma {:induction false} TrimmedShape(content: string, maxRunes: int)
    ensures Trimmed(content, maxRunes) <= content ||
            exists head: nat, tail: nat, printed: nat ::
                CutOut(content, Trimmed(content, maxRunes), head, tail, printed)
  {
    hide Marker, Decimal;
    var limit := Limit(maxRunes);
    if |content| > limit && Keep(content, maxRunes) >= 1 {
      MarkerFits(content, maxRunes);
      var printed := Printed(content, maxRunes);
      var tail := TailLength(content, maxRunes);
      assert CutOut(content, Trimmed(content, maxRunes), limit - |Marker(printed)| - tail, tail, printed);
    }
  }

  /** Runes really left out when a marker is printed. */
  function Omitted(content: string, maxRunes: int): int
    requires |content| > Limit(maxRunes) && Keep(content, maxRunes) >= 1
  {
    |content| - (Limit(maxRunes) - |Marker(Printed(content, maxRunes))|)
  }

  /**
   * The count printed in the marker is the number of runes left out exactly when the count has as many digits
   * as the length, except that with one spare rune it must have fewer.
   */
  lemma {:induction false} PrintedCountExact(content: string, maxRunes: int)
    requires |content| > Limit(maxRunes) && Keep(content, maxRunes) >= 1
    ensures var keep := Keep(content, maxRunes);
            Printed(content, maxRunes) == Omitted(content, maxRunes) <==>
            ((|Decimal(|content| - Max(2, keep))| == |Decimal(|content|)|) != (keep == 1))
  {
    hide Marker, Decimal;
    MarkerFits(content, maxRunes);
    if Keep(content, maxRunes) == 1 {
      DropTwo(|content|);
    }
  }

  /** 10040 runes trimmed to 100: the marker says 9990, and 9989 are left out. */
  lemma {:induction false} PrintedCountCanBeWrong(content: string)
    requires |content| == 10_040
    ensures Keep(content, 100) == 50
    ensures Printed(content, 100) == 9_990 && Omitted(content, 100) == 9_989
  {
    DecimalDigits(10_040, 5);
    DecimalDigits(9_990, 4);
    hide Decimal;
  }

  /** A number below ten to the power of d, and not below the power before, has d digits. */
  lemma {:induction false} DecimalDigits(n: nat, d: nat)
    requires 1 <= d && n < Power(d) && (d > 1 ==> Power(d - 1) <= n)
    ensures |Decimal(n)| == d
    decreases d
  {
    if d > 1 {
      assert Power(d) == 10 * Power(d - 1) && Power(d - 1) == 10 * Power(d - 2);
      DecimalDigits(n / 10, d - 1);
    }
  }

  function Power(d: nat): nat {
    if d == 0 then 1 else 10 * Power(d - 1)
  }

  /** Which bodies are trimmed: tool results, and assistant text without tool calls. */
  predicate Trimmable(m: Message) {
    m.role.Tool? || (m.role.Assistant? && m.toolCalls == [])
  }

  function TrimMessage(m: Message, maxRunes: int): Message {
    if Trimmable(m) then m.(content := Trimmed(m.content, maxRunes)) else m
  }

  function TrimFrom(ms: seq<Message>, start: nat, maxRunes: int): (r: seq<Message>)
    ensures |r| == |ms|
    ensures SameShape(r, ms)
  {
    seq(|ms|, i requires 0 <= i < |ms| => if i < start then ms[i] else TrimMessage(ms[i], maxRunes))
  }

  function MaxRunesOrDefault(maxRunes: int): int {
    if maxRunes <= 0 then DEFAULT_MAX_RUNES else maxRunes
  }

  /** How many of the bodies in [start, end) a trim shortens. */
  function CountTrimmed(ms: seq<Message>, start: nat, end: int, maxRunes: int): nat
    requires end <= |ms|
  {
    if end <= start then 0
    else CountTrimmed(ms, start, end - 1, maxRunes) + if TrimMessage(ms[end - 1], maxRunes) != ms[end - 1] then 1 else 0
  }

  /** The switch on one message. */
  method TrimOne(m: Message, limit: int) returns (m': Message, changed: bool)
    ensures m' == TrimMessage(m, limit)
    ensures changed <==> m' != m
  {
    m', changed := m, false;
    match m.role {
      case Tool =>
        var body := TrimRunes(m.content, limit);
        m', changed := m.(content := body), body != m.content;
      case Assistant =>
        if |m.toolCalls| == 0 {
          var body := TrimRunes(m.content, limit);
          m', changed := m.(content := body), body != m.content;
        }
      case _ =>
    }
  }

  /** TrimToolBodies (internal/contextpack/view.go), in place; Pack's first pass is the same loop from 0. */
  method TrimToolBodies(messages: array<Message>, start: int, maxRunes: int) returns (trimmed: nat)
    modifies messages
    ensures messages[..] == TrimFrom(old(messages[..]), Max(0, start), MaxRunesOrDefault(maxRunes))
    ensures trimmed == CountTrimmed(old(messages[..]), Max(0, start), messages.Length, MaxRunesOrDefault(maxRunes))
  {
    var limit := maxRunes;
    if limit <= 0 {
      limit := DEFAULT_MAX_RUNES;
    }
    var from := start;
    if from < 0 {
      from := 0;
    }
    hide TrimMessage, SameShape;
    ghost var was := messages[..];
    trimmed := 0;
    var i := from;
    while i < messages.Length
      invariant from <= i
      invariant forall k | 0 <= k < messages.Length ::
                  messages[k] == if from <= k < i then TrimMessage(was[k], limit) else was[k]
      invariant i > messages.Length ==> i == from
      invariant trimmed == CountTrimmed(was, from, Min(i, messages.Length), limit)
    {
      var m, changed := TrimOne(messages[i], limit);
      messages[i] := m;
      if changed {
        trimmed := trimmed + 1;
      }
      i := i + 1;
    }
  }

  /**
   * From the start position on, no tool result and no assistant text without calls is longer than the limit, which is
   * at least 16 runes; one that was no longer is left alone, and so is everything else.
   */
  lemma {:induction false} BodiesFit(ms: seq<Message>, start: nat, maxRunes: int, i: nat)
    requires i < |ms|
    ensures var after := TrimFrom(ms, start, maxRunes)[i];
            var body := ms[i].role.Tool? || (ms[i].role.Assistant? && ms[i].toolCalls == []);
            && after == ms[i].(content := after.content)
            && (i < start || !body ==> after == ms[i])
            && (i >= start && body ==>
                  && |after.content| == Min(|ms[i].content|, Max(16, maxRunes))
                  && (|ms[i].content| <= Max(16, maxRunes) ==> after == ms[i]))
  {
    hide Trimmed;
    TrimmedLength(ms[i].content, maxRunes);
    TrimmedCases(ms[i].content, maxRunes);
  }

  /**
   * A text that is too long, trimmed to a limit that leaves room for two runes besides the marker, keeps its first and
   * its last runes: at least half of that room at either end.
   */
  lemma {:induction false} KeepsBothEnds(content: string, maxRunes: int)
    requires |content| > Limit(maxRunes) && Keep(content, maxRunes) >= 2
    ensures var r, half := Trimmed(content, maxRunes), Keep(content, maxRunes) / 2;
            && 2 * half + 1 < |content| && half <= |r|
            && r[..half] == content[..half] && r[|r| - half..] == content[|content| - half..]
  {
    hide Marker, Decimal;
    MarkerFits(content, maxRunes);
    var keep := Keep(content, maxRunes);
    var marker := Marker(Printed(content, maxRunes));
    var tail := TailLength(content, maxRunes);
    var head := Limit(maxRunes) - |marker| - tail;
    assert tail == keep - keep / 2 && head >= keep / 2;
    BothEnds(content, head, marker, tail, keep / 2);
  }

  lemma {:induction false} BothEnds(content: string, head: nat, marker: string, tail: nat, half: nat)
    requires half <= head <= |content| && half <= tail <= |content|
    ensures var r := content[..head] + marker + content[|content| - tail..];
            half <= |r| && r[..half] == content[..half] && r[|r| - half..] == content[|content| - half..]
  {
    var front, back := content[..head] + marker, content[|content| - tail..];
    assert (front + back)[|front + back| - half..] == back[tail - half..];
  }

  lemma {:induction false} TrimFromIdempotent(ms: seq<Message>, start: nat, maxRunes: int)
    ensures TrimFrom(TrimFrom(ms, start, maxRunes), start, maxRunes) == TrimFrom(ms, start, maxRunes)
  {
    forall i | 0 <= i < |ms|
      ensures TrimMessage(TrimMessage(ms[i], maxRunes), maxRunes) == TrimMessage(ms[i], maxRunes)
    {
      TrimIdempotent(ms[i].content, maxRunes);
    }
  }

  /** trimMessagesForProvider (internal/agent/trim.go): a trimmed copy. */
  method TrimMessagesForProvider(messages: seq<Message>, maxToolResultRunes: int) returns (out: seq<Message>)
    ensures out == TrimFrom(messages, 0, MaxRunesOrDefault(maxToolResultRunes))
  {
    var limit := maxToolResultRunes;
    if limit <= 0 {
      limit := DEFAULT_MAX_RUNES;
    }
    if |messages| == 0 {
      return [];
    }
    out := [];
    for i := 0 to |messages|
      invariant |out| == i
      invariant forall k | 0 <= k < i :: out[k] == TrimMessage(messages[k], limit)
    {
      var msg, _ := TrimOne(messages[i], limit);
      out := out + [msg];
    }
  }
}
