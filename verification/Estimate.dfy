/** Token estimates (internal/contextpack/estimate.go). */
module Estimate {
  import opened Text
  import opened Messages

  const CHARS_PER_TOKEN := 4
  const PER_MESSAGE_OVERHEAD := 6

  /** Han, Hangul, Hiragana and Katakana by their principal Unicode blocks, and the two blocks the source adds. */
  predicate IsCJK(r: char) {
    var n := r as int;
    || 0x1100 <= n <= 0x11FF || 0x2E80 <= n <= 0x2FD5 || 0x3000 <= n <= 0x30FF || 0x3130 <= n <= 0x318F
    || 0x31F0 <= n <= 0x31FF || 0x3400 <= n <= 0x4DBF || 0x4E00 <= n <= 0x9FFF || 0xA960 <= n <= 0xA97F
    || 0xAC00 <= n <= 0xD7FF || 0xF900 <= n <= 0xFAFF || 0xFF00 <= n <= 0xFFEF || 0x1B000 <= n <= 0x1B16F
    || 0x20000 <= n <= 0x323AF
  }

  function CountCJK(text: string): (n: nat)
    ensures n <= |text|
  {
    if text == "" then 0 else
      var last := |text| - 1;
      CountCJK(text[..last]) + if IsCJK(text[last]) then 1 else 0
  }

  /** One token for each CJK rune, one for every four others, rounded up. */
  function TextTokens(text: string): (n: nat)
    ensures n == 0 <==> text == ""
  {
    var cjk := CountCJK(text);
    cjk + (|text| - cjk + CHARS_PER_TOKEN - 1) / CHARS_PER_TOKEN
  }

  method EstimateText(text: string) returns (est: int)
    ensures est == TextTokens(text)
  {
    if text == "" {
      return 0;
    }
    var cjk, other := 0, 0;
    for i := 0 to |text|
      invariant cjk == CountCJK(text[..i]) && other == i - cjk
    {
      assert text[..i + 1][..i] == text[..i];
      if IsCJK(text[i]) {
        cjk := cjk + 1;
      } else {
        other := other + 1;
      }
    }
    assert text[..|text|] == text;
    est := cjk;
    if other > 0 {
      est := est + (other + CHARS_PER_TOKEN - 1) / CHARS_PER_TOKEN;
    }
    if est < 1 {
      return 1;
    }
  }

  function CallsTokens(calls: seq<ToolCall>): nat {
    if calls == [] then 0 else
      var last := calls[|calls| - 1];
      CallsTokens(calls[..|calls| - 1]) + (TextTokens(last.id) + TextTokens(last.name) + TextTokens(last.arguments) + 4)
  }

  function MessageTokens(m: Message): nat {
    PER_MESSAGE_OVERHEAD + TextTokens(m.content) + TextTokens(m.thinking) + TextTokens(m.toolCallId) +
        CallsTokens(m.toolCalls)
  }

  function ListTokens(ms: seq<Message>): nat {
    if ms == [] then 0 else ListTokens(ms[..|ms| - 1]) + MessageTokens(ms[|ms| - 1])
  }

  lemma {:induction false} ListTokensConcat(a: seq<Message>, b: seq<Message>)
    ensures ListTokens(a + b) == ListTokens(a) + ListTokens(b)
  {
    if b == [] {
      assert a + b == a;
    } else {
      assert (a + b)[..|a + b| - 1] == a + b[..|b| - 1];
      ListTokensConcat(a, b[..|b| - 1]);
    }
  }

  method EstimateMessage(msg: Message) returns (n: int)
    ensures n == MessageTokens(msg)
  {
    var content := EstimateText(msg.content);
    var thinking := EstimateText(msg.thinking);
    n := PER_MESSAGE_OVERHEAD + content + thinking;
    if msg.toolCallId != "" {
      var id := EstimateText(msg.toolCallId);
      n := n + id;
    }
    ghost var base := n;
    for i := 0 to |msg.toolCalls|
      invariant n == base + CallsTokens(msg.toolCalls[..i])
    {
      var tc := msg.toolCalls[i];
      assert msg.toolCalls[..i + 1][..i] == msg.toolCalls[..i];
      var id := EstimateText(tc.id);
      var name := EstimateText(tc.name);
      var arguments := EstimateText(tc.arguments);
      n := n + id + name + arguments + 4;
    }
    assert msg.toolCalls[..|msg.toolCalls|] == msg.toolCalls;
  }

  method EstimateMessages(messages: seq<Message>) returns (total: int)
    ensures total == ListTokens(messages)
  {
    total := 0;
    for i := 0 to |messages|
      invariant total == ListTokens(messages[..i])
    {
      assert messages[..i + 1][..i] == messages[..i];
      var n := EstimateMessage(messages[i]);
      total := total + n;
    }
    assert messages[..|messages|] == messages;
  }

  /** The characters of a message that are sent. */
  function Characters(m: Message): nat {
    |m.content| + |m.thinking| + |m.toolCallId| + CallCharacters(m.toolCalls)
  }

  function CallCharacters(calls: seq<ToolCall>): nat {
    if calls == [] then 0 else
      var last := calls[|calls| - 1];
      CallCharacters(calls[..|calls| - 1]) + |last.id| + |last.name| + |last.arguments|
  }

  /** A character costs at most one token and at least a quarter of one; CJK characters cost one each. */
  lemma {:induction false} TextCosts(text: string)
    ensures TextTokens(text) <= |text| <= 4 * TextTokens(text)
    ensures 0 <= 4 * (TextTokens(text) - |Filter(IsCJK, text)|) - (|text| - |Filter(IsCJK, text)|) <= 3
  {
    CountIsFilter(text);
  }

  lemma {:induction false} CountIsFilter(text: string)
    ensures CountCJK(text) == |Filter(IsCJK, text)|
  {
    if text != "" {
      var last := |text| - 1;
      CountIsFilter(text[..last]);
      FilterOneMore(IsCJK, text[..last], text[last]);
      assert text == text[..last] + [text[last]];
    }
  }

  lemma {:induction false} CallsCost(calls: seq<ToolCall>)
    ensures 4 * |calls| <= CallsTokens(calls) <= CallCharacters(calls) + 4 * |calls|
    ensures CallCharacters(calls) + 16 * |calls| <= 4 * CallsTokens(calls)
  {
    hide TextTokens;
    if calls != [] {
      var last := calls[|calls| - 1];
      CallsCost(calls[..|calls| - 1]);
      TextCosts(last.id);
      TextCosts(last.name);
      TextCosts(last.arguments);
    }
  }

  /** So no part of a message is left out of its estimate: six tokens for it, four for each call, and its characters. */
  lemma {:induction false} MessageCosts(m: Message)
    ensures var fixed := 6 + 4 * |m.toolCalls|;
            && MessageTokens(m) <= fixed + Characters(m)
            && 4 * fixed + Characters(m) <= 4 * MessageTokens(m)
  {
    hide TextTokens;
    TextCosts(m.content);
    TextCosts(m.thinking);
    TextCosts(m.toolCallId);
    CallsCost(m.toolCalls);
  }

  // ----- pressure -----

  /** ShouldCompact; the pressure of three quarters is exact in integers. */
  predicate ShouldCompact(estimate: int, usable: int, overBudget: bool) {
    overBudget || (usable > 0 && 4 * estimate >= 3 * usable)
  }
}
