/** A conversation whose mid-turn rebuild leaves a tool result without its call. */
module Orphans {
  import opened Text
  import opened Messages
  import opened Repair
  import opened Estimate
  import opened TrimBodies
  import opened Clear
  import opened Turns
  import opened View
  import opened MidTurn
  import Pack

  /** Text that fills the smallest budget by itself. */
  function Long(n: nat): (s: string)
    ensures |s| == n && forall c | c in s :: c == 'x'
  {
    if n == 0 then "" else "x" + Long(n - 1)
  }

  function Batch1(): Message {
    Message(Assistant, Long(5_000), "", "", [ToolCall("a", "t", "{}")])
  }

  const RESULT: Message := ToolMessage("a", "ok")

  /** The user steers right after a tool result, and speaks twice more. */
  function Talk(): seq<Message> {
    [UserMessage("p"), Batch1(), RESULT, UserMessage("q"), UserMessage("r"), UserMessage("s")]
  }

  /** The last two turns of the history, with the batch that the cut moves back to. */
  function Tail(): seq<Message> {
    [Batch1(), RESULT, UserMessage("q"), UserMessage("r")]
  }

  const SETTINGS: Settings := Settings(16_384, 8_192, 0, (n: int) => n)

  lemma {:induction false} PlainText(s: string)
    requires forall c | c in s :: c == 'x'
    ensures CountCJK(s) == 0
  {
    if s != "" {
      var front, last := s[..|s| - 1], s[|s| - 1];
      assert last in s && forall c | c in front :: c in s;
      PlainText(front);
    }
  }

  lemma {:induction false} BatchTokens()
    ensures MessageTokens(Batch1()) >= 1_250
  {
    hide Long;
    PlainText(Long(5_000));
    assert TextTokens(Long(5_000)) == 1_250;
  }

  lemma {:induction false} TalkPaired()
    ensures Paired(Talk(), {}) && Paired(Tail(), {}) && Offered(Batch1()) == {"a"}
  {
    hide Long;
    var id := "a";
    assert TrimLeft(id) == id && TrimRight(id) == id && Trim(id) == id;
    assert Offered(Batch1()) == {id} by {
      assert Batch1().toolCalls[0] in Batch1().toolCalls;
      assert forall c | c in Batch1().toolCalls :: Trim(c.id) == id;
    }
    hide Trim, CallIds;
    var users := [UserMessage("q"), UserMessage("r"), UserMessage("s")];
    UsersPaired(users);
    UsersPaired([UserMessage("q"), UserMessage("r")]);
    BatchPaired(users);
    BatchPaired([UserMessage("q"), UserMessage("r")]);
    assert Talk() == [UserMessage("p")] + ([Batch1(), RESULT] + users);
    UsersPaired([UserMessage("p")]);
    PairedConcat([UserMessage("p")], [Batch1(), RESULT] + users, {});
    assert Tail() == [Batch1(), RESULT] + [UserMessage("q"), UserMessage("r")];
  }

  lemma {:induction false} UsersPaired(users: seq<Message>)
    requires forall m | m in users :: m.role.User? && m.toolCalls == []
    ensures Paired(users, {})
  {
    if users != [] {
      assert Offered(users[0]) == CallIds([]) == {};
      UsersPaired(users[1..]);
    }
  }

  lemma {:induction false} BatchPaired(after: seq<Message>)
    requires Paired(after, {}) && Offered(Batch1()) == {"a"} && Trim("a") == "a"
    ensures Paired([Batch1(), RESULT] + after, {})
  {
    hide Long;
    var ms := [Batch1(), RESULT] + after;
    assert ms[1..] == [RESULT] + after && ms[1..][1..] == after;
    assert {"a"} - {"a"} == {};
  }

  // ----- what the rebuild packs -----

  function History(): seq<Message> {
    Talk()[..5]
  }

  lemma {:induction false} HistoryUsers()
    ensures Users(History()) == 3 && TailStart(History(), 2) == 3
  {
    hide Long;
    var h := History();
    assert h[..4][..3] == h[..3] && h[..3][..2] == h[..2] && h[..2][..1] == h[..1] && h[..1][..0] == [];
    assert Users(h[..1]) == 1 && Users(h[..2]) == 1 && Users(h[..3]) == 1 && Users(h[..4]) == 2;
    assert TailStart(h[..4], 1) == 3;
  }

  lemma {:induction false} HistoryCut()
    ensures LeadingSystem(History()) == 0 && AlignCut(History(), 3, 0) == 1
  {
    hide Long;
    var h := History();
    assert LeadingSystem(h) == 0;
    assert BackOverTools(h, 3, 0) == 2 by {
      assert BackOverTools(h, 2, 0) == 2;
    }
  }

  lemma {:induction false} HistorySplit()
    ensures HeadTail(History(), 2) == Split(History()[0..1], History()[..0] + History()[1..])
  {
    HistoryUsers();
    HistoryCut();
    hide Long, Users, TailStart, LeadingSystem, AlignCut;
    assert |History()| == 5;
  }

  /** The cut before "q" moves back over the result to its batch, so the kept turns start with the batch. */
  lemma {:induction false} HistoryKept()
    ensures KeptTurns(History()) == Tail()
  {
    hide Long, HeadTail, AlignCut;
    HistorySplit();
    var h := History();
    assert h[..0] + h[1..] == Tail();
    assert LeadingSystem(Tail()) == 0;
  }

  lemma {:induction false} TalkKept()
    ensures KeptHistory(Talk()) == Tail()
  {
    hide Long, Users, TailStart, KeptTurns, LastUser;
    var t := Talk();
    assert LeadingSystem(t) == 0 && t[0..] == t;
    assert OpenView(t).rest == t;
    LastUserUnique(t, 5);
    assert forall m | m in t[..5] :: NotTodo(m);
    FilterAll(NotTodo, t[..5]);
    HistoryKept();
  }

  // ----- what the packing does -----

  lemma {:induction false} ShortUntrimmed(ms: seq<Message>, start: nat, maxRunes: int)
    requires forall m | m in ms :: Trimmable(m) ==> |m.content| <= 16
    ensures TrimFrom(ms, start, maxRunes) == ms
  {
    forall i | 0 <= i < |ms|
      ensures TrimMessage(ms[i], maxRunes) == ms[i]
    {
      assert ms[i] in ms;
      TrimmedCases(ms[i].content, maxRunes);
    }
  }

  lemma {:induction false} TailUncleared()
    ensures Cleared(Tail(), Pack.DEFAULT_PROTECT, Pack.DEFAULT_RECLAIM) == Tail()
  {
    hide Long, TextTokens, OldTokensFrom, WorthClearing, Placeholder;
    var t := Tail();
    assert ToolTokensFrom(t, 4) == 0 && ToolTokensFrom(t, 3) == 0 && ToolTokensFrom(t, 2) == 0;
    forall i | 0 <= i < |t|
      ensures ClearedAt(t, i, Pack.DEFAULT_PROTECT, Pack.DEFAULT_RECLAIM) == t[i]
    {
    }
  }

  lemma {:induction false} TailIsShort()
    ensures forall m | m in Tail() :: Trimmable(m) ==> |m.content| <= 16
  {
    hide Long;
  }

  lemma {:induction false} TailView(opt: Pack.PackOptions)
    requires opt.budget > 0 && opt.toolProtectTokens <= 0 && opt.toolReclaimMin <= 0
    ensures Pack.View(Tail(), opt) == Tail()
  {
    var maxRunes := Pack.OrDefault(opt.maxToolResultRunes, DEFAULT_MAX_RUNES);
    TailIsShort();
    hide Long, Repaired, TrimFrom, Cleared, Tail, Paired, Batch1;
    TalkPaired();
    FixedPointIffPaired(Tail());
    ShortUntrimmed(Tail(), 0, maxRunes);
    TailUncleared();
  }

  lemma {:induction false} ShortTokens(m: Message)
    requires m.thinking == "" && m.toolCalls == []
    ensures MessageTokens(m) <= 6 + |m.content| + |m.toolCallId|
  {
    assert TextTokens("") == 0;
  }

  lemma {:induction false} TailTokens()
    ensures ListTokens(Tail()) >= 1_250 && ListTokens([RESULT, UserMessage("q"), UserMessage("r")]) <= 100
  {
    BatchTokens();
    var q, r := UserMessage("q"), UserMessage("r");
    var rest := [RESULT, q, r];
    assert Tail() == [Batch1()] + rest;
    ShortTokens(RESULT);
    ShortTokens(q);
    ShortTokens(r);
    hide Long, Batch1, Tail, MessageTokens, ListTokens;
    ListTokensConcat([Batch1()], rest);
    OneToken(Batch1());
    ThreeTokens(RESULT, q, r);
  }

  lemma {:induction false} ThreeTokens(a: Message, b: Message, c: Message)
    ensures ListTokens([a, b, c]) == MessageTokens(a) + MessageTokens(b) + MessageTokens(c)
  {
    hide MessageTokens, ListTokens;
    OneToken(a);
    OneToken(b);
    OneToken(c);
    assert [a, b, c] == [a] + [b] + [c];
    ListTokensConcat([a] + [b], [c]);
    ListTokensConcat([a], [b]);
  }

  /** The batch is dropped alone: without it the budget holds, and its result is left. */
  lemma {:induction false} TailStops(budget: int)
    requires 100 <= budget < 1_250
    ensures Pack.Stop(Tail(), 0, budget) == 1
  {
    hide Long, ListTokens;
    TailTokens();
    var t := Tail();
    assert Pack.Odd(t, 0) == 0 && Pack.Left(t, 0) == t;
    assert !Pack.Settles(t, 0, budget);
    assert t[..1] == [Batch1()] && Filter(Pack.IsSystem, [Batch1()]) == [];
    assert Pack.Left(t, 1) == [RESULT, UserMessage("q"), UserMessage("r")];
    assert Pack.Settles(t, 1, budget);
  }

  /** A paired list that a pack with a budget leaves unpaired. */
  lemma {:induction false} PackCanOrphan(opt: Pack.PackOptions)
    requires 100 <= opt.budget < 1_250 && opt.toolProtectTokens <= 0 && opt.toolReclaimMin <= 0
    ensures Paired(Tail(), {}) && !Paired(Pack.Packed(Tail(), opt).messages, {})
  {
    hide Long, Pack.Stop, Pack.Packed, Pack.View, Repaired, Paired;
    TalkPaired();
    TailView(opt);
    TailStops(opt.budget);
    OpenAfterBatch();
    Pack.PackPairedIff(Tail(), opt);
    FixedPointIffPaired(Pack.Packed(Tail(), opt).messages);
  }

  lemma {:induction false} OpenAfterBatch()
    ensures OpenAt(Tail(), 1) == Offered(Batch1())
  {
    hide Long, CallIds;
  }

  /**
   * A conversation in which every call is answered,
   * and that a mid-turn rebuild leaves unpaired, for every summariser.
   */
  lemma {:induction false} RebuildCanOrphan(from: int, summarize: seq<Message> -> string)
    ensures Paired(Talk(), {}) && !Paired(Compacted(Talk(), from, SETTINGS, summarize), {})
  {
    hide Long, Pack.KeepsPairs, Compacted, KeptHistory, Repaired, Paired, TrimFrom, Pressed;
    TalkPaired();
    TalkKept();
    assert TrimmedStep(Talk(), from, SETTINGS) == Talk() by {
      ShortUntrimmed(Talk(), Max(0, from), MaxRunesOrDefault(SETTINGS.maxRunes));
    }
    TalkPressed();
    var opt := Options(SETTINGS);
    PackCanOrphan(opt);
    Pack.PackPairedIff(Tail(), opt);
    FixedPointIffPaired(Pack.Packed(Tail(), opt).messages);
    MidTurnPaired(Talk(), from, SETTINGS, summarize);
    FixedPointIffPaired(Compacted(Talk(), from, SETTINGS, summarize));
  }

  lemma {:induction false} TalkPressed()
    ensures Pressed(Talk(), SETTINGS)
  {
    hide Long, ListTokens;
    BatchTokens();
    var t := Talk();
    assert t == t[..1] + [Batch1()] + t[2..];
    ListTokensConcat(t[..1] + [Batch1()], t[2..]);
    ListTokensConcat(t[..1], [Batch1()]);
    OneToken(Batch1());
    assert Usable(SETTINGS) == 1024;
  }
}
