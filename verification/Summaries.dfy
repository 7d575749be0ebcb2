/** What a view says about the conversation that it leaves out. */
module Summaries {
  import opened Text
  import opened Messages
  import opened Turns
  import opened View
  import opened Compaction
  import Pack

  /** The block of a text that is not blank: one system message, marked as a summary, that ends with the text. */
  lemma {:induction false} BlockHolds(summary: string)
    ensures Trim(summary) == "" <==> SummaryBlock(summary) == []
    ensures Trim(summary) != "" ==>
              var block, text := SummaryBlock(summary), Trim(summary);
              && |block| == 1 && block[0].role.System? && IsPrior(block[0])
              && |text| <= |block[0].content| && block[0].content[|block[0].content| - |text|..] == text
              && (HasPrefix(text, PRIOR) ==> block[0].content == text)
  {
    hide Trim;
    var text := Trim(summary);
    var head := PRIOR + " session context \U{2014} compacted]\n";
    assert (head + text)[|head|..] == text;
  }

  /** The conversation before the last user, less its todo blocks. */
  function Conversation(ms: seq<Message>): seq<Message> {
    var rest := OpenView(ms).rest;
    Filter(NotTodo, rest[..LastUser(rest)])
  }

  lemma {:induction false} ConversationStart(ms: seq<Message>)
    ensures Conversation(ms) != [] ==> !Conversation(ms)[0].role.System?
  {
    hide HasPrefix, LastUser;
    var rest := OpenView(ms).rest;
    var before := rest[..LastUser(rest)];
    if before != [] {
      assert before[0] == rest[0] && !rest[0].role.System?;
    }
  }

  /** A tail that a head was split from begins with a user or a batch. */
  lemma {:induction false} TailStartsPlain(ms: seq<Message>, keep: int)
    requires HeadTail(ms, keep).head != []
    ensures var n := LeadingSystem(ms); var tail := HeadTail(ms, keep).tail;
            n < |tail| && !tail[n].role.System?
  {
    hide LeadingSystem, Users, TailStart;
    TailStartUsers(ms, KeepTurns(keep));
    var floor, start := LeadingSystem(ms), TailStart(ms, KeepTurns(keep));
    var cut := AlignCut(ms, start, floor);
    assert HeadTail(ms, keep).tail[floor] == ms[cut];
  }

  /** What is not kept of a conversation is its head. */
  lemma {:induction false} HeadThenKept(history: seq<Message>)
    requires history != [] ==> !history[0].role.System?
    ensures var head := if |history| > 4 then HeadTail(history, 2).head else [];
            history == head + KeptTurns(history)
  {
    hide HeadTail;
    var split := HeadTail(history, 2);
    assert LeadingSystem(history) == 0;
    SplitPartitions(history, 2);
    assert split.tail[..0] == [] && split.tail[0..] == split.tail && history[..0] == [];
    if |history| > 4 && split.head != [] {
      TailStartsPlain(history, 2);
      assert LeadingSystem(split.tail) == 0;
    }
  }

  /** The block says what the text says: it ends with it, and is marked as a summary; a blank text has no block. */
  predicate Holds(block: seq<Message>, text: string) {
    if Trim(text) == "" then block == [] else
      && |block| == 1 && block[0].role.System? && IsPrior(block[0])
      && |Trim(text)| <= |block[0].content|
      && block[0].content[|block[0].content| - |Trim(text)|..] == Trim(text)
  }

  lemma {:induction false} BlockSays(text: string)
    ensures Holds(SummaryBlock(text), text)
  {
    hide Trim, SummaryBlock;
    BlockHolds(text);
  }

  /**
   * What a rebuild takes out of the conversation it summarises. The conversation before the last user, less its todo
   * blocks, is a head and the history that is packed, and behind the kept system messages stands the summary of exactly
   * that head. Where there is no head, it is the summary that the view had before, if any. A head is taken from more
   * than four messages, and leaves the last two turns.
   */
  lemma {:induction false} RebuildSummarises(
    ms: seq<Message>, opt: Pack.PackOptions, summarize: seq<Message> -> string)
    returns (head: seq<Message>, kept: seq<Message>, block: seq<Message>)
    requires ms != []
    ensures Conversation(ms) == head + kept
    ensures var rest := OpenView(ms).rest; var u := LastUser(rest);
            Rebuilt(ms, opt, summarize) ==
            OpenView(ms).prefix + block + Pack.Packed(kept, opt).messages + (Filter(IsTodo, rest[..u]) + rest[u..])
    ensures Holds(block, if head == [] then OpenView(ms).prior else summarize(head))
    ensures head != [] ==> |Conversation(ms)| > 4 && Users(kept) == 2
    ensures head == [] <==> |Conversation(ms)| <= 4 || Users(Conversation(ms)) <= 2
  {
    hide HeadTail, LastUser, OpenView, Pack.Packed, SummaryBlock, Trim, Users, HasPrefix, LeadingSystem, CodingSplit,
         KeptTurns, Conversation, Rebuilt, Condense, Holds, Filter;
    var history, prior := Conversation(ms), OpenView(ms).prior;
    head := if |history| > 4 then HeadTail(history, 2).head else [];
    kept := KeptTurns(history);
    ConversationStart(ms);
    HeadThenKept(history);
    HeadIff(history, 2);
    var text := if head == [] then prior else summarize(head);
    block := SummaryBlock(text);
    BlockSays(text);
    if head != [] {
      TwoTurnsKept(history);
    }
    RebuiltParts(ms, opt, summarize);
    HistoryIs(ms);
    CondensedIs(history, prior, summarize);
  }

  lemma {:induction false} RebuiltParts(ms: seq<Message>, opt: Pack.PackOptions, summarize: seq<Message> -> string)
    requires ms != []
    ensures var start := OpenView(ms); var coding := CodingSplit(start.rest);
            var condensed := Condense(coding.history, start.prior, summarize);
            Rebuilt(ms, opt, summarize) ==
            start.prefix + SummaryBlock(condensed.summary) + Pack.Packed(condensed.history, opt).messages
            + coding.ephemeral
  {
    hide OpenView, CodingSplit, Condense, SummaryBlock, Pack.Packed;
  }

  lemma {:induction false} HistoryIs(ms: seq<Message>)
    ensures var rest := OpenView(ms).rest; var u := LastUser(rest);
            CodingSplit(rest) == Coding(Conversation(ms), Filter(IsTodo, rest[..u]) + rest[u..])
  {
    hide OpenView, LastUser, HasPrefix;
  }

  lemma {:induction false} CondensedIs(history: seq<Message>, prior: string, summarize: seq<Message> -> string)
    ensures var head := if |history| > 4 then HeadTail(history, 2).head else [];
            Condense(history, prior, summarize) ==
            Condensed(KeptTurns(history), if head == [] then prior else summarize(head))
  {
    hide HeadTail, LeadingSystem;
  }

  lemma {:induction false} TwoTurnsKept(history: seq<Message>)
    requires |history| > 4 && HeadTail(history, 2).head != [] && !history[0].role.System?
    ensures Users(KeptTurns(history)) == 2
  {
    hide HeadTail, Users;
    assert LeadingSystem(history) == 0;
    SplitKeepsTurns(history, 2);
    TailStartsPlain(history, 2);
    var tail := HeadTail(history, 2).tail;
    assert LeadingSystem(tail) == 0 && tail[0..] == tail;
  }

  /** What a rebuild is given at the start of the view: system messages, and behind them an earlier summary, if any. */
  lemma {:induction false} OpenViewIs(ms: seq<Message>)
    ensures var o := OpenView(ms); var n := |o.prefix|;
            && (forall m | m in o.prefix :: m.role.System?)
            && (o.rest != [] ==> !o.rest[0].role.System?)
            && if o.prior == "" then
                 ms == o.prefix + o.rest && (n > 0 ==> !IsPrior(o.prefix[n - 1]))
               else
                 n < |ms| && ms == o.prefix + [ms[n]] + o.rest
                 && ms[n].role.System? && IsPrior(ms[n]) && o.prior == ms[n].content
  {
    hide LeadingSystem;
    var n := LeadingSystem(ms);
    assert ms == ms[..n] + ms[n..];
    assert forall m | m in ms[..n] :: m.role.System?;
    if n > 0 && IsPrior(ms[n - 1]) {
      assert ms[..n] == ms[..n - 1] + [ms[n - 1]];
      assert forall m | m in ms[..n - 1] :: m in ms[..n];
    }
  }

  // ----- the view of a new turn -----

  /**
   * The view of a new turn: the given messages, a summary, the packed working history, the todos, and last the user's
   * text. The summary is the new one if one was stored, and else the one the session had; a new one is stored only
   * if a compaction is due, and then it is not blank.
   */
  lemma {:induction false} AssembledViewHolds(
    prefix: seq<Message>, history: seq<Message>, ids: seq<string>, prev: string, through: string, todos: string,
    currentUser: string, due: bool, sum: string, opt: Pack.PackOptions)
    returns (block: seq<Message>, closing: seq<Message>)
    ensures var r := Assemble(history, ids, prev, through, due, sum);
            && Built(prefix, r.work, Closing(todos, currentUser), r.summary, opt).Messages() ==
               prefix + block + Pack.Packed(r.work, opt).messages + closing
            && Holds(block, if r.stored.Some? then sum else prev)
            && (r.stored.Some? ==> due && Trim(sum) != "" && r.stored.value.summary == sum)
    ensures Trim(currentUser) == "" ==> closing == if todos == "" then [] else [SystemMessage(todos)]
    ensures Trim(currentUser) != "" ==>
              && closing != [] && closing[|closing| - 1] == UserMessage(currentUser)
              && closing[..|closing| - 1] == if todos == "" then [] else [SystemMessage(todos)]
  {
    hide HeadTail, Pack.Packed, SummaryBlock, Trim, RecallWork, LastHistoryIdSpec, StripLeadingSystem;
    var r := Assemble(history, ids, prev, through, due, sum);
    block, closing := SummaryBlock(r.summary), Closing(todos, currentUser);
    BlockHolds(r.summary);
  }

  /**
   * A compaction is stored exactly if it is due, there are turns besides the last two, in more than four messages, and
   * there is something to say: then head and working history are the history, and the last two turns are kept.
   */
  lemma {:induction false} StoredIff(
    history: seq<Message>, ids: seq<string>, prev: string, through: string, due: bool, sum: string)
    requires NoSystem(history)
    ensures var r := Assemble(history, ids, prev, through, due, sum); var head := HeadTail(history, 2).head;
            && (r.stored.Some? <==> due && |history| > 4 && Users(history) > 2 && Trim(sum) != "")
            && (r.stored.Some? ==>
                  head + r.work == history && |head| == r.summarised && Users(r.work) == 2)
  {
    hide HeadTail, Trim, LastHistoryIdSpec, RecallWork, Users;
    NoLeadingSystem(history);
    HeadIff(history, 2);
    var split := HeadTail(history, 2);
    if split.head != [] {
      HeadOfConversation(history);
      SplitKeepsTurns(history, 2);
      WholeTail(history);
    }
  }
}
