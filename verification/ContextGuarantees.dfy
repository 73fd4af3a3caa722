/** What an assembled context guarantees about its budget, the messages it picks and the ones it omits. */
module ContextGuarantees {
  import opened Prelude
  import opened ConversationContext

  // ---------- the tables in every reachable state ----------

  predicate Numbered(messages: seq<Message>) {
    forall i | 0 <= i < |messages| :: messages[i].sequence == i + 1
  }

  predicate SummariesFit(t: Tables) {
    forall k | k in t.summaries :: 1 <= t.summaries[k].start <= t.summaries[k].end == k.1
  }

  ghost predicate Consistent(t: Tables) {
    && (forall c: string :: Numbered(History(t, c)))
    && (forall c: string :: c in t.messages <==> c in t.conversations)
    && SummariesFit(t)
  }

  /**
   In every reachable state each conversation's messages are numbered 1, 2, … and each summary
   covers a real range.
   */
  lemma {:induction false} PlayConsistent(calls: seq<Timed>)
    ensures Consistent(Play(calls))
  {
    if calls != [] {
      var before := Play(calls[..|calls| - 1]);
      PlayConsistent(calls[..|calls| - 1]);
      PerformConsistent(before, calls[|calls| - 1]);
    }
  }

  lemma PerformConsistent(t: Tables, c: Timed)
    requires Consistent(t)
    ensures Consistent(Perform(t, c))
  {
    var after := Perform(t, c);
    forall x: string ensures Numbered(History(after, x)) {
      assert Numbered(History(t, x));
    }
  }

  /** History is durable: a call only ever adds to the end of a conversation. */
  lemma HistoryOnlyGrows(t: Tables, c: Timed, conversation: string)
    ensures History(t, conversation) <= History(Perform(t, c), conversation)
  {
  }

  lemma {:induction false} PlayOnlyGrows(calls: seq<Timed>, n: nat, conversation: string)
    requires n <= |calls|
    ensures History(Play(calls[..n]), conversation) <= History(Play(calls), conversation)
  {
    hide Perform, History;
    if n == |calls| {
      assert calls[..n] == calls;
    } else {
      var m := |calls| - 1;
      assert calls[..m][..n] == calls[..n];
      PlayOnlyGrows(calls[..m], n, conversation);
      HistoryOnlyGrows(Play(calls[..m]), calls[m], conversation);
    }
  }

  // ---------- the memory bundle ----------

  function HitCosts(hits: seq<Hit>): nat {
    if hits == [] then 0 else HitCosts(hits[..|hits| - 1]) + HitCost(hits[|hits| - 1])
  }

  /** A bundle stays within its budget, never repeats a key, and is charged exactly for what it holds. */
  lemma {:induction false} BundleFits(hits: seq<Hit>, budget: int)
    requires budget >= 32
    ensures var b := PackHits(hits, budget);
            && b.tokens == 32 + HitCosts(b.memories) && b.tokens <= budget
            && forall i, j | 0 <= i < j < |b.memories| :: b.memories[i].key != b.memories[j].key
  {
    hide HitCost;
    if hits != [] {
      var n := |hits| - 1;
      BundleFits(hits[..n], budget);
      var b := PackHits(hits[..n], budget);
      assert (b.memories + [hits[n]])[..|b.memories|] == b.memories;
    }
  }

  /** Memory never takes more than what is left less 64 tokens, or 64 tokens when less is left. */
  lemma RecallFits(memory: MemoryInput, budget: int, used: int)
    ensures var r := Recall(memory, budget, used);
            r.Success? && r.value.Some? ==> BundleCost(r.value) <= Most(64, budget - used - 64)
  {
    hide PackHits;
    if memory.Memory? {
      var requested := Requested(memory.budget, budget, used);
      if requested >= 64 {
        BundleFits(memory.hits, requested);
      }
    }
  }

  // ---------- packing ----------

  function Costs(messages: seq<Message>): nat {
    if messages == [] then 0 else Costs(messages[..|messages| - 1]) + Cost(messages[|messages| - 1])
  }

  /** The cost of the chosen messages newer than a sequence number. */
  function NewerCosts(chosen: seq<Message>, sequence: int): nat {
    if chosen == [] then 0
    else
      var last := chosen[|chosen| - 1];
      NewerCosts(chosen[..|chosen| - 1], sequence) + (if last.sequence > sequence then Cost(last) else 0)
  }

  ghost predicate Ascending(messages: seq<Message>) {
    forall i, j | 0 <= i < j < |messages| :: messages[i].sequence < messages[j].sequence
  }

  lemma CostsOfMore(messages: seq<Message>, m: Message)
    ensures Costs(messages + [m]) == Costs(messages) + Cost(m)
    ensures forall s ::
              NewerCosts(messages + [m], s) == NewerCosts(messages, s) + (if m.sequence > s then Cost(m) else 0)
  {
    assert (messages + [m])[..|messages|] == messages;
  }

  /** The packed messages are unsummarised messages, in their order. */
  lemma {:induction false} PackedInOrder(messages: seq<Message>, end: int, used: int, budget: int)
    requires Ascending(messages)
    ensures var chosen := Pack(messages, end, used, budget).chosen;
            Ascending(chosen) && forall m | m in chosen :: m in messages && m.sequence > end
  {
    hide Cost;
    if messages != [] {
      var n := |messages| - 1;
      var m := messages[n];
      if m.sequence <= end || used + Cost(m) > budget {
        PackedInOrder(messages[..n], end, used, budget);
      } else {
        PackedInOrder(messages[..n], end, used + Cost(m), budget);
        forall x | x in messages[..n] ensures x.sequence < m.sequence && x in messages {
        }
      }
    }
  }

  /** What is used grows by exactly the cost of the packed messages, and never past the budget. */
  lemma {:induction false} PackAccounts(messages: seq<Message>, end: int, used: int, budget: int)
    ensures var p := Pack(messages, end, used, budget);
            p.used == used + Costs(p.chosen) && (used <= budget || p.chosen != [] ==> p.used <= budget)
  {
    hide Cost;
    if messages != [] {
      var n := |messages| - 1;
      var m := messages[n];
      if m.sequence <= end || used + Cost(m) > budget {
        PackAccounts(messages[..n], end, used, budget);
      } else {
        PackAccounts(messages[..n], end, used + Cost(m), budget);
        CostsOfMore(Pack(messages[..n], end, used + Cost(m), budget).chosen, m);
        hide Costs;
      }
    }
  }

  /** An unsummarised message is packed exactly when it fits on top of the newer ones that were. */
  lemma {:induction false} PackedExactlyWhenItFits(messages: seq<Message>, end: int, used: int, budget: int, m: Message)
    requires Ascending(messages) && m in messages && m.sequence > end
    ensures var p := Pack(messages, end, used, budget);
            m in p.chosen <==> used + NewerCosts(p.chosen, m.sequence) + Cost(m) <= budget
  {
    hide Cost, NewerCosts;
    var n := |messages| - 1;
    var last := messages[n];
    if m == last {
      LastIsOffered(messages, end, used, budget);
    } else {
      assert m in messages[..n] && Ascending(messages[..n]) && m.sequence < last.sequence;
      hide Ascending;
      if last.sequence <= end || used + Cost(last) > budget {
        PackedExactlyWhenItFits(messages[..n], end, used, budget, m);
      } else {
        PackedExactlyWhenItFits(messages[..n], end, used + Cost(last), budget, m);
        CostsOfMore(Pack(messages[..n], end, used + Cost(last), budget).chosen, last);
      }
    }
  }

  /** The newest message is considered first. */
  lemma LastIsOffered(messages: seq<Message>, end: int, used: int, budget: int)
    requires Ascending(messages) && messages != [] && messages[|messages| - 1].sequence > end
    ensures var p := Pack(messages, end, used, budget);
            var last := messages[|messages| - 1];
            && (last in p.chosen <==> used + Cost(last) <= budget)
            && NewerCosts(p.chosen, last.sequence) == 0
  {
    hide Cost;
    PackedInOrder(messages, end, used, budget);
    var n := |messages| - 1;
    forall x | x in messages ensures x.sequence <= messages[n].sequence {
    }
    NoneNewer(Pack(messages, end, used, budget).chosen, messages[n].sequence);
    if used + Cost(messages[n]) > budget {
      PackedInOrder(messages[..n], end, used, budget);
      forall x | x in messages[..n] ensures x != messages[n] {
      }
    }
    hide NewerCosts, Ascending;
  }

  lemma {:induction false} NoneNewer(chosen: seq<Message>, sequence: int)
    requires forall m | m in chosen :: m.sequence <= sequence
    ensures NewerCosts(chosen, sequence) == 0
  {
    if chosen != [] {
      assert chosen[|chosen| - 1] in chosen;
      assert forall m | m in chosen[..|chosen| - 1] :: m in chosen;
      NoneNewer(chosen[..|chosen| - 1], sequence);
    }
  }

  // ---------- counting what is left out ----------

  /** The unsummarised messages that were not chosen. */
  function Skipped(messages: seq<Message>, end: int, chosen: seq<Message>): nat {
    if messages == [] then 0
    else
      var m := messages[|messages| - 1];
      Skipped(messages[..|messages| - 1], end, chosen) + (if m.sequence > end && m !in chosen then 1 else 0)
  }

  lemma {:induction false} SkippedSame(messages: seq<Message>, end: int, a: seq<Message>, b: seq<Message>)
    requires forall i | 0 <= i < |messages| :: messages[i] in a <==> messages[i] in b
    ensures Skipped(messages, end, a) == Skipped(messages, end, b)
  {
    if messages != [] {
      SkippedSame(messages[..|messages| - 1], end, a, b);
    }
  }

  /** What is packed from older messages does not touch the newest one, and decides the older ones alike. */
  lemma EarlierChosen(messages: seq<Message>, end: int, used: int, budget: int, also: seq<Message>)
    requires Ascending(messages) && messages != [] && |also| <= 1
             && (also != [] ==> also[0] == messages[|messages| - 1])
    ensures var n := |messages| - 1;
            var earlier := Pack(messages[..n], end, used, budget).chosen;
            && messages[n] !in earlier
            && Skipped(messages[..n], end, earlier + also) == Skipped(messages[..n], end, earlier)
  {
    var n := |messages| - 1;
    var earlier := Pack(messages[..n], end, used, budget).chosen;
    PackedInOrder(messages[..n], end, used, budget);
    hide Pack;
    assert messages[n] !in messages[..n];
    SkippedSame(messages[..n], end, earlier + also, earlier);
  }

  /** Chosen and skipped messages together are the unsummarised ones. */
  lemma {:induction false} ChosenAndSkipped(messages: seq<Message>, end: int, used: int, budget: int)
    requires Numbered(messages) && end >= 0
    ensures var chosen := Pack(messages, end, used, budget).chosen;
            |chosen| + Skipped(messages, end, chosen) == Most(0, |messages| - end)
  {
    hide Cost;
    if messages != [] {
      var n := |messages| - 1;
      var m := messages[n];
      var taken := m.sequence > end && used + Cost(m) <= budget;
      var now := if taken then used + Cost(m) else used;
      assert Ascending(messages);
      ChosenAndSkipped(messages[..n], end, now, budget);
      EarlierChosen(messages, end, now, budget, if taken then [m] else []);
      var earlier := Pack(messages[..n], end, now, budget).chosen;
      assert earlier + [] == earlier;
      hide Numbered, Ascending;
    }
  }

  lemma {:induction false} MoreSkipped(history: seq<Message>, n: nat, end: int, chosen: seq<Message>)
    requires Numbered(history) && n <= |history|
    requires forall m | m in chosen :: m.sequence <= n
    ensures Skipped(history, end, chosen) == Skipped(history[..n], end, chosen) + Most(0, |history| - Most(n, end))
  {
    if n == |history| {
      assert history[..n] == history;
    } else {
      var last := |history| - 1;
      MoreSkipped(history[..last], n, end, chosen);
      assert history[..last][..n] == history[..n];
    }
  }

  // ---------- the assembled context ----------

  lemma StoredMessages(t: Tables, conversation: string)
    requires Consistent(t)
    ensures var messages := Messages(t, conversation, MESSAGE_LIMIT);
            Numbered(messages) && Ascending(messages) && Numbered(History(t, conversation))
  {
  }

  lemma LatestFits(t: Tables, conversation: string, budget: int)
    requires SummariesFit(t)
    ensures SummaryEnd(UsedSummary(t, conversation, budget)) >= 0
    ensures budget >= 24 ==> SummaryCost(UsedSummary(t, conversation, budget)) <= budget
  {
    hide EstimateTokens;
  }

  /** The memory bundle a context is given, empty when none is used; every term is an input of the call. */
  function Recalled(t: Tables, conversation: string, budget: int, memory: MemoryInput): Bundle {
    var used := SummaryCost(UsedSummary(t, conversation, budget));
    if memory.Memory? && Requested(memory.budget, budget, used) >= 64
       && PackHits(memory.hits, Requested(memory.budget, budget, used)).memories != [] then
      PackHits(memory.hits, Requested(memory.budget, budget, used))
    else Bundle([], 0)
  }

  lemma RecalledIs(t: Tables, conversation: string, budget: int, memory: MemoryInput)
    requires var used := SummaryCost(UsedSummary(t, conversation, budget)); Recall(memory, budget, used).Success?
    ensures var used := SummaryCost(UsedSummary(t, conversation, budget));
            var bundle := Recall(memory, budget, used).value;
            var recalled := Recalled(t, conversation, budget, memory);
            && recalled == (if bundle.None? then Bundle([], 0) else bundle.value)
            && (bundle.Some? ==> recalled.memories != [])
            && recalled.tokens == (if recalled.memories == [] then 0 else 32 + HitCosts(recalled.memories))
            && (recalled.memories != [] ==> recalled.tokens <= Most(64, budget - used - 64))
  {
    hide PackHits, SummaryCost, HitCosts, UsedSummary;
    var used := SummaryCost(UsedSummary(t, conversation, budget));
    RecallFits(memory, budget, used);
    if memory.Memory? && Requested(memory.budget, budget, used) >= 64 {
      BundleFits(memory.hits, Requested(memory.budget, budget, used));
    }
  }

  /** A context, taken apart: summary, memory, messages and counts in terms of the inputs. */
  lemma ContextIs(t: Tables, conversation: string, budget: int, memory: MemoryInput, now: int)
    requires BuildContext(t, conversation, budget, memory, now).Success?
    ensures var c := BuildContext(t, conversation, budget, memory, now).value;
            var recalled := Recalled(t, conversation, budget, memory);
            && 128 <= budget && c.summary == UsedSummary(t, conversation, budget)
            && c.memories == recalled.memories
            && recalled.tokens == (if c.memories == [] then 0 else 32 + HitCosts(c.memories))
            && (c.memories != [] ==> recalled.tokens <= Most(64, budget - SummaryCost(c.summary) - 64))
            && Packed(c.messages, c.tokens) == Pack(Messages(t, conversation, MESSAGE_LIMIT), SummaryEnd(c.summary),
                                                    SummaryCost(c.summary) + recalled.tokens, budget)
            && c.omitted == Most(0, |Messages(t, conversation, MESSAGE_LIMIT)| - |c.messages| - SummaryEnd(c.summary))
  {
    hide Pack, Messages, UsedSummary, Recall, Recalled, HistoryTokens, SummaryCost, HitCosts;
    RecalledIs(t, conversation, budget, memory);
  }

  /**
   The budget. Whether a context exceeds it can be told before the call: exactly when the memory
   bundle that fits the requested size is not empty and does not fit on top of the summary. That
   takes fewer than 64 tokens left after the summary, and it never exceeds by more than 64.
   */
  lemma ContextIsBounded(t: Tables, conversation: string, budget: int, memory: MemoryInput, now: int)
    requires Consistent(t) && BuildContext(t, conversation, budget, memory, now).Success?
    ensures var c := BuildContext(t, conversation, budget, memory, now).value;
            var used := SummaryCost(UsedSummary(t, conversation, budget));
            && (c.tokens > budget <==>
                  && memory.Memory? && Requested(memory.budget, budget, used) >= 64
                  && PackHits(memory.hits, Requested(memory.budget, budget, used)).memories != []
                  && used + PackHits(memory.hits, Requested(memory.budget, budget, used)).tokens > budget)
            && (c.tokens > budget ==> used > budget - 64)
            && c.tokens <= budget + 64
  {
    hide BuildContext, Pack, Messages, UsedSummary, Consistent, SummaryCost, HitCosts, PackHits, Requested;
    ContextIs(t, conversation, budget, memory, now);
    var c := BuildContext(t, conversation, budget, memory, now).value;
    assert SummariesFit(t) by { ConsistentSummaries(t); }
    LatestFits(t, conversation, budget);
    PackAccounts(Messages(t, conversation, MESSAGE_LIMIT), SummaryEnd(c.summary),
                 SummaryCost(c.summary) + Recalled(t, conversation, budget, memory).tokens, budget);
  }

  lemma ConsistentSummaries(t: Tables)
    requires Consistent(t)
    ensures SummariesFit(t)
  {
  }

  /** What a context is charged before any message. */
  function Spent(t: Tables, conversation: string, budget: int, memory: MemoryInput): int {
    SummaryCost(UsedSummary(t, conversation, budget)) + Recalled(t, conversation, budget, memory).tokens
  }

  /** The last message the used summary stands for. */
  function Summarised(t: Tables, conversation: string, budget: int): int {
    SummaryEnd(UsedSummary(t, conversation, budget))
  }

  /**
   What is replayed: unsummarised stored messages in their order, and among the messages considered
   exactly those that fit on top of summary, memory and the newer chosen ones.
   */
  lemma ReplayedExactlyWhenFitting(t: Tables, conversation: string, budget: int, memory: MemoryInput, now: int,
                                   m: Message)
    requires Consistent(t) && BuildContext(t, conversation, budget, memory, now).Success?
    ensures var c := BuildContext(t, conversation, budget, memory, now).value;
            && Ascending(c.messages)
            && (m in c.messages <==>
                  && m in Messages(t, conversation, MESSAGE_LIMIT) && m.sequence > Summarised(t, conversation, budget)
                  && Spent(t, conversation, budget, memory) + NewerCosts(c.messages, m.sequence) + Cost(m) <= budget)
  {
    hide BuildContext, Pack, Messages, UsedSummary, Recalled, Consistent, SummaryCost, HitCosts, NewerCosts, Cost,
         Ascending;
    ContextIs(t, conversation, budget, memory, now);
    StoredMessages(t, conversation);
    var end, spent := Summarised(t, conversation, budget), Spent(t, conversation, budget, memory);
    var messages := Messages(t, conversation, MESSAGE_LIMIT);
    PackedInOrder(messages, end, spent, budget);
    if m in messages && m.sequence > end {
      PackedExactlyWhenItFits(messages, end, spent, budget, m);
    }
  }

  /**
   The reported number of omitted messages counts exactly the skipped unsummarised ones among the
   messages considered; it counts those of the whole conversation if and only if the conversation
   has at most 1000 messages or the summary covers all of it.
   */
  lemma OmittedCountsTheSkipped(t: Tables, conversation: string, budget: int, memory: MemoryInput, now: int)
    requires Consistent(t) && BuildContext(t, conversation, budget, memory, now).Success?
    ensures var c := BuildContext(t, conversation, budget, memory, now).value;
            var end := Summarised(t, conversation, budget);
            var history := History(t, conversation);
            && c.omitted == Skipped(Messages(t, conversation, MESSAGE_LIMIT), end, c.messages)
            && (c.omitted == Skipped(history, end, c.messages) <==> |history| <= MESSAGE_LIMIT || |history| <= end)
  {
    hide BuildContext, Pack, UsedSummary, Recalled, Consistent, SummaryCost, HitCosts, SummaryEnd, Skipped;
    ContextIs(t, conversation, budget, memory, now);
    StoredMessages(t, conversation);
    var c := BuildContext(t, conversation, budget, memory, now).value;
    var end, spent := Summarised(t, conversation, budget), Spent(t, conversation, budget, memory);
    var messages := Messages(t, conversation, MESSAGE_LIMIT);
    var history := History(t, conversation);
    assert end >= 0 by { ConsistentSummaries(t); LatestFits(t, conversation, budget); }
    ChosenAndSkipped(messages, end, spent, budget);
    PackedInOrder(messages, end, spent, budget);
    forall m | m in c.messages ensures m.sequence <= |messages| {
      assert m in messages;
    }
    MoreSkipped(history, |messages|, end, c.messages);
    assert messages == history[..|messages|];
    hide Numbered, Ascending;
  }

  /**
   "Newest turns win" holds exactly for conversations of at most 1000 messages: beyond that, the
   newest message is not replayed even when it would fit on its own.
   */
  lemma NewestWinsIff(t: Tables, conversation: string, budget: int, memory: MemoryInput, now: int)
    requires Consistent(t) && BuildContext(t, conversation, budget, memory, now).Success?
    requires History(t, conversation) != []
    requires var newest := History(t, conversation)[|History(t, conversation)| - 1];
             newest.sequence > Summarised(t, conversation, budget)
             && Spent(t, conversation, budget, memory) + Cost(newest) <= budget
    ensures var history := History(t, conversation);
            history[|history| - 1] in BuildContext(t, conversation, budget, memory, now).value.messages
            <==> |history| <= MESSAGE_LIMIT
  {
    hide BuildContext, Pack, UsedSummary, Recalled, Consistent, SummaryCost, HitCosts, SummaryEnd, Cost;
    ContextIs(t, conversation, budget, memory, now);
    StoredMessages(t, conversation);
    var end, spent := Summarised(t, conversation, budget), Spent(t, conversation, budget, memory);
    var messages := Messages(t, conversation, MESSAGE_LIMIT);
    var history := History(t, conversation);
    if |history| <= MESSAGE_LIMIT {
      assert messages == history;
      LastIsOffered(messages, end, spent, budget);
    } else {
      PackedInOrder(messages, end, spent, budget);
      assert history[|history| - 1] !in messages;
    }
    hide Numbered, Ascending;
  }

  // ---------- a conversation of 1001 messages ----------

  function Chat(n: nat): seq<Timed> {
    seq(n, i => Timed(CallAppend("chat", User, "hi", "", None, map[]), i))
  }

  lemma {:induction false} ChatHistory(n: nat)
    ensures |History(Play(Chat(n)), "chat")| == n && Play(Chat(n)).summaries == map[]
    ensures forall m | m in History(Play(Chat(n)), "chat") :: m.content == "hi"
  {
    if n > 0 {
      assert Chat(n)[..n - 1] == Chat(n - 1);
      ChatHistory(n - 1);
      assert !Blank("hi") by { assert !IsSpace("hi"[0]) && !IsSpace("hi"[1]); }
      hide Blank;
      var before, after := Play(Chat(n - 1)), Play(Chat(n));
      assert after == Perform(before, Chat(n)[n - 1]);
      assert History(after, "chat") == History(before, "chat") + [History(after, "chat")[n - 1]];
    }
  }

  /** After 1001 short messages the newest is not replayed, although it fits, and the omitted ones are miscounted. */
  lemma NewestCanBeLost(now: int)
    ensures var t := Play(Chat(1001));
            var history := History(t, "chat");
            && |history| == 1001
            && BuildContext(t, "chat", 2400, NoMemory, now).Success?
            && var c := BuildContext(t, "chat", 2400, NoMemory, now).value;
               history[1000] !in c.messages && c.omitted != Skipped(history, 0, c.messages)
  {
    hide Pack, Skipped, Consistent;
    var t := Play(Chat(1001));
    ChatHistory(1001);
    PlayConsistent(Chat(1001));
    hide Play, Chat;
    var history := History(t, "chat");
    NothingSummarised(t);
    assert Spent(t, "chat", 2400, NoMemory) == 24;
    assert Cost(history[1000]) == 9 by {
      assert history[1000] in history;
      AsciiLength("hi");
    }
    assert Numbered(history) by { StoredMessages(t, "chat"); }
    assert history[1000].sequence == 1001;
    hide Numbered, History, Cost, Messages;
    NewestWinsIff(t, "chat", 2400, NoMemory, now);
    OmittedCountsTheSkipped(t, "chat", 2400, NoMemory, now);
  }

  lemma NothingSummarised(t: Tables)
    requires t.summaries == map[]
    ensures UsedSummary(t, "chat", 2400) == None && Summarised(t, "chat", 2400) == 0
  {
  }

  // ---------- the budget can be exceeded ----------

  lemma {:induction false} AsciiLength(s: string)
    requires forall i | 0 <= i < |s| :: s[i] as int < 0x80
    ensures Utf8Length(s) == |s|
  {
    if s != "" {
      AsciiLength(s[..|s| - 1]);
    }
  }

  /** A summary that leaves nothing of a budget of 128, and one remembered fact: the context is charged 177 tokens. */
  lemma BudgetCanBeExceeded(text: string, now: int)
    requires |text| == 368 && forall i | 0 <= i < |text| :: text[i] == 'x'
    ensures var t := Play([Timed(CallSummarise("chat", 1, 1, text, "explicit"), 0)]);
            var c := BuildContext(t, "chat", 128, Memory([Hit("k", "m1", "fact")], None), now);
            c.Success? && c.value.budget == 128 && c.value.tokens == 177
  {
    var calls := [Timed(CallSummarise("chat", 1, 1, text, "explicit"), 0)];
    assert calls[..0] == [];
    assert !Blank(text) by { assert !IsSpace(text[0]) && !IsSpace(text[367]); }
    var t := Play(calls);
    var summary := Summary(1, 1, text, 0, "explicit");
    assert Play(calls[..0]) == EMPTY;
    assert t == RecordSummary(EMPTY, "chat", 1, 1, text, "explicit", 0).tables;
    assert t.summaries == map[("chat", 1) := summary];
    assert IsLatest(t, "chat", 1);
    AsciiLength(text);
    assert EstimateTokens(text) == 92;
    assert UsedSummary(t, "chat", 128) == Some(summary);
    OneHit(64);
    assert Messages(t, "chat", MESSAGE_LIMIT) == [];
  }

  lemma OneHit(budget: int)
    requires budget >= 64
    ensures PackHits([Hit("k", "m1", "fact")], budget) == Bundle([Hit("k", "m1", "fact")], 49)
  {
    var hits := [Hit("k", "m1", "fact")];
    assert hits[..0] == [];
  }
}
