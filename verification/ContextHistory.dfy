/**
 What the conversation store keeps of what it is given: every message and summary of a reachable
 store came from one call, and the pieces a context is assembled from are the ones that count.
 */
module ContextHistory {
  import opened Prelude
  import opened ConversationContext
  import opened ContextGuarantees

  /** The message carries what the call gave. */
  predicate Carries(m: Message, role: Speaker, content: string, modelId: Option<string>,
                    metadata: map<string, string>, now: int) {
    m.role == role && m.content == content && m.modelId == modelId && m.metadata == metadata && m.createdAt == now
  }

  /**
   A message of a known role and with some content is stored as given, as the next of its
   conversation; any other is refused. Nothing else of what was stored changes.
   */
  lemma AppendIff(t: Tables, conversation: string, role: Speaker, content: string, title: string,
                  modelId: Option<string>, metadata: map<string, string>, now: int)
    requires Consistent(t)
    ensures var r := AppendMessage(t, conversation, role, content, title, modelId, metadata, now);
            var history := History(t, conversation);
            && (r.result.Success? <==> role in {System, User, Assistant, Tool} && !Blank(content))
            && (r.result.Failure? ==>
                  r == Outcome(t, Failure(if role.OtherRole? then RoleInvalid else ContentRequired)))
            && (r.result.Success? ==>
                  && History(r.tables, conversation) == history + [r.result.value]
                  && r.result.value.sequence == |history| + 1
                  && Carries(r.result.value, role, content, modelId, metadata, now)
                  && r.tables.summaries == t.summaries
                  && (forall other | other != conversation ::
                        && History(r.tables, other) == History(t, other)
                        && (other in r.tables.conversations <==> other in t.conversations)
                        && (other in t.conversations ==> r.tables.conversations[other] == t.conversations[other]))
                  && conversation in r.tables.conversations
                  && r.tables.conversations[conversation].updatedAt == now
                  && if conversation in t.conversations then
                       && r.tables.conversations[conversation].title == t.conversations[conversation].title
                       && r.tables.conversations[conversation].createdAt == t.conversations[conversation].createdAt
                     else
                       && r.tables.conversations[conversation].createdAt == now
                       && r.tables.conversations[conversation].title
                          == if title == "" then "New conversation" else title)
  {
    assert Numbered(History(t, conversation));
    hide Blank;
  }

  /** A summary of a real range and with some text is stored as given, in place of one with the same end. */
  lemma SummaryIff(t: Tables, conversation: string, start: int, end: int, text: string, source: string, now: int)
    ensures var r := RecordSummary(t, conversation, start, end, text, source, now);
            && (r.result.Success? <==> 1 <= start <= end && !Blank(text))
            && (r.result.Failure? ==> r == Outcome(t, Failure(SummaryInvalid)))
            && (r.result.Success? ==>
                  && r.tables == t.(summaries := r.tables.summaries)
                  && (conversation, end) in r.tables.summaries
                  && r.tables.summaries[(conversation, end)] == Summary(start, end, text, now, source)
                  && r.result.value == Summary(start, end, text, now, source)
                  && forall k | k != (conversation, end) ::
                       (k in r.tables.summaries <==> k in t.summaries)
                       && (k in t.summaries ==> r.tables.summaries[k] == t.summaries[k]))
  {
    hide Blank;
  }

  // ---------- where messages came from ----------

  /** Call `n` of the run appended message `i + 1` of the conversation, just as it is stored. */
  ghost predicate AppendedAt(calls: seq<Timed>, n: nat, conversation: string, i: nat)
    requires n < |calls|
  {
    var call := calls[n].call;
    && call.CallAppend? && call.conversation == conversation && |History(Play(calls[..n]), conversation)| == i
    && i < |History(Play(calls), conversation)|
    && Carries(History(Play(calls), conversation)[i], call.role, call.content, call.modelId, call.metadata,
               calls[n].now)
  }

  lemma OneMore(t: Tables, c: Timed, conversation: string)
    requires Consistent(t)
    ensures var before, after := History(t, conversation), History(Perform(t, c), conversation);
            after == before
            || (&& c.call.CallAppend? && c.call.conversation == conversation
                && |after| == |before| + 1 && after[..|before|] == before
                && Carries(after[|before|], c.call.role, c.call.content, c.call.modelId, c.call.metadata, c.now))
  {
    match c.call
    case CallAppend(id, role, content, title, modelId, metadata) =>
      AppendIff(t, id, role, content, title, modelId, metadata, c.now);
      hide AppendMessage, Carries, Consistent;
    case CallSummarise(_, _, _, _, _) =>
  }

  /** Every message of a reachable conversation is what one call of the run gave, in the order of the calls. */
  lemma {:induction false} EveryMessageWasAppended(calls: seq<Timed>, conversation: string, i: nat)
    requires i < |History(Play(calls), conversation)|
    ensures exists n: nat :: n < |calls| && AppendedAt(calls, n, conversation, i)
  {
    hide Perform, Carries, Consistent;
    if calls != [] {
      var n := |calls| - 1;
      var before := Play(calls[..n]);
      PlayConsistent(calls[..n]);
      OneMore(before, calls[n], conversation);
      if i < |History(before, conversation)| {
        EveryMessageWasAppended(calls[..n], conversation, i);
        var k: nat :| k < n && AppendedAt(calls[..n], k, conversation, i);
        assert calls[..n][..k] == calls[..k];
        assert AppendedAt(calls, k, conversation, i);
      } else {
        assert AppendedAt(calls, n, conversation, i);
      }
    }
  }

  // ---------- which summary is used ----------

  /** The summary that reaches furthest is used exactly when it fits with its surcharge, and no other ever is. */
  lemma SummaryUsedIff(t: Tables, conversation: string, budget: int, end: int)
    ensures UsedSummary(t, conversation, budget).Some? ==>
              exists last :: IsLatest(t, conversation, last)
                             && UsedSummary(t, conversation, budget) == Some(t.summaries[(conversation, last)])
    ensures IsLatest(t, conversation, end) ==>
              (UsedSummary(t, conversation, budget).Some?
               <==> 36 + EstimateTokens(t.summaries[(conversation, end)].text) <= budget)
    ensures (forall k | k in t.summaries :: k.0 != conversation) ==> UsedSummary(t, conversation, budget).None?
    ensures Summarised(t, conversation, budget)
            == match UsedSummary(t, conversation, budget) case Some(summary) => summary.end case None => 0
  {
    hide EstimateTokens;
    if IsLatest(t, conversation, end) {
      LatestExists(t, conversation, end);
      assert (conversation, end) in t.summaries;
    }
  }

  // ---------- how much memory is asked for, and what the bundle takes ----------

  /**
   Without a size of its own, memory is asked for a quarter of the budget, but for 128 tokens at least
   and 800 at most; in any case for no more than what is left less 64, or 64.
   */
  lemma RequestedIs(memoryBudget: Option<int>, budget: int, used: int)
    requires budget >= 0
    ensures var r := Requested(memoryBudget, budget, used);
            var wanted := if memoryBudget in {None, Some(0)} then
                            if budget < 512 then 128 else if budget >= 3200 then 800 else budget / 4
                          else memoryBudget.value;
            && r <= wanted && (budget - used >= 128 ==> r <= budget - used - 64) && (budget - used < 128 ==> r <= 64)
            && (r == wanted || r == (if budget - used >= 128 then budget - used - 64 else 64))
  {
  }

  /** A context is refused exactly for a budget out of range, or for memory asked for beyond what a bundle may hold. */
  lemma ContextSucceedsIff(t: Tables, conversation: string, budget: int, memory: MemoryInput, now: int)
    ensures BuildContext(t, conversation, budget, memory, now).Success?
            <==> 128 <= budget <= 200000
                 && (memory.Memory? ==>
                       Requested(memory.budget, budget, SummaryCost(UsedSummary(t, conversation, budget))) <= 100000)
    ensures BuildContext(t, conversation, budget, memory, now).Failure? ==>
              BuildContext(t, conversation, budget, memory, now).error
              == if 128 <= budget <= 200000 then MemoryBudgetInvalid else BudgetInvalid
  {
    hide UsedSummary, SummaryCost, Requested, PackHits, Pack, Messages, HistoryTokens;
  }

  predicate HasKey(hits: seq<Hit>, key: string) {
    exists h | h in hits :: h.key == key
  }

  /** The bundle takes what it can: whatever hit is not in it repeats a key that is, or no longer fits. */
  lemma {:induction false} BundleIsMaximal(hits: seq<Hit>, budget: int)
    ensures var b := PackHits(hits, budget);
            && (forall h | h in b.memories :: h in hits)
            && (forall h | h in hits :: HasKey(b.memories, h.key) || b.tokens + HitCost(h) > budget)
  {
    hide HitCost;
    if hits != [] {
      var last := |hits| - 1;
      BundleIsMaximal(hits[..last], budget);
      var before, b := PackHits(hits[..last], budget), PackHits(hits, budget);
      forall h | h in hits ensures HasKey(b.memories, h.key) || b.tokens + HitCost(h) > budget {
        if h in hits[..last] {
          if HasKey(before.memories, h.key) {
            var m :| m in before.memories && m.key == h.key;
            assert m in b.memories;
          }
        } else if b != before {
          assert hits[last] in b.memories;
        }
      }
    }
  }

  /** What the bundle takes of the first hits it keeps, whatever follows: better hits are never displaced. */
  lemma {:induction false} FirstHitsStay(hits: seq<Hit>, n: nat, budget: int)
    requires n <= |hits|
    ensures PackHits(hits[..n], budget).memories <= PackHits(hits, budget).memories
  {
    hide HitCost;
    if n < |hits| {
      var last := |hits| - 1;
      FirstHitsStay(hits[..last], n, budget);
      assert hits[..last][..n] == hits[..n];
    } else {
      assert hits[..n] == hits;
    }
  }

  // ---------- what is reported ----------

  /** The other figures of a context: what all considered messages would have cost, and how much less it is. */
  lemma ContextReports(t: Tables, conversation: string, budget: int, memory: MemoryInput, now: int)
    requires BuildContext(t, conversation, budget, memory, now).Success?
    ensures var c := BuildContext(t, conversation, budget, memory, now).value;
            var considered := Messages(t, conversation, MESSAGE_LIMIT);
            && c.budget == budget && c.generatedAt == now
            && c.historyTokens == Costs(considered) - 2 * |considered|
            && c.saved == (if c.historyTokens > c.tokens then c.historyTokens - c.tokens else 0)
            && considered <= History(t, conversation)
            && |considered| == (if |History(t, conversation)| <= 1000 then |History(t, conversation)| else 1000)
  {
    HistoryCosts(Messages(t, conversation, MESSAGE_LIMIT));
    hide Pack, UsedSummary, Recall, HistoryTokens, SummaryCost, Costs;
  }

  lemma {:induction false} HistoryCosts(messages: seq<Message>)
    ensures HistoryTokens(messages) == Costs(messages) - 2 * |messages|
  {
    if messages != [] {
      HistoryCosts(messages[..|messages| - 1]);
    }
  }

  /** A conversation of one message of four letters is charged 24 tokens for itself and nine for the message. */
  lemma ContextOfOne(content: string, now: int)
    requires |content| == 4 && forall i | 0 <= i < |content| :: content[i] == 'x'
    ensures var t := Play([Timed(CallAppend("chat", User, content, "", None, map[]), now)]);
            var c := BuildContext(t, "chat", 128, NoMemory, now);
            && |History(t, "chat")| == 1
            && c.Success? && c.value.messages == History(t, "chat") && c.value.tokens == 33
            && c.value.historyTokens == 7 && c.value.saved == 0 && c.value.omitted == 0
  {
    var calls := [Timed(CallAppend("chat", User, content, "", None, map[]), now)];
    assert calls[..0] == [];
    assert !Blank(content) by { assert !IsSpace(content[0]) && !IsSpace(content[3]); }
    AsciiLength(content);
    var t := Play(calls);
    assert Play(calls[..0]) == EMPTY;
    assert t == AppendMessage(EMPTY, "chat", User, content, "", None, map[], now).tables;
    var history := History(t, "chat");
    assert history[..0] == [];
    assert Messages(t, "chat", MESSAGE_LIMIT) == history && |history| == 1;
    assert UsedSummary(t, "chat", 128) == None;
    assert EstimateTokens(content) == 1 && HistoryTokens(history) == 7;
    assert Pack(history[..0], 0, 33, 128) == Packed([], 33);
    assert Pack(history, 0, 24, 128) == Packed([] + [history[0]], 33);
    hide Pack, HistoryTokens, Messages, History, UsedSummary, Play;
  }
}
