/** The conversation store as an object: its tables change in place, and contexts are assembled by one backward pass. */
module ConversationStores {
  import opened Prelude
  import opened ConversationContext

  function Reversed<T>(s: seq<T>): (r: seq<T>)
    ensures |r| == |s| && forall i | 0 <= i < |s| :: r[i] == s[|s| - 1 - i]
  {
    if s == [] then [] else [s[|s| - 1]] + Reversed(s[..|s| - 1])
  }

  lemma ReversedMore<T>(before: seq<T>, s: seq<T>, x: T)
    ensures before + Reversed(s + [x]) == before + [x] + Reversed(s)
  {
    assert (s + [x])[..|s|] == s;
  }

  class ConversationStore {
    var conversations: map<string, Conversation>
    var messages: map<string, seq<Message>>
    var summaries: map<(string, int), Summary>

    function Snapshot(): Tables
      reads this
    {
      Tables(conversations, messages, summaries)
    }

    constructor ()
      ensures Snapshot() == EMPTY
    {
      conversations, messages, summaries := map[], map[], map[];
    }

    method AppendMessage(conversation: string, role: Speaker, content: string, title: string, modelId: Option<string>,
                         metadata: map<string, string>, now: int) returns (r: Result<Message, Error>)
      modifies this`conversations, this`messages
      ensures Outcome(Snapshot(), r)
              == ConversationContext.AppendMessage(old(Snapshot()), conversation, role, content, title, modelId,
                                                   metadata, now)
    {
      if role.OtherRole? { return Failure(RoleInvalid); }
      if Blank(content) { return Failure(ContentRequired); }
      var history := if conversation in messages then messages[conversation] else [];
      var message := Message(LastSequence(history) + 1, role, content, now, modelId, metadata);
      if conversation in conversations {
        conversations := conversations[conversation := conversations[conversation].(updatedAt := now)];
      } else {
        conversations :=
          conversations[conversation := Conversation(if title == "" then "New conversation" else title, now, now)];
      }
      messages := messages[conversation := history + [message]];
      r := Success(message);
    }

    method RecordSummary(conversation: string, start: int, end: int, text: string, source: string, now: int)
      returns (r: Result<Summary, Error>)
      modifies this`summaries
      ensures Outcome(Snapshot(), r)
              == ConversationContext.RecordSummary(old(Snapshot()), conversation, start, end, text, source, now)
    {
      if start < 1 || end < start || Blank(text) { return Failure(SummaryInvalid); }
      var summary := Summary(start, end, text, now, source);
      summaries := summaries[(conversation, end) := summary];
      r := Success(summary);
    }

    static method PackRecent(recent: seq<Message>, end: int, spent: int, budget: int)
      returns (chosen: seq<Message>, used: int)
      ensures Packed(chosen, used) == Pack(recent, end, spent, budget)
    {
      hide Cost, Reversed;
      chosen, used := [], spent;
      var i := |recent|;
      assert recent[..i] == recent;
      ghost var all := Pack(recent, end, spent, budget);
      assert all.chosen + Reversed(chosen) == all.chosen;
      while i > 0
        invariant 0 <= i <= |recent|
        invariant var rest := Pack(recent[..i], end, used, budget);
                  all.chosen == rest.chosen + Reversed(chosen) && all.used == rest.used
      {
        i := i - 1;
        var message := recent[i];
        assert recent[..i + 1][..i] == recent[..i];
        if message.sequence > end {
          var cost := Cost(message);
          if used + cost <= budget {
            ReversedMore(Pack(recent[..i], end, used + cost, budget).chosen, chosen, message);
            chosen := chosen + [message];
            used := used + cost;
          }
        }
      }
      chosen := Reversed(chosen);
    }

    method BuildContext(conversation: string, budget: int, memory: MemoryInput, now: int)
      returns (r: Result<Context, Error>)
      ensures r == ConversationContext.BuildContext(Snapshot(), conversation, budget, memory, now)
    {
      hide LatestSummary, Recall, Pack, HistoryTokens, Messages, EstimateTokens;
      if !(128 <= budget <= 200000) { return Failure(BudgetInvalid); }
      var recent := Messages(Snapshot(), conversation, MESSAGE_LIMIT);
      var historyTokens := HistoryTokens(recent);
      var used: int := 24;
      var summary := LatestSummary(Snapshot(), conversation);
      if summary.Some? {
        var summaryTokens := EstimateTokens(summary.value.text) + 12;
        if used + summaryTokens <= budget {
          used := used + summaryTokens;
        } else {
          summary := None;
        }
      }
      var bundle := Recall(memory, budget, used);
      if bundle.Failure? { return Failure(bundle.error); }
      var memories := [];
      if bundle.value.Some? {
        memories := bundle.value.value.memories;
        used := used + bundle.value.value.tokens;
      }
      var summaryEnd := SummaryEnd(summary);
      var chosen;
      chosen, used := PackRecent(recent, summaryEnd, used, budget);
      var omitted := Most(0, |recent| - |chosen| - summaryEnd);
      r := Success(Context(budget, used, historyTokens, Most(0, historyTokens - used), chosen, summary, memories,
                           omitted, now));
    }
  }
}
