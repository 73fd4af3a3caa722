/**
 Conversations and the token-bounded context assembled from them: the tables, the memory bundle,
 and the packing of recent messages, as functions.
 */
module ConversationContext {
  import opened Prelude

  datatype Speaker = System | User | Assistant | Tool | OtherRole(text: string)

  datatype Message = Message(sequence: int, role: Speaker, content: string, createdAt: int, modelId: Option<string>,
                             metadata: map<string, string>)

  datatype Summary = Summary(start: int, end: int, text: string, createdAt: int, source: string)

  datatype Conversation = Conversation(title: string, createdAt: int, updatedAt: int)

  /** The three tables; a conversation's messages are kept in sequence order. */
  datatype Tables = Tables(conversations: map<string, Conversation>, messages: map<string, seq<Message>>,
                           summaries: map<(string, int), Summary>)

  const EMPTY := Tables(map[], map[], map[])

  datatype Error = RoleInvalid | ContentRequired | SummaryInvalid | BudgetInvalid | MemoryBudgetInvalid

  datatype Outcome<T> = Outcome(tables: Tables, result: Result<T, Error>)

  // ---------- token estimates ----------

  /** A quarter of a length, rounded up, and at least one. */
  function Quarter(length: nat): (n: nat)
    ensures n >= 1 && length <= 4 * n
    ensures n > 1 ==> 4 * (n - 1) < length
  {
    if length == 0 then 1 else (length + 3) / 4
  }

  function EstimateTokens(text: string): nat {
    Quarter(Utf8Length(text))
  }

  // ---------- history ----------

  function History(t: Tables, conversation: string): seq<Message> {
    if conversation in t.messages then t.messages[conversation] else []
  }

  function LastSequence(messages: seq<Message>): int {
    if messages == [] then 0 else messages[|messages| - 1].sequence
  }

  function AppendMessage(t: Tables, conversation: string, role: Speaker, content: string, title: string,
                         modelId: Option<string>, metadata: map<string, string>, now: int): Outcome<Message> {
    if role.OtherRole? then Outcome(t, Failure(RoleInvalid))
    else if Blank(content) then Outcome(t, Failure(ContentRequired))
    else
      var message := Message(LastSequence(History(t, conversation)) + 1, role, content, now, modelId, metadata);
      var row := if conversation in t.conversations then t.conversations[conversation].(updatedAt := now)
                 else Conversation(if title == "" then "New conversation" else title, now, now);
      Outcome(t.(conversations := t.conversations[conversation := row],
                 messages := t.messages[conversation := History(t, conversation) + [message]]),
              Success(message))
  }

  function RecordSummary(t: Tables, conversation: string, start: int, end: int, text: string, source: string, now: int)
    : Outcome<Summary>
  {
    if start < 1 || end < start || Blank(text) then Outcome(t, Failure(SummaryInvalid))
    else
      var summary := Summary(start, end, text, now, source);
      Outcome(t.(summaries := t.summaries[(conversation, end) := summary]), Success(summary))
  }

  const MESSAGE_LIMIT := 1000

  /** The stored messages in sequence order, the oldest ones only. */
  function Messages(t: Tables, conversation: string, limit: nat): seq<Message> {
    var history := History(t, conversation);
    if |history| <= limit then history else history[..limit]
  }

  predicate IsLatest(t: Tables, conversation: string, end: int) {
    (conversation, end) in t.summaries && forall k | k in t.summaries && k.0 == conversation :: k.1 <= end
  }

  lemma {:induction false} Greatest(ends: set<int>, some: int)
    requires some in ends
    ensures exists top :: top in ends && forall e | e in ends :: e <= top
  {
    var rest := ends - {some};
    if next :| next in rest {
      Greatest(rest, next);
      var other :| other in rest && forall e | e in rest :: e <= other;
      var top := if some <= other then other else some;
      forall e | e in ends ensures e <= top {
        assert e == some || e in rest;
      }
      assert top in ends;
    } else {
      assert forall e | e in ends :: e in rest || e == some;
    }
  }

  /** A conversation with a summary has exactly one latest summary: the one that reaches furthest. */
  lemma LatestExists(t: Tables, conversation: string, some: int)
    requires (conversation, some) in t.summaries
    ensures exists end :: IsLatest(t, conversation, end)
    ensures forall a, b | IsLatest(t, conversation, a) && IsLatest(t, conversation, b) :: a == b
  {
    var ends := set k | k in t.summaries && k.0 == conversation :: k.1;
    assert (conversation, some) in t.summaries && some in ends;
    Greatest(ends, some);
    var end :| end in ends && forall e | e in ends :: e <= end;
    assert IsLatest(t, conversation, end) by {
      forall k | k in t.summaries && k.0 == conversation ensures k.1 <= end {
        assert k.1 in ends;
      }
    }
  }

  function LatestSummary(t: Tables, conversation: string): Option<Summary> {
    if k :| k in t.summaries && k.0 == conversation then
      LatestExists(t, conversation, k.1);
      var end :| IsLatest(t, conversation, end);
      Some(t.summaries[(conversation, end)])
    else None
  }

  // ---------- the memory bundle ----------

  /** A search result of the memory store: what identifies it, how it is cited, and its text. */
  datatype Hit = Hit(key: string, citation: string, content: string)

  datatype Bundle = Bundle(memories: seq<Hit>, tokens: nat)

  function HitCost(h: Hit): nat {
    Quarter(|h.content|) + 16
  }

  /** Takes each new hit that still fits the budget. */
  function PackHits(hits: seq<Hit>, budget: int): Bundle {
    if hits == [] then Bundle([], 32)
    else
      var b := PackHits(hits[..|hits| - 1], budget);
      var h := hits[|hits| - 1];
      if (exists m | m in b.memories :: m.key == h.key) || b.tokens + HitCost(h) > budget then b
      else Bundle(b.memories + [h], b.tokens + HitCost(h))
  }

  function BuildBundle(hits: seq<Hit>, budget: int): Result<Bundle, Error> {
    if 64 <= budget <= 100000 then Success(PackHits(hits, budget)) else Failure(MemoryBudgetInvalid)
  }

  /**
   What the caller brought for memory: the search results of the store, if store, query and
   principal were all given.
   */
  datatype MemoryInput = NoMemory | Memory(hits: seq<Hit>, budget: Option<int>)

  function Least(a: int, b: int): int {
    if a <= b then a else b
  }

  function Most(a: int, b: int): int {
    if a >= b then a else b
  }

  function Requested(memoryBudget: Option<int>, budget: int, used: int): int {
    var wanted :=
      if memoryBudget.Some? && memoryBudget.value != 0 then memoryBudget.value else Least(800, Most(128, budget / 4));
    Least(wanted, Most(64, budget - used - 64))
  }

  /** The bundle used for a context, if any memory is used. */
  function Recall(memory: MemoryInput, budget: int, used: int): Result<Option<Bundle>, Error> {
    match memory
    case NoMemory => Success(None)
    case Memory(hits, memoryBudget) =>
      var requested := Requested(memoryBudget, budget, used);
      if requested < 64 then Success(None)
      else
        match BuildBundle(hits, requested)
        case Failure(e) => Failure(e)
        case Success(bundle) => Success(if bundle.memories == [] then None else Some(bundle))
  }

  // ---------- packing ----------

  function Cost(m: Message): nat {
    EstimateTokens(m.content) + 8
  }

  function HistoryTokens(messages: seq<Message>): nat {
    if messages == [] then 0
    else HistoryTokens(messages[..|messages| - 1]) + EstimateTokens(messages[|messages| - 1].content) + 6
  }

  datatype Packed = Packed(chosen: seq<Message>, used: int)

  /** From the newest message back, takes each unsummarised one that still fits. */
  function Pack(messages: seq<Message>, end: int, used: int, budget: int): Packed {
    if messages == [] then Packed([], used)
    else
      var earlier, m := messages[..|messages| - 1], messages[|messages| - 1];
      if m.sequence <= end || used + Cost(m) > budget then Pack(earlier, end, used, budget)
      else
        var p := Pack(earlier, end, used + Cost(m), budget);
        Packed(p.chosen + [m], p.used)
  }

  datatype Context = Context(budget: int, tokens: int, historyTokens: nat, saved: int, messages: seq<Message>,
                             summary: Option<Summary>, memories: seq<Hit>, omitted: int, generatedAt: int)

  /** The latest summary, if it fits. */
  function UsedSummary(t: Tables, conversation: string, budget: int): Option<Summary> {
    var latest := LatestSummary(t, conversation);
    if latest.Some? && 24 + EstimateTokens(latest.value.text) + 12 <= budget then latest else None
  }

  function SummaryCost(summary: Option<Summary>): int {
    24 + (if summary.Some? then EstimateTokens(summary.value.text) + 12 else 0)
  }

  function SummaryEnd(summary: Option<Summary>): int {
    if summary.Some? then summary.value.end else 0
  }

  function BundleCost(bundle: Option<Bundle>): nat {
    if bundle.Some? then bundle.value.tokens else 0
  }

  function BuildContext(t: Tables, conversation: string, budget: int, memory: MemoryInput, now: int)
    : Result<Context, Error>
  {
    if !(128 <= budget <= 200000) then Failure(BudgetInvalid)
    else
      var messages := Messages(t, conversation, MESSAGE_LIMIT);
      var summary := UsedSummary(t, conversation, budget);
      match Recall(memory, budget, SummaryCost(summary))
      case Failure(e) => Failure(e)
      case Success(bundle) =>
        var p := Pack(messages, SummaryEnd(summary), SummaryCost(summary) + BundleCost(bundle), budget);
        Success(Context(budget, p.used, HistoryTokens(messages), Most(0, HistoryTokens(messages) - p.used), p.chosen,
                        summary,
                        if bundle.Some? then bundle.value.memories else [],
                        Most(0, |messages| - |p.chosen| - SummaryEnd(summary)), now))
  }

  // ---------- runs ----------

  datatype Call =
    | CallAppend(conversation: string, role: Speaker, content: string, title: string, modelId: Option<string>,
                 metadata: map<string, string>)
    | CallSummarise(conversation: string, start: int, end: int, text: string, source: string)

  datatype Timed = Timed(call: Call, now: int)

  function Perform(t: Tables, c: Timed): Tables {
    match c.call
    case CallAppend(conversation, role, content, title, modelId, metadata) =>
      AppendMessage(t, conversation, role, content, title, modelId, metadata, c.now).tables
    case CallSummarise(conversation, start, end, text, source) =>
      RecordSummary(t, conversation, start, end, text, source, c.now).tables
  }

  function Play(calls: seq<Timed>): Tables {
    if calls == [] then EMPTY else Perform(Play(calls[..|calls| - 1]), calls[|calls| - 1])
  }
}
