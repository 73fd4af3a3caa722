/**
 A synchronization mutation as a client sends it, and its normalisation into the event the
 store accepts, keeps and hashes.
 */
module SyncMutations {
  import opened Prelude

  type Id = string

  const MAX_SYNC_VALUE_BYTES := 1_000_000

  /** A JSON value, represented by its canonical UTF-8 text; equal values have equal texts. */
  datatype Json = Json(canonical: seq<bv8>)

  const JSON_NULL := Json([0x6e, 0x75, 0x6c, 0x6c])

  /** A timestamp: text chosen by a client, or the store's own clock in whole seconds. */
  datatype Stamp = Text(text: string) | Instant(seconds: int)

  datatype Operation = SetValue | DeleteKey {
    function Name(): string {
      if SetValue? then "set" else "delete"
    }
  }

  /** The signed part of a normalised mutation. */
  datatype Payload = Payload(mutationId: Id, projectId: Id, deviceId: Id, sequence: int, baseRevision: int, key: string,
                             operation: Operation, value: Json, previous: Option<HashText>, createdAt: Stamp)

  /** Text in a hash column: the digest of a payload, or any other text a client may send. */
  datatype HashText = Sha(payload: Payload) | OtherText(text: string)

  datatype SyncMutation = SyncMutation(mutationId: Id, projectId: Id, deviceId: Id, sequence: int, baseRevision: int,
                                       key: string, operation: string, value: Json, previous: Option<HashText>,
                                       createdAt: Option<Stamp>, eventHash: Option<HashText>)

  /** The empty string and a missing hash both stand for "no predecessor". */
  function Truthy(h: Option<HashText>): Option<HashText> {
    if h == Some(OtherText("")) then None else h
  }

  // ---------- text operations ----------

  /** Stripping twice is stripping once. */
  lemma StripIdempotent(s: string)
    ensures Strip(Strip(s)) == Strip(s)
  {
    var once := Strip(s);
    assert once == [] || once[0] == StripLeft(s)[0];
  }

  function Lower(s: string): (r: string)
    ensures |r| == |s|
  {
    seq(|s|, i requires 0 <= i < |s| => if 'A' <= s[i] <= 'Z' then s[i] + 32 as char else s[i])
  }

  function ParseOperation(text: string): Option<Operation> {
    var lowered := Lower(text);
    if lowered == "set" then Some(SetValue) else if lowered == "delete" then Some(DeleteKey) else None
  }

  predicate ValidIdentifier(raw: string) {
    1 <= |Strip(raw)| <= 200
  }

  predicate SafeKey(key: string) {
    1 <= |key| <= 512 && key[0] != '/' && ".." !in Split(key, '/')
  }

  // ---------- normalisation ----------

  /** Every refusal of `normalized` is an integrity error, so the model does not tell them apart. */
  datatype IntegrityError = IntegrityError

  function Normalized(m: SyncMutation, clock: int): Result<Payload, IntegrityError> {
    var operation := ParseOperation(m.operation);
    if operation.None? then Failure(IntegrityError)
    else if !ValidIdentifier(m.mutationId) || !ValidIdentifier(m.projectId) || !ValidIdentifier(m.deviceId) then
      Failure(IntegrityError)
    else
      var key := Strip(m.key);
      if !SafeKey(key) then Failure(IntegrityError)
      else if m.sequence < 1 || m.baseRevision < 0 then Failure(IntegrityError)
      else if operation == Some(SetValue) && |m.value.canonical| > MAX_SYNC_VALUE_BYTES then Failure(IntegrityError)
      else
        var created := if m.createdAt.None? || m.createdAt == Some(Text("")) then Instant(clock) else m.createdAt.value;
        var value := if operation == Some(DeleteKey) then JSON_NULL else m.value;
        var candidate := Payload(m.mutationId, m.projectId, m.deviceId, m.sequence, m.baseRevision,
                                 key, operation.value, value, m.previous, created);
        if m.eventHash.Some? && m.eventHash.value != Sha(candidate) then Failure(IntegrityError)
        else Success(candidate)
  }

  /** The mutation on the wire: a JSON object restricted to the eleven known fields, each of which may be missing. */
  datatype WireMutation = WireMutation(mutationId: Option<Id>, projectId: Option<Id>, deviceId: Option<Id>,
                                       sequence: Option<int>, baseRevision: Option<int>, key: Option<string>,
                                       operation: Option<string>, value: Option<Json>, previous: Option<HashText>,
                                       createdAt: Option<Stamp>, eventHash: Option<HashText>)

  function OrElse<T>(o: Option<T>, default: T): T {
    if o.Some? then o.value else default
  }

  /** `as_dict`: normalises first, so a mutation without a timestamp is stamped when it is sent. */
  function AsWire(m: SyncMutation, clock: int): Result<WireMutation, IntegrityError> {
    match Normalized(m, clock)
    case Failure(e) => Failure(e)
    case Success(p) =>
      Success(WireMutation(Some(p.mutationId), Some(p.projectId), Some(p.deviceId), Some(p.sequence),
                           Some(p.baseRevision),
                           Some(p.key), Some(p.operation.Name()), Some(p.value), p.previous, Some(p.createdAt),
                           Some(Sha(p))))
  }

  function FromWire(w: WireMutation): SyncMutation {
    SyncMutation(OrElse(w.mutationId, ""), OrElse(w.projectId, ""), OrElse(w.deviceId, ""), OrElse(w.sequence, 0),
                 OrElse(w.baseRevision, 0), OrElse(w.key, ""), OrElse(w.operation, ""), OrElse(w.value, JSON_NULL),
                 w.previous, w.createdAt, w.eventHash)
  }

  /** An operation parses exactly when it is spelled like its name, in whatever mix of cases. */
  lemma OperationParsesIff(text: string, operation: Operation)
    ensures var name := operation.Name();
            ParseOperation(text) == Some(operation)
            <==> |text| == |name|
                 && forall i | 0 <= i < |text| :: text[i] == name[i] || text[i] as int + 32 == name[i] as int
    ensures ParseOperation(operation.Name()) == Some(operation)
  {
    assert Lower(operation.Name()) == operation.Name();
    var name := operation.Name();
    if |text| == |name|
       && forall i | 0 <= i < |text| :: text[i] == name[i] || text[i] as int + 32 == name[i] as int {
      assert Lower(text) == name;
    }
  }

  /**
   Sending a mutation and normalising what arrives gives exactly what the sender normalised,
   whenever the receiver's clock reads: a stamp, once put on, travels with its hash.
   */
  lemma WireRoundTrip(m: SyncMutation, sent: int, received: int)
    ensures AsWire(m, sent).Failure? <==> Normalized(m, sent).Failure?
    ensures AsWire(m, sent).Success? ==>
              Normalized(FromWire(AsWire(m, sent).value), received) == Normalized(m, sent)
  {
    if Normalized(m, sent).Success? {
      var operation := Normalized(m, sent).value.operation;
      OperationParsesIff(operation.Name(), operation);
      StripIdempotent(m.key);
    }
  }

  predicate Stamped(m: SyncMutation) {
    m.createdAt.Some? && m.createdAt != Some(Text(""))
  }

  /**
   Two normalisations of one mutation at different clock readings agree exactly when the
   mutation is stamped or is refused both times; an unstamped one gets a different payload,
   and so a different hash, each time the clock moves.
   */
  lemma NormalizedIsStableIffStamped(m: SyncMutation, now: int, later: int)
    requires now != later
    ensures Normalized(m, later) == Normalized(m, now)
            <==> Stamped(m) || (Normalized(m, now).Failure? && Normalized(m, later).Failure?)
  {
  }

  // ---------- which mutations normalise, and to what ----------

  /** Everything a mutation must satisfy apart from its hash. */
  predicate Acceptable(m: SyncMutation) {
    && (forall id | id in {m.mutationId, m.projectId, m.deviceId} :: 1 <= |Strip(id)| <= 200)
    && ParseOperation(m.operation).Some?
    && 1 <= |Strip(m.key)| <= 512 && Strip(m.key)[0] != '/' && ".." !in Split(Strip(m.key), '/')
    && m.sequence >= 1 && m.baseRevision >= 0
    && (ParseOperation(m.operation) == Some(SetValue) ==> |m.value.canonical| <= MAX_SYNC_VALUE_BYTES)
  }

  /** Field by field: the payload says what the mutation says, with a stripped key and a time if that was missing. */
  predicate Carries(p: Payload, m: SyncMutation, clock: int) {
    && p.mutationId == m.mutationId && p.projectId == m.projectId && p.deviceId == m.deviceId
    && p.sequence == m.sequence && p.baseRevision == m.baseRevision && p.previous == m.previous
    && p.key == Strip(m.key)
    && ParseOperation(m.operation) == Some(p.operation)
    && (p.operation == SetValue ==> p.value == m.value)
    && (p.operation == DeleteKey ==> p.value == JSON_NULL)
    && (if Stamped(m) then Some(p.createdAt) == m.createdAt else p.createdAt == Instant(clock))
  }

  /**
   A mutation normalises exactly when it is acceptable and its hash is missing or that of the very
   payload that carries it; and then to that payload, whose key is stripped for good.
   */
  lemma NormalizedIsCanonical(m: SyncMutation, clock: int)
    ensures Normalized(m, clock).Success?
            <==> Acceptable(m) && (m.eventHash.None? || exists p :: m.eventHash == Some(Sha(p)) && Carries(p, m, clock))
    ensures Normalized(m, clock).Success? ==>
              var p := Normalized(m, clock).value;
              && Carries(p, m, clock)
              && SafeKey(p.key) && Strip(p.key) == p.key && p.createdAt != Text("")
              && (m.eventHash.Some? ==> m.eventHash == Some(Sha(p)))
  {
    hide Strip, Split;
    StripIdempotent(m.key);
    if Acceptable(m) {
      var operation := ParseOperation(m.operation).value;
      var p := Payload(m.mutationId, m.projectId, m.deviceId, m.sequence, m.baseRevision, Strip(m.key), operation,
                       if operation == SetValue then m.value else JSON_NULL, m.previous,
                       if Stamped(m) then m.createdAt.value else Instant(clock));
      assert Carries(p, m, clock) && forall q | Carries(q, m, clock) :: q == p;
    }
  }

  /**
   On the wire, a missing base revision counts as 0 and a missing value as null; without an id, a
   device, a project, a sequence, a key or an operation nothing normalises.
   */
  lemma MissingFields(w: WireMutation, clock: int)
    ensures None in {w.mutationId, w.projectId, w.deviceId, w.key, w.operation} || w.sequence == None
            ==> Normalized(FromWire(w), clock).Failure?
    ensures Normalized(FromWire(w), clock).Success? ==>
              var p := Normalized(FromWire(w), clock).value;
              && Some(p.mutationId) == w.mutationId && Some(p.projectId) == w.projectId
              && Some(p.deviceId) == w.deviceId && Some(p.sequence) == w.sequence
              && p.baseRevision == (if w.baseRevision.Some? then w.baseRevision.value else 0)
              && p.value == (if p.operation == SetValue && w.value.Some? then w.value.value else JSON_NULL)
              && p.previous == w.previous
  {
    hide Split;
    assert Strip("") == "" && Lower("") == "";
  }
}
