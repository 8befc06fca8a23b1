/** The signed, hash-linked, per-tenant audit chain
    (sdk/go/audit/event.go, canonical.go, sign.go and verify.go). */
module AuditEvents {
  import opened Digests
  import opened Wrappers

  const ED25519 := "ed25519"
  const PUBLIC_KEY_SIZE := 32
  const SECRET_KEY_SIZE := 64
  const MAX_REFERENCE_BYTES := 512

  datatype Fault =
    | Unsigned | BadAlgorithm | UnknownKey | UntrustedKey | RevokedKey | BadSignature | HashMismatch
    | ChainBroken | Sequence | TenantSplice | RawPayload | OutcomeAssertion | Malformed

  datatype Signature = Signature(algorithm: string, keyId: string, value: string)

  const NO_SIGNATURE := Signature("", "", "")

  /** Everything one audit event states.  Instants are nanoseconds since the zero time. */
  datatype Body = Body(
    id: string, tenantRef: string, tenantSeq: nat,
    caseTicketId: string, stepGrantId: string, actorUserId: string, connectorInstanceId: string,
    resourceType: string, resourceId: string, action: string, decision: string,
    inputHash: string, outputHash: string, evidencePointer: string,
    statusFrom: string, capability: string, parameterHash: string, grantRef: string,
    approvalEvidenceRef: string, receiptRef: string, riskAuthority: string,
    agentClientRef: string, agentReleaseRef: string, orgSnapshotRef: string,
    prevHash: string, signedAt: int)

  /** A body with the two slots that the canonical form leaves out. */
  datatype Event = Event(body: Body, signature: Signature, eventHash: string)

  datatype SigningKey = SigningKey(keyId: string, algorithm: string, publicKey: Bytes, revoked: bool)

  type KeyResolver = string -> Option<SigningKey>

  datatype BatchRoot = BatchRoot(
    tenantRef: string, firstSeq: nat, lastSeq: nat, eventCount: int, rootHash: string, signedAt: int,
    signature: Signature)

  /** The encodings and primitives the audit plane is built on. */
  datatype Crypto = Crypto(
    sha: Bytes -> Digest,
    marshalEvent: Body -> Option<Bytes>,
    marshalBatch: BatchRoot -> Option<Bytes>,
    encode: Bytes -> string,
    decode: string -> Option<Bytes>,
    publicKey: Bytes -> Bytes,
    sign: (Bytes, Bytes) -> Bytes,
    verify: (Bytes, Bytes, Bytes) -> bool,
    lower: string -> string)

  /** What is assumed of base64 and of ed25519: decoding undoes encoding, and a signature made with a
      secret key verifies under its public half.  Nothing is assumed about forgery. */
  ghost predicate Sound(c: Crypto) {
    && (forall x :: c.decode(c.encode(x)) == Some(x))
    && (forall k, m :: c.verify(c.publicKey(k), m, c.sign(k, m)))
    && (forall k :: |c.publicKey(k)| == PUBLIC_KEY_SIZE)
  }

  // ---------------------------------------------------------------- canonical form

  const MICROSECOND := 1_000

  function Truncated(instant: int): int {
    instant - instant % MICROSECOND
  }

  /** The content two events must share to have the same signing pre-image. */
  function Normalized(body: Body): Body {
    body.(signedAt := Truncated(body.signedAt))
  }

  function Canonical(c: Crypto, body: Body): Option<Bytes> {
    c.marshalEvent(Normalized(body))
  }

  // ---------------------------------------------------------------- content rules

  predicate HasControlBytes(s: string) {
    exists i :: 0 <= i < |s| && ((s[i] < ' ' && s[i] != '\t' && s[i] != '\n' && s[i] != '\r') || s[i] == 127 as char)
  }

  function HashFields(b: Body): seq<string> {
    [b.inputHash, b.outputHash, b.parameterHash]
  }

  function ReferenceFields(b: Body): seq<string> {
    [b.id, b.tenantRef, b.caseTicketId, b.stepGrantId, b.actorUserId, b.connectorInstanceId, b.resourceType,
     b.resourceId, b.action, b.decision, b.evidencePointer, b.statusFrom, b.capability, b.grantRef,
     b.approvalEvidenceRef, b.receiptRef, b.riskAuthority, b.agentClientRef, b.agentReleaseRef,
     b.orgSnapshotRef, b.prevHash]
  }

  predicate IsReference(s: string) {
    |s| <= MAX_REFERENCE_BYTES && !HasControlBytes(s)
  }

  predicate HasRawPayload(b: Body) {
    || (exists f :: f in HashFields(b) && f != "" && !IsSha256Ref(f))
    || (exists f :: f in ReferenceFields(b) && !IsReference(f))
  }

  predicate Contains(s: string, token: string) {
    exists i :: 0 <= i <= |s| && token <= s[i..]
  }

  const OUTCOME_TOKENS := [
    "outcome", "goal_achieved", "goal_reached", "goal_met", "goal_complete",
    "objective_met", "objective_achieved", "business_result", "result_graph"]

  predicate IsTokenChar(c: char) {
    'a' <= c <= 'z' || '0' <= c <= '9' || c == '_'
  }

  /** s[i..j] is one of the maximal runs of token characters of s. */
  predicate IsRun(s: string, i: int, j: int) {
    && 0 <= i < j <= |s|
    && (forall k :: i <= k < j ==> IsTokenChar(s[k]))
    && (i == 0 || !IsTokenChar(s[i - 1]))
    && (j == |s| || !IsTokenChar(s[j]))
  }

  predicate IsGraphName(part: string) {
    part == "graph" || "graph_" <= part || (|part| >= 6 && part[|part| - 6..] == "_graph")
  }

  predicate HasGraphToken(lower: string) {
    exists i, j :: 0 <= i < j <= |lower| && IsRun(lower, i, j) && IsGraphName(lower[i..j])
  }

  function OutcomeFields(b: Body): seq<string> {
    [b.action, b.decision, b.resourceType, b.resourceId, b.evidencePointer, b.capability, b.statusFrom,
     b.riskAuthority, b.caseTicketId, b.stepGrantId, b.grantRef, b.approvalEvidenceRef, b.receiptRef,
     b.agentClientRef, b.agentReleaseRef, b.orgSnapshotRef, b.id]
  }

  predicate AssertsOutcome(c: Crypto, b: Body) {
    exists f :: f in OutcomeFields(b)
      && ((exists t :: t in OUTCOME_TOKENS && Contains(c.lower(f), t)) || HasGraphToken(c.lower(f)))
  }

  // ---------------------------------------------------------------- one event

  function KeyMaterialFault(key: SigningKey): Option<Fault> {
    if key.algorithm != ED25519 then Some(BadAlgorithm)
    else if |key.publicKey| != PUBLIC_KEY_SIZE then Some(Malformed)
    else None
  }

  predicate SignatureVerifies(c: Crypto, key: SigningKey, message: Bytes, value: string) {
    match c.decode(value)
    case None => false
    case Some(bytes) => c.verify(key.publicKey, message, bytes)
  }

  /** Checks 8 and 9: the key resolves, is live and well formed, and the signature verifies. */
  function SignatureFault(c: Crypto, s: Signature, message: Bytes, keys: KeyResolver): Option<Fault> {
    match keys(s.keyId)
    case None => Some(UnknownKey)
    case Some(key) =>
      if key.revoked then Some(RevokedKey)
      else if KeyMaterialFault(key).Some? then KeyMaterialFault(key)
      else if !SignatureVerifies(c, key, message, s.value) then Some(BadSignature)
      else None
  }

  /** The ordered checks on one event. */
  function EventFault(c: Crypto, e: Event, wantSeq: nat, tenant: string, prevHash: string, keys: KeyResolver)
    : Option<Fault>
  {
    if e.signature == NO_SIGNATURE then Some(Unsigned)
    else if e.signature.algorithm != ED25519 then Some(BadAlgorithm)
    else if e.body.tenantRef != tenant then Some(TenantSplice)
    else if e.body.tenantSeq != wantSeq then Some(Sequence)
    else if HasRawPayload(e.body) then Some(RawPayload)
    else if AssertsOutcome(c, e.body) then Some(OutcomeAssertion)
    else if e.body.prevHash != prevHash then Some(ChainBroken)
    else match Canonical(c, e.body)
      case None => Some(Malformed)
      case Some(bytes) =>
        if c.sha(bytes) != e.eventHash then Some(HashMismatch)
        else SignatureFault(c, e.signature, bytes, keys)
  }
}

module AuditChain {
  import opened AuditEvents
  import opened Digests
  import opened Wrappers

  function HashBefore(events: seq<Event>, i: nat): string
    requires i <= |events|
  {
    if i == 0 then "" else events[i - 1].eventHash
  }

  ghost predicate LinkOk(c: Crypto, events: seq<Event>, i: nat, keys: KeyResolver)
    requires i < |events|
  {
    EventFault(c, events[i], i + 1, events[0].body.tenantRef, HashBefore(events, i), keys) == None
  }

  ghost predicate ChainOk(c: Crypto, events: seq<Event>, keys: KeyResolver) {
    events != [] ==>
      && events[0].body.tenantRef != ""
      && forall i :: 0 <= i < |events| ==> LinkOk(c, events, i, keys)
  }

  /** The fault of the first bad event at or after position i. */
  function FirstFault(c: Crypto, events: seq<Event>, i: nat, keys: KeyResolver): Option<Fault>
    requires i <= |events|
    decreases |events| - i
  {
    if i == |events| then None
    else
      var fault := EventFault(c, events[i], i + 1, events[0].body.tenantRef, HashBefore(events, i), keys);
      if fault.Some? then fault else FirstFault(c, events, i + 1, keys)
  }

  function ChainFault(c: Crypto, events: seq<Event>, keys: KeyResolver): Option<Fault> {
    if events == [] then None
    else if events[0].body.tenantRef == "" then Some(Malformed)
    else FirstFault(c, events, 0, keys)
  }

  lemma {:induction false} FirstFaultMeaning(c: Crypto, events: seq<Event>, i: nat, keys: KeyResolver)
    requires i <= |events|
    ensures FirstFault(c, events, i, keys) == None
       <==> forall k :: i <= k < |events| ==> LinkOk(c, events, k, keys)
    decreases |events| - i
  {
    if i < |events| {
      FirstFaultMeaning(c, events, i + 1, keys);
      assert LinkOk(c, events, i, keys) <==>
        EventFault(c, events[i], i + 1, events[0].body.tenantRef, HashBefore(events, i), keys) == None;
    }
  }

  lemma ChainFaultMeaning(c: Crypto, events: seq<Event>, keys: KeyResolver)
    ensures ChainFault(c, events, keys) == None <==> ChainOk(c, events, keys)
  {
    if events != [] {
      FirstFaultMeaning(c, events, 0, keys);
    }
  }

  method VerifyChain(c: Crypto, events: seq<Event>, keys: Option<KeyResolver>) returns (r: Option<Fault>)
    ensures keys == None ==> r == Some(Malformed)
    ensures keys.Some? ==> r == ChainFault(c, events, keys.value)
    ensures keys.Some? ==> (r == None <==> ChainOk(c, events, keys.value))
  {
    if keys.None? {
      return Some(Malformed);
    }
    ChainFaultMeaning(c, events, keys.value);
    if |events| == 0 {
      return None;
    }
    var tenant := events[0].body.tenantRef;
    if tenant == "" {
      return Some(Malformed);
    }
    var prevHash := "";
    for i := 0 to |events|
      invariant prevHash == HashBefore(events, i)
      invariant FirstFault(c, events, i, keys.value) == ChainFault(c, events, keys.value)
    {
      var fault := EventFault(c, events[i], i + 1, tenant, prevHash, keys.value);
      if fault.Some? {
        return fault;
      }
      prevHash := events[i].eventHash;
    }
    return None;
  }

  // ---------------------------------------------------------------- what an accepted chain binds

  ghost predicate IsAcceptedBody(c: Crypto, e: Event) {
    Canonical(c, e.body).Some? && c.sha(Canonical(c, e.body).value) == e.eventHash
  }

  ghost function Preimages(c: Crypto, events: seq<Event>): set<Bytes> {
    set e | e in events && Canonical(c, e.body).Some? :: Canonical(c, e.body).value
  }

  ghost function Bodies(events: seq<Event>): set<Body> {
    set e | e in events :: Normalized(e.body)
  }

  /** No two of the events at hand collide, neither in their encoding nor in their hash. */
  ghost predicate CollisionFree(c: Crypto, events: seq<Event>) {
    && InjectiveOn(c.sha, Preimages(c, events))
    && InjectiveOn(c.marshalEvent, Bodies(events))
  }

  lemma EqualHashEqualBody(c: Crypto, events: seq<Event>, d: Event, e: Event)
    requires d in events && e in events && CollisionFree(c, events)
    requires IsAcceptedBody(c, d) && IsAcceptedBody(c, e) && d.eventHash == e.eventHash
    ensures Normalized(d.body) == Normalized(e.body)
  {
    assert Canonical(c, d.body).value in Preimages(c, events);
    assert Canonical(c, e.body).value in Preimages(c, events);
    assert Normalized(d.body) in Bodies(events) && Normalized(e.body) in Bodies(events);
  }

  lemma AcceptedBody(c: Crypto, events: seq<Event>, keys: KeyResolver, i: nat)
    requires ChainOk(c, events, keys) && i < |events|
    ensures IsAcceptedBody(c, events[i])
    ensures events[i].body.tenantSeq == i + 1 && events[i].body.prevHash == HashBefore(events, i)
    ensures events[i].body.tenantRef == events[0].body.tenantRef
  {
    assert LinkOk(c, events, i, keys);
  }

  /** Events that agree in everything but the signature and sub-microsecond time. */
  ghost predicate SameRecord(d: Event, e: Event) {
    Normalized(d.body) == Normalized(e.body) && d.eventHash == e.eventHash
  }

  ghost predicate SameRecords(a: seq<Event>, b: seq<Event>) {
    |a| == |b| && forall i :: 0 <= i < |a| ==> SameRecord(a[i], b[i])
  }

  /** The last event hash of an accepted chain determines the whole chain, its length included. */
  lemma {:induction false} LastHashBindsChain(
      c: Crypto, a: seq<Event>, b: seq<Event>, aKeys: KeyResolver, bKeys: KeyResolver)
    requires ChainOk(c, a, aKeys) && ChainOk(c, b, bKeys)
    requires a != [] && b != [] && a[|a| - 1].eventHash == b[|b| - 1].eventHash
    requires CollisionFree(c, a + b)
    ensures SameRecords(a, b)
    decreases |a|
  {
    var i, j := |a| - 1, |b| - 1;
    AcceptedBody(c, a, aKeys, i);
    AcceptedBody(c, b, bKeys, j);
    EqualHashEqualBody(c, a + b, a[i], b[j]);
    assert a[i].body.tenantSeq == Normalized(a[i].body).tenantSeq == b[j].body.tenantSeq;
    if i > 0 {
      assert a[i].body.prevHash == Normalized(a[i].body).prevHash == b[j].body.prevHash;
      PrefixOk(c, a, aKeys, i);
      PrefixOk(c, b, bKeys, j);
      forall e | e in a[..i] + b[..j]
        ensures e in a + b
      {
      }
      CollisionFreeSubset(c, a[..i] + b[..j], a + b);
      LastHashBindsChain(c, a[..i], b[..j], aKeys, bKeys);
      assert forall k :: 0 <= k < i ==> SameRecord(a[..i][k], b[..j][k]);
    }
  }

  lemma CollisionFreeSubset(c: Crypto, part: seq<Event>, whole: seq<Event>)
    requires CollisionFree(c, whole)
    requires forall e :: e in part ==> e in whole
    ensures CollisionFree(c, part)
  {
    assert Preimages(c, part) <= Preimages(c, whole);
    assert Bodies(part) <= Bodies(whole);
  }

  lemma PrefixOk(c: Crypto, events: seq<Event>, keys: KeyResolver, n: nat)
    requires ChainOk(c, events, keys) && n <= |events|
    ensures ChainOk(c, events[..n], keys)
  {
    if n > 0 {
      forall i | 0 <= i < n
        ensures LinkOk(c, events[..n], i, keys)
      {
        assert LinkOk(c, events, i, keys);
      }
    }
  }

  // ---------------------------------------------------------------- sign and append

  /** A body before its place in the chain is known, and the key that signs it. */
  datatype Draft = Draft(body: Body, keyId: string, secret: Bytes)

  function SignEd25519(c: Crypto, body: Body, keyId: string, secret: Bytes): Result<Event, Fault> {
    if keyId == "" || |secret| != SECRET_KEY_SIZE then Err(Malformed)
    else match Canonical(c, body)
      case None => Err(Malformed)
      case Some(bytes) =>
        Ok(Event(body, Signature(ED25519, keyId, c.encode(c.sign(secret, bytes))), c.sha(bytes)))
  }

  /** The body given its sequence number and linked to the current end of the chain. */
  function Placed(chain: seq<Event>, body: Body): Body {
    body.(tenantSeq := |chain| + 1, prevHash := HashBefore(chain, |chain|))
  }

  method SignAndAppend(c: Crypto, chain: seq<Event>, draft: Draft) returns (r: Result<seq<Event>, Fault>)
    ensures match SignEd25519(c, Placed(chain, draft.body), draft.keyId, draft.secret)
            case Err(f) => r == Err(f)
            case Ok(e) => r == Ok(chain + [e])
  {
    var body := draft.body.(tenantSeq := |chain| + 1);
    if |chain| == 0 {
      body := body.(prevHash := "");
    } else {
      body := body.(prevHash := chain[|chain| - 1].eventHash);
    }
    match SignEd25519(c, body, draft.keyId, draft.secret) {
      case Err(f) => return Err(f);
      case Ok(e) => return Ok(chain + [e]);
    }
  }

  /** The chain holds nothing but what signing and appending the drafts produced. */
  ghost predicate BuiltFrom(c: Crypto, chain: seq<Event>, drafts: seq<Draft>) {
    |chain| == |drafts|
    && forall i :: 0 <= i < |drafts| ==>
         SignEd25519(c, Placed(chain[..i], drafts[i].body), drafts[i].keyId, drafts[i].secret) == Ok(chain[i])
  }

  /** A draft whose own content the verifier admits, for this tenant, signed with a key the anchor holds. */
  ghost predicate Admissible(c: Crypto, d: Draft, tenant: string, keys: KeyResolver) {
    && d.body.tenantRef == tenant
    && !HasRawPayload(d.body.(prevHash := ""))
    && !AssertsOutcome(c, d.body)
    && keys(d.keyId) == Some(SigningKey(d.keyId, ED25519, c.publicKey(d.secret), false))
  }

  lemma DigestIsReference(d: string)
    requires IsSha256Ref(d)
    ensures IsReference(d)
  {
    assert forall i :: |DIGEST_PREFIX| <= i < |d| ==> IsHexDigit(d[i]);
    assert forall i :: 0 <= i < |DIGEST_PREFIX| ==> d[i] == DIGEST_PREFIX[i];
  }

  lemma PlacedContent(c: Crypto, b: Body, seqNo: nat, prev: string)
    requires !HasRawPayload(b.(prevHash := "")) && !AssertsOutcome(c, b)
    requires prev == "" || IsSha256Ref(prev)
    ensures var p := b.(tenantSeq := seqNo, prevHash := prev); !HasRawPayload(p) && !AssertsOutcome(c, p)
  {
    var bare, p := b.(prevHash := ""), b.(tenantSeq := seqNo, prevHash := prev);
    assert HashFields(p) == HashFields(bare);
    assert OutcomeFields(p) == OutcomeFields(b);
    if prev != "" {
      DigestIsReference(prev);
    }
    assert ReferenceFields(p) == ReferenceFields(bare)[..20] + [prev];
    forall f | f in ReferenceFields(p)
      ensures IsReference(f)
    {
      assert f == prev || f in ReferenceFields(bare);
    }
  }

  /** Every chain that signing and appending builds is accepted, and so is each of its prefixes. */
  lemma BuiltChainVerifies(c: Crypto, chain: seq<Event>, drafts: seq<Draft>, tenant: string, keys: KeyResolver)
    requires Sound(c) && tenant != "" && BuiltFrom(c, chain, drafts)
    requires forall d :: d in drafts ==> Admissible(c, d, tenant, keys)
    ensures forall n :: 0 <= n <= |chain| ==> ChainOk(c, chain[..n], keys)
  {
    if chain != [] {
      forall i | 0 <= i < |chain|
        ensures chain[i].body.tenantRef == tenant
        ensures EventFault(c, chain[i], i + 1, tenant, HashBefore(chain, i), keys) == None
      {
        BuiltLinkVerifies(c, chain, drafts, i, tenant, keys);
      }
      assert chain[0].body.tenantRef == tenant;
      assert forall i :: 0 <= i < |chain| ==> LinkOk(c, chain, i, keys);
    }
    forall n | 0 <= n <= |chain|
      ensures ChainOk(c, chain[..n], keys)
    {
      PrefixOk(c, chain, keys, n);
    }
  }

  lemma SignedEventVerifies(c: Crypto, body: Body, keyId: string, secret: Bytes, keys: KeyResolver)
    requires Sound(c) && SignEd25519(c, body, keyId, secret).Ok?
    requires keys(keyId) == Some(SigningKey(keyId, ED25519, c.publicKey(secret), false))
    ensures var e := SignEd25519(c, body, keyId, secret).value;
            && e.body == body && Canonical(c, body).Some? && IsSha256Ref(e.eventHash)
            && c.sha(Canonical(c, body).value) == e.eventHash
            && e.signature != NO_SIGNATURE && e.signature.algorithm == ED25519
            && SignatureFault(c, e.signature, Canonical(c, body).value, keys) == None
  {
    var bytes := Canonical(c, body).value;
    assert c.decode(c.encode(c.sign(secret, bytes))) == Some(c.sign(secret, bytes));
  }

  /** What signing and appending makes of draft i. */
  lemma BuiltLink(c: Crypto, chain: seq<Event>, drafts: seq<Draft>, i: nat)
    requires BuiltFrom(c, chain, drafts) && i < |chain|
    ensures var d, prev := drafts[i], HashBefore(chain, i);
            && (prev == "" || IsSha256Ref(prev))
            && SignEd25519(c, d.body.(tenantSeq := i + 1, prevHash := prev), d.keyId, d.secret) == Ok(chain[i])
  {
    hide Canonical;
    var prev := HashBefore(chain, i);
    assert Placed(chain[..i], drafts[i].body) == drafts[i].body.(tenantSeq := i + 1, prevHash := prev);
    if i > 0 {
      var p := drafts[i - 1];
      assert SignEd25519(c, Placed(chain[..i - 1], p.body), p.keyId, p.secret) == Ok(chain[i - 1]);
    }
  }

  lemma BuiltLinkVerifies(
      c: Crypto, chain: seq<Event>, drafts: seq<Draft>, i: nat, tenant: string, keys: KeyResolver)
    requires Sound(c) && BuiltFrom(c, chain, drafts) && i < |chain|
    requires forall d :: d in drafts ==> Admissible(c, d, tenant, keys)
    ensures chain[i].body.tenantRef == tenant
    ensures EventFault(c, chain[i], i + 1, tenant, HashBefore(chain, i), keys) == None
  {
    var d, prev := drafts[i], HashBefore(chain, i);
    BuiltLink(c, chain, drafts, i);
    assert Admissible(c, d, tenant, keys);
    AdmissibleVerifies(c, d, i + 1, prev, tenant, keys);
  }

  lemma AdmissibleVerifies(c: Crypto, d: Draft, wantSeq: nat, prev: string, tenant: string, keys: KeyResolver)
    requires Sound(c) && Admissible(c, d, tenant, keys) && (prev == "" || IsSha256Ref(prev))
    requires SignEd25519(c, d.body.(tenantSeq := wantSeq, prevHash := prev), d.keyId, d.secret).Ok?
    ensures var e := SignEd25519(c, d.body.(tenantSeq := wantSeq, prevHash := prev), d.keyId, d.secret).value;
            e.body.tenantRef == tenant && EventFault(c, e, wantSeq, tenant, prev, keys) == None
  {
    var body := d.body.(tenantSeq := wantSeq, prevHash := prev);
    SignedEventVerifies(c, body, d.keyId, d.secret, keys);
    PlacedContent(c, d.body, wantSeq, prev);
    PlacedEventVerifies(c, SignEd25519(c, body, d.keyId, d.secret).value, wantSeq, tenant, prev, keys);
  }

  lemma PlacedEventVerifies(c: Crypto, e: Event, wantSeq: nat, tenant: string, prev: string, keys: KeyResolver)
    requires e.signature != NO_SIGNATURE && e.signature.algorithm == ED25519
    requires e.body.tenantRef == tenant && e.body.tenantSeq == wantSeq && e.body.prevHash == prev
    requires !HasRawPayload(e.body) && !AssertsOutcome(c, e.body)
    requires IsAcceptedBody(c, e)
    requires SignatureFault(c, e.signature, Canonical(c, e.body).value, keys) == None
    ensures EventFault(c, e, wantSeq, tenant, prev, keys) == None
  {
  }
}
