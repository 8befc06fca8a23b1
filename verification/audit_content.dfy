/** What acceptance of an audit event and of a bundle says about their fields, one by one
    (sdk/go/audit/verify.go, bundle.go). */
module AuditContent {
  import opened AuditBundle
  import opened AuditChain
  import opened AuditEvents
  import opened Digests
  import opened Merkle
  import opened Rfc6962
  import opened Wrappers

  // ---------------------------------------------------------------- content

  /** Bounded, and without control characters other than tab, line feed and carriage return. */
  predicate Opaque(s: string) {
    |s| <= 512 && forall i :: 0 <= i < |s| ==> s[i] in {'\t', '\n', '\r'} || (' ' <= s[i] && s[i] != 0x7f as char)
  }

  predicate EmptyOrDigest(s: string) {
    s == "" || IsSha256Ref(s)
  }

  /** No event carries a raw payload: each of its three hashes is absent or a digest, and each of its other strings is
      a bounded reference. */
  lemma NoRawPayloadIff(b: Body)
    ensures !HasRawPayload(b) <==>
              && EmptyOrDigest(b.inputHash) && EmptyOrDigest(b.outputHash) && EmptyOrDigest(b.parameterHash)
              && Opaque(b.id) && Opaque(b.tenantRef) && Opaque(b.caseTicketId) && Opaque(b.stepGrantId)
              && Opaque(b.actorUserId) && Opaque(b.connectorInstanceId) && Opaque(b.resourceType)
              && Opaque(b.resourceId) && Opaque(b.action) && Opaque(b.decision) && Opaque(b.evidencePointer)
              && Opaque(b.statusFrom) && Opaque(b.capability) && Opaque(b.grantRef) && Opaque(b.approvalEvidenceRef)
              && Opaque(b.receiptRef) && Opaque(b.riskAuthority) && Opaque(b.agentClientRef)
              && Opaque(b.agentReleaseRef) && Opaque(b.orgSnapshotRef) && Opaque(b.prevHash)
  {
    hide IsSha256Ref, IsReference, Opaque;
    forall s
      ensures IsReference(s) <==> Opaque(s)
    {
      OpaqueReference(s);
    }
    EachHash(b);
    EachReference(b);
  }

  lemma OpaqueReference(s: string)
    ensures IsReference(s) <==> Opaque(s)
  {
  }

  lemma EachHash(b: Body)
    ensures (forall f :: f in HashFields(b) ==> EmptyOrDigest(f)) <==>
            EmptyOrDigest(b.inputHash) && EmptyOrDigest(b.outputHash) && EmptyOrDigest(b.parameterHash)
  {
    hide IsSha256Ref;
    var fields := HashFields(b);
    assert fields[0] == b.inputHash && fields[1] == b.outputHash && fields[2] == b.parameterHash;
    assert fields[0] in fields && fields[1] in fields && fields[2] in fields;
  }

  lemma EachReference(b: Body)
    ensures (forall f :: f in ReferenceFields(b) ==> IsReference(f)) <==>
              && IsReference(b.id) && IsReference(b.tenantRef) && IsReference(b.caseTicketId)
              && IsReference(b.stepGrantId) && IsReference(b.actorUserId) && IsReference(b.connectorInstanceId)
              && IsReference(b.resourceType) && IsReference(b.resourceId) && IsReference(b.action)
              && IsReference(b.decision) && IsReference(b.evidencePointer) && IsReference(b.statusFrom)
              && IsReference(b.capability) && IsReference(b.grantRef) && IsReference(b.approvalEvidenceRef)
              && IsReference(b.receiptRef) && IsReference(b.riskAuthority) && IsReference(b.agentClientRef)
              && IsReference(b.agentReleaseRef) && IsReference(b.orgSnapshotRef) && IsReference(b.prevHash)
  {
    hide IsReference;
    var fields := ReferenceFields(b);
    assert fields[0] == b.id && fields[1] == b.tenantRef && fields[2] == b.caseTicketId && fields[3] == b.stepGrantId;
    assert fields[4] == b.actorUserId && fields[5] == b.connectorInstanceId && fields[6] == b.resourceType;
    assert fields[7] == b.resourceId && fields[8] == b.action && fields[9] == b.decision;
    assert fields[10] == b.evidencePointer && fields[11] == b.statusFrom && fields[12] == b.capability;
    assert fields[13] == b.grantRef && fields[14] == b.approvalEvidenceRef && fields[15] == b.receiptRef;
    assert fields[16] == b.riskAuthority && fields[17] == b.agentClientRef && fields[18] == b.agentReleaseRef;
    assert fields[19] == b.orgSnapshotRef && fields[20] == b.prevHash;
    assert forall i :: 0 <= i < |fields| ==> fields[i] in fields;
  }

  predicate OccursAt(text: string, word: string, i: int) {
    0 <= i <= |text| - |word| && text[i..i + |word|] == word
  }

  /** The word occurs in the text. */
  ghost predicate Mentions(text: string, word: string) {
    exists i :: OccursAt(text, word, i)
  }

  lemma ContainsMeansMentions(text: string, word: string)
    ensures AuditEvents.Contains(text, word) <==> Mentions(text, word)
  {
    if i :| 0 <= i <= |text| && word <= text[i..] {
      assert text[i..i + |word|] == text[i..][..|word|] == word;
      assert OccursAt(text, word, i);
    }
    if i :| OccursAt(text, word, i) {
      assert text[i..][..|word|] == text[i..i + |word|];
      assert word <= text[i..];
    }
  }

  /** The text between i and j is letters, digits and underscores, and they do not go on at either end. */
  predicate WordAt(text: string, i: int, j: int) {
    && 0 <= i < j <= |text|
    && (forall k :: i <= k < j ==> 'a' <= text[k] <= 'z' || '0' <= text[k] <= '9' || text[k] == '_')
    && (i > 0 ==> !('a' <= text[i - 1] <= 'z' || '0' <= text[i - 1] <= '9' || text[i - 1] == '_'))
    && (j < |text| ==> !('a' <= text[j] <= 'z' || '0' <= text[j] <= '9' || text[j] == '_'))
  }

  lemma RunIsWord(text: string)
    ensures forall i, j :: IsRun(text, i, j) <==> WordAt(text, i, j)
  {
  }

  /** Free of outcome words, and of `graph` standing alone, first or last in a run of letters, digits and underscores. */
  ghost predicate Innocent(text: string) {
    && !Mentions(text, "outcome") && !Mentions(text, "goal_achieved") && !Mentions(text, "goal_reached")
    && !Mentions(text, "goal_met") && !Mentions(text, "goal_complete") && !Mentions(text, "objective_met")
    && !Mentions(text, "objective_achieved") && !Mentions(text, "business_result") && !Mentions(text, "result_graph")
    && forall i, j :: 0 <= i < j <= |text| && WordAt(text, i, j) ==>
         var run := text[i..j];
         run != "graph" && !("graph_" <= run) && !(|run| >= 6 && run[|run| - 6..] == "_graph")
  }

  lemma InnocentMeans(text: string)
    ensures Innocent(text) <==>
              !(exists t :: t in OUTCOME_TOKENS && AuditEvents.Contains(text, t)) && !HasGraphToken(text)
  {
    hide AuditEvents.Contains, Mentions, IsRun, WordAt;
    RunIsWord(text);
    forall t
      ensures AuditEvents.Contains(text, t) <==> Mentions(text, t)
    {
      ContainsMeansMentions(text, t);
    }
    var all := OUTCOME_TOKENS;
    assert |all| == 9 && all[0] == "outcome" && all[1] == "goal_achieved" && all[2] == "goal_reached";
    assert all[3] == "goal_met" && all[4] == "goal_complete" && all[5] == "objective_met";
    assert all[6] == "objective_achieved" && all[7] == "business_result" && all[8] == "result_graph";
    assert forall i :: 0 <= i < 9 ==> all[i] in all;
  }

  /** No event smuggles a business outcome: none of these fields, in lower case, speaks of one. */
  lemma NoOutcomeIff(c: Crypto, b: Body)
    ensures !AssertsOutcome(c, b) <==>
              && Innocent(c.lower(b.action)) && Innocent(c.lower(b.decision)) && Innocent(c.lower(b.resourceType))
              && Innocent(c.lower(b.resourceId)) && Innocent(c.lower(b.evidencePointer))
              && Innocent(c.lower(b.capability)) && Innocent(c.lower(b.statusFrom)) && Innocent(c.lower(b.riskAuthority))
              && Innocent(c.lower(b.caseTicketId)) && Innocent(c.lower(b.stepGrantId)) && Innocent(c.lower(b.grantRef))
              && Innocent(c.lower(b.approvalEvidenceRef)) && Innocent(c.lower(b.receiptRef))
              && Innocent(c.lower(b.agentClientRef)) && Innocent(c.lower(b.agentReleaseRef))
              && Innocent(c.lower(b.orgSnapshotRef)) && Innocent(c.lower(b.id))
  {
    hide AuditEvents.Contains, Innocent, HasGraphToken, OutcomeFields, CleanField;
    forall f
      ensures Innocent(c.lower(f)) <==> CleanField(c, f)
    {
      CleanMeans(c, f);
    }
    EachOutcomeField(c, b);
  }

  ghost predicate CleanField(c: Crypto, f: string) {
    !(exists t :: t in OUTCOME_TOKENS && AuditEvents.Contains(c.lower(f), t)) && !HasGraphToken(c.lower(f))
  }

  lemma CleanMeans(c: Crypto, f: string)
    ensures Innocent(c.lower(f)) <==> CleanField(c, f)
  {
    hide AuditEvents.Contains, Innocent, HasGraphToken;
    InnocentMeans(c.lower(f));
  }

  lemma AllClean(c: Crypto, b: Body)
    ensures AssertsOutcome(c, b) <==> exists f :: f in OutcomeFields(b) && !CleanField(c, f)
  {
    hide AuditEvents.Contains, HasGraphToken, OutcomeFields;
    if f :| f in OutcomeFields(b) && !CleanField(c, f) {
      assert AssertsOutcome(c, b);
    }
  }

  lemma EachOutcomeField(c: Crypto, b: Body)
    ensures !AssertsOutcome(c, b) <==>
              && CleanField(c, b.action) && CleanField(c, b.decision) && CleanField(c, b.resourceType)
              && CleanField(c, b.resourceId) && CleanField(c, b.evidencePointer) && CleanField(c, b.capability)
              && CleanField(c, b.statusFrom) && CleanField(c, b.riskAuthority) && CleanField(c, b.caseTicketId)
              && CleanField(c, b.stepGrantId) && CleanField(c, b.grantRef) && CleanField(c, b.approvalEvidenceRef)
              && CleanField(c, b.receiptRef) && CleanField(c, b.agentClientRef) && CleanField(c, b.agentReleaseRef)
              && CleanField(c, b.orgSnapshotRef) && CleanField(c, b.id)
  {
    hide CleanField, AssertsOutcome;
    AllClean(c, b);
    var fields := OutcomeFields(b);
    assert fields[0] == b.action && fields[1] == b.decision && fields[2] == b.resourceType && fields[3] == b.resourceId;
    assert fields[4] == b.evidencePointer && fields[5] == b.capability && fields[6] == b.statusFrom;
    assert fields[7] == b.riskAuthority && fields[8] == b.caseTicketId && fields[9] == b.stepGrantId;
    assert fields[10] == b.grantRef && fields[11] == b.approvalEvidenceRef && fields[12] == b.receiptRef;
    assert fields[13] == b.agentClientRef && fields[14] == b.agentReleaseRef && fields[15] == b.orgSnapshotRef;
    assert fields[16] == b.id && |fields| == 17;
    assert forall i :: 0 <= i < |fields| ==> fields[i] in fields;
  }

  // ---------------------------------------------------------------- one event

  /** The key is registered, not revoked, an ed25519 key of 32 bytes, and the signature verifies under it. */
  predicate Vouched(c: Crypto, s: Signature, message: Bytes, keys: KeyResolver) {
    && s.algorithm == "ed25519"
    && keys(s.keyId).Some? && !keys(s.keyId).value.revoked && keys(s.keyId).value.algorithm == "ed25519"
    && |keys(s.keyId).value.publicKey| == 32
    && c.decode(s.value).Some? && c.verify(keys(s.keyId).value.publicKey, message, c.decode(s.value).value)
  }

  /** An event is accepted exactly if it is of the chain's tenant, in its place, linked to the event before, free of
      payload and outcome, hashed as it says, and signed by a registered key. */
  lemma EventAcceptedIff(c: Crypto, e: Event, wantSeq: nat, tenant: string, prevHash: string, keys: KeyResolver)
    ensures EventFault(c, e, wantSeq, tenant, prevHash, keys) == None <==>
              && e.body.tenantRef == tenant && e.body.tenantSeq == wantSeq && e.body.prevHash == prevHash
              && !HasRawPayload(e.body) && !AssertsOutcome(c, e.body)
              && Canonical(c, e.body).Some? && c.sha(Canonical(c, e.body).value) == e.eventHash
              && Vouched(c, e.signature, Canonical(c, e.body).value, keys)
  {
    hide HasRawPayload, AssertsOutcome, Canonical;
  }

  /** Each fault names what is wrong. */
  lemma FaultNamesCause(c: Crypto, e: Event, wantSeq: nat, tenant: string, prevHash: string, keys: KeyResolver)
    requires EventFault(c, e, wantSeq, tenant, prevHash, keys).Some?
    ensures match EventFault(c, e, wantSeq, tenant, prevHash, keys).value
            case Unsigned => e.signature == Signature("", "", "")
            case BadAlgorithm =>
              e.signature.algorithm != "ed25519"
              || (keys(e.signature.keyId).Some? && keys(e.signature.keyId).value.algorithm != "ed25519")
            case TenantSplice => e.body.tenantRef != tenant
            case Sequence => e.body.tenantSeq != wantSeq
            case RawPayload => HasRawPayload(e.body)
            case OutcomeAssertion => AssertsOutcome(c, e.body)
            case ChainBroken => e.body.prevHash != prevHash
            case HashMismatch => Canonical(c, e.body).Some? && c.sha(Canonical(c, e.body).value) != e.eventHash
            case UnknownKey => keys(e.signature.keyId) == None
            case RevokedKey => keys(e.signature.keyId).Some? && keys(e.signature.keyId).value.revoked
            case BadSignature =>
              Canonical(c, e.body).Some? && !Vouched(c, e.signature, Canonical(c, e.body).value, keys)
            case Malformed =>
              Canonical(c, e.body) == None
              || (keys(e.signature.keyId).Some? && |keys(e.signature.keyId).value.publicKey| != 32)
            case UntrustedKey => false
  {
    hide HasRawPayload, AssertsOutcome, Canonical;
  }

  /** The instant that is signed is the last whole microsecond: it is what two instants must share to sign alike. */
  lemma SignedInstant(a: int, b: int)
    ensures Truncated(a) <= a < Truncated(a) + 1000 && Truncated(a) % 1000 == 0
    ensures Truncated(a) == Truncated(b) <==> a / 1000 == b / 1000
  {
  }

  /** Signing needs a key id, a secret key of 64 bytes and a canonical form, and signs and hashes that very form. */
  lemma SigningIff(c: Crypto, body: Body, keyId: string, secret: Bytes)
    ensures SignEd25519(c, body, keyId, secret)
            == if keyId == "" || |secret| != 64 || Canonical(c, body) == None then Err(Malformed)
               else
                 var bytes := Canonical(c, body).value;
                 Ok(Event(body, Signature("ed25519", keyId, c.encode(c.sign(secret, bytes))), c.sha(bytes)))
  {
    hide Canonical;
  }

  // ---------------------------------------------------------------- bundles

  /** A listed key is well formed and, if the anchor knows its id, is the anchor's own key. */
  predicate KeyAgrees(k: SigningKey, trusted: KeyResolver) {
    && k.algorithm == "ed25519" && |k.publicKey| == 32
    && (trusted(k.keyId).Some? ==> trusted(k.keyId).value.publicKey == k.publicKey)
  }

  /** A key of the anchor, unless the bundle revokes it. */
  lemma AnchoredMeans(trusted: KeyResolver, keys: seq<SigningKey>, keyId: string)
    ensures var key := Anchored(trusted, RevokedBy(keys))(keyId);
            && (key.Some? <==> trusted(keyId).Some?)
            && (key.Some? ==>
                  && key.value.(revoked := false) == trusted(keyId).value.(revoked := false)
                  && (key.value.revoked <==>
                        trusted(keyId).value.revoked || exists k :: k in keys && k.keyId == keyId && k.revoked))
  {
    if k :| k in keys && k.keyId == keyId && k.revoked {
      assert keyId in RevokedBy(keys);
    }
  }

  /** A bundle is accepted exactly if every part of it holds, part by part. */
  lemma BundleAcceptedIff(c: Crypto, b: Bundle, trusted: KeyResolver)
    ensures Accepted(c, b, trusted) <==>
              && b.version == "agentnexus-audit-bundle/v1" && b.events != []
              && (forall k :: k in b.keys ==> KeyAgrees(k, trusted))
              && ChainOk(c, b.events, Anchored(trusted, RevokedBy(b.keys)))
              && b.tenantRef == b.events[0].body.tenantRef == b.batch.tenantRef
              && b.batch.rootHash == Root(c.sha, EventHashes(b.events))
              && |b.witnesses| == |b.events| == b.batch.eventCount
              && (forall i :: 0 <= i < |b.events| ==>
                    Proves(c.sha, b.events[i].eventHash, b.witnesses[i].siblings, b.batch.rootHash))
              && b.batch.firstSeq == b.events[0].body.tenantSeq
              && b.batch.lastSeq == b.events[|b.events| - 1].body.tenantSeq
              && CanonicalBatch(c, b.batch).Some?
              && Vouched(c, b.batch.signature, CanonicalBatch(c, b.batch).value, Anchored(trusted, RevokedBy(b.keys)))
  {
    hide KeysFault, ChainOk, Root, Proves, CanonicalBatch, RevokedBy, Accepted;
    AcceptedMeaning(c, b, trusted);
    KeysFaultMeaning(b.keys, trusted);
  }

  /** What the signature of a batch covers: everything but the signature itself and sub-microsecond time. */
  lemma BatchSignatureCovers(c: Crypto, a: BatchRoot, b: BatchRoot)
    requires CanonicalBatch(c, a).Some? && CanonicalBatch(c, a) == CanonicalBatch(c, b)
    requires forall x, y :: c.marshalBatch(x).Some? && c.marshalBatch(x) == c.marshalBatch(y) ==> x == y
    ensures a.(signature := NO_SIGNATURE, signedAt := 0) == b.(signature := NO_SIGNATURE, signedAt := 0)
    ensures a.signedAt / 1000 == b.signedAt / 1000
  {
    var x := a.(signature := NO_SIGNATURE, signedAt := Truncated(a.signedAt));
    var y := b.(signature := NO_SIGNATURE, signedAt := Truncated(b.signedAt));
    assert c.marshalBatch(x) == c.marshalBatch(y);
    SignedInstant(a.signedAt, b.signedAt);
  }

  /** A manifest states the tenant, the window, the count, the root and the last event's time. */
  lemma ManifestStates(c: Crypto, tenant: string, events: seq<Event>)
    requires events != []
    ensures var m := Manifest(c, tenant, events);
            && m.tenantRef == tenant && m.firstSeq == events[0].body.tenantSeq
            && m.lastSeq == events[|events| - 1].body.tenantSeq && m.eventCount == |events|
            && m.signedAt == events[|events| - 1].body.signedAt
            && m.rootHash == Root(c.sha, EventHashes(events))
  {
  }
}
