/** The portable offline verification package (sdk/go/audit/bundle.go). */
module AuditBundle {
  import opened AuditChain
  import opened AuditEvents
  import opened Digests
  import opened Merkle
  import opened Rfc6962
  import opened Wrappers

  const BUNDLE_VERSION := "agentnexus-audit-bundle/v1"

  datatype Bundle = Bundle(
    version: string, tenantRef: string, events: seq<Event>, keys: seq<SigningKey>, batch: BatchRoot,
    witnesses: seq<Witness>)

  type BatchSigner = Bytes -> Result<Signature, Fault>

  function EventHashes(events: seq<Event>): (hashes: seq<string>)
    ensures |hashes| == |events|
    ensures forall i :: 0 <= i < |events| ==> hashes[i] == events[i].eventHash
  {
    seq(|events|, i requires 0 <= i < |events| => events[i].eventHash)
  }

  function CanonicalBatch(c: Crypto, b: BatchRoot): Option<Bytes> {
    c.marshalBatch(b.(signature := NO_SIGNATURE, signedAt := Truncated(b.signedAt)))
  }

  function Ed25519Signer(c: Crypto, keyId: string, secret: Bytes): BatchSigner {
    (message: Bytes) =>
      if keyId == "" || |secret| != SECRET_KEY_SIZE then Err(Malformed)
      else Ok(Signature(ED25519, keyId, c.encode(c.sign(secret, message))))
  }

  /** The manifest of a batch before it is signed. */
  function Manifest(c: Crypto, tenant: string, events: seq<Event>): BatchRoot
    requires events != []
  {
    var first, last := events[0].body, events[|events| - 1].body;
    BatchRoot(tenant, first.tenantSeq, last.tenantSeq, |events|,
              Root(c.sha, EventHashes(events)), last.signedAt, NO_SIGNATURE)
  }

  /** The witness of every event of a batch. */
  function Witnesses(c: Crypto, events: seq<Event>): (ws: seq<Witness>)
    ensures |ws| == |events|
  {
    var leaves := Leaves(c.sha, EventHashes(events));
    seq(|events|, i requires 0 <= i < |events| => Witness(i, AuditPath(c.sha, leaves, i)))
  }

  function Assembled(c: Crypto, tenant: string, events: seq<Event>, keys: seq<SigningKey>, s: Signature): Bundle
    requires events != []
  {
    Bundle(BUNDLE_VERSION, tenant, events, keys, Manifest(c, tenant, events).(signature := s), Witnesses(c, events))
  }

  function SignManifest(c: Crypto, tenant: string, events: seq<Event>, sign: BatchSigner): Result<Signature, Fault>
    requires events != []
  {
    match CanonicalBatch(c, Manifest(c, tenant, events))
    case None => Err(Malformed)
    case Some(message) => sign(message)
  }

  method BuildWitnesses(c: Crypto, events: seq<Event>) returns (witnesses: seq<Witness>)
    ensures witnesses == Witnesses(c, events)
  {
    var hashes := EventHashes(events);
    witnesses := [];
    for i := 0 to |events|
      invariant |witnesses| == i
      invariant forall j :: 0 <= j < i ==> witnesses[j] == Witnesses(c, events)[j]
    {
      var proof := MerkleProof(c.sha, hashes, i);
      witnesses := witnesses + [proof.value];
    }
  }

  method BuildBundle(
      c: Crypto, tenant: string, events: seq<Event>, keys: seq<SigningKey>, sign: Option<BatchSigner>)
    returns (r: Result<Bundle, Fault>)
    ensures tenant == "" || events == [] || sign == None ==> r == Err(Malformed)
    ensures tenant != "" && events != [] && sign.Some? ==>
              match SignManifest(c, tenant, events, sign.value)
              case Err(f) => r == Err(f)
              case Ok(s) =>
                if s == NO_SIGNATURE || s.algorithm != ED25519 then r == Err(Malformed)
                else r == Ok(Assembled(c, tenant, events, keys, s))
  {
    if tenant == "" || |events| == 0 {
      return Err(Malformed);
    }
    if sign.None? {
      return Err(Malformed);
    }
    var root := MerkleRoot(c.sha, EventHashes(events));
    var witnesses := BuildWitnesses(c, events);
    var first, last := events[0].body, events[|events| - 1].body;
    var batch := BatchRoot(tenant, first.tenantSeq, last.tenantSeq, |events|, root.value, last.signedAt, NO_SIGNATURE);
    assert batch == Manifest(c, tenant, events);
    var message := CanonicalBatch(c, batch);
    if message.None? {
      return Err(Malformed);
    }
    var signature := sign.value(message.value);
    if signature.Err? {
      return Err(signature.error);
    }
    if signature.value == NO_SIGNATURE || signature.value.algorithm != ED25519 {
      return Err(Malformed);
    }
    return Ok(Bundle(BUNDLE_VERSION, tenant, events, keys, batch.(signature := signature.value), witnesses));
  }

  // ---------------------------------------------------------------- the trust anchor

  /** Keys come from the anchor alone; the bundle can only add revocations. */
  function Anchored(trusted: KeyResolver, revoked: set<string>): KeyResolver {
    (keyId: string) =>
      match trusted(keyId)
      case None => None
      case Some(key) => Some(if keyId in revoked then key.(revoked := true) else key)
  }

  function KeyFault(key: SigningKey, trusted: KeyResolver): Option<Fault> {
    if KeyMaterialFault(key).Some? then KeyMaterialFault(key)
    else match trusted(key.keyId)
      case Some(anchor) => if anchor.publicKey != key.publicKey then Some(UntrustedKey) else None
      case None => None
  }

  function KeysFault(keys: seq<SigningKey>, trusted: KeyResolver): Option<Fault> {
    if keys == [] then None
    else if KeyFault(keys[0], trusted).Some? then KeyFault(keys[0], trusted)
    else KeysFault(keys[1..], trusted)
  }

  function RevokedBy(keys: seq<SigningKey>): set<string> {
    set k | k in keys && k.revoked :: k.keyId
  }

  lemma {:induction false} KeysFaultMeaning(keys: seq<SigningKey>, trusted: KeyResolver)
    ensures KeysFault(keys, trusted) == None <==> forall k :: k in keys ==> KeyFault(k, trusted) == None
  {
    if keys != [] {
      KeysFaultMeaning(keys[1..], trusted);
      assert forall k :: k in keys <==> k == keys[0] || k in keys[1..];
    }
  }

  function BatchFault(c: Crypto, b: BatchRoot, keys: KeyResolver): Option<Fault> {
    if b.signature == NO_SIGNATURE then Some(Unsigned)
    else if b.signature.algorithm != ED25519 then Some(BadAlgorithm)
    else match keys(b.signature.keyId)
      case None => Some(UnknownKey)
      case Some(key) =>
        if key.revoked then Some(RevokedKey)
        else if KeyMaterialFault(key).Some? then KeyMaterialFault(key)
        else match CanonicalBatch(c, b)
          case None => Some(Malformed)
          case Some(message) =>
            if SignatureVerifies(c, key, message, b.signature.value) then None else Some(BadSignature)
  }

  predicate WindowMatches(b: Bundle)
    requires b.events != []
  {
    && b.batch.tenantRef == b.tenantRef
    && b.batch.firstSeq == b.events[0].body.tenantSeq
    && b.batch.lastSeq == b.events[|b.events| - 1].body.tenantSeq
    && b.batch.eventCount == |b.events|
  }

  ghost predicate WitnessesProve(c: Crypto, b: Bundle)
    requires b.events != [] && |b.witnesses| == |b.events|
  {
    forall i :: 0 <= i < |b.events| ==>
      Proves(c.sha, b.events[i].eventHash, b.witnesses[i].siblings, Root(c.sha, EventHashes(b.events)))
  }

  /** The first fault of a bundle, in the order the source looks for faults. */
  ghost function BundleFault(c: Crypto, b: Bundle, trusted: KeyResolver): Option<Fault> {
    if b.version != BUNDLE_VERSION then Some(Malformed)
    else if b.events == [] then Some(Malformed)
    else if KeysFault(b.keys, trusted).Some? then KeysFault(b.keys, trusted)
    else
      var effective := Anchored(trusted, RevokedBy(b.keys));
      if ChainFault(c, b.events, effective).Some? then ChainFault(c, b.events, effective)
      else if b.tenantRef != b.events[0].body.tenantRef then Some(TenantSplice)
      else if Root(c.sha, EventHashes(b.events)) != b.batch.rootHash then Some(HashMismatch)
      else if |b.witnesses| != |b.events| then Some(Malformed)
      else if !WitnessesProve(c, b) then Some(ChainBroken)
      else if !WindowMatches(b) then Some(Sequence)
      else BatchFault(c, b.batch, effective)
  }

  method VerifyBatchRoot(c: Crypto, b: BatchRoot, trusted: Option<KeyResolver>) returns (r: Option<Fault>)
    ensures r == if trusted.None? then Some(Malformed) else BatchFault(c, b, trusted.value)
  {
    if trusted.None? {
      return Some(Malformed);
    }
    return BatchFault(c, b, trusted.value);
  }

  method CheckKeys(keys: seq<SigningKey>, trusted: KeyResolver) returns (fault: Option<Fault>, revoked: set<string>)
    ensures fault == KeysFault(keys, trusted)
    ensures fault == None ==> revoked == RevokedBy(keys)
  {
    revoked := {};
    for i := 0 to |keys|
      invariant KeysFault(keys[i..], trusted) == KeysFault(keys, trusted)
      invariant revoked == RevokedBy(keys[..i])
    {
      fault := KeyFault(keys[i], trusted);
      if fault.Some? {
        return;
      }
      assert keys[..i + 1] == keys[..i] + [keys[i]];
      if keys[i].revoked {
        revoked := revoked + {keys[i].keyId};
      }
    }
    assert keys[..|keys|] == keys;
    return None, revoked;
  }

  method CheckWitnesses(c: Crypto, b: Bundle) returns (ok: bool)
    requires b.events != [] && |b.witnesses| == |b.events|
    ensures ok <==> WitnessesProve(c, b)
  {
    var hashes := EventHashes(b.events);
    var root := MerkleRoot(c.sha, hashes);
    for i := 0 to |b.witnesses|
      invariant forall j :: 0 <= j < i ==>
        Proves(c.sha, b.events[j].eventHash, b.witnesses[j].siblings, Root(c.sha, hashes))
    {
      ok := VerifyMerkleProof(c.sha, hashes[i], root.value, b.witnesses[i]);
      if !ok {
        assert !Proves(c.sha, b.events[i].eventHash, b.witnesses[i].siblings, Root(c.sha, hashes));
        return;
      }
    }
    return true;
  }

  method VerifyBundle(c: Crypto, b: Bundle, trusted: Option<KeyResolver>) returns (r: Option<Fault>)
    ensures r == if trusted.None? then Some(Malformed) else BundleFault(c, b, trusted.value)
  {
    if trusted.None? {
      return Some(Malformed);
    }
    if b.version != BUNDLE_VERSION || |b.events| == 0 {
      return Some(Malformed);
    }
    var fault, revoked := CheckKeys(b.keys, trusted.value);
    if fault.Some? {
      return fault;
    }
    var effective := Anchored(trusted.value, revoked);
    fault := VerifyChain(c, b.events, Some(effective));
    if fault.Some? {
      return fault;
    }
    if b.tenantRef != b.events[0].body.tenantRef {
      return Some(TenantSplice);
    }
    var root := MerkleRoot(c.sha, EventHashes(b.events));
    if root.value != b.batch.rootHash {
      return Some(HashMismatch);
    }
    if |b.witnesses| != |b.events| {
      return Some(Malformed);
    }
    var proved := CheckWitnesses(c, b);
    if !proved {
      return Some(ChainBroken);
    }
    if !WindowMatches(b) {
      return Some(Sequence);
    }
    r := VerifyBatchRoot(c, b.batch, Some(effective));
  }

  // ---------------------------------------------------------------- what an accepted bundle means

  ghost predicate Accepted(c: Crypto, b: Bundle, trusted: KeyResolver) {
    BundleFault(c, b, trusted) == None
  }

  lemma AcceptedMeaning(c: Crypto, b: Bundle, trusted: KeyResolver)
    ensures Accepted(c, b, trusted) <==>
              && b.version == BUNDLE_VERSION && b.events != [] && KeysFault(b.keys, trusted) == None
              && ChainOk(c, b.events, Anchored(trusted, RevokedBy(b.keys)))
              && b.tenantRef == b.events[0].body.tenantRef
              && Root(c.sha, EventHashes(b.events)) == b.batch.rootHash
              && |b.witnesses| == |b.events| && WitnessesProve(c, b) && WindowMatches(b)
              && BatchFault(c, b.batch, Anchored(trusted, RevokedBy(b.keys))) == None
  {
    hide KeysFault, ChainFault, ChainOk, WitnessesProve, WindowMatches, BatchFault, Root, RevokedBy;
    ChainFaultMeaning(c, b.events, Anchored(trusted, RevokedBy(b.keys)));
  }

  /** A key list narrows trust when it revokes no more than another one. */
  lemma WiderKeysAcceptChain(
      c: Crypto, events: seq<Event>, trusted: KeyResolver, fewer: set<string>, more: set<string>)
    requires fewer <= more && ChainOk(c, events, Anchored(trusted, more))
    ensures ChainOk(c, events, Anchored(trusted, fewer)) && ChainOk(c, events, trusted)
  {
    forall i | 0 <= i < |events|
      ensures LinkOk(c, events, i, Anchored(trusted, fewer)) && LinkOk(c, events, i, trusted)
    {
      assert LinkOk(c, events, i, Anchored(trusted, more));
    }
  }

  /** The bundle's own keys can only take trust away: any part of the list, down to none of it, leaves an
      accepted bundle accepted, and its chain is accepted under the bare anchor. */
  lemma OwnKeysOnlyNarrow(c: Crypto, b: Bundle, trusted: KeyResolver, keys: seq<SigningKey>)
    requires Accepted(c, b, trusted)
    requires forall k :: k in keys ==> k in b.keys
    ensures Accepted(c, b.(keys := keys), trusted)
    ensures ChainOk(c, b.events, trusted)
  {
    hide Accepted, ChainOk, KeysFault, Root;
    AcceptedMeaning(c, b, trusted);
    AcceptedMeaning(c, b.(keys := keys), trusted);
    KeysFaultMeaning(b.keys, trusted);
    KeysFaultMeaning(keys, trusted);
    assert RevokedBy(keys) <= RevokedBy(b.keys);
    WiderKeysAcceptChain(c, b.events, trusted, RevokedBy(keys), RevokedBy(b.keys));
  }

  /** Every signature of an accepted bundle was checked against the public key the anchor holds for its
      key id, and neither the anchor nor the bundle revokes that key. */
  lemma SignedByAnchoredKeys(c: Crypto, b: Bundle, trusted: KeyResolver, i: nat)
    requires Accepted(c, b, trusted) && i < |b.events|
    ensures var e := b.events[i];
            && trusted(e.signature.keyId).Some? && !trusted(e.signature.keyId).value.revoked
            && e.signature.keyId !in RevokedBy(b.keys)
            && Canonical(c, e.body).Some?
            && SignatureVerifies(c, trusted(e.signature.keyId).value, Canonical(c, e.body).value, e.signature.value)
    ensures var s := b.batch.signature;
            && trusted(s.keyId).Some? && !trusted(s.keyId).value.revoked && s.keyId !in RevokedBy(b.keys)
            && CanonicalBatch(c, b.batch).Some?
            && SignatureVerifies(c, trusted(s.keyId).value, CanonicalBatch(c, b.batch).value, s.value)
  {
    hide Accepted, ChainOk, KeysFault, Root, RevokedBy, BatchFault, WitnessesProve, WindowMatches, EventHashes;
    hide SignatureVerifies, Canonical, CanonicalBatch, Anchored, LinkOk;
    AcceptedMeaning(c, b, trusted);
    assert LinkOk(c, b.events, i, Anchored(trusted, RevokedBy(b.keys))) by {
      LinkOfChain(c, b.events, i, Anchored(trusted, RevokedBy(b.keys)));
    }
    LinkIsSigned(c, b.events, i, trusted, RevokedBy(b.keys));
    BatchIsSigned(c, b.batch, trusted, RevokedBy(b.keys));
  }

  lemma LinkOfChain(c: Crypto, events: seq<Event>, i: nat, keys: KeyResolver)
    requires ChainOk(c, events, keys) && i < |events|
    ensures LinkOk(c, events, i, keys)
  {
  }

  lemma LinkIsSigned(c: Crypto, events: seq<Event>, i: nat, trusted: KeyResolver, revoked: set<string>)
    requires i < |events| && LinkOk(c, events, i, Anchored(trusted, revoked))
    ensures var e := events[i];
            && trusted(e.signature.keyId).Some? && !trusted(e.signature.keyId).value.revoked
            && e.signature.keyId !in revoked && Canonical(c, e.body).Some?
            && SignatureVerifies(c, trusted(e.signature.keyId).value, Canonical(c, e.body).value, e.signature.value)
  {
    hide Canonical, HasRawPayload, AssertsOutcome, HashBefore, KeyMaterialFault;
  }

  lemma BatchIsSigned(c: Crypto, batch: BatchRoot, trusted: KeyResolver, revoked: set<string>)
    requires BatchFault(c, batch, Anchored(trusted, revoked)) == None
    ensures var s := batch.signature;
            && trusted(s.keyId).Some? && !trusted(s.keyId).value.revoked && s.keyId !in revoked
            && CanonicalBatch(c, batch).Some?
            && SignatureVerifies(c, trusted(s.keyId).value, CanonicalBatch(c, batch).value, s.value)
  {
    hide CanonicalBatch, KeyMaterialFault;
  }

  /** Whatever BuildBundle makes of a chain is accepted exactly when the chain and the shipped key list are,
      provided the anchor holds the signer's key. */
  lemma BuiltBundleVerifies(
      c: Crypto, tenant: string, events: seq<Event>, keys: seq<SigningKey>, keyId: string, secret: Bytes,
      trusted: KeyResolver)
    requires Sound(c) && events != []
    requires SignManifest(c, tenant, events, Ed25519Signer(c, keyId, secret)).Ok?
    requires trusted(keyId) == Some(SigningKey(keyId, ED25519, c.publicKey(secret), false))
    ensures Accepted(c, Assembled(c, tenant, events, keys, SignManifest(c, tenant, events, Ed25519Signer(c, keyId, secret)).value),
                     trusted)
       <==> && KeysFault(keys, trusted) == None && keyId !in RevokedBy(keys)
            && ChainOk(c, events, Anchored(trusted, RevokedBy(keys)))
            && tenant == events[0].body.tenantRef
  {
    var s := SignManifest(c, tenant, events, Ed25519Signer(c, keyId, secret)).value;
    var b := Assembled(c, tenant, events, keys, s);
    hide Accepted, ChainOk, KeysFault, Root;
    AcceptedMeaning(c, b, trusted);
    var hashes := EventHashes(events);
    forall i | 0 <= i < |events|
      ensures Proves(c.sha, events[i].eventHash, b.witnesses[i].siblings, Root(c.sha, hashes))
    {
      WitnessVerifies(c.sha, Leaves(c.sha, hashes), i);
    }
    ManifestSignatureVerifies(c, tenant, events, keyId, secret, trusted, RevokedBy(keys));
  }

  lemma ManifestSignatureVerifies(
      c: Crypto, tenant: string, events: seq<Event>, keyId: string, secret: Bytes, trusted: KeyResolver,
      revoked: set<string>)
    requires Sound(c) && events != []
    requires SignManifest(c, tenant, events, Ed25519Signer(c, keyId, secret)).Ok?
    requires trusted(keyId) == Some(SigningKey(keyId, ED25519, c.publicKey(secret), false))
    ensures var s := SignManifest(c, tenant, events, Ed25519Signer(c, keyId, secret)).value;
            BatchFault(c, Manifest(c, tenant, events).(signature := s), Anchored(trusted, revoked))
            == if keyId in revoked then Some(RevokedKey) else None
  {
    var manifest := Manifest(c, tenant, events);
    var s := SignManifest(c, tenant, events, Ed25519Signer(c, keyId, secret)).value;
    var message := CanonicalBatch(c, manifest).value;
    assert CanonicalBatch(c, manifest.(signature := s)) == Some(message);
    assert c.decode(c.encode(c.sign(secret, message))) == Some(c.sign(secret, message));
  }

  /** End to end: sign and append drafts, build the bundle with any key list that agrees with the anchor and
      revokes no key that signed, and it is accepted. */
  lemma BuiltChainBundleVerifies(
      c: Crypto, chain: seq<Event>, drafts: seq<Draft>, tenant: string, keys: seq<SigningKey>, keyId: string,
      secret: Bytes, trusted: KeyResolver)
    requires Sound(c) && tenant != "" && chain != [] && BuiltFrom(c, chain, drafts)
    requires forall d :: d in drafts ==> Admissible(c, d, tenant, trusted) && d.keyId !in RevokedBy(keys)
    requires KeysFault(keys, trusted) == None && keyId !in RevokedBy(keys)
    requires SignManifest(c, tenant, chain, Ed25519Signer(c, keyId, secret)).Ok?
    requires trusted(keyId) == Some(SigningKey(keyId, ED25519, c.publicKey(secret), false))
    ensures Accepted(c, Assembled(c, tenant, chain, keys,
                                  SignManifest(c, tenant, chain, Ed25519Signer(c, keyId, secret)).value),
                     trusted)
  {
    hide KeysFault, RevokedBy, SignManifest, Assembled, Accepted, Sound, ChainOk, SignEd25519, HasRawPayload, AssertsOutcome;
    var effective := Anchored(trusted, RevokedBy(keys));
    assert forall d :: d in drafts ==> Admissible(c, d, tenant, effective);
    BuiltChainVerifies(c, chain, drafts, tenant, effective);
    assert chain[..|chain|] == chain;
    BuiltLinkVerifies(c, chain, drafts, 0, tenant, effective);
    BuiltBundleVerifies(c, tenant, chain, keys, keyId, secret, trusted);
  }

  /** Two accepted bundles with the same batch root hash hold the same events. */
  lemma RootHashBindsEvents(c: Crypto, a: Bundle, b: Bundle, aTrusted: KeyResolver, bTrusted: KeyResolver)
    requires Accepted(c, a, aTrusted) && Accepted(c, b, bTrusted)
    requires a.batch.rootHash == b.batch.rootHash
    requires CollisionFree(c, a.events + b.events)
    requires InjectiveOn(c.sha, TreePreimages(c.sha, EventHashes(a.events)) + TreePreimages(c.sha, EventHashes(b.events)))
    ensures SameRecords(a.events, b.events)
  {
    hide Accepted, ChainOk, Root, TreePreimages, SameRecords, CollisionFree, InjectiveOn, KeysFault, WitnessesProve, BatchFault;
    AcceptedMeaning(c, a, aTrusted);
    AcceptedMeaning(c, b, bTrusted);
    var ha, hb := EventHashes(a.events), EventHashes(b.events);
    RootBinds(c.sha, ha, hb);
    assert ha[|ha| - 1] == hb[|hb| - 1];
    var aKeys, bKeys := Anchored(aTrusted, RevokedBy(a.keys)), Anchored(bTrusted, RevokedBy(b.keys));
    LastHashBindsChain(c, a.events, b.events, aKeys, bKeys);
  }
}
