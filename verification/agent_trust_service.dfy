/** The trust registry service over its store: registration, certification, revocation and the assessment of a
    presented release (services/agentnexus/internal/agenttrust/service.go). */
module AgentTrust {
  import opened AgentRegistry
  import opened Digests
  import opened JoinedKeys
  import opened LengthPrefix
  import opened RuntimeTrust
  import opened Text
  import opened TrustClasses
  import opened Wrappers

  predicate IsAstraClawOrigin(origin: string) {
    origin == "astraclaw" || origin == "xiaozhi"
  }

  predicate ValidOrigin(origin: string) {
    origin == "" || IsAstraClawOrigin(origin) || Canonical(origin)
  }

  predicate HasControlBytes(s: string) {
    exists i :: 0 <= i < |s| && (s[i] < ' ' || s[i] == 0x7f as char)
  }

  predicate IsConnectorCapability(capability: string) {
    "connector." <= capability
  }

  // ---------------------------------------------------------------- the operations as state changes

  datatype RegisterInput = RegisterInput(publisher: string, product: string, origin: string, enterpriseRegistered: bool)

  datatype CertifyInput = CertifyInput(
    binding: CertificationBinding, signedBuildManifest: bool, certifiedDecisionProvider: bool, ttl: int)

  function Registered(r: Registry, tenant: string, input: RegisterInput, id: string, now: Time)
    : (Registry, Result<AgentClient, Error>)
  {
    if !Canonical(tenant) || !Canonical(input.publisher) || !Canonical(input.product) || !ValidOrigin(input.origin)
    then (r, Err(InvalidInput))
    else if !Canonical(id) then (r, Err(Unavailable))
    else
      var (t, stored) := CreatedClient(r, AgentClient(id, tenant, input.publisher, input.product, input.origin,
                                                      input.enterpriseRegistered, now));
      (t, Ok(stored))
  }

  ghost predicate BindingValid(b: CertificationBinding, capabilityOk: string -> bool) {
    && b.publisher != "" && b.product != "" && ValidRange(b.versionRange)
    && b.signingKey.keyId != "" && b.signingKey.algorithm == "ed25519" && b.signingKey.publicKey != ""
    && IsSha256Ref(b.releaseManifestDigest) && b.trustClass != Untrusted
    && forall i :: 0 <= i < |b.capabilityCeiling| ==> capabilityOk(b.capabilityCeiling[i])
  }

  ghost function CertifyFault(
      capabilityOk: string -> bool, r: Registry, tenant: string, input: CertifyInput, id: string): Option<Error>
  {
    var client := JoinedKey(ClientKey(tenant, input.binding.publisher, input.binding.product));
    if !Canonical(tenant) || input.ttl <= 0 then Some(InvalidInput)
    else if !BindingValid(input.binding, capabilityOk) || !input.signedBuildManifest || client !in r.clients
            || (input.binding.trustClass == FirstParty && !r.clients[client].enterpriseRegistered)
    then Some(Rejected)
    else if !Canonical(id) then Some(Unavailable)
    else if CertKey(tenant, id) in r.certs then Some(Rejected)
    else None
  }

  /** The revision a certification would issue, before the store numbers it. */
  function Candidate(client: AgentClient, tenant: string, input: CertifyInput, id: string, now: Time): Certification {
    Certification(id, tenant, client.id, client.origin, 0, input.binding, input.signedBuildManifest,
                  client.enterpriseRegistered, input.certifiedDecisionProvider, now, now + input.ttl, now)
  }

  ghost predicate Certified(
      sha: Hash, capabilityOk: string -> bool, r: Registry, t: Registry, tenant: string, input: CertifyInput,
      id: string, now: Time, result: Result<Certification, Error>)
  {
    match CertifyFault(capabilityOk, r, tenant, input, id)
    case Some(e) => t == r && result == Err(e)
    case None =>
      var client := JoinedKey(ClientKey(tenant, input.binding.publisher, input.binding.product));
      result.Ok? && client in r.clients
      && CertCreated(sha, r, t, Candidate(r.clients[client], tenant, input, id, now), result.value)
  }

  function WithRevocation(
      sha: Hash, r: Registry, tenant: string, id: string, reason: string, statusId: string, now: Time)
    : (Registry, Result<StatusChange, Error>)
  {
    if !Canonical(tenant) || !Canonical(id) || HasControlBytes(reason) then (r, Err(InvalidInput))
    else Appended(sha, r, CertKey(tenant, id), Revoked, reason, statusId, now)
  }

  // ---------------------------------------------------------------- what the operations accept and store

  /** Registration accepts names that are present and unpadded, with an origin that is absent or unpadded, and files
      exactly what was given; only a record that is already there keeps its id and creation time. */
  lemma RegisterEffect(r: Registry, tenant: string, input: RegisterInput, id: string, now: Time)
    ensures var (t, result) := Registered(r, tenant, input, id, now);
            var key := JoinedKey(ClientKey(tenant, input.publisher, input.product));
            var was := if key in r.clients then Some(r.clients[key]) else None;
            && (result.Ok? <==>
                  && Canonical(tenant) && Canonical(input.publisher) && Canonical(input.product)
                  && (input.origin == "" || Canonical(input.origin)) && Canonical(id))
            && (result.Ok? ==>
                  && result.value == AgentClient(
                       if was.Some? then was.value.id else id, tenant, input.publisher, input.product, input.origin,
                       input.enterpriseRegistered, if was.Some? then was.value.createdAt else now)
                  && t == r.(clients := r.clients[key := result.value]))
            && (result.Err? ==> t == r)
  {
    hide Canonical, JoinedKey;
    NotPadded("astraclaw");
    NotPadded("xiaozhi");
  }

  lemma KeyIsJoined(tenant: string, publisher: string, product: string)
    ensures JoinedKey(ClientKey(tenant, publisher, product)) == tenant + [NUL] + publisher + [NUL] + product
  {
    assert tenant + [NUL] + (publisher + [NUL] + product) == tenant + [NUL] + publisher + [NUL] + product;
  }

  lemma NotPadded(s: string)
    ensures Canonical(s) <==> s != "" && !IsSpace(s[0]) && !IsSpace(s[|s| - 1])
  {
  }

  /** A certification is issued exactly for a valid binding over a signed build manifest, for a positive lifetime, of
      a registered client, of an enterprise one if it is to be first party; it freezes the client's facts and origin as
      registered, lasts as long as asked, and is the next revision. */
  lemma CertifyEffect(
      sha: Hash, capabilityOk: string -> bool, r: Registry, t: Registry, tenant: string, input: CertifyInput,
      id: string, now: Time, result: Result<Certification, Error>)
    requires Certified(sha, capabilityOk, r, t, tenant, input, id, now, result)
    ensures var b, key := input.binding, JoinedKey(ClientKey(tenant, input.binding.publisher, input.binding.product));
            && (result.Ok? <==>
                  && Canonical(tenant) && Canonical(id) && CertKey(tenant, id) !in r.certs
                  && input.ttl > 0 && input.signedBuildManifest
                  && b.publisher != "" && b.product != "" && ValidRange(b.versionRange)
                  && b.signingKey.keyId != "" && b.signingKey.publicKey != "" && b.signingKey.algorithm == "ed25519"
                  && IsSha256Ref(b.releaseManifestDigest)
                  && b.trustClass in {FirstParty, CertifiedThirdParty}
                  && (forall c :: c in b.capabilityCeiling ==> capabilityOk(c))
                  && key in r.clients && (b.trustClass == FirstParty ==> r.clients[key].enterpriseRegistered))
            && (result.Ok? ==>
                  && t.clients == r.clients && t.certs == r.certs[CertKey(tenant, id) := result.value]
                  && var client := r.clients[key];
                     result.value == Certification(id, tenant, client.id, client.origin, result.value.revision, b, true,
                                                   client.enterpriseRegistered, input.certifiedDecisionProvider, now,
                                                   now + input.ttl, now))
            && (result.Err? ==> t == r)
  {
    hide Canonical, ValidRange, IsSha256Ref, JoinedKey, IsSuperseding, IsNextRevision;
    var b := input.binding;
    if forall c :: c in b.capabilityCeiling ==> capabilityOk(c) {
      assert forall i :: 0 <= i < |b.capabilityCeiling| ==> b.capabilityCeiling[i] in b.capabilityCeiling;
    }
  }

  /** The rows a certification writes: its own first one, and one superseding row on each revision of the client that
      was active, hashed onto its last row; all other logs stay. */
  lemma CertifiedRows(
      sha: Hash, capabilityOk: string -> bool, r: Registry, t: Registry, tenant: string, input: CertifyInput,
      id: string, now: Time, result: Result<Certification, Error>, k: CertKey)
    requires Certified(sha, capabilityOk, r, t, tenant, input, id, now, result) && result.Ok?
    requires StoreOk(sha, r) && k in r.certs
    ensures var own, domain := CertKey(tenant, id), "agentnexus:agent-certification-status:v1:";
            var c := r.certs[k];
            && own in t.statuses && |t.statuses[own]| == 1
            && t.statuses[own][0].status == Active && t.statuses[own][0].reason == "certified"
            && t.statuses[own][0].prevHash == ""
            && t.statuses[own][0].eventHash == sha(domain + Framed([tenant, id, "active", "certified", ""], 8))
            && k in r.statuses && k in t.statuses && r.statuses[k] != []
            && var log, prev := r.statuses[k], r.statuses[k][|r.statuses[k]| - 1];
               if prev.status == Active && c.tenantRef == tenant && c.binding.publisher == input.binding.publisher
                  && c.binding.product == input.binding.product then
                 && |t.statuses[k]| == |log| + 1 && t.statuses[k][..|log|] == log
                 && var row := t.statuses[k][|log|];
                    && row.status == Superseded && row.reason == "superseded by " + id && row.prevHash == prev.eventHash
                    && row.eventHash
                       == sha(domain + Framed([k.tenant, k.id, "superseded", row.reason, prev.eventHash], 8))
               else t.statuses[k] == log
  {
    hide Canonical, BindingValid, JoinedKey, IsNextRevision, Framed, CertCreated, CertifyFault, LogOk;
    var client := JoinedKey(ClientKey(tenant, input.binding.publisher, input.binding.product));
    assert LogOk(sha, k, r.statuses[k], r.seqNo);
    NonemptyLog(sha, k, r.statuses[k], r.seqNo);
    CreatedRow(sha, r, t, Candidate(r.clients[client], tenant, input, id, now), result.value);
    OtherRow(sha, r, t, Candidate(r.clients[client], tenant, input, id, now), result.value, k);
  }

  lemma CreatedRow(sha: Hash, r: Registry, t: Registry, cert: Certification, stored: Certification)
    requires CertCreated(sha, r, t, cert, stored)
    ensures var own := CertKey(cert.tenantRef, cert.id);
            && own in t.statuses && |t.statuses[own]| == 1
            && t.statuses[own][0].status == Active && t.statuses[own][0].reason == "certified"
            && t.statuses[own][0].prevHash == ""
            && t.statuses[own][0].eventHash
               == sha("agentnexus:agent-certification-status:v1:"
                      + Framed([cert.tenantRef, cert.id, "active", "certified", ""], 8))
  {
    hide IsNextRevision, Framed, IsSuperseding;
  }

  lemma OtherRow(sha: Hash, r: Registry, t: Registry, cert: Certification, stored: Certification, k: CertKey)
    requires CertCreated(sha, r, t, cert, stored) && k in r.certs && k in r.statuses && r.statuses[k] != []
    ensures var c, log, prev := r.certs[k], r.statuses[k], r.statuses[k][|r.statuses[k]| - 1];
            k in t.statuses
            && if prev.status == Active && c.Client() == cert.Client() then
                 && |t.statuses[k]| == |log| + 1 && t.statuses[k][..|log|] == log
                 && var row := t.statuses[k][|log|];
                    && row.status == Superseded && row.reason == "superseded by " + cert.id
                    && row.prevHash == prev.eventHash
                    && row.eventHash
                       == sha("agentnexus:agent-certification-status:v1:"
                              + Framed([k.tenant, k.id, "superseded", row.reason, prev.eventHash], 8))
               else t.statuses[k] == log
  {
    hide IsNextRevision, Framed;
  }

  /** A revocation appends one row to the named certification's log, whatever its last status was. */
  lemma RevokeEffect(
      sha: Hash, r: Registry, tenant: string, id: string, reason: string, statusId: string, now: Time)
    requires StoreOk(sha, r)
    ensures var (t, result) := WithRevocation(sha, r, tenant, id, reason, statusId, now);
            var k := CertKey(tenant, id);
            && (result.Ok? <==>
                  && Canonical(tenant) && Canonical(id) && k in r.certs
                  && forall i :: 0 <= i < |reason| ==> ' ' <= reason[i] && reason[i] != 0x7f as char)
            && (result.Ok? ==>
                  && k in r.statuses && r.statuses[k] != []
                  && t == r.(statuses := r.statuses[k := r.statuses[k] + [result.value]], seqNo := r.seqNo + 1)
                  && var prev := r.statuses[k][|r.statuses[k]| - 1].eventHash;
                     result.value == StatusChange(
                       statusId, tenant, id, Revoked, reason, prev,
                       sha(STATUS_HASH_DOMAIN + Framed([tenant, id, "revoked", reason, prev], 8)), r.seqNo + 1, now))
            && (result.Err? ==> t == r)
  {
    hide Canonical, Framed, LogOk;
    if CertKey(tenant, id) in r.certs {
      assert LogOk(sha, CertKey(tenant, id), r.statuses[CertKey(tenant, id)], r.seqNo);
      NonemptyLog(sha, CertKey(tenant, id), r.statuses[CertKey(tenant, id)], r.seqNo);
    }
  }

  // ---------------------------------------------------------------- clients that share a record

  /** The record found for a client. */
  function ClientAt(r: Registry, k: ClientKey): Option<AgentClient> {
    if JoinedKey(k) in r.clients then Some(r.clients[JoinedKey(k)]) else None
  }

  /** No registration of another client touches this one's record. */
  ghost predicate KeepsApart(k: ClientKey) {
    forall r, tenant, input: RegisterInput, id, now :: ClientKey(tenant, input.publisher, input.product) != k ==>
      ClientAt(Registered(r, tenant, input, id, now).0, k) == ClientAt(r, k)
  }

  /** What registers a client with nothing else to say about it. */
  function BareInput(k: ClientKey): RegisterInput {
    RegisterInput(k.publisher, k.product, "", false)
  }

  /** Exactly when a client's record is its own: when no other choice of two NULs of its joined key leaves three
      fields that registration accepts. */
  lemma RegistrationsApartIff(k: ClientKey)
    requires Registrable(k)
    ensures KeepsApart(k) <==> OnlyCut(k)
  {
    hide JoinedKey, OnlyCut, Canonical;
    FiledApartIff(k);
    if !OnlyCut(k) {
      var other := OtherClient(k);
      BareRegistration(other);
      assert ClientAt(AgentRegistry.EMPTY, k) == None;
      assert ClientAt(Registered(AgentRegistry.EMPTY, other.tenant, BareInput(other), "agc_", 0).0, k) != None;
    }
  }

  lemma BareRegistration(k: ClientKey)
    requires Registrable(k)
    ensures ClientAt(Registered(AgentRegistry.EMPTY, k.tenant, BareInput(k), "agc_", 0).0, k).Some?
  {
    hide JoinedKey;
    NotPadded("agc_");
  }

  /** Registering a client under the key of another one answers with that one's id and creation time, and the record
      of both is now the newer one's. */
  lemma SecondTakesTheRecord(
      r: Registry, tenant: string, input: RegisterInput, id: string, now: Time, other: string, second: RegisterInput,
      otherId: string, later: Time)
    requires var k := ClientKey(tenant, input.publisher, input.product);
             var j := ClientKey(other, second.publisher, second.product);
             Registrable(k) && Registrable(j) && JoinedKey(k) == JoinedKey(j)
    requires ValidOrigin(input.origin) && ValidOrigin(second.origin) && Canonical(id) && Canonical(otherId)
    ensures var (s, first) := Registered(r, tenant, input, id, now);
            var (t, answer) := Registered(s, other, second, otherId, later);
            && first.Ok? && answer.Ok?
            && answer.value.id == first.value.id && answer.value.createdAt == first.value.createdAt
            && ClientAt(t, ClientKey(tenant, input.publisher, input.product)) == Some(answer.value)
            && answer.value.product == second.product && answer.value.publisher == second.publisher
  {
    hide JoinedKey, Canonical;
  }

  /** Such clients exist: whatever the four names, product "q NUL r" of publisher p and product r of publisher
      "p NUL q" can both be registered, and they share a record. */
  lemma SharedRecordsExist(tenant: string, p: string, q: string, r: string)
    requires Canonical(tenant) && Canonical(p) && Canonical(q) && Canonical(r)
    ensures var k, j := ClientKey(tenant, p, Pair(q, r)), ClientKey(tenant, Pair(p, q), r);
            k != j && Registrable(k) && Registrable(j) && JoinedKey(k) == JoinedKey(j) && !KeepsApart(k)
  {
    hide Canonical, KeepsApart, Registered, OnlyCut;
    var k, j := ClientKey(tenant, p, Pair(q, r)), ClientKey(tenant, Pair(p, q), r);
    PairMoves(p, q, r);
    CanonicalPair(p, q);
    CanonicalPair(q, r);
    FiledApartIff(k);
    RegistrationsApartIff(k);
  }

  /** The same holds of the keys of certifications, which this model keeps as pairs: there are pairs that the service
      accepts and the in-memory store does not tell apart. */
  lemma SharedCertKeysExist(tenant: string, x: string, id: string)
    requires Canonical(tenant) && Canonical(x) && Canonical(id)
    ensures Canonical(Pair(tenant, x)) && Canonical(Pair(x, id))
    ensures CertKey(tenant, Pair(x, id)) != CertKey(Pair(tenant, x), id)
    ensures Pair(tenant, Pair(x, id)) == Pair(Pair(tenant, x), id)
  {
    hide Canonical;
    CanonicalPair(tenant, x);
    CanonicalPair(x, id);
    PairMoves(tenant, x, id);
  }

  lemma CanonicalPair(a: string, b: string)
    requires Canonical(a) && Canonical(b)
    ensures Canonical(Pair(a, b))
  {
    hide Canonical;
    NotPadded(a);
    NotPadded(b);
    NotPadded(Pair(a, b));
  }

  // ---------------------------------------------------------------- what every run keeps

  /** Certified once, then only ever revoked or superseded. */
  ghost predicate OneLife(log: Log) {
    && log != [] && log[0].status == Active
    && (forall i :: 0 < i < |log| ==> log[i].status in {Revoked, Superseded})
  }

  ghost predicate CertOk(capabilityOk: string -> bool, c: Certification) {
    && c.revision >= 1 && c.signedBuildManifest && BindingValid(c.binding, capabilityOk)
    && (c.binding.trustClass == FirstParty ==> c.enterpriseRegistered)
    && c.issuedAt < c.expiresAt
  }

  ghost predicate RevisionsOk(r: Registry) {
    && (forall j, k :: j in r.certs && k in r.certs ==>
          r.certs[j].Client() == r.certs[k].Client() && r.certs[j].revision == r.certs[k].revision ==> j == k)
    && (forall k, n :: k in r.certs && 1 <= n < r.certs[k].revision ==> HasRevision(r, r.certs[k].Client(), n))
  }

  ghost predicate HasRevision(r: Registry, client: ClientKey, n: nat) {
    exists k :: SameClient(r, k, client) && r.certs[k].revision == n
  }

  ghost predicate NewestIsActive(r: Registry) {
    forall j, k :: j in r.certs && k in r.certs && IsActive(r, k) ==>
      r.certs[j].Client() == r.certs[k].Client() ==> r.certs[j].revision <= r.certs[k].revision
  }

  ghost predicate Inv(sha: Hash, capabilityOk: string -> bool, r: Registry) {
    && StoreOk(sha, r) && RevisionsOk(r) && NewestIsActive(r)
    && (forall k :: k in r.statuses ==> OneLife(r.statuses[k]))
    && (forall k :: k in r.certs ==> CertOk(capabilityOk, r.certs[k]))
  }

  /** Certifications never change, logs only grow, and what is filed under a client's key keeps its identity. */
  ghost predicate Grows(r: Registry, t: Registry) {
    && (forall k :: k in r.certs ==> k in t.certs && t.certs[k] == r.certs[k])
    && (forall k :: k in r.statuses ==> k in t.statuses && r.statuses[k] <= t.statuses[k])
    && (forall c :: c in r.clients ==>
          c in t.clients && t.clients[c].id == r.clients[c].id && t.clients[c].createdAt == r.clients[c].createdAt)
    && r.seqNo <= t.seqNo
  }

  lemma RegisterKeeps(
      sha: Hash, capabilityOk: string -> bool, r: Registry, tenant: string, input: RegisterInput, id: string, now: Time)
    requires Inv(sha, capabilityOk, r)
    ensures var t := Registered(r, tenant, input, id, now).0; Inv(sha, capabilityOk, t) && Grows(r, t)
  {
    hide LogOk, OneLife, CertOk, Canonical, ValidOrigin, RevisionsOk, NewestIsActive;
    var t := Registered(r, tenant, input, id, now).0;
    SameRevisions(r, t);
    assert NewestIsActive(t) by { SameNewest(r, t); }
  }

  lemma SameNewest(r: Registry, t: Registry)
    requires NewestIsActive(r) && t.certs == r.certs && t.statuses == r.statuses
    ensures NewestIsActive(t)
  {
    assert forall k :: IsActive(t, k) ==> IsActive(r, k);
  }

  lemma RevokeKeeps(
      sha: Hash, capabilityOk: string -> bool, r: Registry, tenant: string, id: string, reason: string,
      statusId: string, now: Time)
    requires Inv(sha, capabilityOk, r)
    ensures var t := WithRevocation(sha, r, tenant, id, reason, statusId, now).0;
            Inv(sha, capabilityOk, t) && Grows(r, t)
  {
    hide LogOk, OneLife, CertOk, Canonical, HasControlBytes, RevisionsOk, Chained, StoreOk;
    var k := CertKey(tenant, id);
    var t := WithRevocation(sha, r, tenant, id, reason, statusId, now).0;
    AppendedOk(sha, r, k, Revoked, reason, statusId, now);
    AllKeys(sha, r);
    if t != r {
      var row := Chained(sha, r, k, Revoked, reason, statusId, now);
      ChainedStatus(sha, r, k, Revoked, reason, statusId, now);
      LifeGoesOn(r.statuses[k], row);
      assert forall j :: IsActive(t, j) ==> IsActive(r, j);
      assert RevisionsOk(t) by { SameRevisions(r, t); }
    }
  }

  lemma ChainedStatus(
      sha: Hash, r: Registry, k: CertKey, status: CertificationStatus, reason: string, statusId: string, now: Time)
    ensures Chained(sha, r, k, status, reason, statusId, now).status == status
  {
  }

  lemma LifeGoesOn(log: Log, row: StatusChange)
    requires OneLife(log) && row.status in {Revoked, Superseded}
    ensures OneLife(log + [row]) && Latest(log + [row]) != Active
  {
  }

  lemma SameRevisions(r: Registry, t: Registry)
    requires RevisionsOk(r) && t.certs == r.certs
    ensures RevisionsOk(t)
  {
    forall k, n | k in t.certs && 1 <= n < t.certs[k].revision
      ensures HasRevision(t, t.certs[k].Client(), n)
    {
      assert HasRevision(r, r.certs[k].Client(), n);
      var j :| SameClient(r, j, r.certs[k].Client()) && r.certs[j].revision == n;
      assert SameClient(t, j, r.certs[k].Client());
    }
  }

  lemma NewRevision(r: Registry, t: Registry, stored: Certification)
    requires RevisionsOk(r) && forall k :: k in r.certs ==> r.certs[k].revision >= 1
    requires IsNextRevision(r, stored.Client(), stored.revision)
    requires stored.Key() !in r.certs && t.certs == r.certs[stored.Key() := stored]
    ensures RevisionsOk(t)
  {
    forall k, n | k in t.certs && 1 <= n < t.certs[k].revision
      ensures HasRevision(t, t.certs[k].Client(), n)
    {
      var client := t.certs[k].Client();
      assert HasRevision(r, client, n) by {
        if k == stored.Key() && n < stored.revision - 1 {
          var j :| SameClient(r, j, client) && r.certs[j].revision == stored.revision - 1;
          assert HasRevision(r, r.certs[j].Client(), n);
        }
      }
      var j :| SameClient(r, j, client) && r.certs[j].revision == n;
      assert SameClient(t, j, client);
    }
    forall k | k in r.certs && r.certs[k].Client() == stored.Client()
      ensures r.certs[k].revision < stored.revision
    {
      assert SameClient(r, k, stored.Client());
    }
  }

  lemma NewestAfterwards(sha: Hash, r: Registry, t: Registry, cert: Certification, stored: Certification)
    requires NewestIsActive(r) && CertCreated(sha, r, t, cert, stored) && r.statuses.Keys == r.certs.Keys
    ensures NewestIsActive(t)
  {
    hide RowPreimage;
    forall k | k in r.statuses
      ensures SameClient(r, k, cert.Client()) ==> !IsActive(t, k)
      ensures !SameClient(r, k, cert.Client()) && IsActive(t, k) ==> IsActive(r, k)
    {
      if SameClient(r, k, cert.Client()) && IsActive(r, k) {
        assert IsSuperseding(sha, r, t, k, cert.id);
      }
    }
    forall k | k in r.certs && r.certs[k].Client() == cert.Client()
      ensures r.certs[k].revision < stored.revision
    {
      assert SameClient(r, k, cert.Client());
    }
  }

  lemma CreatedLives(sha: Hash, r: Registry, t: Registry, cert: Certification, stored: Certification)
    requires CertCreated(sha, r, t, cert, stored) && forall k :: k in r.statuses ==> OneLife(r.statuses[k])
    ensures forall k :: k in t.statuses ==> OneLife(t.statuses[k])
    ensures forall k :: k in r.statuses ==> r.statuses[k] <= t.statuses[k]
  {
    hide OneLife, RowPreimage, IsNextRevision;
    forall k | k in t.statuses
      ensures OneLife(t.statuses[k]) && (k in r.statuses ==> r.statuses[k] <= t.statuses[k])
    {
      if k == cert.Key() {
        FirstLife(t.statuses[k]);
      }
      if k in r.statuses && t.statuses[k] != r.statuses[k] {
        var log, more := r.statuses[k], t.statuses[k];
        assert more == log + [more[|log|]];
        LifeGoesOn(log, more[|log|]);
      }
    }
  }

  lemma FirstLife(log: Log)
    requires |log| == 1 && log[0].status == Active
    ensures OneLife(log)
  {
  }

  lemma CertifyKeeps(
      sha: Hash, capabilityOk: string -> bool, r: Registry, t: Registry, tenant: string, input: CertifyInput,
      id: string, now: Time, result: Result<Certification, Error>)
    requires Inv(sha, capabilityOk, r) && Certified(sha, capabilityOk, r, t, tenant, input, id, now, result)
    ensures Inv(sha, capabilityOk, t) && Grows(r, t)
  {
    hide StoreOk, OneLife, RevisionsOk, NewestIsActive, BindingValid, Canonical, IsNextRevision, IsSuperseding;
    hide SameClient, IsActive;
    if result.Ok? {
      var client := JoinedKey(ClientKey(tenant, input.binding.publisher, input.binding.product));
      var cert := Candidate(r.clients[client], tenant, input, id, now);
      var stored := result.value;
      AllKeys(sha, r);
      CreatedOk(sha, r, t, cert, stored);
      NextIsPositive(r, cert.Client(), stored.revision);
      NewRevision(r, t, stored);
      NewestAfterwards(sha, r, t, cert, stored);
      CreatedLives(sha, r, t, cert, stored);
    }
  }

  lemma NextIsPositive(r: Registry, client: ClientKey, revision: nat)
    requires IsNextRevision(r, client, revision)
    ensures revision >= 1
  {
  }

  // ---------------------------------------------------------------- runs

  datatype Op =
    | Register(tenant: string, registration: RegisterInput, id: string, now: Time)
    | Certify(tenant: string, certification: CertifyInput, id: string, now: Time)
    | Revoke(tenant: string, id: string, reason: string, statusId: string, now: Time)

  ghost predicate Does(sha: Hash, capabilityOk: string -> bool, r: Registry, op: Op, t: Registry) {
    match op
    case Register(tenant, input, id, now) => t == Registered(r, tenant, input, id, now).0
    case Certify(tenant, input, id, now) =>
      exists result :: Certified(sha, capabilityOk, r, t, tenant, input, id, now, result)
    case Revoke(tenant, id, reason, statusId, now) => t == WithRevocation(sha, r, tenant, id, reason, statusId, now).0
  }

  /** The registries an empty one goes through. */
  ghost predicate IsRun(sha: Hash, capabilityOk: string -> bool, run: seq<Registry>, ops: seq<Op>) {
    && |run| == |ops| + 1 && run[0] == EMPTY
    && (forall i :: 0 <= i < |ops| ==> Does(sha, capabilityOk, run[i], ops[i], run[i + 1]))
  }

  lemma StepKeeps(sha: Hash, capabilityOk: string -> bool, r: Registry, op: Op, t: Registry)
    requires Inv(sha, capabilityOk, r) && Does(sha, capabilityOk, r, op, t)
    ensures Inv(sha, capabilityOk, t) && Grows(r, t)
  {
    hide Inv, Grows, Registered, Certified, WithRevocation;
    match op
    case Register(tenant, input, id, now) => RegisterKeeps(sha, capabilityOk, r, tenant, input, id, now);
    case Certify(tenant, input, id, now) =>
      var result :| Certified(sha, capabilityOk, r, t, tenant, input, id, now, result);
      CertifyKeeps(sha, capabilityOk, r, t, tenant, input, id, now, result);
    case Revoke(tenant, id, reason, statusId, now) =>
      RevokeKeeps(sha, capabilityOk, r, tenant, id, reason, statusId, now);
  }

  lemma {:induction false} RunKeeps(
      sha: Hash, capabilityOk: string -> bool, run: seq<Registry>, ops: seq<Op>, i: nat, j: nat)
    requires IsRun(sha, capabilityOk, run, ops) && i <= j < |run|
    ensures Inv(sha, capabilityOk, run[j]) && Grows(run[i], run[j])
    decreases j
  {
    hide Inv, Grows, Does;
    if j == 0 {
      EmptyInv(sha, capabilityOk);
    } else {
      RunKeeps(sha, capabilityOk, run, ops, if i < j then i else j - 1, j - 1);
      StepKeeps(sha, capabilityOk, run[j - 1], ops[j - 1], run[j]);
      if i < j {
        GrowsTransitive(run[i], run[j - 1], run[j]);
      } else {
        GrowsTransitive(run[j], run[j], run[j]);
      }
    }
  }

  lemma EmptyInv(sha: Hash, capabilityOk: string -> bool)
    ensures Inv(sha, capabilityOk, EMPTY) && Grows(EMPTY, EMPTY)
  {
  }

  lemma GrowsTransitive(r: Registry, t: Registry, u: Registry)
    ensures Grows(r, t) && Grows(t, u) ==> Grows(r, u)
    ensures Grows(r, r)
  {
    if Grows(r, t) && Grows(t, u) {
      forall k | k in r.statuses
        ensures k in u.statuses && r.statuses[k] <= u.statuses[k]
      {
        assert r.statuses[k] <= t.statuses[k] <= u.statuses[k];
      }
    }
  }

  lemma {:induction false} HighestRevision(r: Registry, client: ClientKey, keys: set<CertKey>) returns (top: nat)
    ensures forall k :: k in keys && SameClient(r, k, client) ==> r.certs[k].revision <= top
    ensures top > 0 ==> HasRevision(r, client, top)
    decreases |keys|
  {
    if keys == {} {
      top := 0;
    } else {
      var k :| k in keys;
      top := HighestRevision(r, client, keys - {k});
      if SameClient(r, k, client) && r.certs[k].revision > top {
        top := r.certs[k].revision;
      }
    }
  }

  /** In every run, at every moment: the revisions of a client are exactly 1 up to some number, each used once, and
      if one is active it is the highest, so at most one is. */
  lemma RevisionsOfEveryRun(
      sha: Hash, capabilityOk: string -> bool, run: seq<Registry>, ops: seq<Op>, i: nat, client: ClientKey)
    requires IsRun(sha, capabilityOk, run, ops) && i < |run|
    ensures exists top: nat :: RevisionsUpTo(run[i], client, top)
  {
    hide StoreOk, CertOk, OneLife, IsActive, Does;
    RunKeeps(sha, capabilityOk, run, ops, i, i);
    var r := run[i];
    var top := HighestRevision(r, client, r.certs.Keys);
    forall n: nat | HasRevision(r, client, n)
      ensures 1 <= n <= top
    {
      var k :| SameClient(r, k, client) && r.certs[k].revision == n;
      assert CertOk(capabilityOk, r.certs[k]);
      PositiveRevision(capabilityOk, r.certs[k]);
    }
    forall n: nat | 1 <= n <= top
      ensures HasRevision(r, client, n)
    {
      var k :| SameClient(r, k, client) && r.certs[k].revision == top;
      assert n < top ==> HasRevision(r, r.certs[k].Client(), n);
    }
    assert RevisionsUpTo(r, client, top);
  }

  lemma PositiveRevision(capabilityOk: string -> bool, c: Certification)
    requires CertOk(capabilityOk, c)
    ensures c.revision >= 1
  {
  }

  ghost predicate RevisionsUpTo(r: Registry, client: ClientKey, top: nat) {
    && (forall n: nat :: HasRevision(r, client, n) <==> 1 <= n <= top)
    && (forall j, k :: SameClient(r, j, client) && SameClient(r, k, client) ==>
          r.certs[j].revision == r.certs[k].revision ==> j == k)
    && (forall k :: SameClient(r, k, client) && IsActive(r, k) ==> r.certs[k].revision == top)
  }

  /** A status log only ever grows: each row links to the hash of the row before it, the first to the empty hash,
      in strictly increasing store order; and a revision that stopped being active never is again. */
  lemma LogsOfEveryRun(
      sha: Hash, capabilityOk: string -> bool, run: seq<Registry>, ops: seq<Op>, i: nat, j: nat, k: CertKey)
    requires IsRun(sha, capabilityOk, run, ops) && i <= j < |run| && k in run[i].certs
    ensures k in run[j].certs && run[j].certs[k] == run[i].certs[k]
    ensures k in run[i].statuses && k in run[j].statuses
    ensures run[i].statuses[k] <= run[j].statuses[k] && LogOk(sha, k, run[j].statuses[k], run[j].seqNo)
    ensures !IsActive(run[i], k) ==> !IsActive(run[j], k)
    ensures IsActive(run[j], k) ==> run[j].statuses[k] == run[i].statuses[k]
    ensures IsChained(sha, k, run[j].statuses[k])
  {
    hide LogOk, RevisionsOk, NewestIsActive, CertOk, Does;
    RunKeeps(sha, capabilityOk, run, ops, i, i);
    RunKeeps(sha, capabilityOk, run, ops, i, j);
    assert OneLife(run[i].statuses[k]) && OneLife(run[j].statuses[k]);
    var log, more := run[i].statuses[k], run[j].statuses[k];
    assert |more| == |log| ==> more == log;
    LogIsChained(sha, k, more, run[j].seqNo);
  }

  /** Every row is hashed, with its certification, status and reason, onto the hash of the row before, the first onto
      nothing, and numbered after it. */
  ghost predicate IsChained(sha: Hash, k: CertKey, log: Log) {
    && log != [] && log[0].prevHash == ""
    && (forall i :: 0 < i < |log| ==> log[i].prevHash == log[i - 1].eventHash && log[i].seqNo > log[i - 1].seqNo)
    && forall i :: 0 <= i < |log| ==>
         log[i].eventHash
         == sha("agentnexus:agent-certification-status:v1:"
                + Framed([k.tenant, k.id, StatusName(log[i].status), log[i].reason, log[i].prevHash], 8))
  }

  lemma LogIsChained(sha: Hash, k: CertKey, log: Log, seqNo: nat)
    requires LogOk(sha, k, log, seqNo)
    ensures IsChained(sha, k, log)
  {
    hide Framed;
    assert log[..0] == [];
    forall i | 0 < i < |log|
      ensures log[i].prevHash == log[i - 1].eventHash && log[i].seqNo > log[i - 1].seqNo
    {
      assert log[..i] != [] && log[..i][i - 1] == log[i - 1];
    }
  }

  // ---------------------------------------------------------------- assessment

  datatype Release = Release(
    publisher: string, product: string, version: string, signingKeyId: string, releaseManifestDigest: string,
    origin: string)

  datatype AssessRequest = AssessRequest(
    release: Release, capability: string, sideEffect: bool, customerCeiling: Option<seq<string>>)

  datatype Assessment = Assessment(
    trustClass: TrustClass, granted: bool, sideEffectAllowed: bool, reason: string, effectiveCeiling: seq<string>)

  function ClientOf(tenant: string, release: Release): ClientKey {
    ClientKey(tenant, release.publisher, release.product)
  }

  /** An unexpired active certification of exactly this release. */
  ghost predicate Covers(r: Registry, tenant: string, release: Release, now: Time, c: Certification) {
    && Lists(r, ClientOf(tenant, release), c)
    && Contains(c.binding.versionRange, release.version)
    && c.binding.signingKey.keyId == release.signingKeyId
    && c.binding.releaseManifestDigest == release.releaseManifestDigest
    && now < c.expiresAt
    && IsActive(r, c.Key())
  }

  /** The newest certification that covers the release, if any does. */
  ghost predicate IsResolved(r: Registry, tenant: string, release: Release, now: Time, found: Option<Certification>) {
    match found
    case None =>
      Canonical(release.publisher) && Canonical(release.product) ==>
        forall c :: !Covers(r, tenant, release, now, c)
    case Some(cert) =>
      && Canonical(release.publisher) && Canonical(release.product) && Covers(r, tenant, release, now, cert)
      && forall c :: Covers(r, tenant, release, now, c) ==> c.revision <= cert.revision
  }

  /** The origin denies connectors if it does where it was frozen, where it is registered now, or as presented. */
  predicate ConnectorsDenied(r: Registry, tenant: string, release: Release, cert: Certification) {
    || IsAstraClawOrigin(cert.origin) || IsAstraClawOrigin(release.origin)
    || var client := JoinedKey(ClientOf(tenant, release));
       client in r.clients && IsAstraClawOrigin(r.clients[client].origin)
  }

  predicate WithinCeilings(r: Registry, tenant: string, req: AssessRequest, cert: Certification) {
    && req.capability in cert.binding.capabilityCeiling
    && !(ConnectorsDenied(r, tenant, req.release, cert) && IsConnectorCapability(req.capability))
    && (req.customerCeiling.Some? ==> req.capability in req.customerCeiling.value)
  }

  predicate MaySideEffect(cert: Certification) {
    match cert.binding.trustClass
    case FirstParty => true
    case CertifiedThirdParty => cert.certifiedDecisionProvider
    case Untrusted => false
  }

  /** What an assessment must say once the certification is resolved. */
  ghost predicate IsAssessed(
      r: Registry, tenant: string, req: AssessRequest, found: Option<Certification>, a: Assessment)
  {
    match found
    case None =>
      && a.trustClass == Untrusted && !a.sideEffectAllowed
      && (a.granted <==> !req.sideEffect && req.customerCeiling.Some? && req.capability in req.customerCeiling.value)
      && a.reason == "no active certification"
      && a.effectiveCeiling == (if req.customerCeiling.Some? then req.customerCeiling.value else [])
    case Some(cert) =>
      var within := WithinCeilings(r, tenant, req, cert);
      && a.trustClass == cert.binding.trustClass
      && (a.granted <==> within && (req.sideEffect ==> MaySideEffect(cert)))
      && (a.sideEffectAllowed <==> req.sideEffect && a.granted)
      && Ascending(a.effectiveCeiling)
      && (forall c :: c in a.effectiveCeiling <==> WithinCeilings(r, tenant, req.(capability := c), cert))
      && a.reason == (if !within then "capability outside effective ceiling"
                      else if !req.sideEffect then "read granted"
                      else if MaySideEffect(cert) then "granted"
                      else "side effect requires a certified decision provider")
  }

  ghost predicate Assessed(r: Registry, tenant: string, req: AssessRequest, now: Time, a: Assessment) {
    exists found :: IsResolved(r, tenant, req.release, now, found) && IsAssessed(r, tenant, req, found, a)
  }

  class Service {
    const store: MemoryStore
    const capabilityOk: string -> bool

    constructor (store: MemoryStore, capabilityOk: string -> bool)
      ensures this.store == store && this.capabilityOk == capabilityOk
    {
      this.store, this.capabilityOk := store, capabilityOk;
    }

    method Register(tenant: string, input: RegisterInput, id: string, now: Time) returns (result: Result<AgentClient, Error>)
      requires store.Valid()
      modifies store
      ensures store.Valid() && (store.View(), result) == Registered(old(store.View()), tenant, input, id, now)
    {
      hide Canonical, StoreOk;
      if !Canonical(tenant) || !Canonical(input.publisher) || !Canonical(input.product) || !ValidOrigin(input.origin) {
        return Err(InvalidInput);
      }
      if !Canonical(id) {
        return Err(Unavailable);
      }
      var client := AgentClient(id, tenant, input.publisher, input.product, input.origin, input.enterpriseRegistered, now);
      var stored := store.CreateAgentClient(client);
      result := Ok(stored);
    }

    method ValidateBinding(b: CertificationBinding) returns (ok: bool)
      ensures ok <==> BindingValid(b, capabilityOk)
    {
      hide ValidRange, IsSha256Ref;
      if b.publisher == "" || b.product == "" {
        return false;
      }
      var rangeOk := ValidateRange(b.versionRange);
      if !rangeOk {
        return false;
      }
      if b.signingKey.keyId == "" || b.signingKey.algorithm != "ed25519" || b.signingKey.publicKey == "" {
        return false;
      }
      if !IsSha256Ref(b.releaseManifestDigest) || b.trustClass == Untrusted {
        return false;
      }
      for i := 0 to |b.capabilityCeiling|
        invariant forall j :: 0 <= j < i ==> capabilityOk(b.capabilityCeiling[j])
      {
        if !capabilityOk(b.capabilityCeiling[i]) {
          return false;
        }
      }
      ok := true;
    }

    method Certify(tenant: string, input: CertifyInput, id: string, statusId: nat -> string, now: Time)
      returns (result: Result<Certification, Error>)
      requires store.Valid()
      modifies store
      ensures store.Valid()
      ensures Certified(store.sha, capabilityOk, old(store.View()), store.View(), tenant, input, id, now, result)
    {
      hide Canonical, StoreOk, BindingValid, CertCreated;
      if !Canonical(tenant) || input.ttl <= 0 {
        return Err(InvalidInput);
      }
      var valid := ValidateBinding(input.binding);
      if !valid || !input.signedBuildManifest {
        return Err(Rejected);
      }
      var key := JoinedKey(ClientKey(tenant, input.binding.publisher, input.binding.product));
      if key !in store.clients {
        return Err(Rejected);
      }
      var client := store.clients[key];
      if input.binding.trustClass == FirstParty && !client.enterpriseRegistered {
        return Err(Rejected);
      }
      if !Canonical(id) {
        return Err(Unavailable);
      }
      result := store.CreateCertification(Candidate(client, tenant, input, id, now), statusId, now);
    }

    method Revoke(tenant: string, id: string, reason: string, statusId: string, now: Time)
      returns (result: Result<StatusChange, Error>)
      requires store.Valid()
      modifies store
      ensures store.Valid()
      ensures (store.View(), result)
              == WithRevocation(store.sha, old(store.View()), tenant, id, reason, statusId, now)
    {
      hide Canonical, HasControlBytes, StoreOk, Appended;
      if !Canonical(tenant) || !Canonical(id) || HasControlBytes(reason) {
        return Err(InvalidInput);
      }
      result := store.AppendStatus(CertKey(tenant, id), Revoked, reason, statusId, now);
    }

    method ActiveCertification(tenant: string, release: Release, now: Time)
      returns (result: Result<Option<Certification>, Error>)
      requires store.Valid()
      ensures result.Ok? && IsResolved(store.View(), tenant, release, now, result.value)
    {
      hide Canonical, Contains, LogOk;
      if !Canonical(release.publisher) || !Canonical(release.product) {
        return Ok(None);
      }
      ghost var r := store.View();
      var certs := store.ListCertifications(ClientOf(tenant, release));
      for i := 0 to |certs|
        invariant forall j :: 0 <= j < i ==> !Covers(r, tenant, release, now, certs[j])
      {
        var cert := certs[i];
        assert cert in certs && Lists(r, ClientOf(tenant, release), cert);
        var within := RangeContains(cert.binding.versionRange, release.version);
        if within && cert.binding.signingKey.keyId == release.signingKeyId
           && cert.binding.releaseManifestDigest == release.releaseManifestDigest && now < cert.expiresAt
        {
          var latest := store.LatestStatus(cert.Key());
          assert LogOk(store.sha, cert.Key(), LogOf(r, cert.Key()), r.seqNo);
          NonemptyLog(store.sha, cert.Key(), LogOf(r, cert.Key()), r.seqNo);
          if latest.value.status == Active {
            NewestCovering(r, tenant, release, now, certs, i);
            return Ok(Some(cert));
          }
        }
      }
      assert forall c :: Covers(r, tenant, release, now, c) ==> c in certs;
      result := Ok(None);
    }

    /** Removes every enterprise connector capability from a ceiling. */
    method StripConnectorCapabilities(ceiling: seq<string>) returns (out: seq<string>)
      ensures forall c :: c in out <==> c in ceiling && !IsConnectorCapability(c)
    {
      out := [];
      for i := 0 to |ceiling|
        invariant forall c :: c in out <==> c in ceiling[..i] && !IsConnectorCapability(c)
      {
        if !IsConnectorCapability(ceiling[i]) {
          out := out + [ceiling[i]];
        }
      }
      assert ceiling[..|ceiling|] == ceiling;
    }

    method Assess(tenant: string, req: AssessRequest, now: Time) returns (result: Result<Assessment, Error>)
      requires store.Valid()
      ensures result == Err(InvalidInput) <==> !Canonical(tenant) || !Canonical(req.capability)
      ensures result.Err? ==> result == Err(InvalidInput)
      ensures result.Ok? ==> Assessed(store.View(), tenant, req, now, result.value)
    {
      hide Canonical, StoreOk, Covers, IsResolved, WithinCeilings, Ascending;
      if !Canonical(tenant) || !Canonical(req.capability) {
        return Err(InvalidInput);
      }
      var resolved := ActiveCertification(tenant, req.release, now);
      var a;
      if resolved.value.None? {
        var openedReads := if req.customerCeiling.Some? then req.customerCeiling.value else [];
        a := Assessment(Untrusted, !req.sideEffect && Allows(openedReads, req.capability), false, "no active certification",
                        openedReads);
      } else {
        a := AssessCertified(tenant, req, resolved.value.value);
      }
      assert IsAssessed(store.View(), tenant, req, resolved.value, a);
      result := Ok(a);
    }

    /** The certified ceiling without what the origin denies. */
    method BaseCeiling(tenant: string, release: Release, cert: Certification) returns (ceiling: seq<string>)
      ensures forall c :: c in ceiling <==>
                && c in cert.binding.capabilityCeiling
                && !(ConnectorsDenied(store.View(), tenant, release, cert) && IsConnectorCapability(c))
    {
      hide IsAstraClawOrigin, IsConnectorCapability;
      var astraClaw := IsAstraClawOrigin(cert.origin) || IsAstraClawOrigin(release.origin);
      var client := JoinedKey(ClientOf(tenant, release));
      if client in store.clients {
        astraClaw := astraClaw || IsAstraClawOrigin(store.clients[client].origin);
      }
      ceiling := cert.binding.capabilityCeiling;
      if astraClaw {
        ceiling := StripConnectorCapabilities(ceiling);
      }
    }

    method AssessCertified(tenant: string, req: AssessRequest, cert: Certification) returns (a: Assessment)
      ensures IsAssessed(store.View(), tenant, req, Some(cert), a)
    {
      hide ConnectorsDenied, IsConnectorCapability, Ascending;
      var ceiling := BaseCeiling(tenant, req.release, cert);
      var effective := Narrow(ceiling, req.customerCeiling);
      var within := Allows(effective, req.capability);
      var permitted := match cert.binding.trustClass
        case FirstParty => true
        case CertifiedThirdParty => cert.certifiedDecisionProvider
        case Untrusted => false;
      if req.sideEffect {
        var reason := if !within then "capability outside effective ceiling"
                      else if !permitted then "side effect requires a certified decision provider"
                      else "granted";
        a := Assessment(cert.binding.trustClass, within && permitted, within && permitted, reason, effective);
      } else {
        a := Assessment(cert.binding.trustClass, within, false,
                        if within then "read granted" else "capability outside effective ceiling", effective);
      }
    }
  }

  lemma NonemptyLog(sha: Hash, k: CertKey, log: Log, seqNo: nat)
    requires LogOk(sha, k, log, seqNo)
    ensures log != []
  {
  }

  lemma NewestCovering(r: Registry, tenant: string, release: Release, now: Time, certs: seq<Certification>, i: nat)
    requires NewestFirst(certs) && forall c :: c in certs <==> Lists(r, ClientOf(tenant, release), c)
    requires i < |certs| && forall j :: 0 <= j < i ==> !Covers(r, tenant, release, now, certs[j])
    ensures forall c :: Covers(r, tenant, release, now, c) ==> c.revision <= certs[i].revision
  {
    hide Contains;
    forall c | Covers(r, tenant, release, now, c)
      ensures c.revision <= certs[i].revision
    {
      assert c in certs;
      var j :| 0 <= j < |certs| && certs[j] == c;
    }
  }

  // ---------------------------------------------------------------- what an assessment means

  /** In a registry any run reaches at most one certification covers a release: its client's newest. */
  lemma CoverIsUnique(
      sha: Hash, capabilityOk: string -> bool, r: Registry, tenant: string, release: Release, now: Time,
      c: Certification, d: Certification)
    requires Inv(sha, capabilityOk, r)
    requires Covers(r, tenant, release, now, c) && Covers(r, tenant, release, now, d)
    ensures c == d
  {
    hide StoreOk, CertOk, OneLife, Contains, IsActive;
    assert c.revision <= d.revision && d.revision <= c.revision;
  }

  /** The certification filed under k is for this very release, unexpired, and active by its last status. */
  ghost predicate VouchesFor(r: Registry, tenant: string, release: Release, now: Time, k: CertKey) {
    && k in r.certs && k in r.statuses && r.statuses[k] != []
    && var c := r.certs[k];
       && c.tenantRef == tenant && c.binding.publisher == release.publisher && c.binding.product == release.product
       && c.binding.signingKey.keyId == release.signingKeyId
       && c.binding.releaseManifestDigest == release.releaseManifestDigest
       && Contains(c.binding.versionRange, release.version)
       && c.expiresAt > now && r.statuses[k][|r.statuses[k]| - 1].status == Active
  }

  lemma CoversVouches(sha: Hash, r: Registry, tenant: string, release: Release, now: Time, k: CertKey)
    requires StoreOk(sha, r)
    ensures VouchesFor(r, tenant, release, now, k) ==> Covers(r, tenant, release, now, r.certs[k])
    ensures k in r.certs && Covers(r, tenant, release, now, r.certs[k]) ==> VouchesFor(r, tenant, release, now, k)
  {
    hide Contains, LogOk;
  }

  /** What an assessment under a certification says, field by field: its class; what both ceilings allow, connectors
      excepted if any origin on record or presented denies them; and a side effect only for a first party or a third
      party with a certified decision provider. */
  lemma CertifiedAssessment(
      sha: Hash, capabilityOk: string -> bool, r: Registry, tenant: string, req: AssessRequest, now: Time, a: Assessment,
      k: CertKey)
    requires Inv(sha, capabilityOk, r) && Assessed(r, tenant, req, now, a)
    requires Canonical(req.release.publisher) && Canonical(req.release.product)
    requires VouchesFor(r, tenant, req.release, now, k)
    ensures var c, origins := r.certs[k], {"astraclaw", "xiaozhi"};
            var client := JoinedKey(ClientKey(tenant, req.release.publisher, req.release.product));
            var denied := c.origin in origins || req.release.origin in origins
                          || (client in r.clients && r.clients[client].origin in origins);
            var within := req.capability in a.effectiveCeiling;
            var trusted := c.binding.trustClass == FirstParty
                           || (c.binding.trustClass == CertifiedThirdParty && c.certifiedDecisionProvider);
            && a.trustClass == c.binding.trustClass
            && (forall x :: x in a.effectiveCeiling <==>
                  && x in c.binding.capabilityCeiling && !(denied && "connector." <= x)
                  && (req.customerCeiling.Some? ==> x in req.customerCeiling.value))
            && (a.granted <==> within && (req.sideEffect ==> trusted))
            && (a.sideEffectAllowed <==> req.sideEffect && within && trusted)
            && a.reason == (if !within then "capability outside effective ceiling"
                            else if !req.sideEffect then "read granted"
                            else if trusted then "granted"
                            else "side effect requires a certified decision provider")
  {
    hide Canonical, Contains, StoreOk, RevisionsOk, NewestIsActive, OneLife, CertOk, Covers;
    CoversVouches(sha, r, tenant, req.release, now, k);
    var found :| IsResolved(r, tenant, req.release, now, found) && IsAssessed(r, tenant, req, found, a);
    if found.None? {
      assert false;
    } else {
      CoverIsUnique(sha, capabilityOk, r, tenant, req.release, now, found.value, r.certs[k]);
      forall x
        ensures x in a.effectiveCeiling <==> WithinCeilings(r, tenant, req.(capability := x), r.certs[k])
      {
      }
      assert req.(capability := req.capability) == req;
    }
  }

  /** Without a certification a release is untrusted: no side effect, and only the reads the customer names. */
  lemma UncertifiedAssessment(
      sha: Hash, r: Registry, tenant: string, req: AssessRequest, now: Time, a: Assessment)
    requires StoreOk(sha, r) && Assessed(r, tenant, req, now, a)
    requires !Canonical(req.release.publisher) || !Canonical(req.release.product)
             || forall k :: !VouchesFor(r, tenant, req.release, now, k)
    ensures a.trustClass == Untrusted && !a.sideEffectAllowed && a.reason == "no active certification"
    ensures a.granted <==> !req.sideEffect && req.customerCeiling.Some? && req.capability in req.customerCeiling.value
    ensures a.effectiveCeiling == if req.customerCeiling.Some? then req.customerCeiling.value else []
  {
    hide Canonical, Contains, StoreOk, VouchesFor;
    var found :| IsResolved(r, tenant, req.release, now, found) && IsAssessed(r, tenant, req, found, a);
    if found.Some? {
      CoversVouches(sha, r, tenant, req.release, now, found.value.Key());
      assert false;
    }
  }

  /** A side effect is allowed exactly under an unexpired active certification of this very release, of a first party
      or of a third party with a certified decision provider, for a capability inside the certified ceiling, inside the
      customer's if there is one, and not a connector of a denied origin. */
  lemma SideEffectAllowedIff(
      sha: Hash, capabilityOk: string -> bool, r: Registry, tenant: string, req: AssessRequest, now: Time, a: Assessment)
    requires Inv(sha, capabilityOk, r) && Assessed(r, tenant, req, now, a)
    ensures var origins := {"astraclaw", "xiaozhi"};
            var client := JoinedKey(ClientKey(tenant, req.release.publisher, req.release.product));
            a.sideEffectAllowed <==>
              && req.sideEffect && Canonical(req.release.publisher) && Canonical(req.release.product)
              && (req.customerCeiling.Some? ==> req.capability in req.customerCeiling.value)
              && exists k ::
                   && VouchesFor(r, tenant, req.release, now, k)
                   && var c := r.certs[k];
                      && (c.binding.trustClass == FirstParty
                          || (c.binding.trustClass == CertifiedThirdParty && c.certifiedDecisionProvider))
                      && now < c.expiresAt
                      && req.capability in c.binding.capabilityCeiling
                      && !("connector." <= req.capability
                           && (c.origin in origins || req.release.origin in origins
                               || (client in r.clients && r.clients[client].origin in origins)))
  {
    hide Inv, Canonical, Assessed, JoinedKey;
    if Canonical(req.release.publisher) && Canonical(req.release.product)
       && exists k :: VouchesFor(r, tenant, req.release, now, k) {
      var k :| VouchesFor(r, tenant, req.release, now, k);
      CertifiedAssessment(sha, capabilityOk, r, tenant, req, now, a, k);
      forall j | VouchesFor(r, tenant, req.release, now, j)
        ensures r.certs[j] == r.certs[k]
      {
        InvStore(sha, capabilityOk, r);
        CoversVouches(sha, r, tenant, req.release, now, j);
        CoversVouches(sha, r, tenant, req.release, now, k);
        CoverIsUnique(sha, capabilityOk, r, tenant, req.release, now, r.certs[j], r.certs[k]);
      }
    } else {
      InvStore(sha, capabilityOk, r);
      UncertifiedAssessment(sha, r, tenant, req, now, a);
    }
  }

  lemma InvStore(sha: Hash, capabilityOk: string -> bool, r: Registry)
    requires Inv(sha, capabilityOk, r)
    ensures StoreOk(sha, r)
  {
  }

  /** Shrinking a customer ceiling never adds a grant. */
  lemma CustomerOnlyNarrows(
      sha: Hash, capabilityOk: string -> bool, r: Registry, tenant: string, req: AssessRequest, now: Time,
      small: seq<string>, a: Assessment, b: Assessment)
    requires Inv(sha, capabilityOk, r)
    requires req.customerCeiling.Some? && forall c :: c in small ==> c in req.customerCeiling.value
    requires Assessed(r, tenant, req.(customerCeiling := Some(small)), now, a) && Assessed(r, tenant, req, now, b)
    ensures a.granted ==> b.granted
    ensures forall c :: c in a.effectiveCeiling ==> c in b.effectiveCeiling
  {
    hide Inv, Canonical, MaySideEffect, IsConnectorCapability, ConnectorsDenied, Covers;
    var less := req.(customerCeiling := Some(small));
    var found :| IsResolved(r, tenant, req.release, now, found) && IsAssessed(r, tenant, less, found, a);
    var other :| IsResolved(r, tenant, req.release, now, other) && IsAssessed(r, tenant, req, other, b);
    if found.Some? && other.Some? {
      CoverIsUnique(sha, capabilityOk, r, tenant, req.release, now, found.value, other.value);
    }
    assert found == other;
  }

  /** A ceiling that is absent narrows nothing when the release is certified, and opens nothing when it is not: then
      naming a capability grants the read that no ceiling at all does not. */
  lemma AbsentCeiling(
      sha: Hash, capabilityOk: string -> bool, r: Registry, tenant: string, req: AssessRequest, now: Time,
      a: Assessment, b: Assessment)
    requires Inv(sha, capabilityOk, r) && req.customerCeiling == None && !req.sideEffect
    requires Assessed(r, tenant, req, now, a)
    requires Assessed(r, tenant, req.(customerCeiling := Some([req.capability])), now, b)
    ensures a.trustClass != Untrusted ==> a.granted == b.granted
    ensures a.trustClass == Untrusted ==> b.granted && !a.granted
  {
    hide Canonical, IsConnectorCapability, ConnectorsDenied, Contains, StoreOk, OneLife, RevisionsOk, NewestIsActive;
    var open := req.(customerCeiling := Some([req.capability]));
    var found :| IsResolved(r, tenant, req.release, now, found) && IsAssessed(r, tenant, req, found, a);
    var other :| IsResolved(r, tenant, req.release, now, other) && IsAssessed(r, tenant, open, other, b);
    if found.Some? && other.Some? {
      CoverIsUnique(sha, capabilityOk, r, tenant, req.release, now, found.value, other.value);
    }
    assert found == other;
    if found.Some? {
      assert CertOk(capabilityOk, found.value);
    }
  }

  /** Once frozen with a denied origin, always without connectors: whatever is registered afterwards, no assessment
      under that certification grants one. */
  lemma FrozenDenialLasts(
      sha: Hash, capabilityOk: string -> bool, run: seq<Registry>, ops: seq<Op>, i: nat, j: nat, k: CertKey,
      req: AssessRequest, now: Time, a: Assessment)
    requires IsRun(sha, capabilityOk, run, ops) && i <= j < |run|
    requires k in run[i].certs && IsAstraClawOrigin(run[i].certs[k].origin)
    requires IsResolved(run[j], k.tenant, req.release, now, Some(run[i].certs[k]))
    requires Assessed(run[j], k.tenant, req, now, a)
    ensures IsConnectorCapability(req.capability) ==> !a.granted
    ensures forall c :: c in a.effectiveCeiling ==> !IsConnectorCapability(c)
  {
    hide Inv, Canonical, IsConnectorCapability, MaySideEffect, Does, Covers, IsAstraClawOrigin;
    RunKeeps(sha, capabilityOk, run, ops, i, j);
    var cert := run[i].certs[k];
    var found :| IsResolved(run[j], k.tenant, req.release, now, found) && IsAssessed(run[j], k.tenant, req, found, a);
    assert found.Some?;
    CoverIsUnique(sha, capabilityOk, run[j], k.tenant, req.release, now, found.value, cert);
    forall c | c in a.effectiveCeiling
      ensures !IsConnectorCapability(c)
    {
      assert WithinCeilings(run[j], k.tenant, req.(capability := c), cert);
    }
  }

  /** A revoked or superseded certification never covers a release again. */
  lemma EndedNeverCovers(
      sha: Hash, capabilityOk: string -> bool, run: seq<Registry>, ops: seq<Op>, i: nat, j: nat, c: Certification,
      tenant: string, release: Release, now: Time)
    requires IsRun(sha, capabilityOk, run, ops) && i <= j < |run|
    requires c.Key() in run[i].certs && !IsActive(run[i], c.Key())
    ensures !Covers(run[j], tenant, release, now, c)
  {
    hide IsRun, IsActive, Contains, Lists;
    LogsOfEveryRun(sha, capabilityOk, run, ops, i, j, c.Key());
  }
}
