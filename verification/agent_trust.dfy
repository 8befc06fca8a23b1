/** The store of the Agent trust registry: immutable certification revisions and their append-only, hash-chained
    status logs (services/agentnexus/internal/agenttrust/model.go). */
module AgentRegistry {
  import opened Digests
  import opened JoinedKeys
  import opened LengthPrefix
  import opened RuntimeTrust
  import opened Text
  import opened TrustClasses
  import opened Wrappers

  type Time = int

  datatype Error = Rejected | InvalidInput | NotFound | Unavailable

  datatype ClientKey = ClientKey(tenant: string, publisher: string, product: string)

  datatype CertKey = CertKey(tenant: string, id: string)

  datatype AgentClient = AgentClient(
    id: string, tenantRef: string, publisher: string, product: string, origin: string, enterpriseRegistered: bool,
    createdAt: Time)
  {
    function Key(): ClientKey { ClientKey(tenantRef, publisher, product) }
  }

  datatype SigningKey = SigningKey(keyId: string, algorithm: string, publicKey: string)

  datatype CertificationBinding = CertificationBinding(
    publisher: string, product: string, versionRange: VersionRange, signingKey: SigningKey,
    releaseManifestDigest: string, trustClass: TrustClass, capabilityCeiling: seq<string>)

  datatype Certification = Certification(
    id: string, tenantRef: string, agentClientId: string, origin: string, revision: nat,
    binding: CertificationBinding, signedBuildManifest: bool, enterpriseRegistered: bool,
    certifiedDecisionProvider: bool, issuedAt: Time, expiresAt: Time, createdAt: Time)
  {
    function Key(): CertKey { CertKey(tenantRef, id) }

    function Client(): ClientKey { ClientKey(tenantRef, binding.publisher, binding.product) }
  }

  datatype CertificationStatus = Active | Revoked | Expired | Superseded

  function StatusName(s: CertificationStatus): string {
    match s
    case Active => "active"
    case Revoked => "revoked"
    case Expired => "expired"
    case Superseded => "superseded"
  }

  datatype StatusChange = StatusChange(
    id: string, tenantRef: string, certificationId: string, status: CertificationStatus, reason: string,
    prevHash: string, eventHash: string, seqNo: nat, createdAt: Time)

  type Log = seq<StatusChange>

  datatype Registry = Registry(
    clients: map<string, AgentClient>, // by joined key
    certs: map<CertKey, Certification>, statuses: map<CertKey, Log>, seqNo: nat)

  const EMPTY := Registry(map[], map[], map[], 0)

  // ---------------------------------------------------------------- keys

  /** The key a client is filed under. */
  function JoinedKey(k: ClientKey): string {
    Triple(k.tenant, k.publisher, k.product)
  }

  /** What registration accepts as a client. */
  predicate Registrable(k: ClientKey) {
    Canonical(k.tenant) && Canonical(k.publisher) && Canonical(k.product)
  }

  /** The client a joined key stands for if it is cut at its i-th and its j-th NUL. */
  function KeyAt(s: string, i: nat, j: nat): ClientKey
    requires 0 < i < j < |Parts(s)|
  {
    var (tenant, publisher, product) := TripleAt(s, i, j);
    ClientKey(tenant, publisher, product)
  }

  /** No other two NULs of the client's joined key cut it into something that can be registered. */
  predicate OnlyCut(k: ClientKey) {
    var s, first, second := JoinedKey(k), |Parts(k.tenant)|, |Parts(k.tenant)| + |Parts(k.publisher)|;
    forall i, j :: 0 < i < j < |Parts(s)| && (i, j) != (first, second) ==> !Registrable(KeyAt(s, i, j))
  }

  /** A client that can be registered shares its record with no other such client if and only if no other choice of
      two NULs of its joined key leaves three fields that registration accepts. */
  lemma FiledApartIff(k: ClientKey)
    requires Registrable(k)
    ensures (forall j :: Registrable(j) && JoinedKey(j) == JoinedKey(k) ==> j == k) <==> OnlyCut(k)
  {
    hide Parts, Triple, TripleAt, Canonical;
    if OnlyCut(k) {
      forall j | Registrable(j) && JoinedKey(j) == JoinedKey(k)
        ensures j == k
      {
        TripleIsCut(k.tenant, k.publisher, k.product);
        TripleIsCut(j.tenant, j.publisher, j.product);
        assert KeyAt(JoinedKey(k), |Parts(j.tenant)|, |Parts(j.tenant)| + |Parts(j.publisher)|) == j;
      }
    } else {
      var j := OtherClient(k);
    }
  }

  /** Another client under the same joined key. */
  lemma OtherClient(k: ClientKey) returns (other: ClientKey)
    requires !OnlyCut(k)
    ensures Registrable(other) && JoinedKey(other) == JoinedKey(k) && other != k
  {
    hide Parts, Triple, TripleAt, Registrable;
    var s, first, second := JoinedKey(k), |Parts(k.tenant)|, |Parts(k.tenant)| + |Parts(k.publisher)|;
    var i, j :| 0 < i < j < |Parts(s)| && (i, j) != (first, second) && Registrable(KeyAt(s, i, j));
    other := KeyAt(s, i, j);
    CutIsTriple(s, i, j);
  }

  /** It is enough that no field contains a NUL: such a client is filed apart from every other triple. */
  lemma JoinedKeyInjective(k: ClientKey, j: ClientKey)
    requires NUL !in k.tenant && NUL !in k.publisher && NUL !in k.product && JoinedKey(j) == JoinedKey(k)
    ensures j == k
  {
    hide Parts, Pair, TripleAt;
    OnePart(k.tenant);
    OnePart(k.publisher);
    OnePart(k.product);
    PartsOfPair(k.publisher, k.product);
    PartsOfPair(k.tenant, Pair(k.publisher, k.product));
    TripleIsCut(k.tenant, k.publisher, k.product);
    TripleIsCut(j.tenant, j.publisher, j.product);
  }

  /** It is not necessary: a NUL with nothing before it cannot move. */
  lemma NulThatCannotMove(x: string, p: string, q: string)
    requires NUL !in x && NUL !in p && NUL !in q
    ensures OnlyCut(ClientKey([NUL] + x, p, q))
  {
    hide Parts, Pair, TripleAt, Canonical;
    OnePart("");
    OnePart(x);
    OnePart(p);
    OnePart(q);
    assert Pair("", x) == [NUL] + x by { StartsWithNul(x); }
    PartsOfPair("", x);
    var k := ClientKey([NUL] + x, p, q);
    PartsOfPair(p, q);
    PartsOfPair(k.tenant, Pair(p, q));
    forall j: nat | 1 < j < |Parts(JoinedKey(k))|
      ensures !Registrable(KeyAt(JoinedKey(k), 1, j))
    {
      FirstPartBlank(JoinedKey(k), j);
    }
  }

  lemma StartsWithNul(x: string)
    ensures Pair("", x) == [NUL] + x
  {
  }

  lemma FirstPartBlank(s: string, j: nat)
    requires 1 < j < |Parts(s)| && Parts(s)[0] == ""
    ensures !Registrable(KeyAt(s, 1, j))
  {
    hide Parts;
    assert Parts(s)[..1] == [""];
  }

  // ---------------------------------------------------------------- the status hash chain

  const STATUS_HASH_DOMAIN := "agentnexus:agent-certification-status:v1:"

  /** 64 hexadecimal digits. */
  type HexDigest = s: string | |s| == 64 witness seq(64, _ => '0')

  type Hash = string -> HexDigest

  function StatusPreimage(tenant: string, id: string, status: CertificationStatus, reason: string, prev: string): string {
    STATUS_HASH_DOMAIN + Framed([tenant, id, StatusName(status), reason, prev], 8)
  }

  function HashStatusChange(
      sha: Hash, tenant: string, id: string, status: CertificationStatus, reason: string, prev: string): HexDigest
  {
    sha(StatusPreimage(tenant, id, status, reason, prev))
  }

  function RowPreimage(row: StatusChange): string {
    StatusPreimage(row.tenantRef, row.certificationId, row.status, row.reason, row.prevHash)
  }

  function TailHash(log: Log): string {
    if log == [] then "" else log[|log| - 1].eventHash
  }

  function LogOf(r: Registry, k: CertKey): Log {
    if k in r.statuses then r.statuses[k] else []
  }

  /** The next row of a log: chained onto its tail and numbered by the store. */
  function Chained(
      sha: Hash, r: Registry, k: CertKey, status: CertificationStatus, reason: string, statusId: string, now: Time)
    : StatusChange
  {
    var prev := TailHash(LogOf(r, k));
    StatusChange(statusId, k.tenant, k.id, status, reason, prev,
                 HashStatusChange(sha, k.tenant, k.id, status, reason, prev), r.seqNo + 1, now)
  }

  /** Rows of one certification, each linked to the one before, the first to nothing, in the store's order. */
  ghost predicate LogOk(sha: Hash, k: CertKey, log: Log, seqNo: nat) {
    && log != []
    && (forall i :: 0 <= i < |log| ==>
          && log[i].tenantRef == k.tenant && log[i].certificationId == k.id
          && log[i].prevHash == TailHash(log[..i]) && log[i].eventHash == sha(RowPreimage(log[i]))
          && 1 <= log[i].seqNo <= seqNo)
    && (forall i, j :: 0 <= i < j < |log| ==> log[i].seqNo < log[j].seqNo)
  }

  ghost predicate StoreOk(sha: Hash, r: Registry) {
    && r.statuses.Keys == r.certs.Keys
    && (forall k :: k in r.certs ==> r.certs[k].Key() == k)
    && (forall k :: k in r.statuses ==> LogOk(sha, k, r.statuses[k], r.seqNo))
  }

  function Latest(log: Log): CertificationStatus
    requires log != []
  {
    log[|log| - 1].status
  }

  predicate IsActive(r: Registry, k: CertKey) {
    k in r.statuses && r.statuses[k] != [] && Latest(r.statuses[k]) == Active
  }

  // ---------------------------------------------------------------- what the store operations do

  function CreatedClient(r: Registry, client: AgentClient): (Registry, AgentClient) {
    var k := JoinedKey(client.Key());
    var stored := if k in r.clients then client.(id := r.clients[k].id, createdAt := r.clients[k].createdAt) else client;
    (r.(clients := r.clients[k := stored]), stored)
  }

  function Appended(
      sha: Hash, r: Registry, k: CertKey, status: CertificationStatus, reason: string, statusId: string, now: Time)
    : (Registry, Result<StatusChange, Error>)
  {
    if k !in r.certs then (r, Err(NotFound))
    else
      var change := Chained(sha, r, k, status, reason, statusId, now);
      (r.(statuses := r.statuses[k := LogOf(r, k) + [change]], seqNo := r.seqNo + 1), Ok(change))
  }

  predicate SameClient(r: Registry, k: CertKey, client: ClientKey) {
    k in r.certs && r.certs[k].Client() == client
  }

  /** The least revision above all the client's. */
  ghost predicate IsNextRevision(r: Registry, client: ClientKey, revision: nat) {
    && revision >= 1
    && (forall k :: SameClient(r, k, client) ==> r.certs[k].revision < revision)
    && (revision > 1 ==> exists k :: SameClient(r, k, client) && r.certs[k].revision == revision - 1)
  }

  ghost predicate IsSuperseding(sha: Hash, r: Registry, t: Registry, k: CertKey, newId: string)
    requires k in r.statuses && k in t.statuses
  {
    var log, more := r.statuses[k], t.statuses[k];
    && |more| == |log| + 1 && more[..|log|] == log
    && var row := more[|log|];
       && row.tenantRef == k.tenant && row.certificationId == k.id
       && row.status == Superseded && row.reason == "superseded by " + newId
       && row.prevHash == TailHash(log) && row.eventHash == sha(RowPreimage(row))
       && r.seqNo < row.seqNo < t.seqNo
  }

  /** One atomic certification: the next revision, its own fresh chain, and one superseding row on exactly the
      client's active revisions. */
  ghost predicate CertCreated(sha: Hash, r: Registry, t: Registry, cert: Certification, stored: Certification) {
    && cert.Key() !in r.certs
    && stored == cert.(revision := stored.revision) && IsNextRevision(r, cert.Client(), stored.revision)
    && t.clients == r.clients && t.certs == r.certs[cert.Key() := stored]
    && t.statuses.Keys == r.statuses.Keys + {cert.Key()}
    && (forall k :: k in r.statuses ==>
          if SameClient(r, k, cert.Client()) && IsActive(r, k) then IsSuperseding(sha, r, t, k, cert.id)
          else t.statuses[k] == r.statuses[k])
    && |t.statuses[cert.Key()]| == 1
    && var row := t.statuses[cert.Key()][0];
       && row.tenantRef == cert.tenantRef && row.certificationId == cert.id && row.status == Active
       && row.reason == "certified" && row.prevHash == "" && row.eventHash == sha(RowPreimage(row))
       && row.seqNo == t.seqNo > r.seqNo
  }

  /** The given revisions have one superseding row more, the others are as they were. */
  ghost predicate AllSuperseded(sha: Hash, r: Registry, t: Registry, ks: set<CertKey>, newId: string) {
    && t.statuses.Keys == r.statuses.Keys && t.seqNo > r.seqNo
    && (forall k :: k in r.statuses ==>
          if k in ks then IsSuperseding(sha, r, t, k, newId) else t.statuses[k] == r.statuses[k])
  }

  ghost predicate NewestFirst(certs: seq<Certification>) {
    forall i, j :: 0 <= i < j < |certs| ==> certs[i].revision >= certs[j].revision
  }

  ghost predicate Lists(r: Registry, client: ClientKey, c: Certification) {
    SameClient(r, c.Key(), client) && r.certs[c.Key()] == c
  }

  method InsertByRevision(certs: seq<Certification>, cert: Certification) returns (out: seq<Certification>)
    requires NewestFirst(certs)
    ensures NewestFirst(out) && forall c :: c in out <==> c in certs || c == cert
  {
    var i := 0;
    while i < |certs| && certs[i].revision >= cert.revision
      invariant 0 <= i <= |certs|
      invariant forall j :: 0 <= j < i ==> certs[j].revision >= cert.revision
    {
      i := i + 1;
    }
    out := certs[..i] + [cert] + certs[i..];
  }

  class MemoryStore {
    const sha: Hash
    var clients: map<string, AgentClient>
    var certs: map<CertKey, Certification>
    var statuses: map<CertKey, Log>
    var seqNo: nat

    ghost function View(): Registry
      reads this
    {
      Registry(clients, certs, statuses, seqNo)
    }

    ghost predicate Valid()
      reads this
    {
      StoreOk(sha, View())
    }

    constructor (sha: Hash)
      ensures View() == EMPTY && Valid() && this.sha == sha
    {
      this.sha, clients, certs, statuses, seqNo := sha, map[], map[], map[], 0;
    }

    method CreateAgentClient(client: AgentClient) returns (stored: AgentClient)
      requires Valid()
      modifies this
      ensures Valid() && (View(), stored) == CreatedClient(old(View()), client)
    {
      stored := client;
      var key := JoinedKey(client.Key());
      if key in clients {
        var existing := clients[key];
        stored := stored.(id := existing.id, createdAt := existing.createdAt);
      }
      clients := clients[key := stored];
    }

    method NextRow(k: CertKey, status: CertificationStatus, reason: string, statusId: string, now: Time)
      returns (row: StatusChange)
      modifies this`seqNo
      ensures row == Chained(sha, old(View()), k, status, reason, statusId, now) && seqNo == old(seqNo) + 1
    {
      var prev := "";
      if k in statuses && statuses[k] != [] {
        prev := statuses[k][|statuses[k]| - 1].eventHash;
      }
      seqNo := seqNo + 1;
      var framed := Frame([k.tenant, k.id, StatusName(status), reason, prev], 8);
      row := StatusChange(statusId, k.tenant, k.id, status, reason, prev, sha(STATUS_HASH_DOMAIN + framed), seqNo, now);
    }

    /** Chains a row onto an existing log. */
    method AppendRow(k: CertKey, status: CertificationStatus, reason: string, statusId: string, now: Time)
      returns (row: StatusChange)
      requires k in statuses
      modifies this`statuses, this`seqNo
      ensures row == Chained(sha, old(View()), k, status, reason, statusId, now)
      ensures View() == old(View()).(statuses := old(statuses)[k := old(statuses)[k] + [row]], seqNo := old(seqNo) + 1)
    {
      hide Chained;
      row := NextRow(k, status, reason, statusId, now);
      statuses := statuses[k := statuses[k] + [row]];
    }

    method AppendStatus(k: CertKey, status: CertificationStatus, reason: string, statusId: string, now: Time)
      returns (r: Result<StatusChange, Error>)
      requires Valid()
      modifies this
      ensures Valid() && (View(), r) == Appended(sha, old(View()), k, status, reason, statusId, now)
    {
      hide StoreOk, HashStatusChange;
      if k !in certs {
        return Err(NotFound);
      }
      AppendedOk(sha, View(), k, status, reason, statusId, now);
      assert k in statuses by { StoreKeys(sha, View(), k); }
      var change := AppendRow(k, status, reason, statusId, now);
      r := Ok(change);
    }

    /** The highest revision of the client and the revisions of it that are active. */
    method Survey(client: ClientKey) returns (maxRevision: nat, priorActive: set<CertKey>)
      requires Valid()
      ensures forall k :: SameClient(View(), k, client) ==> certs[k].revision <= maxRevision
      ensures maxRevision > 0 ==> exists k :: SameClient(View(), k, client) && certs[k].revision == maxRevision
      ensures forall k :: k in priorActive <==> SameClient(View(), k, client) && IsActive(View(), k)
    {
      hide LogOk;
      ghost var s := View();
      maxRevision, priorActive := 0, {};
      var rest := certs.Keys;
      while rest != {}
        invariant rest <= certs.Keys
        invariant forall k :: SameClient(s, k, client) && k !in rest ==> s.certs[k].revision <= maxRevision
        invariant maxRevision > 0 ==> exists k :: SameClient(s, k, client) && s.certs[k].revision == maxRevision
        invariant forall k :: k in priorActive <==> SameClient(s, k, client) && IsActive(s, k) && k !in rest
        decreases |rest|
      {
        var k :| k in rest;
        rest := rest - {k};
        var other := certs[k];
        if other.Client() == client {
          assert SameClient(s, k, client);
          if other.revision > maxRevision {
            maxRevision := other.revision;
          }
          if statuses[k] != [] && statuses[k][|statuses[k]| - 1].status == Active {
            priorActive := priorActive + {k};
          }
        }
      }
    }

    /** Appends a superseding row to one more revision. */
    method SupersedeOne(k: CertKey, newId: string, statusId: string, now: Time, ghost s: Registry, ghost done: set<CertKey>)
      requires k in s.statuses && k !in done && AllSuperseded(sha, s, View().(seqNo := seqNo + 1), done, newId)
      modifies this`statuses, this`seqNo
      ensures AllSuperseded(sha, s, View().(seqNo := seqNo + 1), done + {k}, newId)
    {
      hide Chained, IsSuperseding, AllSuperseded;
      ghost var r := View();
      assert k in statuses by { SupersededKeys(sha, s, r.(seqNo := r.seqNo + 1), done, newId); }
      var row := AppendRow(k, Superseded, "superseded by " + newId, statusId, now);
      OneMoreSuperseded(sha, s, r, View(), done, k, newId, statusId, now);
    }

    /** Appends a superseding row to each of the given active revisions. */
    method Supersede(priorActive: set<CertKey>, newId: string, statusId: nat -> string, now: Time)
      requires priorActive <= statuses.Keys
      modifies this`statuses, this`seqNo
      ensures AllSuperseded(sha, old(View()), View().(seqNo := seqNo + 1), priorActive, newId)
      ensures certs == old(certs) && clients == old(clients)
    {
      hide AllSuperseded;
      ghost var s := View();
      ghost var done: set<CertKey> := {};
      var rest := priorActive;
      NothingSuperseded(sha, s, newId);
      while rest != {}
        invariant rest <= priorActive && done == priorActive - rest
        invariant AllSuperseded(sha, s, View().(seqNo := seqNo + 1), done, newId)
        decreases |rest|
      {
        var k :| k in rest;
        rest := rest - {k};
        SupersedeOne(k, newId, statusId(|rest|), now, s, done);
        done := done + {k};
      }
      assert done == priorActive;
    }

    method CreateCertification(cert: Certification, statusId: nat -> string, now: Time)
      returns (r: Result<Certification, Error>)
      requires Valid()
      modifies this
      ensures Valid()
      ensures r == Err(Rejected) <==> cert.Key() in old(certs)
      ensures r.Err? ==> r == Err(Rejected) && View() == old(View())
      ensures r.Ok? ==> CertCreated(sha, old(View()), View(), cert, r.value)
    {
      hide StoreOk, Chained, IsSuperseding, AllSuperseded, IsActive, SameClient, IsNextRevision, CertCreated;
      if cert.Key() in certs {
        return Err(Rejected);
      }
      ghost var s := View();
      AllKeys(sha, s);
      var maxRevision, priorActive := Survey(cert.Client());
      var stored := cert.(revision := maxRevision + 1);
      NewRevisionFits(s, cert.Client(), maxRevision);
      ActiveKeys(s);
      Supersede(priorActive, cert.id, statusId, now);
      ghost var mid := View();
      var row := NextRow(cert.Key(), Active, "certified", statusId(|priorActive|), now);
      certs := certs[cert.Key() := stored];
      statuses := statuses[cert.Key() := [row]];
      r := Ok(stored);
      ChainedFields(sha, mid, cert.Key(), Active, "certified", statusId(|priorActive|), now);
      CreatedFrom(sha, s, mid, View(), priorActive, cert, stored, row);
      CreatedOk(sha, s, View(), cert, stored);
    }

    /** The revisions of a client, newest first. */
    method ListCertifications(client: ClientKey) returns (out: seq<Certification>)
      requires Valid()
      ensures NewestFirst(out) && forall c :: c in out <==> Lists(View(), client, c)
    {
      hide LogOk;
      ghost var s := View();
      out := [];
      var rest := certs.Keys;
      while rest != {}
        invariant rest <= certs.Keys && NewestFirst(out)
        invariant forall c :: c in out <==> Lists(s, client, c) && c.Key() !in rest
        decreases |rest|
      {
        var k :| k in rest;
        rest := rest - {k};
        if certs[k].Client() == client {
          out := InsertByRevision(out, certs[k]);
        }
      }
    }

    method LatestStatus(k: CertKey) returns (r: Result<StatusChange, Error>)
      ensures r == if LogOf(View(), k) == [] then Err(NotFound)
                   else Ok(LogOf(View(), k)[|LogOf(View(), k)| - 1])
    {
      if k !in statuses || statuses[k] == [] {
        return Err(NotFound);
      }
      r := Ok(statuses[k][|statuses[k]| - 1]);
    }
  }

  // ---------------------------------------------------------------- the store keeps its chains

  lemma LongerLogOk(sha: Hash, k: CertKey, log: Log, seqNo: nat, row: StatusChange, later: nat)
    requires log == [] || LogOk(sha, k, log, seqNo)
    requires row.tenantRef == k.tenant && row.certificationId == k.id && row.prevHash == TailHash(log)
    requires row.eventHash == sha(RowPreimage(row)) && seqNo < row.seqNo <= later
    ensures LogOk(sha, k, log + [row], later)
  {
    var more := log + [row];
    forall i | 0 <= i < |more|
      ensures more[i].prevHash == TailHash(more[..i])
    {
      if i < |log| {
        assert more[..i] == log[..i];
      } else {
        assert more[..i] == log;
      }
    }
  }

  lemma StoreKeys(sha: Hash, r: Registry, k: CertKey)
    requires StoreOk(sha, r) && k in r.certs
    ensures k in r.statuses
  {
  }

  lemma AllKeys(sha: Hash, r: Registry)
    requires StoreOk(sha, r)
    ensures r.statuses.Keys == r.certs.Keys
  {
  }

  lemma ActiveKeys(r: Registry)
    ensures forall k :: IsActive(r, k) ==> k in r.statuses
  {
  }

  lemma ChainedFields(
      sha: Hash, r: Registry, k: CertKey, status: CertificationStatus, reason: string, statusId: string, now: Time)
    ensures Chained(sha, r, k, status, reason, statusId, now).id == statusId
    ensures Chained(sha, r, k, status, reason, statusId, now).createdAt == now
  {
  }

  lemma SupersededKeys(sha: Hash, r: Registry, t: Registry, ks: set<CertKey>, newId: string)
    requires AllSuperseded(sha, r, t, ks, newId)
    ensures t.statuses.Keys == r.statuses.Keys
  {
    hide IsSuperseding;
  }

  lemma NothingSuperseded(sha: Hash, s: Registry, newId: string)
    ensures AllSuperseded(sha, s, s.(seqNo := s.seqNo + 1), {}, newId)
  {
  }

  lemma CreatedFrom(
      sha: Hash, s: Registry, mid: Registry, t: Registry, priorActive: set<CertKey>, cert: Certification,
      stored: Certification, row: StatusChange)
    requires s.statuses.Keys == s.certs.Keys && cert.Key() !in s.certs
    requires stored == cert.(revision := stored.revision) && IsNextRevision(s, cert.Client(), stored.revision)
    requires forall k :: k in priorActive <==> SameClient(s, k, cert.Client()) && IsActive(s, k)
    requires AllSuperseded(sha, s, mid.(seqNo := mid.seqNo + 1), priorActive, cert.id)
    requires mid.clients == s.clients && mid.certs == s.certs
    requires t == Registry(s.clients, s.certs[cert.Key() := stored], mid.statuses[cert.Key() := [row]], mid.seqNo + 1)
    requires row == Chained(sha, mid, cert.Key(), Active, "certified", row.id, row.createdAt)
    ensures CertCreated(sha, s, t, cert, stored)
  {
    hide IsSuperseding, IsNextRevision, IsActive, SameClient, StatusPreimage;
    assert LogOf(mid, cert.Key()) == [];
    forall k | k in s.statuses
      ensures k in t.statuses
      ensures if k in priorActive then IsSuperseding(sha, s, t, k, cert.id) else t.statuses[k] == s.statuses[k]
    {
      if k in priorActive {
        LaterSuperseding(sha, s, mid.(seqNo := mid.seqNo + 1), t, k, cert.id);
      }
    }
  }

  lemma NewRevisionFits(r: Registry, client: ClientKey, maxRevision: nat)
    requires forall k :: SameClient(r, k, client) ==> r.certs[k].revision <= maxRevision
    requires maxRevision > 0 ==> exists k :: SameClient(r, k, client) && r.certs[k].revision == maxRevision
    ensures IsNextRevision(r, client, maxRevision + 1)
  {
  }

  lemma OneMoreSuperseded(
      sha: Hash, s: Registry, r: Registry, t: Registry, ks: set<CertKey>, k: CertKey, newId: string, statusId: string,
      now: Time)
    requires AllSuperseded(sha, s, r.(seqNo := r.seqNo + 1), ks, newId) && k in s.statuses && k !in ks
    requires t.seqNo == r.seqNo + 1
    requires t.statuses == r.statuses[
               k := r.statuses[k] + [Chained(sha, r, k, Superseded, "superseded by " + newId, statusId, now)]]
    ensures AllSuperseded(sha, s, t.(seqNo := t.seqNo + 1), ks + {k}, newId)
  {
    hide IsSuperseding, HashStatusChange;
    forall j | j in s.statuses
      ensures if j in ks + {k} then IsSuperseding(sha, s, t.(seqNo := t.seqNo + 1), j, newId)
              else t.statuses[j] == s.statuses[j]
    {
      if j == k {
        SupersedingRow(sha, s, r, t, k, newId, statusId, now);
      } else if j in ks {
        LaterSuperseding(sha, s, r.(seqNo := r.seqNo + 1), t.(seqNo := t.seqNo + 1), j, newId);
      }
    }
  }

  lemma SupersedingRow(
      sha: Hash, s: Registry, r: Registry, t: Registry, k: CertKey, newId: string, statusId: string, now: Time)
    requires k in s.statuses && k in r.statuses && r.statuses[k] == s.statuses[k] && r.seqNo >= s.seqNo
    requires t.seqNo == r.seqNo + 1
    requires t.statuses == r.statuses[
               k := r.statuses[k] + [Chained(sha, r, k, Superseded, "superseded by " + newId, statusId, now)]]
    ensures IsSuperseding(sha, s, t.(seqNo := t.seqNo + 1), k, newId)
  {
    hide StatusPreimage;
  }

  lemma LaterSuperseding(sha: Hash, s: Registry, r: Registry, t: Registry, k: CertKey, newId: string)
    requires k in s.statuses && k in r.statuses && k in t.statuses && t.statuses[k] == r.statuses[k]
    requires IsSuperseding(sha, s, r, k, newId) && t.seqNo >= r.seqNo
    ensures IsSuperseding(sha, s, t, k, newId)
  {
    hide RowPreimage;
  }

  lemma AppendedOk(
      sha: Hash, r: Registry, k: CertKey, status: CertificationStatus, reason: string, statusId: string, now: Time)
    requires StoreOk(sha, r)
    ensures StoreOk(sha, Appended(sha, r, k, status, reason, statusId, now).0)
  {
    hide LogOk;
    var t := Appended(sha, r, k, status, reason, statusId, now).0;
    forall j | j in t.statuses
      ensures LogOk(sha, j, t.statuses[j], t.seqNo)
    {
      assert LogOk(sha, j, r.statuses[j], r.seqNo);
      if j == k {
        LongerLogOk(sha, k, r.statuses[k], r.seqNo, Chained(sha, r, k, status, reason, statusId, now), t.seqNo);
      } else {
        LaterLogOk(sha, j, r.statuses[j], r.seqNo, t.seqNo);
      }
    }
  }

  lemma LaterLogOk(sha: Hash, k: CertKey, log: Log, seqNo: nat, later: nat)
    requires LogOk(sha, k, log, seqNo) && seqNo <= later
    ensures LogOk(sha, k, log, later)
  {
  }

  lemma CreatedOk(sha: Hash, r: Registry, t: Registry, cert: Certification, stored: Certification)
    requires StoreOk(sha, r) && CertCreated(sha, r, t, cert, stored)
    ensures StoreOk(sha, t)
  {
    hide LogOk, IsNextRevision, IsSuperseding, RowPreimage;
    forall k | k in t.statuses
      ensures LogOk(sha, k, t.statuses[k], t.seqNo)
    {
      if k == cert.Key() {
        FreshLogOk(sha, k, t.statuses[k], t.seqNo);
      } else {
        assert LogOk(sha, k, r.statuses[k], r.seqNo);
        if SameClient(r, k, cert.Client()) && IsActive(r, k) {
          SupersededLogOk(sha, r, t, k, cert.id);
        } else {
          LaterLogOk(sha, k, r.statuses[k], r.seqNo, t.seqNo);
        }
      }
    }
  }

  lemma FreshLogOk(sha: Hash, k: CertKey, log: Log, seqNo: nat)
    requires |log| == 1 && log[0].tenantRef == k.tenant && log[0].certificationId == k.id && log[0].prevHash == ""
    requires log[0].eventHash == sha(RowPreimage(log[0])) && 1 <= log[0].seqNo <= seqNo
    ensures LogOk(sha, k, log, seqNo)
  {
    hide RowPreimage;
    assert log[..0] == [];
  }

  lemma SupersededLogOk(sha: Hash, r: Registry, t: Registry, k: CertKey, newId: string)
    requires k in r.statuses && k in t.statuses && LogOk(sha, k, r.statuses[k], r.seqNo)
    requires IsSuperseding(sha, r, t, k, newId)
    ensures LogOk(sha, k, t.statuses[k], t.seqNo)
  {
    hide LogOk, RowPreimage;
    var log, more := r.statuses[k], t.statuses[k];
    assert more == log + [more[|log|]];
    LongerLogOk(sha, k, log, r.seqNo, more[|log|], t.seqNo);
  }

  // ---------------------------------------------------------------- the chain is tamper evident

  function RowContents(row: StatusChange): (string, string, CertificationStatus, string) {
    (row.tenantRef, row.certificationId, row.status, row.reason)
  }

  function Contents(log: Log): seq<(string, string, CertificationStatus, string)> {
    seq(|log|, i requires 0 <= i < |log| => RowContents(log[i]))
  }

  ghost function Preimages(log: Log): set<string> {
    set i | 0 <= i < |log| :: RowPreimage(log[i])
  }

  /** Fields that fit their length prefix, as every string in memory does. */
  predicate RowFits(row: StatusChange) {
    Fit([row.tenantRef, row.certificationId, StatusName(row.status), row.reason, row.prevHash], 8)
  }

  lemma StatusNameInjective(s: CertificationStatus, t: CertificationStatus)
    requires StatusName(s) == StatusName(t)
    ensures s == t
  {
  }

  lemma PreimageBinds(a: StatusChange, b: StatusChange)
    requires RowFits(a) && RowFits(b) && RowPreimage(a) == RowPreimage(b)
    ensures a.tenantRef == b.tenantRef && a.certificationId == b.certificationId
    ensures a.status == b.status && a.reason == b.reason && a.prevHash == b.prevHash
  {
    hide Framed, Fit, StatusName;
    var fields := [a.tenantRef, a.certificationId, StatusName(a.status), a.reason, a.prevHash];
    var others := [b.tenantRef, b.certificationId, StatusName(b.status), b.reason, b.prevHash];
    SameTail(STATUS_HASH_DOMAIN, Framed(fields, 8), Framed(others, 8));
    FramedInjective(fields, others, 8);
    SameFive(fields, others);
    StatusNameInjective(a.status, b.status);
  }

  lemma SameTail(head: string, s: string, t: string)
    requires head + s == head + t
    ensures s == t
  {
    assert (head + s)[|head|..] == s && (head + t)[|head|..] == t;
  }

  lemma SameFive(s: seq<string>, t: seq<string>)
    requires s == t && |s| == 5
    ensures s[0] == t[0] && s[1] == t[1] && s[2] == t[2] && s[3] == t[3] && s[4] == t[4]
  {
  }

  /** What a chain says of its last row. */
  lemma LastRow(sha: Hash, k: CertKey, log: Log, seqNo: nat)
    requires LogOk(sha, k, log, seqNo)
    ensures log != []
    ensures var row := log[|log| - 1];
            && row.tenantRef == k.tenant && row.certificationId == k.id && row.eventHash == sha(RowPreimage(row))
            && row.prevHash == TailHash(log[..|log| - 1])
            && RowPreimage(row) in Preimages(log) && row in log
            && (row.prevHash == "" <==> |log| == 1)
            && (|log| > 1 ==> LogOk(sha, k, log[..|log| - 1], seqNo))
            && Preimages(log[..|log| - 1]) <= Preimages(log) && TailHash(log) == row.eventHash
  {
    hide RowPreimage;
    HashesAreNotEmpty(sha, k, log, seqNo);
    ShorterPreimages(log);
    if |log| > 1 {
      ShorterLogOk(sha, k, log, seqNo);
    }
  }

  ghost predicate LogFits(log: Log) {
    forall row :: row in log ==> RowFits(row)
  }

  /** The last rows of two logs with one last hash say the same, and so do the hashes before them. */
  lemma LastRowsAgree(sha: Hash, k: CertKey, a: Log, m: nat, j: CertKey, b: Log, n: nat)
    requires LogOk(sha, k, a, m) && LogOk(sha, j, b, n) && LogFits(a) && LogFits(b)
    requires InjectiveOn(sha, Preimages(a) + Preimages(b)) && TailHash(a) == TailHash(b)
    ensures k == j && (|a| > 1 <==> |b| > 1)
    ensures RowContents(a[|a| - 1]) == RowContents(b[|b| - 1])
    ensures TailHash(a[..|a| - 1]) == TailHash(b[..|b| - 1])
  {
    hide LogOk, RowPreimage, Preimages, RowFits, InjectiveOn;
    LastRow(sha, k, a, m);
    LastRow(sha, j, b, n);
    var x, y := a[|a| - 1], b[|b| - 1];
    InjectiveAt(sha, Preimages(a) + Preimages(b), RowPreimage(x), RowPreimage(y));
    PreimageBinds(x, y);
  }

  /** The last hash of a log fixes which certification it is about and everything that happened to it: unless the
      hash collides on these very rows, no row was altered, moved, dropped or added before it. */
  lemma {:induction false} LastHashBindsLog(sha: Hash, k: CertKey, a: Log, m: nat, j: CertKey, b: Log, n: nat)
    requires LogOk(sha, k, a, m) && LogOk(sha, j, b, n) && LogFits(a) && LogFits(b)
    requires InjectiveOn(sha, Preimages(a) + Preimages(b)) && TailHash(a) == TailHash(b)
    ensures k == j && Contents(a) == Contents(b)
    decreases |a|
  {
    hide LogOk, RowPreimage, Preimages, RowFits, Contents, TailHash, InjectiveOn, LogFits, RowContents;
    LastRowsAgree(sha, k, a, m, j, b, n);
    LastRow(sha, k, a, m);
    LastRow(sha, j, b, n);
    ContentsOf(a);
    ContentsOf(b);
    if |a| > 1 {
      var c, d := a[..|a| - 1], b[..|b| - 1];
      InjectiveOnFewer(sha, Preimages(a) + Preimages(b), Preimages(c) + Preimages(d));
      ShorterFits(a);
      ShorterFits(b);
      LastHashBindsLog(sha, k, c, m, j, d, n);
    } else {
      assert a[..0] == b[..0] == [];
    }
  }

  lemma ShorterFits(log: Log)
    requires LogFits(log) && log != []
    ensures LogFits(log[..|log| - 1])
  {
  }

  lemma InjectiveAt(sha: Hash, all: set<string>, p: string, q: string)
    requires InjectiveOn(sha, all) && p in all && q in all && sha(p) == sha(q)
    ensures p == q
  {
  }

  lemma InjectiveOnFewer(sha: Hash, all: set<string>, fewer: set<string>)
    requires InjectiveOn(sha, all) && fewer <= all
    ensures InjectiveOn(sha, fewer)
  {
  }

  lemma ContentsOf(log: Log)
    requires log != []
    ensures Contents(log) == Contents(log[..|log| - 1]) + [RowContents(log[|log| - 1])]
  {
  }

  lemma HashesAreNotEmpty(sha: Hash, k: CertKey, log: Log, seqNo: nat)
    requires LogOk(sha, k, log, seqNo)
    ensures forall i :: 0 < i <= |log| ==> TailHash(log[..i]) != ""
  {
    forall i | 0 < i <= |log|
      ensures TailHash(log[..i]) != ""
    {
      assert log[i - 1].eventHash == sha(RowPreimage(log[i - 1]));
    }
  }

  lemma ShorterLogOk(sha: Hash, k: CertKey, log: Log, seqNo: nat)
    requires LogOk(sha, k, log, seqNo) && |log| > 1
    ensures LogOk(sha, k, log[..|log| - 1], seqNo)
  {
    var less := log[..|log| - 1];
    forall i | 0 <= i < |less|
      ensures less[i].prevHash == TailHash(less[..i])
    {
      assert less[..i] == log[..i];
    }
  }

  lemma ShorterPreimages(log: Log)
    requires log != []
    ensures Preimages(log[..|log| - 1]) <= Preimages(log)
  {
    forall p | p in Preimages(log[..|log| - 1])
      ensures p in Preimages(log)
    {
      var i :| 0 <= i < |log| - 1 && p == RowPreimage(log[..|log| - 1][i]);
      assert p == RowPreimage(log[i]);
    }
  }
}
