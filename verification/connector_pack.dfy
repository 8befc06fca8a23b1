/** The Product Pack contract and its validator (sdk/go/connector/package.go, capability.go, verification.go,
    compatibility.go, validate.go). */
module ConnectorPack {
  import opened Digests
  import opened Text
  import opened Wrappers

  const PRODUCT_PACK_SCHEMA_VERSION := "connector.product/v1"
  const EFFECT_READ := "read"
  const EFFECT_WRITE := "write"
  const SYSTEM_OF_RECORD := "system_of_record"
  const CONTENT_DIGEST := "content_digest"
  const DUPLICATE_REJECT := "reject"

  datatype IOSchema = IOSchema(ref: string, digest: string)

  datatype FieldClassification = FieldClassification(field: string, classification: string, redacted: bool)

  datatype FieldPolicy = FieldPolicy(classifications: seq<FieldClassification>, defaultRedacted: bool)

  datatype SideEffect = SideEffect(kind: string, description: string, reversible: bool)

  datatype Reconciliation = Reconciliation(strategy: string, verifyCapability: string, compensationCapability: string)

  datatype Idempotency = Idempotency(keyScheme: string, scope: string, onDuplicate: string)

  datatype PreconditionProbe = PreconditionProbe(probeId: string, capability: string, description: string)

  datatype PostconditionProbe = PostconditionProbe(
    probeId: string, capability: string, sourceAuthority: string, sourceVersionSemantics: string,
    freshnessBoundSeconds: int, observationSchema: IOSchema, description: string)

  datatype Capability = Capability(
    name: string, title: string, description: string, effect: string, input: IOSchema, output: IOSchema,
    fieldPolicy: Option<FieldPolicy>, sideEffects: seq<SideEffect>, reconciliation: Option<Reconciliation>,
    idempotency: Option<Idempotency>, preconditionProbes: seq<PreconditionProbe>,
    postconditionProbes: seq<PostconditionProbe>, executionReceiptSchema: Option<IOSchema>,
    observationReceiptSchema: Option<IOSchema>)
  {
    predicate IsWrite() { effect == EFFECT_WRITE }
  }

  datatype SafetyFloor = SafetyFloor(
    effectCeiling: string, maxWritesPerMinute: int, maxPayloadBytes: int, requireApprovalForWrites: bool)

  datatype VersionWindow = VersionWindow(min: string, max: string)

  datatype Compatibility = Compatibility(
    runtimeContract: VersionWindow, connectorRuntime: VersionWindow, supersedesVersions: seq<string>)

  datatype Migration = Migration(fromVersions: seq<string>, notes: string, irreversible: bool)

  datatype Limits = Limits(maxConcurrency: int, maxRequestsPerMinute: int)

  datatype Signature = Signature(algorithm: string, keyId: string, value: string)

  datatype ProductPack = ProductPack(
    schemaVersion: string, productKey: string, version: string, title: string, capabilities: seq<Capability>,
    fieldPolicy: FieldPolicy, technicalSafetyFloor: SafetyFloor, egress: seq<string>, isolation: string,
    runtime: string, minMemoryMb: int, compatibility: Compatibility, migration: Migration, limits: Limits,
    sbom: IOSchema, provenance: IOSchema, signature: Signature, digest: string, development: bool)

  // ---------------------------------------------------------------- names

  predicate IsLower(c: char) { 'a' <= c <= 'z' }

  predicate IsNumeral(c: char) { '0' <= c <= '9' }

  /** [a-z][a-z0-9_]* */
  predicate IsIdentifier(s: string) {
    s != "" && IsLower(s[0]) && forall i :: 0 <= i < |s| ==> IsLower(s[i]) || IsNumeral(s[i]) || s[i] == '_'
  }

  /** At least two identifiers joined by dots: the frozen capability and schema reference form. */
  predicate IsDotted(s: string) {
    |Split(s, '.')| >= 2 && forall i :: 0 <= i < |Split(s, '.')| ==> IsIdentifier(Split(s, '.')[i])
  }

  predicate ValidName(name: string) {
    name != "" && |name| <= 256 && IsDotted(name)
  }

  predicate ContainsAt(s: string, w: string, i: nat) {
    i + |w| <= |s| && s[i..i + |w|] == w
  }

  predicate Contains(s: string, w: string) {
    exists i: nat :: i <= |s| && ContainsAt(s, w, i)
  }

  predicate IsGraphForm(segment: string) {
    segment == "graph" || "graph_" <= segment || HasSuffix(segment, "_graph")
  }

  predicate HasSuffix(s: string, suffix: string) {
    |suffix| <= |s| && s[|s| - |suffix|..] == suffix
  }

  /** Claims the authority over business outcomes, or over a result graph, that no connector has. */
  predicate AssertsOutcome(name: string) {
    || Contains(name, "outcome") || Contains(name, "goal_achieved")
    || exists i :: 0 <= i < |Split(name, '.')| && IsGraphForm(Split(name, '.')[i])
  }

  method AssertsBusinessOutcomeName(name: string) returns (claims: bool)
    ensures claims <==> AssertsOutcome(name)
  {
    hide Contains, IsGraphForm;
    if Contains(name, "outcome") || Contains(name, "goal_achieved") {
      return true;
    }
    var segments := Split(name, '.');
    for i := 0 to |segments|
      invariant forall j :: 0 <= j < i ==> !IsGraphForm(segments[j])
    {
      if IsGraphForm(segments[i]) {
        return true;
      }
    }
    claims := false;
  }

  // ---------------------------------------------------------------- the rules

  predicate IoOk(io: IOSchema) {
    io.ref != "" && IsDotted(io.ref) && !AssertsOutcome(io.ref) && IsSha256Ref(io.digest)
  }

  predicate ValidEffect(e: string) { e == EFFECT_READ || e == EFFECT_WRITE }

  predicate ProbeIdOk(id: string) { IsIdentifier(id) && !AssertsOutcome(id) }

  predicate FieldPolicyOk(p: FieldPolicy) {
    forall i :: 0 <= i < |p.classifications| ==>
      && p.classifications[i].field != "" && p.classifications[i].classification != ""
      && !AssertsOutcome(p.classifications[i].field)
  }

  predicate PostProbeOk(p: PostconditionProbe) {
    && ProbeIdOk(p.probeId) && ValidName(p.capability)
    && p.sourceAuthority in {SYSTEM_OF_RECORD, "authoritative_replica", "derived"}
    && p.sourceVersionSemantics in {"monotonic_counter", CONTENT_DIGEST, "last_modified_timestamp"}
    && p.freshnessBoundSeconds > 0 && IoOk(p.observationSchema)
  }

  function ProbeIds(c: Capability): seq<string> {
    seq(|c.preconditionProbes|, i requires 0 <= i < |c.preconditionProbes| => c.preconditionProbes[i].probeId)
    + seq(|c.postconditionProbes|, i requires 0 <= i < |c.postconditionProbes| => c.postconditionProbes[i].probeId)
  }

  ghost predicate Distinct(s: seq<string>) {
    forall i, j :: 0 <= i < j < |s| ==> s[i] != s[j]
  }

  /** Well-formed probes with distinct ids; only a write has postconditions. */
  ghost predicate ProbesOk(c: Capability) {
    && Distinct(ProbeIds(c))
    && (forall i :: 0 <= i < |c.preconditionProbes| ==>
          ProbeIdOk(c.preconditionProbes[i].probeId) && ValidName(c.preconditionProbes[i].capability))
    && (forall i :: 0 <= i < |c.postconditionProbes| ==> PostProbeOk(c.postconditionProbes[i]))
    && (c.postconditionProbes != [] ==> c.IsWrite())
  }

  predicate SideEffectsOk(c: Capability) {
    c.sideEffects != []
    && forall i :: 0 <= i < |c.sideEffects| ==>
         c.sideEffects[i].kind != "" && c.sideEffects[i].description != "" && !AssertsOutcome(c.sideEffects[i].kind)
  }

  predicate ReconciliationOk(r: Reconciliation) {
    && r.strategy != "" && !AssertsOutcome(r.strategy) && ValidName(r.verifyCapability)
    && (r.compensationCapability != "" ==> ValidName(r.compensationCapability))
  }

  predicate IdempotencyOk(d: Idempotency) {
    && ProbeIdOk(d.keyScheme) && ProbeIdOk(d.scope)
    && d.onDuplicate in {"return_prior_result", DUPLICATE_REJECT, "no_op"}
  }

  predicate WriteDeclarationsOk(c: Capability) {
    && c.idempotency.Some? && IdempotencyOk(c.idempotency.value)
    && c.postconditionProbes != []
    && c.executionReceiptSchema.Some? && IoOk(c.executionReceiptSchema.value)
    && c.observationReceiptSchema.Some? && IoOk(c.observationReceiptSchema.value)
  }

  ghost predicate CapabilityOk(c: Capability) {
    && ValidName(c.name) && !AssertsOutcome(c.name) && c.title != "" && ValidEffect(c.effect)
    && IoOk(c.input) && IoOk(c.output)
    && (c.fieldPolicy.Some? ==> FieldPolicyOk(c.fieldPolicy.value))
    && ProbesOk(c)
    && (if c.IsWrite()
        then SideEffectsOk(c) && c.reconciliation.Some? && ReconciliationOk(c.reconciliation.value)
             && WriteDeclarationsOk(c)
        else c.idempotency.None? && c.executionReceiptSchema.None? && c.observationReceiptSchema.None?)
  }

  ghost predicate Declares(caps: seq<Capability>, name: string) {
    exists c :: c in caps && c.name == name
  }

  ghost predicate DeclaresRead(caps: seq<Capability>, name: string) {
    exists c :: c in caps && c.name == name && c.effect == EFFECT_READ
  }

  ghost predicate UniqueNames(caps: seq<Capability>) {
    forall i, j :: 0 <= i < j < |caps| ==> caps[i].name != caps[j].name
  }

  /** Reconciliation names declared capabilities, and every probe a declared read. */
  ghost predicate Resolves(caps: seq<Capability>, c: Capability) {
    && (c.IsWrite() ==>
          && c.reconciliation.Some? && Declares(caps, c.reconciliation.value.verifyCapability)
          && (c.reconciliation.value.compensationCapability != "" ==>
                Declares(caps, c.reconciliation.value.compensationCapability)))
    && (forall p :: p in c.preconditionProbes ==> DeclaresRead(caps, p.capability))
    && (forall p :: p in c.postconditionProbes ==> DeclaresRead(caps, p.capability))
  }

  predicate FloorOk(f: SafetyFloor, limits: Limits) {
    && ValidEffect(f.effectCeiling) && f.maxWritesPerMinute >= 0 && f.maxPayloadBytes >= 0
    && !(f.maxWritesPerMinute > 0 && limits.maxRequestsPerMinute > 0
         && f.maxWritesPerMinute > limits.maxRequestsPerMinute)
  }

  predicate AllNumerals(s: string) {
    forall i :: 0 <= i < |s| ==> IsNumeral(s[i])
  }

  predicate IsSemver(s: string) {
    |Split(s, '.')| == 3 && forall i :: 0 <= i < 3 ==> Split(s, '.')[i] != "" && AllNumerals(Split(s, '.')[i])
  }

  /** 64-bit two's complement. */
  function Wrapped(n: int): int {
    (n + 0x8000_0000_0000_0000) % 0x1_0000_0000_0000_0000 - 0x8000_0000_0000_0000
  }

  function PartValue(s: string): int
    requires AllNumerals(s)
  {
    if s == "" then 0 else Wrapped(PartValue(s[..|s| - 1]) * 10 + (s[|s| - 1] - '0') as int)
  }

  /** Numeric order of the three parts. */
  predicate NotAfter(a: string, b: string)
    requires IsSemver(a) && IsSemver(b)
  {
    var p, q := Split(a, '.'), Split(b, '.');
    var x, y, z := PartValue(p[0]), PartValue(p[1]), PartValue(p[2]);
    var u, v, w := PartValue(q[0]), PartValue(q[1]), PartValue(q[2]);
    x < u || (x == u && (y < v || (y == v && z <= w)))
  }

  predicate WindowOk(r: VersionWindow) {
    && IsSemver(r.min) && (r.max != "" ==> IsSemver(r.max) && NotAfter(r.min, r.max))
  }

  predicate ProductKeyOk(key: string) {
    key != "" && IsDotted(key) && !AssertsOutcome(key)
  }

  /** Everything a Product Pack declares besides its capabilities. */
  predicate EnvelopeOk(p: ProductPack) {
    && FloorOk(p.technicalSafetyFloor, p.limits) && FieldPolicyOk(p.fieldPolicy)
    && WindowOk(p.compatibility.runtimeContract) && WindowOk(p.compatibility.connectorRuntime)
    && p.egress != [] && (forall i :: 0 <= i < |p.egress| ==> !AssertsOutcome(p.egress[i]))
    && p.runtime != "" && p.minMemoryMb >= 0 && p.limits.maxConcurrency >= 0 && p.limits.maxRequestsPerMinute >= 0
  }

  ghost predicate PackOk(p: ProductPack) {
    && p.schemaVersion == PRODUCT_PACK_SCHEMA_VERSION && ProductKeyOk(p.productKey) && p.version != ""
    && p.capabilities != [] && UniqueNames(p.capabilities)
    && (forall c :: c in p.capabilities ==> CapabilityOk(c) && Resolves(p.capabilities, c))
    && EnvelopeOk(p)
  }

  ghost predicate DevelopmentPackOk(p: ProductPack) {
    p.development && PackOk(p)
  }

  // ---------------------------------------------------------------- the validator

  method ValidateCapabilityProbes(c: Capability) returns (ok: bool)
    ensures ok <==> ProbesOk(c)
  {
    hide PostProbeOk, ProbeIdOk, ValidName, Distinct;
    ghost var ids := ProbeIds(c);
    DistinctSoFar(ids, 0);
    var seen: set<string> := {};
    for i := 0 to |c.preconditionProbes|
      invariant Distinct(ids[..i]) && forall id :: id in seen <==> id in ids[..i]
      invariant forall j :: 0 <= j < i ==>
                  ProbeIdOk(c.preconditionProbes[j].probeId) && ValidName(c.preconditionProbes[j].capability)
    {
      var probe := c.preconditionProbes[i];
      assert probe.probeId == ids[i];
      DistinctSoFar(ids, i);
      if !ProbeIdOk(probe.probeId) || probe.probeId in seen || !ValidName(probe.capability) {
        return false;
      }
      seen := seen + {probe.probeId};
    }
    if |c.postconditionProbes| > 0 && !c.IsWrite() {
      return false;
    }
    ghost var n := |c.preconditionProbes|;
    for i := 0 to |c.postconditionProbes|
      invariant Distinct(ids[..n + i]) && forall id :: id in seen <==> id in ids[..n + i]
      invariant forall j :: 0 <= j < i ==> PostProbeOk(c.postconditionProbes[j])
    {
      var probe := c.postconditionProbes[i];
      assert probe.probeId == ids[n + i];
      DistinctSoFar(ids, n + i);
      if probe.probeId in seen || !PostProbeOk(probe) {
        return false;
      }
      seen := seen + {probe.probeId};
    }
    assert ids[..n + |c.postconditionProbes|] == ids;
    ok := true;
  }

  /** One more name stays distinct if it was not there, and no later one mends a repetition. */
  lemma DistinctSoFar(s: seq<string>, i: nat)
    requires i <= |s|
    ensures Distinct(s[..0])
    ensures i < |s| ==> (Distinct(s[..i + 1]) <==> Distinct(s[..i]) && s[i] !in s[..i])
    ensures i < |s| ==> forall x :: x in s[..i + 1] <==> x in s[..i] || x == s[i]
    ensures !Distinct(s[..i]) ==> !Distinct(s)
    ensures i < |s| && s[i] in s[..i] ==> !Distinct(s)
  {
    if i < |s| {
      assert s[..i + 1] == s[..i] + [s[i]];
    }
  }

  method ValidateCapability(c: Capability) returns (ok: bool)
    ensures ok <==> CapabilityOk(c)
  {
    hide ValidName, AssertsOutcome, IoOk, FieldPolicyOk, ProbesOk, SideEffectsOk, ReconciliationOk, WriteDeclarationsOk;
    var claims := AssertsBusinessOutcomeName(c.name);
    if !ValidName(c.name) || claims || c.title == "" || !ValidEffect(c.effect) {
      return false;
    }
    if !IoOk(c.input) || !IoOk(c.output) || (c.fieldPolicy.Some? && !FieldPolicyOk(c.fieldPolicy.value)) {
      return false;
    }
    var probesOk := ValidateCapabilityProbes(c);
    if !probesOk {
      return false;
    }
    if c.IsWrite() {
      if !SideEffectsOk(c) || c.reconciliation.None? || !ReconciliationOk(c.reconciliation.value) {
        return false;
      }
      ok := WriteDeclarationsOk(c);
    } else {
      ok := c.idempotency.None? && c.executionReceiptSchema.None? && c.observationReceiptSchema.None?;
    }
  }

  /** What the collected names and effects say of the capabilities read so far. */
  ghost predicate Collected(caps: seq<Capability>, effects: map<string, string>) {
    && (forall n :: n in effects <==> Declares(caps, n))
    && (forall c :: c in caps ==> c.name in effects && effects[c.name] == c.effect)
  }

  method CollectEffects(caps: seq<Capability>) returns (effects: Option<map<string, string>>)
    ensures effects.Some? <==> UniqueNames(caps)
    ensures effects.Some? ==> Collected(caps, effects.value)
  {
    var collected: map<string, string> := map[];
    for i := 0 to |caps|
      invariant UniqueNames(caps[..i]) && Collected(caps[..i], collected)
    {
      var c := caps[i];
      assert caps[..i + 1] == caps[..i] + [c];
      if c.name in collected {
        var d :| d in caps[..i] && d.name == c.name;
        return None;
      }
      assert !Declares(caps[..i], c.name);
      assert forall d :: d in caps[..i] ==> d.name != c.name;
      CollectOne(caps[..i], collected, c);
      collected := collected[c.name := c.effect];
    }
    assert caps[..|caps|] == caps;
    effects := Some(collected);
  }

  lemma CollectOne(caps: seq<Capability>, effects: map<string, string>, c: Capability)
    requires UniqueNames(caps) && Collected(caps, effects) && forall d :: d in caps ==> d.name != c.name
    ensures UniqueNames(caps + [c]) && Collected(caps + [c], effects[c.name := c.effect])
  {
    var more := caps + [c];
    forall n
      ensures Declares(more, n) <==> Declares(caps, n) || n == c.name
    {
      if Declares(caps, n) {
        var d :| d in caps && d.name == n;
        assert d in more;
      }
      assert c in more;
    }
  }

  method ResolveProbes(caps: seq<Capability>, effects: map<string, string>, c: Capability) returns (ok: bool)
    requires Collected(caps, effects) && UniqueNames(caps)
    ensures ok <==> (forall p :: p in c.preconditionProbes ==> DeclaresRead(caps, p.capability))
                    && (forall p :: p in c.postconditionProbes ==> DeclaresRead(caps, p.capability))
  {
    for i := 0 to |c.preconditionProbes|
      invariant forall j :: 0 <= j < i ==> DeclaresRead(caps, c.preconditionProbes[j].capability)
    {
      ReadIsCollected(caps, effects, c.preconditionProbes[i].capability);
      if c.preconditionProbes[i].capability !in effects || effects[c.preconditionProbes[i].capability] != EFFECT_READ {
        assert c.preconditionProbes[i] in c.preconditionProbes;
        return false;
      }
    }
    for i := 0 to |c.postconditionProbes|
      invariant forall j :: 0 <= j < i ==> DeclaresRead(caps, c.postconditionProbes[j].capability)
    {
      ReadIsCollected(caps, effects, c.postconditionProbes[i].capability);
      if c.postconditionProbes[i].capability !in effects || effects[c.postconditionProbes[i].capability] != EFFECT_READ {
        assert c.postconditionProbes[i] in c.postconditionProbes;
        return false;
      }
    }
    ok := true;
  }

  lemma ReadIsCollected(caps: seq<Capability>, effects: map<string, string>, name: string)
    requires Collected(caps, effects)
    ensures DeclaresRead(caps, name) <==> name in effects && effects[name] == EFFECT_READ
  {
    if name in effects {
      var c :| c in caps && c.name == name;
    }
  }

  method ValidateProductPack(p: ProductPack) returns (ok: bool)
    ensures ok <==> PackOk(p)
  {
    hide ProductKeyOk, CapabilityOk, EnvelopeOk, Collected, UniqueNames, Declares, DeclaresRead;
    if p.schemaVersion != PRODUCT_PACK_SCHEMA_VERSION || !ProductKeyOk(p.productKey) || p.version == ""
       || p.capabilities == []
    {
      return false;
    }
    var effects := CollectEffects(p.capabilities);
    if effects.None? {
      return false;
    }
    for i := 0 to |p.capabilities|
      invariant forall j :: 0 <= j < i ==> CapabilityOk(p.capabilities[j]) && Resolves(p.capabilities, p.capabilities[j])
    {
      var c := p.capabilities[i];
      assert c in p.capabilities;
      var capabilityOk := ValidateCapability(c);
      if !capabilityOk {
        return false;
      }
      DeclaredIsCollected(p.capabilities, effects.value);
      WritesReconcile(c);
      if c.IsWrite() {
        if c.reconciliation.value.verifyCapability !in effects.value {
          return false;
        }
        if c.reconciliation.value.compensationCapability != ""
           && c.reconciliation.value.compensationCapability !in effects.value
        {
          return false;
        }
      }
      var probesResolve := ResolveProbes(p.capabilities, effects.value, c);
      if !probesResolve {
        return false;
      }
    }
    ok := EnvelopeOk(p);
  }

  lemma DeclaredIsCollected(caps: seq<Capability>, effects: map<string, string>)
    requires Collected(caps, effects)
    ensures forall n :: n in effects <==> Declares(caps, n)
  {
  }

  lemma WritesReconcile(c: Capability)
    requires CapabilityOk(c)
    ensures c.IsWrite() ==> c.reconciliation.Some?
  {
  }

  method ValidateDevelopmentPack(p: ProductPack) returns (ok: bool)
    ensures ok <==> DevelopmentPackOk(p)
  {
    if !p.development {
      return false;
    }
    ok := ValidateProductPack(p);
  }
}
