/** What an accepted pack declares, rule by rule, and what the migration writes into one
    (sdk/go/connector/validate.go, package.go). */
module ConnectorRules {
  import opened ConnectorMigration
  import opened ConnectorPack
  import opened Digests
  import D = RuntimeTrust
  import opened Text
  import opened Wrappers

  // ---------------------------------------------------------------- names

  predicate NamePart(s: string) {
    s != "" && 'a' <= s[0] <= 'z'
    && forall i :: 0 <= i < |s| ==> 'a' <= s[i] <= 'z' || '0' <= s[i] <= '9' || s[i] == '_'
  }

  /** A dotted name is two or more identifiers put together with dots, and so is nothing else. */
  lemma DottedIff(s: string)
    ensures IsDotted(s) <==>
              exists parts: seq<string> ::
                |parts| >= 2 && (forall i :: 0 <= i < |parts| ==> NamePart(parts[i])) && Join(parts, '.') == s
  {
    hide Join;
    JoinSplit(s, '.');
    if parts: seq<string> :|
      |parts| >= 2 && (forall i :: 0 <= i < |parts| ==> NamePart(parts[i])) && Join(parts, '.') == s
    {
      forall i | 0 <= i < |parts|
        ensures '.' !in parts[i]
      {
      }
      SplitJoin(parts, '.');
    }
    assert forall t :: NamePart(t) <==> IsIdentifier(t);
  }

  predicate GraphPart(part: string) {
    part == "graph" || (|part| >= 6 && (part[..6] == "graph_" || part[|part| - 6..] == "_graph"))
  }

  /** A name claims authority over outcomes exactly if it contains one of two words, or has a graph form among its
      parts. */
  lemma ClaimsIff(name: string, parts: seq<string>)
    requires parts != [] && Join(parts, '.') == name && forall i :: 0 <= i < |parts| ==> '.' !in parts[i]
    ensures AssertsOutcome(name) <==>
              || (exists i :: 0 <= i <= |name| - 7 && HasAt(name, i, "outcome"))
              || (exists i :: 0 <= i <= |name| - 13 && HasAt(name, i, "goal_achieved"))
              || exists i :: 0 <= i < |parts| && GraphPart(parts[i])
  {
    hide Join, Split;
    SplitJoin(parts, '.');
    WordAt(name, "outcome");
    WordAt(name, "goal_achieved");
    forall part
      ensures IsGraphForm(part) <==> GraphPart(part)
    {
      GraphForms(part);
    }
  }

  predicate HasAt(s: string, i: int, w: string)
    requires 0 <= i
  {
    i + |w| <= |s| && s[i..i + |w|] == w
  }

  lemma WordAt(s: string, w: string)
    ensures Contains(s, w) <==> exists i :: 0 <= i <= |s| - |w| && HasAt(s, i, w)
  {
    if i: nat :| i <= |s| && ContainsAt(s, w, i) {
      assert HasAt(s, i, w);
    }
    if i :| 0 <= i <= |s| - |w| && HasAt(s, i, w) {
      assert ContainsAt(s, w, i);
    }
  }

  lemma GraphForms(part: string)
    ensures IsGraphForm(part) <==> GraphPart(part)
  {
    assert "graph_" <= part <==> |part| >= 6 && part[..6] == "graph_";
  }

  /** A schema reference names a schema by a dotted name that claims nothing, and pins it by digest. */
  lemma SchemaIff(io: IOSchema)
    ensures IoOk(io) <==> IsDotted(io.ref) && !AssertsOutcome(io.ref) && IsSha256Ref(io.digest)
  {
    hide AssertsOutcome, IsSha256Ref, IsIdentifier;
    if io.ref == "" {
      assert Split("", '.') == [""];
    }
  }

  // ---------------------------------------------------------------- capabilities

  /** An identifier that claims nothing. */
  predicate PlainId(id: string) {
    NamePart(id) && !AssertsOutcome(id)
  }

  predicate NameUpTo256(name: string) {
    |name| <= 256 && IsDotted(name)
  }

  /** What every capability declares. */
  ghost predicate Declared(c: Capability) {
    && NameUpTo256(c.name) && !AssertsOutcome(c.name) && c.title != "" && IoOk(c.input) && IoOk(c.output)
    && (c.fieldPolicy.Some? ==>
          forall f :: f in c.fieldPolicy.value.classifications ==>
            f.field != "" && f.classification != "" && !AssertsOutcome(f.field))
    && forall p :: p in c.preconditionProbes ==> PlainId(p.probeId) && NameUpTo256(p.capability)
  }

  /** How a write can be observed afterwards. */
  ghost predicate Observable(p: PostconditionProbe) {
    && PlainId(p.probeId) && NameUpTo256(p.capability) && p.freshnessBoundSeconds >= 1 && IoOk(p.observationSchema)
    && p.sourceAuthority in {"system_of_record", "authoritative_replica", "derived"}
    && p.sourceVersionSemantics in {"monotonic_counter", "content_digest", "last_modified_timestamp"}
  }

  lemma NamesAgree(name: string)
    ensures ValidName(name) <==> NameUpTo256(name)
    ensures IsIdentifier(name) <==> NamePart(name)
  {
    if name == "" {
      assert Split("", '.') == [""];
    }
  }

  lemma NameRules()
    ensures forall n :: ValidName(n) <==> NameUpTo256(n)
    ensures forall n :: ProbeIdOk(n) <==> PlainId(n)
  {
    hide ValidName, NameUpTo256, IsIdentifier, NamePart, AssertsOutcome;
    forall n
      ensures (ValidName(n) <==> NameUpTo256(n)) && (ProbeIdOk(n) <==> PlainId(n))
    {
      NamesAgree(n);
    }
  }

  lemma PolicyRule(p: FieldPolicy)
    ensures FieldPolicyOk(p) <==>
              forall f :: f in p.classifications ==>
                f.field != "" && f.classification != "" && !AssertsOutcome(f.field)
  {
    hide AssertsOutcome;
    assert forall i :: 0 <= i < |p.classifications| ==> p.classifications[i] in p.classifications;
  }

  lemma ProbeRule(c: Capability)
    ensures ProbesOk(c) <==>
              && (forall p :: p in c.preconditionProbes ==> PlainId(p.probeId) && NameUpTo256(p.capability))
              && (forall p :: p in c.postconditionProbes ==> Observable(p))
              && (c.postconditionProbes == [] || c.effect == "write")
              && DistinctProbes(c)
  {
    hide ValidName, NameUpTo256, ProbeIdOk, PlainId, AssertsOutcome, IoOk;
    NameRules();
    assert forall i :: 0 <= i < |c.preconditionProbes| ==> c.preconditionProbes[i] in c.preconditionProbes;
    assert forall i :: 0 <= i < |c.postconditionProbes| ==> c.postconditionProbes[i] in c.postconditionProbes;
    DistinctRule(c);
  }

  /** No two probes of a capability, of either kind, share an id. */
  ghost predicate DistinctProbes(c: Capability) {
    && (forall i, j :: 0 <= i < j < |c.preconditionProbes| ==>
          c.preconditionProbes[i].probeId != c.preconditionProbes[j].probeId)
    && (forall i, j :: 0 <= i < j < |c.postconditionProbes| ==>
          c.postconditionProbes[i].probeId != c.postconditionProbes[j].probeId)
    && (forall i, j :: 0 <= i < |c.preconditionProbes| && 0 <= j < |c.postconditionProbes| ==>
          c.preconditionProbes[i].probeId != c.postconditionProbes[j].probeId)
  }

  lemma DistinctRule(c: Capability)
    ensures Distinct(ProbeIds(c)) <==> DistinctProbes(c)
  {
    var ids, n := ProbeIds(c), |c.preconditionProbes|;
    assert forall i :: 0 <= i < n ==> ids[i] == c.preconditionProbes[i].probeId;
    assert forall j :: 0 <= j < |c.postconditionProbes| ==> ids[n + j] == c.postconditionProbes[j].probeId;
    if DistinctProbes(c) {
      forall i, j | 0 <= i < j < |ids|
        ensures ids[i] != ids[j]
      {
        if i >= n {
          assert ids[i] == c.postconditionProbes[i - n].probeId && ids[j] == c.postconditionProbes[j - n].probeId;
        } else if j >= n {
          assert ids[j] == c.postconditionProbes[j - n].probeId;
        }
      }
    } else {
      if i, j :| 0 <= i < j < |c.postconditionProbes|
                 && c.postconditionProbes[i].probeId == c.postconditionProbes[j].probeId {
        assert ids[n + i] == ids[n + j];
      }
    }
  }

  /** A write is accepted exactly with its side effects, a reconciliation, idempotency, at least one way to observe it
      and both receipt schemas, all well formed. */
  lemma WriteAcceptedIff(c: Capability)
    requires c.effect == "write"
    ensures CapabilityOk(c) <==>
              && Declared(c)
              && c.sideEffects != []
              && (forall e :: e in c.sideEffects ==> e.kind != "" && e.description != "" && !AssertsOutcome(e.kind))
              && c.reconciliation.Some? && c.reconciliation.value.strategy != ""
              && !AssertsOutcome(c.reconciliation.value.strategy)
              && NameUpTo256(c.reconciliation.value.verifyCapability)
              && (c.reconciliation.value.compensationCapability == ""
                  || NameUpTo256(c.reconciliation.value.compensationCapability))
              && c.idempotency.Some? && PlainId(c.idempotency.value.keyScheme) && PlainId(c.idempotency.value.scope)
              && c.idempotency.value.onDuplicate in {"return_prior_result", "reject", "no_op"}
              && c.postconditionProbes != [] && (forall p :: p in c.postconditionProbes ==> Observable(p))
              && DistinctProbes(c)
              && c.executionReceiptSchema.Some? && IoOk(c.executionReceiptSchema.value)
              && c.observationReceiptSchema.Some? && IoOk(c.observationReceiptSchema.value)
  {
    hide ValidName, NameUpTo256, ProbeIdOk, PlainId, AssertsOutcome, IoOk, ProbesOk, FieldPolicyOk, Observable;
    hide DistinctProbes;
    NameRules();
    ProbeRule(c);
    if c.fieldPolicy.Some? {
      PolicyRule(c.fieldPolicy.value);
    }
    assert forall i :: 0 <= i < |c.sideEffects| ==> c.sideEffects[i] in c.sideEffects;
  }

  /** Anything else is accepted exactly as a read, with nothing that only a write has. */
  lemma ReadAcceptedIff(c: Capability)
    requires c.effect != "write"
    ensures CapabilityOk(c) <==>
              && c.effect == "read" && Declared(c) && c.postconditionProbes == [] && DistinctProbes(c)
              && c.idempotency == None && c.executionReceiptSchema == None && c.observationReceiptSchema == None
  {
    hide ValidName, NameUpTo256, ProbeIdOk, PlainId, AssertsOutcome, IoOk, ProbesOk, FieldPolicyOk, Observable;
    hide DistinctProbes;
    NameRules();
    ProbeRule(c);
    if c.fieldPolicy.Some? {
      PolicyRule(c.fieldPolicy.value);
    }
  }

  // ---------------------------------------------------------------- packs

  lemma {:induction false} PartIsDecimal(s: string)
    requires AllNumerals(s)
    ensures D.AllDigits(s) && (PartValue(s) - D.Decimal(s)) % 0x1_0000_0000_0000_0000 == 0
    ensures D.Decimal(s) < 0x8000_0000_0000_0000 ==> PartValue(s) == D.Decimal(s)
  {
    if s != "" {
      hide PartValue, D.Decimal;
      var init, last := s[..|s| - 1], (s[|s| - 1] - '0') as int;
      PartIsDecimal(init);
      LastDigit(s);
      WrappedDigit(PartValue(init), D.Decimal(init), last);
    } else {
      assert PartValue(s) == D.Decimal(s) == 0;
    }
  }

  lemma LastDigit(s: string)
    requires s != "" && AllNumerals(s)
    ensures D.AllDigits(s) && AllNumerals(s[..|s| - 1]) && 0 <= (s[|s| - 1] - '0') as int <= 9
    ensures PartValue(s) == Wrapped(PartValue(s[..|s| - 1]) * 10 + (s[|s| - 1] - '0') as int)
    ensures D.Decimal(s) == D.Decimal(s[..|s| - 1]) * 10 + (s[|s| - 1] - '0') as int
  {
  }

  lemma WrappedDigit(part: int, decimal: int, last: int)
    requires (part - decimal) % 0x1_0000_0000_0000_0000 == 0 && decimal >= 0 && 0 <= last <= 9
    requires decimal < 0x8000_0000_0000_0000 ==> part == decimal
    ensures var p, d := Wrapped(part * 10 + last), decimal * 10 + last;
            (p - d) % 0x1_0000_0000_0000_0000 == 0 && (d < 0x8000_0000_0000_0000 ==> p == d)
  {
    var k := (part - decimal) / 0x1_0000_0000_0000_0000;
    assert part == decimal + k * 0x1_0000_0000_0000_0000;
    var n := part * 10 + last;
    var q := (n + 0x8000_0000_0000_0000) / 0x1_0000_0000_0000_0000;
    assert Wrapped(n) == n - q * 0x1_0000_0000_0000_0000;
    assert Wrapped(n) - (decimal * 10 + last) == (10 * k - q) * 0x1_0000_0000_0000_0000;
  }

  /** Three numbers; as long as none reaches 2^63 they are compared as numbers, the first that differs deciding. */
  lemma SemverOrder(a: string, b: string)
    requires IsSemver(a) && IsSemver(b)
    requires forall i :: 0 <= i < 3 ==>
               && D.AllDigits(Split(a, '.')[i]) && D.Decimal(Split(a, '.')[i]) < 0x8000_0000_0000_0000
               && D.AllDigits(Split(b, '.')[i]) && D.Decimal(Split(b, '.')[i]) < 0x8000_0000_0000_0000
    ensures var x, y := seq(3, i requires 0 <= i < 3 => D.Decimal(Split(a, '.')[i])),
                        seq(3, i requires 0 <= i < 3 => D.Decimal(Split(b, '.')[i]));
            !NotAfter(a, b) <==> exists i :: 0 <= i < 3 && x[..i] == y[..i] && x[i] > y[i]
  {
    hide Split, PartValue;
    forall i | 0 <= i < 3
      ensures PartValue(Split(a, '.')[i]) == D.Decimal(Split(a, '.')[i])
      ensures PartValue(Split(b, '.')[i]) == D.Decimal(Split(b, '.')[i])
    {
      PartIsDecimal(Split(a, '.')[i]);
      PartIsDecimal(Split(b, '.')[i]);
    }
    var x, y := seq(3, i requires 0 <= i < 3 => D.Decimal(Split(a, '.')[i])),
                seq(3, i requires 0 <= i < 3 => D.Decimal(Split(b, '.')[i]));
    assert x[..0] == y[..0];
    assert x[..1] == y[..1] <==> x[0] == y[0];
    assert x[..2] == y[..2] <==> x[0] == y[0] && x[1] == y[1];
  }

  lemma SemverIff(s: string, a: string, b: string, c: string)
    requires '.' !in a && '.' !in b && '.' !in c && s == a + "." + b + "." + c
    ensures IsSemver(s) <==> a != "" && b != "" && c != "" && D.AllDigits(a) && D.AllDigits(b) && D.AllDigits(c)
  {
    var parts := [a, b, c];
    assert parts[1..] == [b, c] && [b, c][1..] == [c] && Join([c], '.') == c;
    assert Join([b, c], '.') == b + ['.'] + c;
    assert Join(parts, '.') == a + ['.'] + (b + ['.'] + c) == s;
    SplitJoin(parts, '.');
    assert Split(s, '.')[0] == a && Split(s, '.')[1] == b && Split(s, '.')[2] == c;
  }

  /** From a version on, and up to another one that is not before it, if there is one. */
  ghost predicate Window(w: VersionWindow) {
    IsSemver(w.min) && (w.max == "" || (IsSemver(w.max) && NotAfter(w.min, w.max)))
  }

  /** A pack is accepted exactly if its capabilities are, under distinct names; if writes reconcile and compensate
      through capabilities it declares and probes are its own reads; and if its envelope is in order. */
  lemma PackAcceptedIff(p: ProductPack)
    ensures PackOk(p) <==>
              && p.schemaVersion == "connector.product/v1" && IsDotted(p.productKey) && !AssertsOutcome(p.productKey)
              && p.version != "" && p.capabilities != []
              && (forall i, j :: 0 <= i < j < |p.capabilities| ==> p.capabilities[i].name != p.capabilities[j].name)
              && (forall c :: c in p.capabilities ==>
                    && CapabilityOk(c)
                    && (forall q :: q in c.preconditionProbes ==> DeclaresRead(p.capabilities, q.capability))
                    && (forall q :: q in c.postconditionProbes ==> DeclaresRead(p.capabilities, q.capability))
                    && (c.effect == "write" ==>
                          && c.reconciliation.Some?
                          && Declares(p.capabilities, c.reconciliation.value.verifyCapability)
                          && (c.reconciliation.value.compensationCapability == ""
                              || Declares(p.capabilities, c.reconciliation.value.compensationCapability))))
              && p.technicalSafetyFloor.effectCeiling in {"read", "write"}
              && p.technicalSafetyFloor.maxWritesPerMinute >= 0 && p.technicalSafetyFloor.maxPayloadBytes >= 0
              && (p.technicalSafetyFloor.maxWritesPerMinute == 0 || p.limits.maxRequestsPerMinute == 0
                  || p.technicalSafetyFloor.maxWritesPerMinute <= p.limits.maxRequestsPerMinute)
              && (forall f :: f in p.fieldPolicy.classifications ==>
                    f.field != "" && f.classification != "" && !AssertsOutcome(f.field))
              && Window(p.compatibility.runtimeContract) && Window(p.compatibility.connectorRuntime)
              && p.egress != [] && (forall e :: e in p.egress ==> !AssertsOutcome(e))
              && p.runtime != "" && p.minMemoryMb >= 0
              && p.limits.maxConcurrency >= 0 && p.limits.maxRequestsPerMinute >= 0
  {
    hide AssertsOutcome, CapabilityOk, IsSemver, NotAfter, FieldPolicyOk, IsDotted, Declares, DeclaresRead;
    PolicyRule(p.fieldPolicy);
    assert forall i :: 0 <= i < |p.egress| ==> p.egress[i] in p.egress;
    if p.productKey == "" {
      NotDotted();
    }
  }

  lemma NotDotted()
    ensures !IsDotted("")
  {
    assert Split("", '.') == [""];
  }

  /** What it means to declare a name, and to declare it as a read. */
  lemma DeclaresIff(caps: seq<Capability>, name: string)
    ensures Declares(caps, name) <==> exists i :: 0 <= i < |caps| && caps[i].name == name
    ensures DeclaresRead(caps, name) <==> exists i :: 0 <= i < |caps| && caps[i].name == name && caps[i].effect == "read"
  {
    assert forall i :: 0 <= i < |caps| ==> caps[i] in caps;
  }

  // ---------------------------------------------------------------- migration

  /** Letters in lower case and digits stay, upper case is lowered, and the rest becomes a bar; a character outside
      ASCII stays only if its lower case is a letter or digit of ASCII. */
  lemma CharacterBecomes(fold: char -> char, c: char)
    ensures 'a' <= c <= 'z' || '0' <= c <= '9' ==> Cleaned(fold, c) == c
    ensures 'A' <= c <= 'Z' ==> Cleaned(fold, c) as int == c as int + 32
    ensures c as int < 128 && !('a' <= c <= 'z' || '0' <= c <= '9' || 'A' <= c <= 'Z') ==> Cleaned(fold, c) == '_'
    ensures c as int >= 128 ==>
              Cleaned(fold, c) == if 'a' <= fold(c) <= 'z' || '0' <= fold(c) <= '9' then fold(c) else '_'
  {
  }

  ghost predicate Bars(s: string) {
    forall i :: 0 <= i < |s| ==> s[i] == '_'
  }

  /** A segment is what is left between the bars at both ends: x if nothing is, and after a c if it starts with a
      digit. */
  lemma SegmentBecomes(fold: char -> char, s: string, left: string, core: string, right: string)
    requires CleanedAll(fold, s) == left + core + right && Bars(left) && Bars(right)
    requires core != "" ==> core[0] != '_' && core[|core| - 1] != '_'
    requires core == "" ==> right == ""
    ensures SegmentOf(fold, s)
            == if core == "" then "x" else if '0' <= core[0] <= '9' then "c" + core else core
  {
    hide CleanedAll, TrimBars, TrimBarsLeft;
    var rest := core + right;
    assert left + core + right == left + rest;
    TrimsLeft(left, rest);
    TrimsLeft("", rest);
    assert "" + rest == rest;
    SameTrim(left + rest, rest);
    if core == "" {
      NothingTrimmed();
    } else {
      TrimsRight(core, right);
    }
  }

  lemma NothingTrimmed()
    ensures TrimBars("") == ""
  {
  }

  lemma SameTrim(s: string, t: string)
    requires TrimBarsLeft(s) == TrimBarsLeft(t) == t
    ensures TrimBars(s) == TrimBars(t)
  {
  }

  lemma {:induction false} TrimsLeft(left: string, rest: string)
    requires Bars(left) && (rest == "" || rest[0] != '_')
    ensures TrimBarsLeft(left + rest) == rest
  {
    if left == "" {
      assert left + rest == rest;
    } else {
      assert (left + rest)[1..] == left[1..] + rest;
      TrimsLeft(left[1..], rest);
    }
  }

  lemma {:induction false} TrimsRight(core: string, right: string)
    requires Bars(right) && core != "" && core[0] != '_' && core[|core| - 1] != '_'
    ensures TrimBars(core + right) == core
    decreases |right|
  {
    var s := core + right;
    assert TrimBarsLeft(s) == s;
    if right == "" {
      assert s == core;
    } else {
      assert s[..|s| - 1] == core + right[..|right| - 1];
      TrimsRight(core, right[..|right| - 1]);
    }
  }

  /** Every migrated capability is named by its resource's kind and name and the operation, and is a read with its two
      schemas or a write that is irreversible, rejects duplicates, reconciles by hand and is observed by re-reading
      its resource within five minutes. */
  lemma MigratedCapability(setup: Setup, item: Item)
    ensures var r, op := item.resource, if item.operation.Some? then item.operation.value.name else "read";
            var base := SegmentOf(setup.fold, r.kind) + "." + SegmentOf(setup.fold, r.name) + ".";
            var name, readName := base + SegmentOf(setup.fold, op), base + SegmentOf(setup.fold, "read");
            var schema := (kind: string) =>
              IOSchema(name + "." + kind, setup.sha("agentnexus:dev-migration:v1:" + (name + ":" + kind)));
            var title := if item.operation.Some? then TrimSpace(op + " " + r.name) else "read " + r.name;
            ItemCapability(setup, item)
            == if r.readOnly == Some(false) && name != readName then
                 Capability(
                   name, title, "", "write", schema("input"), schema("output"), None,
                   [SideEffect("external_write", "migrated write capability (development only)", false)],
                   Some(Reconciliation("manual_review", readName, "")),
                   Some(Idempotency("request_digest", "per_binding", "reject")), [],
                   [PostconditionProbe("post_write_state", readName, "system_of_record", "content_digest", 300,
                                       schema("observation"),
                                       "re-reads the migrated resource after the write (development only)")],
                   Some(schema("execution_receipt")), Some(schema("observation_receipt")))
               else
                 Capability(name, title, "", "read", schema("input"), schema("output"), None, [], None, None, [], [], None,
                            None)
  {
    hide SegmentOf, TrimSpace;
  }

  /** What surrounds them is unsigned, for development only, and as conservative as can be: its ceiling is to read,
      and writes need an approval. */
  lemma MigratedEnvelope(setup: Setup, m: Manifest, caps: seq<Capability>)
    ensures var p, version := PackOf(setup, m, caps), if m.version == "" then "0.0.0" else m.version;
            p == ProductPack(
                   "connector.product/v1", "connector." + SegmentOf(setup.fold, m.name), version,
                   m.name + " (development migration)", caps, FieldPolicy([], false), SafetyFloor("read", 0, 0, true),
                   ["connector.api"], "outbound_only", "development", 0,
                   Compatibility(VersionWindow("1.0.0", ""), VersionWindow("0.0.0", ""), []),
                   Migration([version], "migrated from generic connector manifest (development only)", false),
                   Limits(0, 0), IOSchema("", ""), IOSchema("", ""), Signature("", "", ""),
                   setup.contentDigest(p.(digest := "")), true)
  {
    hide SegmentOf;
  }
}
