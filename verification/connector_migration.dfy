/** Migration of a generic connector manifest into a development pack, and exactly when its own validator accepts
    the result (sdk/go/connector/package.go). */
module ConnectorMigration {
  import opened ConnectorPack
  import opened Digests
  import opened Text
  import opened Wrappers

  datatype Operation = Operation(name: string)

  datatype Resource = Resource(name: string, kind: string, readOnly: Option<bool>, operations: seq<Operation>) {
    /** Read-only unless it says otherwise. */
    predicate IsReadOnly() { readOnly.None? || readOnly.value }
  }

  datatype Manifest = Manifest(name: string, version: string, resources: seq<Resource>)

  /** Lower-casing outside ASCII, SHA-256 as a rendered digest, and the digest of a pack's canonical JSON. */
  datatype Setup = Setup(fold: char -> char, sha: Bytes -> Digest, contentDigest: ProductPack -> string)

  // ---------------------------------------------------------------- sanitizing names

  function Lowered(fold: char -> char, c: char): char {
    if 'A' <= c <= 'Z' then (c as int + 32) as char else if c < 0x80 as char then c else fold(c)
  }

  function Cleaned(fold: char -> char, c: char): char {
    var l := Lowered(fold, c);
    if IsLower(l) || IsNumeral(l) then l else '_'
  }

  function TrimBarsLeft(s: string): (t: string)
    ensures t != "" ==> t[0] != '_'
    ensures |t| <= |s| && t == s[|s| - |t|..]
  {
    if s == "" || s[0] != '_' then s else TrimBarsLeft(s[1..])
  }

  function TrimBars(s: string): (t: string)
    ensures t != "" ==> t[0] != '_'
    ensures forall c :: c in t ==> c in s
  {
    var t := TrimBarsLeft(s);
    if t == "" || t[|t| - 1] != '_' then t
    else TrimBars(t[..|t| - 1])
  }

  function CleanedAll(fold: char -> char, s: string): string {
    seq(|s|, i requires 0 <= i < |s| => Cleaned(fold, s[i]))
  }

  function SegmentOf(fold: char -> char, s: string): string {
    var seg := TrimBars(CleanedAll(fold, s));
    if seg == "" then "x" else if IsNumeral(seg[0]) then "c" + seg else seg
  }

  method SanitizeSegment(fold: char -> char, s: string) returns (seg: string)
    ensures seg == SegmentOf(fold, s)
    ensures IsIdentifier(seg) && '.' !in seg
  {
    var b := "";
    for i := 0 to |s|
      invariant b == CleanedAll(fold, s[..i])
    {
      assert s[..i + 1][..i] == s[..i];
      var r := Lowered(fold, s[i]);
      if IsLower(r) || IsNumeral(r) {
        b := b + [r];
      } else {
        b := b + ['_'];
      }
    }
    assert s[..|s|] == s;
    SegmentIsIdentifier(fold, s);
    seg := TrimBars(b);
    if seg == "" {
      return "x";
    }
    if IsNumeral(seg[0]) {
      seg := "c" + seg;
    }
  }

  lemma SegmentIsIdentifier(fold: char -> char, s: string)
    ensures IsIdentifier(SegmentOf(fold, s)) && '.' !in SegmentOf(fold, s)
  {
    hide Lowered, TrimBars;
    var all := CleanedAll(fold, s);
    var seg := TrimBars(all);
    forall c | c in seg
      ensures IsLower(c) || IsNumeral(c) || c == '_'
    {
      assert c in all;
    }
    if seg != "" {
      assert seg[0] in seg;
    }
  }

  function NameOf(fold: char -> char, r: Resource, op: string): string {
    SegmentOf(fold, r.kind) + "." + SegmentOf(fold, r.name) + "." + SegmentOf(fold, op)
  }

  function ReadName(fold: char -> char, r: Resource): string {
    NameOf(fold, r, "read")
  }

  lemma NameSplits(fold: char -> char, r: Resource, op: string)
    ensures Split(NameOf(fold, r, op), '.') == [SegmentOf(fold, r.kind), SegmentOf(fold, r.name), SegmentOf(fold, op)]
    ensures IsDotted(NameOf(fold, r, op)) && NameOf(fold, r, op) != ""
  {
    hide SegmentOf, IsIdentifier;
    var parts := [SegmentOf(fold, r.kind), SegmentOf(fold, r.name), SegmentOf(fold, op)];
    SegmentIsIdentifier(fold, r.kind);
    SegmentIsIdentifier(fold, r.name);
    SegmentIsIdentifier(fold, op);
    assert parts[1..] == [parts[1], parts[2]] && [parts[1], parts[2]][1..] == [parts[2]];
    assert Join([parts[2]], '.') == parts[2];
    assert Join([parts[1], parts[2]], '.') == parts[1] + ['.'] + parts[2];
    assert NameOf(fold, r, op) == parts[0] + ['.'] + (parts[1] + ['.'] + parts[2]) == Join(parts, '.');
    SplitJoin(parts, '.');
  }

  /** However names collide, one that reads like a resource's canonical read belongs to a resource with that very
      canonical read. */
  lemma ReadNamesAgree(fold: char -> char, r: Resource, q: Resource, op: string)
    requires NameOf(fold, r, op) == ReadName(fold, q)
    ensures ReadName(fold, r) == NameOf(fold, r, op)
  {
    hide SegmentOf;
    NameSplits(fold, r, op);
    NameSplits(fold, q, "read");
    var a := [SegmentOf(fold, r.kind), SegmentOf(fold, r.name), SegmentOf(fold, op)];
    var b := [SegmentOf(fold, q.kind), SegmentOf(fold, q.name), SegmentOf(fold, "read")];
    assert a[2] == b[2];
  }

  // ---------------------------------------------------------------- the migrated capabilities

  function SyntheticDigest(setup: Setup, seed: string): Digest {
    setup.sha("agentnexus:dev-migration:v1:" + seed)
  }

  function Schema(setup: Setup, name: string, kind: string): IOSchema {
    IOSchema(name + "." + kind, SyntheticDigest(setup, name + ":" + kind))
  }

  function ReadCapability(setup: Setup, name: string, title: string): Capability {
    Capability(name, title, "", EFFECT_READ, Schema(setup, name, "input"), Schema(setup, name, "output"), None, [], None,
               None, [], [], None, None)
  }

  function WriteCapability(setup: Setup, name: string, title: string, readName: string): Capability {
    ReadCapability(setup, name, title).(
      effect := EFFECT_WRITE,
      sideEffects := [SideEffect("external_write", "migrated write capability (development only)", false)],
      reconciliation := Some(Reconciliation("manual_review", readName, "")),
      idempotency := Some(Idempotency("request_digest", "per_binding", DUPLICATE_REJECT)),
      postconditionProbes := [
        PostconditionProbe("post_write_state", readName, SYSTEM_OF_RECORD, CONTENT_DIGEST, 300,
                           Schema(setup, name, "observation"),
                           "re-reads the migrated resource after the write (development only)")],
      executionReceiptSchema := Some(Schema(setup, name, "execution_receipt")),
      observationReceiptSchema := Some(Schema(setup, name, "observation_receipt")))
  }

  /** One claim to a name: an operation of a resource or, without one, its canonical read. */
  datatype Item = Item(resource: Resource, operation: Option<Operation>)

  function ItemName(fold: char -> char, item: Item): string {
    NameOf(fold, item.resource, if item.operation.Some? then item.operation.value.name else "read")
  }

  function Title(item: Item): string {
    if item.operation.Some? then TrimSpace(item.operation.value.name + " " + item.resource.name)
    else "read " + item.resource.name
  }

  function ItemCapability(setup: Setup, item: Item): Capability {
    var name, readName := ItemName(setup.fold, item), ReadName(setup.fold, item.resource);
    if !item.resource.IsReadOnly() && name != readName then WriteCapability(setup, name, Title(item), readName)
    else ReadCapability(setup, name, Title(item))
  }

  /** The claims in order: each resource's operations and then, if it is writable, its canonical read. */
  function OperationItems(r: Resource, ops: seq<Operation>): seq<Item> {
    seq(|ops|, i requires 0 <= i < |ops| => Item(r, Some(ops[i])))
  }

  function ResourceItems(r: Resource): seq<Item> {
    OperationItems(r, r.operations) + if r.IsReadOnly() then [] else [Item(r, None)]
  }

  function Items(resources: seq<Resource>): seq<Item> {
    if resources == [] then []
    else Items(resources[..|resources| - 1]) + ResourceItems(resources[|resources| - 1])
  }

  ghost predicate Claimed(fold: char -> char, items: seq<Item>, name: string) {
    exists j :: 0 <= j < |items| && ItemName(fold, items[j]) == name
  }

  /** The first claim to a name wins. */
  ghost function Emitted(setup: Setup, items: seq<Item>): seq<Capability> {
    if items == [] then []
    else
      var init, last := items[..|items| - 1], items[|items| - 1];
      if Claimed(setup.fold, init, ItemName(setup.fold, last)) then Emitted(setup, init)
      else Emitted(setup, init) + [ItemCapability(setup, last)]
  }

  const DEFAULT_NAME := "connector.resource.read"

  ghost function MigratedCapabilities(setup: Setup, m: Manifest): seq<Capability> {
    var caps := Emitted(setup, Items(m.resources));
    if caps == [] then [ReadCapability(setup, DEFAULT_NAME, "read resource")] else caps
  }

  function DefaultString(v: string, fallback: string): string {
    if v == "" then fallback else v
  }

  function PackOf(setup: Setup, m: Manifest, caps: seq<Capability>): ProductPack {
    var version := DefaultString(m.version, "0.0.0");
    var p := ProductPack(
      PRODUCT_PACK_SCHEMA_VERSION, "connector." + SegmentOf(setup.fold, m.name), version,
      m.name + " (development migration)", caps, FieldPolicy([], false), SafetyFloor(EFFECT_READ, 0, 0, true),
      ["connector.api"], "outbound_only", "development", 0,
      Compatibility(VersionWindow("1.0.0", ""), VersionWindow("0.0.0", ""), []),
      Migration([version], "migrated from generic connector manifest (development only)", false), Limits(0, 0),
      IOSchema("", ""), IOSchema("", ""), Signature("", "", ""), "", true);
    p.(digest := setup.contentDigest(p))
  }

  /** The first claim is the one that counts, so extending the claims by one extends the capabilities by at most one. */
  lemma EmittedOneMore(setup: Setup, items: seq<Item>, item: Item)
    ensures Emitted(setup, items + [item])
            == if Claimed(setup.fold, items, ItemName(setup.fold, item)) then Emitted(setup, items)
               else Emitted(setup, items) + [ItemCapability(setup, item)]
    ensures forall n :: Claimed(setup.fold, items + [item], n)
                        <==> Claimed(setup.fold, items, n) || n == ItemName(setup.fold, item)
  {
    hide ItemCapability, ItemName;
    var more := items + [item];
    assert more[..|more| - 1] == items;
    forall n
      ensures Claimed(setup.fold, more, n) <==> Claimed(setup.fold, items, n) || n == ItemName(setup.fold, item)
    {
      if Claimed(setup.fold, items, n) {
        var j :| 0 <= j < |items| && ItemName(setup.fold, items[j]) == n;
        assert more[j] == items[j];
      }
      assert more[|items|] == item;
    }
  }

  method MigrateOperations(setup: Setup, r: Resource, before: seq<Capability>, seenBefore: set<string>, ghost items: seq<Item>)
    returns (caps: seq<Capability>, seen: set<string>)
    requires before == Emitted(setup, items) && forall n :: n in seenBefore <==> Claimed(setup.fold, items, n)
    ensures caps == Emitted(setup, items + OperationItems(r, r.operations))
    ensures forall n :: n in seen <==> Claimed(setup.fold, items + OperationItems(r, r.operations), n)
  {
    hide SegmentOf, WriteCapability, ReadCapability, Claimed, Emitted, Title, NameOf;
    caps, seen := before, seenBefore;
    var write := !r.IsReadOnly();
    var readName := ReadName(setup.fold, r);
    assert items + OperationItems(r, r.operations[..0]) == items;
    for i := 0 to |r.operations|
      invariant caps == Emitted(setup, items + OperationItems(r, r.operations[..i]))
      invariant forall n :: n in seen <==> Claimed(setup.fold, items + OperationItems(r, r.operations[..i]), n)
    {
      var op := r.operations[i];
      var name := NameOf(setup.fold, r, op.name);
      ghost var done := items + OperationItems(r, r.operations[..i]);
      ghost var item := Item(r, Some(op));
      EmittedOneMore(setup, done, item);
      assert done + [item] == items + OperationItems(r, r.operations[..i + 1]) by { OneMoreOperation(r, items, i); }
      if name !in seen {
        seen := seen + {name};
        var title := TrimSpace(op.name + " " + r.name);
        assert title == Title(item) by { TitleOfOperation(r, op); }
        var c := ReadCapability(setup, name, title);
        if write && name != readName {
          c := WriteCapability(setup, name, title, readName);
        }
        caps := caps + [c];
      }
    }
    assert r.operations[..|r.operations|] == r.operations;
  }

  lemma TitleOfOperation(r: Resource, op: Operation)
    ensures Title(Item(r, Some(op))) == TrimSpace(op.name + " " + r.name)
  {
  }

  lemma OneMoreOperation(r: Resource, items: seq<Item>, i: nat)
    requires i < |r.operations|
    ensures items + OperationItems(r, r.operations[..i]) + [Item(r, Some(r.operations[i]))]
            == items + OperationItems(r, r.operations[..i + 1])
  {
    var ops := r.operations[..i + 1];
    assert OperationItems(r, ops) == OperationItems(r, r.operations[..i]) + [Item(r, Some(r.operations[i]))];
  }

  method DevelopmentPackFromManifest(setup: Setup, m: Manifest) returns (p: ProductPack)
    ensures p == PackOf(setup, m, MigratedCapabilities(setup, m))
  {
    hide SegmentOf, ReadCapability, Claimed, Emitted, NameOf;
    var caps: seq<Capability> := [];
    var seen: set<string> := {};
    NothingEmitted(setup);
    for i := 0 to |m.resources|
      invariant caps == Emitted(setup, Items(m.resources[..i]))
      invariant forall n :: n in seen <==> Claimed(setup.fold, Items(m.resources[..i]), n)
    {
      var r := m.resources[i];
      var write := !r.IsReadOnly();
      var readName := ReadName(setup.fold, r);
      ghost var before := Items(m.resources[..i]);
      OneMoreResource(m.resources, i);
      caps, seen := MigrateOperations(setup, r, caps, seen, before);
      ghost var done := before + OperationItems(r, r.operations);
      if write {
        EmittedOneMore(setup, done, Item(r, None));
        assert done + [Item(r, None)] == Items(m.resources[..i + 1]);
        if readName !in seen {
          seen := seen + {readName};
          caps := caps + [ReadCapability(setup, readName, "read " + r.name)];
        }
      } else {
        assert done == Items(m.resources[..i + 1]);
      }
    }
    assert m.resources[..|m.resources|] == m.resources;
    if |caps| == 0 {
      caps := [ReadCapability(setup, DEFAULT_NAME, "read resource")];
    }
    p := PackOf(setup, m, caps);
  }

  lemma NothingEmitted(setup: Setup)
    ensures Emitted(setup, Items([])) == [] && forall n :: !Claimed(setup.fold, Items([]), n)
  {
  }

  lemma OneMoreResource(resources: seq<Resource>, i: nat)
    requires i < |resources|
    ensures Items(resources[..i + 1]) == Items(resources[..i]) + ResourceItems(resources[i])
  {
    assert resources[..i + 1][..i] == resources[..i];
  }

  // ---------------------------------------------------------------- what is emitted

  ghost predicate First(fold: char -> char, items: seq<Item>, k: nat) {
    k < |items| && forall j :: 0 <= j < k ==> ItemName(fold, items[j]) != ItemName(fold, items[k])
  }

  lemma CapabilityName(setup: Setup, item: Item)
    ensures ItemCapability(setup, item).name == ItemName(setup.fold, item)
  {
    hide SegmentOf;
  }

  ghost predicate EmittedBy(setup: Setup, items: seq<Item>, c: Capability) {
    exists k: nat :: First(setup.fold, items, k) && c == ItemCapability(setup, items[k])
  }

  /** Exactly the first claims are emitted, and no two under one name. */
  lemma {:induction false} EmittedMeaning(setup: Setup, items: seq<Item>)
    ensures forall c :: c in Emitted(setup, items) <==> EmittedBy(setup, items, c)
    ensures UniqueNames(Emitted(setup, items))
    ensures forall n :: Declares(Emitted(setup, items), n) <==> Claimed(setup.fold, items, n)
  {
    hide ItemCapability, ItemName;
    if items != [] {
      var init, last := items[..|items| - 1], items[|items| - 1];
      assert items == init + [last];
      EmittedMeaning(setup, init);
      EmittedOneMore(setup, init, last);
      CapabilityName(setup, last);
      FirstsOf(setup, init, last);
      var caps, name := Emitted(setup, init), ItemName(setup.fold, last);
      if !Claimed(setup.fold, init, name) {
        DeclaresOneMore(caps, ItemCapability(setup, last));
        assert !Declares(caps, name);
        assert forall c :: c in caps ==> c.name != name;
      }
    }
  }

  lemma DeclaresOneMore(caps: seq<Capability>, c: Capability)
    ensures forall n :: Declares(caps + [c], n) <==> Declares(caps, n) || n == c.name
  {
    var more := caps + [c];
    forall n
      ensures Declares(more, n) <==> Declares(caps, n) || n == c.name
    {
      if Declares(caps, n) {
        var d :| d in caps && d.name == n;
        assert d in more;
      }
      assert c in more;
    }
  }

  lemma FirstsOf(setup: Setup, init: seq<Item>, last: Item)
    ensures forall c :: EmittedBy(setup, init + [last], c) <==>
                          || EmittedBy(setup, init, c)
                          || (!Claimed(setup.fold, init, ItemName(setup.fold, last)) && c == ItemCapability(setup, last))
  {
    hide ItemCapability, ItemName;
    var items := init + [last];
    forall k: nat
      ensures First(setup.fold, items, k) <==>
                || First(setup.fold, init, k)
                || (k == |init| && !Claimed(setup.fold, init, ItemName(setup.fold, last)))
    {
      assert forall j :: 0 <= j < |init| ==> items[j] == init[j];
    }
    forall c
      ensures EmittedBy(setup, items, c) <==>
                || EmittedBy(setup, init, c)
                || (!Claimed(setup.fold, init, ItemName(setup.fold, last)) && c == ItemCapability(setup, last))
    {
      if EmittedBy(setup, init, c) {
        var k: nat :| First(setup.fold, init, k) && c == ItemCapability(setup, init[k]);
        assert First(setup.fold, items, k) && items[k] == init[k];
      }
      if !Claimed(setup.fold, init, ItemName(setup.fold, last)) && c == ItemCapability(setup, last) {
        assert First(setup.fold, items, |init|) && items[|init|] == last;
      }
    }
  }

  // ---------------------------------------------------------------- every migrated write can be observed

  lemma {:induction false} WritableHasRead(resources: seq<Resource>, item: Item)
    requires item in Items(resources) && !item.resource.IsReadOnly()
    ensures Item(item.resource, None) in Items(resources)
  {
    var init, r := resources[..|resources| - 1], resources[|resources| - 1];
    if item in Items(init) {
      WritableHasRead(init, item);
    } else {
      assert item in ResourceItems(r) && item.resource == r;
      assert Item(r, None) in ResourceItems(r);
    }
  }

  /** Whatever collides, the canonical read of a writable resource is declared, and declared as a read. */
  lemma CanonicalReadDeclared(setup: Setup, resources: seq<Resource>, item: Item)
    requires item in Items(resources) && !item.resource.IsReadOnly()
    ensures DeclaresRead(Emitted(setup, Items(resources)), ReadName(setup.fold, item.resource))
  {
    hide NameOf, ReadCapability, WriteCapability, Emitted, Items;
    var items, name := Items(resources), ReadName(setup.fold, item.resource);
    WritableHasRead(resources, item);
    EmittedMeaning(setup, items);
    var read := Item(item.resource, None);
    assert ItemName(setup.fold, read) == name;
    assert Claimed(setup.fold, items, name);
    var c :| c in Emitted(setup, items) && c.name == name;
    assert EmittedBy(setup, items, c);
    var k: nat :| First(setup.fold, items, k) && c == ItemCapability(setup, items[k]);
    CapabilityName(setup, items[k]);
    NamedReadIsRead(setup, items[k], item.resource);
  }

  lemma NamedReadIsRead(setup: Setup, item: Item, q: Resource)
    requires ItemName(setup.fold, item) == ReadName(setup.fold, q)
    ensures ItemCapability(setup, item).effect == EFFECT_READ
  {
    hide SegmentOf, NameOf;
    if item.operation.Some? {
      ReadNamesAgree(setup.fold, item.resource, q, item.operation.value.name);
    }
  }

  /** For every manifest, however its sanitized names collide across resources: each migrated write is verified, and
      probed, through a declared read. */
  lemma WritesAreObservable(setup: Setup, m: Manifest, c: Capability)
    requires c in MigratedCapabilities(setup, m) && c.IsWrite()
    ensures c.reconciliation.Some? && c.postconditionProbes != []
    ensures DeclaresRead(MigratedCapabilities(setup, m), c.reconciliation.value.verifyCapability)
    ensures forall p :: p in c.postconditionProbes ==> DeclaresRead(MigratedCapabilities(setup, m), p.capability)
  {
    hide NameOf, Emitted, Items, Schema, Title;
    var items := Items(m.resources);
    EmittedMeaning(setup, items);
    assert EmittedBy(setup, items, c);
    var k: nat :| First(setup.fold, items, k) && c == ItemCapability(setup, items[k]);
    CanonicalReadDeclared(setup, m.resources, items[k]);
  }

  // ---------------------------------------------------------------- when the validator accepts the migration

  /** Both names blank, so that the title comes out empty. */
  predicate Untitled(item: Item) {
    item.operation.Some? && Blank(item.operation.value.name) && Blank(item.resource.name)
  }

  predicate NameFits(name: string) {
    |name| <= 256 && !AssertsOutcome(name)
  }

  /** What the manifest must be like: no sanitized name claims outcome or graph authority, none is over 256 bytes,
      and no name is first claimed by an operation that is blank on a resource that is. */
  ghost predicate Migratable(setup: Setup, m: Manifest) {
    var items := Items(m.resources);
    && !AssertsOutcome("connector." + SegmentOf(setup.fold, m.name))
    && (forall k :: 0 <= k < |items| ==> NameFits(ItemName(setup.fold, items[k])))
    && (forall k: nat :: First(setup.fold, items, k) ==> !Untitled(items[k]))
  }

  lemma BlankJoined(a: string, b: string)
    ensures TrimSpace(a + " " + b) == "" <==> Blank(a) && Blank(b)
  {
    hide TrimSpace, IsSpace;
    var s := a + " " + b;
    TrimSpaceBlank(s);
    assert IsSpace(' ') by { SpaceIsSpace(); }
    if Blank(s) {
      assert forall i :: 0 <= i < |a| ==> s[i] == a[i];
      assert forall i :: 0 <= i < |b| ==> s[|a| + 1 + i] == b[i];
    }
  }

  lemma SpaceIsSpace()
    ensures IsSpace(' ')
  {
  }

  lemma TitleEmpty(item: Item)
    ensures Title(item) == "" <==> Untitled(item)
  {
    hide TrimSpace, Blank;
    if item.operation.Some? {
      BlankJoined(item.operation.value.name, item.resource.name);
    }
  }

  /** A word without a dot is in a dotted string exactly if it is in one of the two sides. */
  lemma ContainsDotted(a: string, b: string, w: string)
    requires '.' !in w && w != ""
    ensures Contains(a + "." + b, w) <==> Contains(a, w) || Contains(b, w)
  {
    var s := a + "." + b;
    if Contains(a, w) {
      var i: nat :| i <= |a| && ContainsAt(a, w, i);
      assert s[i..i + |w|] == a[i..i + |w|];
      assert ContainsAt(s, w, i);
    }
    if Contains(b, w) {
      var i: nat :| i <= |b| && ContainsAt(b, w, i);
      assert s[|a| + 1 + i..|a| + 1 + i + |w|] == b[i..i + |w|];
      assert ContainsAt(s, w, |a| + 1 + i);
    }
    if Contains(s, w) {
      var i: nat :| i <= |s| && ContainsAt(s, w, i);
      if i + |w| <= |a| {
        assert a[i..i + |w|] == s[i..i + |w|];
        assert ContainsAt(a, w, i);
      } else if i > |a| {
        var k := i - |a| - 1;
        assert s[|a| + 1..] == b && s[|a| + 1..][k..k + |w|] == s[i..i + |w|];
        assert ContainsAt(b, w, k);
      } else {
        DotInside(a, b, w, i);
        assert false;
      }
    }
  }

  lemma DotInside(a: string, b: string, w: string, i: nat)
    requires i <= |a| < i + |w| && ContainsAt(a + "." + b, w, i)
    ensures '.' in w
  {
    var s := a + "." + b;
    assert s[i..i + |w|][|a| - i] == s[|a|] == '.';
  }

  lemma MissingChar(s: string, w: string, c: char)
    requires c in w && c !in s
    ensures !Contains(s, w)
  {
    var j :| 0 <= j < |w| && w[j] == c;
    forall i: nat | i <= |s|
      ensures !ContainsAt(s, w, i)
    {
      assert i + |w| <= |s| ==> s[i..i + |w|][j] == s[i + j];
    }
  }

  /** A name without the letters m and h, or without o and g, claims nothing. */
  lemma ClaimsNothing(s: string)
    requires ('m' !in s && 'h' !in s) || ('o' !in s && 'g' !in s)
    ensures !AssertsOutcome(s)
  {
    hide Contains;
    var first, second := if 'm' !in s && 'h' !in s then 'm' else 'o', if 'm' !in s && 'h' !in s then 'h' else 'g';
    assert "outcome"[0] == 'o' && "outcome"[5] == 'm' && "goal_achieved"[0] == 'g' && "goal_achieved"[7] == 'h';
    MissingChar(s, "outcome", first);
    MissingChar(s, "goal_achieved", second);
    SplitKeepsChars(s, '.', second);
    forall i | 0 <= i < |Split(s, '.')|
      ensures !IsGraphForm(Split(s, '.')[i])
    {
      GraphLetters(Split(s, '.')[i]);
    }
  }

  lemma GraphLetters(s: string)
    ensures IsGraphForm(s) ==> 'g' in s && 'h' in s
  {
    assert "graph"[0] == 'g' && "graph"[4] == 'h' && "graph_"[0] == 'g' && "graph_"[4] == 'h';
    assert "_graph"[1] == 'g' && "_graph"[5] == 'h';
    if "graph_" <= s {
      assert s[0] == "graph_"[0] && s[4] == "graph_"[4];
    } else if HasSuffix(s, "_graph") {
      var tail := s[|s| - 6..];
      assert tail[1] == s[|s| - 5] && tail[5] == s[|s| - 1];
    }
  }

  /** A suffix that is one harmless segment changes nothing about the authority a name claims. */
  predicate Harmless(kind: string) {
    'm' !in kind && 'h' !in kind && IsIdentifier(kind)
  }

  lemma HarmlessSuffix(name: string, kind: string)
    requires Harmless(kind) && IsDotted(name)
    ensures IsDotted(name + "." + kind)
    ensures AssertsOutcome(name + "." + kind) <==> AssertsOutcome(name)
  {
    hide Contains, IsGraphForm, IsIdentifier;
    assert "outcome"[5] == 'm' && "goal_achieved"[7] == 'h';
    MissingChar(kind, "outcome", 'm');
    MissingChar(kind, "goal_achieved", 'h');
    GraphLetters(kind);
    ContainsDotted(name, kind, "outcome");
    ContainsDotted(name, kind, "goal_achieved");
    assert '.' !in kind by { IdentifierHasNoDot(kind); }
    SplitConcat(name, kind, '.');
    assert name + ['.'] + kind == name + "." + kind;
    SplitWhole(kind, '.');
    var all, segs := Split(name + "." + kind, '.'), Split(name, '.');
    assert all == segs + [kind];
    assert forall i :: 0 <= i < |segs| ==> all[i] == segs[i];
    assert all[|segs|] == kind;
  }

  lemma IdentifierHasNoDot(s: string)
    requires IsIdentifier(s)
    ensures '.' !in s
  {
  }

  lemma ShortKinds()
    ensures Harmless("input") && Harmless("output") && Harmless("observation")
  {
  }

  lemma ReceiptKind()
    ensures Harmless("execution_receipt")
  {
  }

  lemma ObservationReceiptKind()
    ensures Harmless("observation_receipt")
  {
  }

  lemma SchemaOk(setup: Setup, name: string, kind: string)
    requires Harmless(kind) && IsDotted(name) && !AssertsOutcome(name)
    ensures IoOk(Schema(setup, name, kind))
  {
    hide IsSha256Ref, AssertsOutcome, Harmless;
    HarmlessSuffix(name, kind);
  }

  /** A read is accepted exactly if its name fits and its title says something. */
  lemma ReadOk(setup: Setup, name: string, title: string)
    requires IsDotted(name) && name != ""
    ensures CapabilityOk(ReadCapability(setup, name, title)) <==> NameFits(name) && title != ""
  {
    hide IoOk, AssertsOutcome, IsDotted, Schema, Harmless;
    ShortKinds();
    if NameFits(name) {
      SchemaOk(setup, name, "input");
      SchemaOk(setup, name, "output");
      NoProbes(ReadCapability(setup, name, title));
    }
  }

  lemma NoProbes(c: Capability)
    requires c.preconditionProbes == [] && c.postconditionProbes == []
    ensures ProbesOk(c)
  {
  }

  lemma SideEffectKind()
    ensures !AssertsOutcome("external_write")
  {
    hide AssertsOutcome;
    ClaimsNothing("external_write");
  }

  lemma StrategyName()
    ensures !AssertsOutcome("manual_review")
  {
    hide AssertsOutcome;
    ClaimsNothing("manual_review");
  }

  lemma KeyScheme()
    ensures ProbeIdOk("request_digest")
  {
    hide ProbeIdOk;
    WordIsOk("request_digest");
  }

  lemma KeyScope()
    ensures ProbeIdOk("per_binding")
  {
    hide ProbeIdOk;
    WordIsOk("per_binding");
  }

  lemma ProbeName()
    ensures ProbeIdOk("post_write_state")
  {
    hide ProbeIdOk;
    WordIsOk("post_write_state");
  }

  lemma EgressClass()
    ensures !AssertsOutcome("connector.api")
  {
    hide AssertsOutcome;
    ClaimsNothing("connector.api");
  }

  lemma WordIsOk(w: string)
    requires Harmless(w)
    ensures ProbeIdOk(w)
  {
    hide AssertsOutcome;
    ClaimsNothing(w);
  }

  /** A write is accepted if its name and its canonical read's fit and its title says something. */
  lemma WriteOk(setup: Setup, name: string, title: string, readName: string)
    requires IsDotted(name) && name != "" && NameFits(name) && title != ""
    requires IsDotted(readName) && readName != "" && NameFits(readName)
    ensures CapabilityOk(WriteCapability(setup, name, title, readName))
  {
    hide IoOk, AssertsOutcome, IsDotted, Schema, ProbeIdOk, Harmless;
    ShortKinds();
    ReceiptKind();
    ObservationReceiptKind();
    SideEffectKind();
    StrategyName();
    KeyScheme();
    KeyScope();
    ProbeName();
    SchemaOk(setup, name, "input");
    SchemaOk(setup, name, "output");
    SchemaOk(setup, name, "observation");
    SchemaOk(setup, name, "execution_receipt");
    SchemaOk(setup, name, "observation_receipt");
    var c := WriteCapability(setup, name, title, readName);
    assert ProbeIds(c) == ["post_write_state"];
    assert ProbesOk(c);
  }

  lemma EnvelopeFits(setup: Setup, m: Manifest, caps: seq<Capability>)
    ensures EnvelopeOk(PackOf(setup, m, caps))
  {
    hide AssertsOutcome, SegmentOf, IsSemver;
    EgressClass();
    SemverOk("1", "0", "0");
    SemverOk("0", "0", "0");
    assert "1" + "." + "0" + "." + "0" == "1.0.0" && "0" + "." + "0" + "." + "0" == "0.0.0";
  }

  lemma ProductKeyFits(setup: Setup, m: Manifest)
    ensures var key := "connector." + SegmentOf(setup.fold, m.name);
            ProductKeyOk(key) <==> !AssertsOutcome(key)
  {
    hide AssertsOutcome, SegmentOf, IsIdentifier, Split;
    var seg := SegmentOf(setup.fold, m.name);
    SegmentIsIdentifier(setup.fold, m.name);
    ConnectorIsIdentifier();
    SplitPrefix("connector", seg, '.');
    SplitWhole(seg, '.');
    assert "connector" + ['.'] + seg == "connector." + seg;
    assert Split("connector." + seg, '.') == ["connector", seg];
  }

  lemma ConstantsOk(setup: Setup, m: Manifest, caps: seq<Capability>)
    ensures EnvelopeOk(PackOf(setup, m, caps))
    ensures ProductKeyOk(PackOf(setup, m, caps).productKey)
            <==> !AssertsOutcome("connector." + SegmentOf(setup.fold, m.name))
  {
    hide AssertsOutcome, SegmentOf, ProductKeyOk, EnvelopeOk;
    EnvelopeFits(setup, m, caps);
    ProductKeyFits(setup, m);
  }

  lemma ConnectorIsIdentifier()
    ensures IsIdentifier("connector") && '.' !in "connector"
  {
  }

  lemma SemverOk(a: string, b: string, c: string)
    requires a in {"0", "1"} && b in {"0", "1"} && c in {"0", "1"}
    ensures IsSemver(a + "." + b + "." + c)
  {
    var s := a + "." + b + "." + c;
    assert s == a + ['.'] + (b + ['.'] + c);
    SplitPrefix(a, b + ['.'] + c, '.');
    SplitPrefix(b, c, '.');
    SplitWhole(c, '.');
    assert Split(s, '.') == [a, b, c];
  }

  lemma DefaultIsDotted()
    ensures IsDotted(DEFAULT_NAME)
  {
    hide Split;
    assert DEFAULT_NAME == "connector" + ['.'] + ("resource" + ['.'] + "read");
    SplitPrefix("connector", "resource" + ['.'] + "read", '.');
    SplitPrefix("resource", "read", '.');
    SplitWhole("read", '.');
    assert Split(DEFAULT_NAME, '.') == ["connector", "resource", "read"];
  }

  lemma DefaultClaimsNothing()
    ensures !AssertsOutcome(DEFAULT_NAME)
  {
    hide AssertsOutcome;
    ClaimsNothing(DEFAULT_NAME);
  }

  lemma DefaultOk(setup: Setup)
    ensures CapabilityOk(ReadCapability(setup, DEFAULT_NAME, "read resource"))
  {
    hide AssertsOutcome, CapabilityOk, IsDotted;
    DefaultIsDotted();
    DefaultClaimsNothing();
    ReadOk(setup, DEFAULT_NAME, "read resource");
  }

  lemma MigratableMeans(setup: Setup, m: Manifest)
    requires Migratable(setup, m)
    ensures forall k :: 0 <= k < |Items(m.resources)| ==> NameFits(ItemName(setup.fold, Items(m.resources)[k]))
    ensures forall k: nat :: First(setup.fold, Items(m.resources), k) ==> !Untitled(Items(m.resources)[k])
  {
    hide NameFits, Untitled, Items, ItemName, First;
    FirstsAreClaims(setup.fold, Items(m.resources));
  }

  lemma FirstsAreClaims(fold: char -> char, items: seq<Item>)
    ensures forall k: nat :: First(fold, items, k) ==> k < |items|
  {
  }

  lemma CapabilityAccepted(setup: Setup, m: Manifest, k: nat)
    requires Migratable(setup, m) && First(setup.fold, Items(m.resources), k)
    ensures CapabilityOk(ItemCapability(setup, Items(m.resources)[k]))
  {
    hide AssertsOutcome, CapabilityOk, SegmentOf, NameOf, WriteCapability, ReadCapability, Items, IsDotted, NameFits;
    hide Title, Migratable, Untitled;
    MigratableMeans(setup, m);
    var items := Items(m.resources);
    var item, fold := items[k], setup.fold;
    var name, readName := ItemName(fold, item), ReadName(fold, item.resource);
    NameSplits(fold, item.resource, if item.operation.Some? then item.operation.value.name else "read");
    NameSplits(fold, item.resource, "read");
    TitleEmpty(item);
    if !item.resource.IsReadOnly() && name != readName {
      assert item in items;
      WritableHasRead(m.resources, item);
      var j :| 0 <= j < |items| && items[j] == Item(item.resource, None);
      assert ItemName(fold, items[j]) == readName;
      WriteOk(setup, name, Title(item), readName);
    } else {
      ReadOk(setup, name, Title(item));
    }
  }

  lemma MigratedShape(setup: Setup, item: Item)
    ensures var c := ItemCapability(setup, item);
            && c.preconditionProbes == []
            && (if c.IsWrite() then c.reconciliation.Some? && c.reconciliation.value.compensationCapability == ""
                else c.postconditionProbes == [])
  {
    hide NameOf, Schema, Title;
  }

  lemma CapabilityResolves(setup: Setup, m: Manifest, c: Capability)
    requires c in MigratedCapabilities(setup, m)
    ensures Resolves(MigratedCapabilities(setup, m), c)
  {
    hide ItemCapability, Items, Schema, DeclaresRead;
    var caps, items := MigratedCapabilities(setup, m), Items(m.resources);
    if Emitted(setup, items) != [] {
      EmittedMeaning(setup, items);
      assert EmittedBy(setup, items, c);
      var k: nat :| First(setup.fold, items, k) && c == ItemCapability(setup, items[k]);
      MigratedShape(setup, items[k]);
    }
    if c.IsWrite() {
      WritesAreObservable(setup, m, c);
      ReadsAreDeclared(caps, c.reconciliation.value.verifyCapability);
    }
  }

  lemma ReadsAreDeclared(caps: seq<Capability>, name: string)
    requires DeclaresRead(caps, name)
    ensures Declares(caps, name)
  {
  }

  /** The migrated pack passes the development validator exactly when the manifest is migratable. */
  lemma MigrationValidIff(setup: Setup, m: Manifest)
    ensures DevelopmentPackOk(PackOf(setup, m, MigratedCapabilities(setup, m))) <==> Migratable(setup, m)
  {
    hide EnvelopeOk, ProductKeyOk, CapabilityOk, Resolves, AssertsOutcome, SegmentOf, ItemCapability, ItemName, Items;
    hide Emitted, First, UniqueNames;
    var items, caps := Items(m.resources), MigratedCapabilities(setup, m);
    ConstantsOk(setup, m, caps);
    EmittedMeaning(setup, items);
    forall c | c in caps
      ensures Resolves(caps, c)
    {
      CapabilityResolves(setup, m, c);
    }
    if Migratable(setup, m) {
      forall c | c in caps
        ensures CapabilityOk(c)
      {
        AcceptedCapability(setup, m, c);
      }
      assert UniqueNames(caps) by { OneIsUnique(caps); }
    } else if DevelopmentPackOk(PackOf(setup, m, caps)) {
      ValidMeansMigratable(setup, m);
      assert false;
    }
  }

  lemma OneIsUnique(caps: seq<Capability>)
    ensures |caps| == 1 ==> UniqueNames(caps)
  {
  }

  lemma AcceptedCapability(setup: Setup, m: Manifest, c: Capability)
    requires Migratable(setup, m) && c in MigratedCapabilities(setup, m)
    ensures CapabilityOk(c)
  {
    hide CapabilityOk, ItemCapability, ItemName, Items, Emitted, Migratable, ReadCapability;
    var items := Items(m.resources);
    if Emitted(setup, items) == [] {
      DefaultOk(setup);
    } else {
      EmittedMeaning(setup, items);
      assert EmittedBy(setup, items, c);
      var k: nat :| First(setup.fold, items, k) && c == ItemCapability(setup, items[k]);
      CapabilityAccepted(setup, m, k);
    }
  }

  lemma AcceptedNameAndTitle(c: Capability)
    requires CapabilityOk(c)
    ensures NameFits(c.name) && c.title != ""
  {
  }

  lemma {:induction false} FirstClaim(fold: char -> char, items: seq<Item>, k: nat) returns (j: nat)
    requires k < |items|
    ensures First(fold, items, j) && ItemName(fold, items[j]) == ItemName(fold, items[k])
    decreases k
  {
    hide ItemName;
    if First(fold, items, k) {
      j := k;
    } else {
      var i :| 0 <= i < k && ItemName(fold, items[i]) == ItemName(fold, items[k]);
      j := FirstClaim(fold, items, i);
    }
  }

  lemma EmittedTitle(setup: Setup, item: Item)
    ensures ItemCapability(setup, item).title == Title(item)
  {
    hide SegmentOf, Title;
  }

  lemma ValidMeansMigratable(setup: Setup, m: Manifest)
    requires DevelopmentPackOk(PackOf(setup, m, MigratedCapabilities(setup, m)))
    ensures Migratable(setup, m)
  {
    hide EnvelopeOk, ProductKeyOk, CapabilityOk, Resolves, AssertsOutcome, SegmentOf, ItemCapability, ItemName, Items;
    hide Emitted, UniqueNames, NameFits, Untitled;
    var items, caps := Items(m.resources), MigratedCapabilities(setup, m);
    ConstantsOk(setup, m, caps);
    EmittedMeaning(setup, items);
    forall k: nat | First(setup.fold, items, k)
      ensures NameFits(ItemName(setup.fold, items[k])) && !Untitled(items[k])
    {
      var c := ItemCapability(setup, items[k]);
      assert EmittedBy(setup, items, c);
      assert c in caps && CapabilityOk(c);
      AcceptedNameAndTitle(c);
      CapabilityName(setup, items[k]);
      EmittedTitle(setup, items[k]);
      TitleEmpty(items[k]);
    }
    forall k | 0 <= k < |items|
      ensures NameFits(ItemName(setup.fold, items[k]))
    {
      var j := FirstClaim(setup.fold, items, k);
    }
  }

  /** In particular, where no resource name is blank only the names decide. */
  lemma NamedResourcesMigrate(setup: Setup, m: Manifest)
    requires forall r :: r in m.resources ==> !Blank(r.name)
    ensures DevelopmentPackOk(PackOf(setup, m, MigratedCapabilities(setup, m)))
            <==> && !AssertsOutcome("connector." + SegmentOf(setup.fold, m.name))
                 && forall item :: item in Items(m.resources) ==> NameFits(ItemName(setup.fold, item))
  {
    hide AssertsOutcome, SegmentOf, ItemName, DevelopmentPackOk, PackOf, Blank, NameFits;
    MigrationValidIff(setup, m);
    forall item | item in Items(m.resources)
      ensures item.resource in m.resources
    {
      ItemsOfResources(m.resources, item);
    }
    var items := Items(m.resources);
    assert forall k :: 0 <= k < |items| ==> items[k] in items;
  }

  lemma {:induction false} ItemsOfResources(resources: seq<Resource>, item: Item)
    requires item in Items(resources)
    ensures item.resource in resources
  {
    var init := resources[..|resources| - 1];
    if item in Items(init) {
      ItemsOfResources(init, item);
    }
  }
}
