/** The local secret provider: versioned master credentials and the short-lived, scoped handles derived from them
    (sdk/go/secretprovider/provider.go, handle.go). */
module SecretProvider {
  import opened LengthPrefix
  import opened Text
  import opened Wrappers

  type Time = int

  const MAX_HANDLE_TTL: int := 15 * 60 * 1_000_000_000

  datatype Error =
    | InvalidRequest | Unauthenticated | UnknownCredential | RevokedVersion | InvalidHandle | ScopeMismatch
    | HandleExpired | HandleConsumed

  datatype Scope = Scope(connectorRef: string, resource: string, operation: string, action: string) {
    predicate Valid() {
      IsRef(connectorRef) && IsRef(resource) && IsRef(operation) && IsRef(action)
    }

    /** The audit label. */
    function Label(): string {
      connectorRef + "/" + resource + "/" + operation + "/" + action
    }
  }

  predicate RefChar(c: char) {
    c >= ' ' && c != 0x7f as char && c != '/'
  }

  /** Present, not padded, and without control characters or the label delimiter. */
  predicate IsRef(s: string) {
    Canonical(s) && forall c :: c in s ==> RefChar(c)
  }

  datatype Version = Version(id: string, value: string, revoked: bool)

  datatype Master = Master(versions: seq<Version>, currentId: string)

  datatype Record = Record(
    scope: Scope, credentialRef: string, versionId: string, material: string, expiresAt: Time, singleUse: bool,
    consumed: bool)

  datatype Handle = Handle(
    id: string, scope: Scope, version: string, issuedAt: Time, expiresAt: Time, singleUse: bool)

  datatype Vault = Vault(masters: map<string, Master>, handles: map<string, Record>)

  const EMPTY := Vault(map[], map[])

  /** The caller token and the key derivation a provider is built with. */
  datatype Setup = Setup(callerToken: string, derive: (string, string) -> string)

  // ---------------------------------------------------------------- the derivation context

  function KdfContext(credentialRef: string, versionId: string, scope: Scope, nonce: string): string {
    Framed([credentialRef, versionId, scope.connectorRef, scope.resource, scope.operation, scope.action, nonce], 4)
  }

  /** What one derivation binds besides the master value. */
  datatype Derivation = Derivation(credentialRef: string, versionId: string, scope: Scope, nonce: string) {
    function Fields(): seq<string> {
      [credentialRef, versionId, scope.connectorRef, scope.resource, scope.operation, scope.action, nonce]
    }

    function Context(): string {
      KdfContext(credentialRef, versionId, scope, nonce)
    }

    /** What an acquisition lets through; the nonce is generated. */
    predicate Acquirable() {
      IsRef(credentialRef) && IsRef(versionId) && scope.Valid()
    }

    /** No field is longer than the limit. */
    predicate Within(limit: nat) {
      forall i :: 0 <= i < 7 ==> |Fields()[i]| <= limit
    }
  }

  const FOUR_GIB: nat := 0x1_0000_0000

  lemma SameFields(d: Derivation, e: Derivation)
    requires d.Fields() == e.Fields()
    ensures d == e
  {
    assert forall i :: 0 <= i < 7 ==> d.Fields()[i] == e.Fields()[i];
    assert d.Fields()[0] == e.Fields()[0] && d.Fields()[1] == e.Fields()[1] && d.Fields()[2] == e.Fields()[2];
    assert d.Fields()[3] == e.Fields()[3] && d.Fields()[4] == e.Fields()[4] && d.Fields()[5] == e.Fields()[5];
    assert d.Fields()[6] == e.Fields()[6];
  }

  lemma {:induction false} FieldsFitContext(fields: seq<string>, width: nat)
    ensures forall f :: f in fields ==> |f| <= |Framed(fields, width)|
  {
    if fields != [] {
      FieldsFitContext(fields[1..], width);
    }
  }

  /** A context of less than 4 GiB is shared with no other derivation at all, whatever the other one's fields. */
  lemma ShortContextIsUnshared(d: Derivation, e: Derivation)
    requires |d.Context()| < FOUR_GIB && d.Context() == e.Context()
    ensures d == e
  {
    hide Framed;
    FourGib();
    FieldsFitContext(d.Fields(), 4);
    FieldsFitContext(e.Fields(), 4);
    FramedInjective(d.Fields(), e.Fields(), 4);
    SameFields(d, e);
  }

  lemma FourGib()
    ensures Power256(4) == FOUR_GIB
  {
  }

  /** No two distinct derivations share a context, as long as every field of both is below 4 GiB. */
  lemma KdfContextInjective(d: Derivation, e: Derivation)
    requires Fit(d.Fields(), 4) && Fit(e.Fields(), 4) && d.Context() == e.Context()
    ensures d == e
  {
    hide Framed, Fit;
    FramedInjective(d.Fields(), e.Fields(), 4);
    SameFields(d, e);
  }

  lemma WrappedLength()
    ensures BigEndian(0x1_0000_0000, 4) == BigEndian(0, 4)
  {
    var zero := [0 as char];
    assert BigEndian(0x100, 1) == BigEndian(0, 1);
    assert BigEndian(0x1_0000, 2) == BigEndian(0x100, 1) + zero && BigEndian(0, 2) == BigEndian(0, 1) + zero;
    assert BigEndian(0x100_0000, 3) == BigEndian(0x1_0000, 2) + zero && BigEndian(0, 3) == BigEndian(0, 2) + zero;
    assert BigEndian(0x1_0000_0000, 4) == BigEndian(0x100_0000, 3) + zero && BigEndian(0, 4) == BigEndian(0, 3) + zero;
  }

  /** Lengths up to and including 4 GiB that share a prefix are equal, or one of them is zero. */
  lemma SameLength(m: nat, n: nat)
    requires m <= FOUR_GIB && n <= FOUR_GIB && BigEndian(m, 4) == BigEndian(n, 4)
    ensures m == n || m == 0 || n == 0
  {
    hide BigEndian;
    FourGib();
    WrappedLength();
    BigEndianInjective(if m == FOUR_GIB then 0 else m, if n == FOUR_GIB then 0 else n, 4);
  }

  /** Fields of up to 4 GiB, none but the last of them empty, keep their boundaries. */
  lemma {:induction false} FramedSeparates(fields: seq<string>, others: seq<string>)
    requires |fields| == |others| && Framed(fields, 4) == Framed(others, 4)
    requires forall i :: 0 <= i < |fields| ==> |fields[i]| <= FOUR_GIB && |others[i]| <= FOUR_GIB
    requires forall i :: 0 <= i < |fields| - 1 ==> fields[i] != "" && others[i] != ""
    ensures fields == others
    decreases |fields|
  {
    if fields != [] {
      hide BigEndian;
      var f, g := fields[0], others[0];
      var s, t := Framed(fields, 4), Framed(others, 4);
      assert s[..4] == BigEndian(|f|, 4) && t[..4] == BigEndian(|g|, 4);
      if |fields| == 1 {
        assert Framed(fields[1..], 4) == "" && Framed(others[1..], 4) == "";
      } else {
        SameLength(|f|, |g|);
      }
      assert |f| == |g|;
      assert s[4..4 + |f|] == f && t[4..4 + |g|] == g;
      assert s[4 + |f|..] == Framed(fields[1..], 4) && t[4 + |g|..] == Framed(others[1..], 4);
      FramedSeparates(fields[1..], others[1..]);
    }
  }

  /** Acquirable derivations with fields up to the limit never share a context. */
  ghost predicate Separated(limit: nat) {
    forall d: Derivation, e: Derivation ::
      d.Acquirable() && e.Acquirable() && d.Within(limit) && e.Within(limit) && d.Context() == e.Context() ==> d == e
  }

  // Two acquirable derivations that share a context: the connector reference of the first holds what are the
  // resource, the operation and the start of the action of the second, lengths included.

  const SHORT: nat := 0x2121_2121   // "!!!!"
  const MIDDLE: nat := 0x7e7e_7e7e  // "~~~~"
  const LONG: nat := 0x6666_6667    // "fffg"
  const REST: nat := FOUR_GIB - 12 - 2 * MIDDLE

  function Letters(n: nat): (s: string)
    ensures |s| == n
  {
    seq(n, _ => 'a')
  }

  function Head(): string {
    "~~~~" + Letters(MIDDLE) + "~~~~" + Letters(MIDDLE) + "fffg"
  }

  function Tail(): string {
    "!!!!" + Letters(SHORT) + "!!!!" + Letters(SHORT) + "!!!!" + Letters(SHORT)
  }

  function Outer(credentialRef: string, versionId: string, nonce: string): Derivation {
    Derivation(credentialRef, versionId,
               Scope("a" + Head() + Letters(REST), Letters(SHORT), Letters(SHORT), Letters(SHORT)), nonce)
  }

  function Inner(credentialRef: string, versionId: string, nonce: string): Derivation {
    Derivation(credentialRef, versionId, Scope("a", Letters(MIDDLE), Letters(MIDDLE), Letters(REST) + Tail()), nonce)
  }

  lemma Prefixes()
    ensures BigEndian(SHORT, 4) == "!!!!" && BigEndian(MIDDLE, 4) == "~~~~" && BigEndian(LONG, 4) == "fffg"
  {
    assert BigEndian(0x21, 1) == "!" && BigEndian(0x7e, 1) == "~" && BigEndian(0x66, 1) == "f";
    assert BigEndian(0x2121, 2) == "!!" && BigEndian(0x7e7e, 2) == "~~" && BigEndian(0x6666, 2) == "ff";
    assert BigEndian(0x21_2121, 3) == "!!!" && BigEndian(0x7e_7e7e, 3) == "~~~" && BigEndian(0x66_6666, 3) == "fff";
  }

  lemma WrappedOne()
    ensures BigEndian(FOUR_GIB + 1, 4) == BigEndian(1, 4)
  {
    var one, zero := [1 as char], [0 as char];
    assert BigEndian(0x100, 1) == BigEndian(0, 1);
    assert BigEndian(0x1_0000, 2) == BigEndian(0x100, 1) + zero && BigEndian(0, 2) == BigEndian(0, 1) + zero;
    assert BigEndian(0x100_0000, 3) == BigEndian(0x1_0000, 2) + zero && BigEndian(0, 3) == BigEndian(0, 2) + zero;
    assert BigEndian(FOUR_GIB + 1, 4) == BigEndian(0x100_0000, 3) + one && BigEndian(1, 4) == BigEndian(0, 3) + one;
  }

  lemma FramedSeven(a: string, b: string, c: string, d: string, e: string, f: string, g: string)
    ensures Framed([a, b, c, d, e, f, g], 4)
            == Framed([a, b], 4) + BigEndian(|c|, 4) + c
               + (BigEndian(|d|, 4) + d + BigEndian(|e|, 4) + e + BigEndian(|f|, 4) + f) + Framed([g], 4)
  {
    hide BigEndian, Framed;
    FramedOne(c, 4);
    FramedOne(d, 4);
    FramedOne(e, 4);
    FramedOne(f, 4);
    FramedConcat([d, e], [f], 4);
    FramedConcat([d], [e], 4);
    assert [d] + [e] == [d, e] && [d, e] + [f] == [d, e, f];
    FramedConcat([a, b], [c], 4);
    FramedConcat([a, b] + [c], [d, e, f], 4);
    FramedConcat([a, b] + [c] + [d, e, f], [g], 4);
    assert [a, b] + [c] + [d, e, f] + [g] == [a, b, c, d, e, f, g];
    SameGroups(BigEndian(|d|, 4), d, BigEndian(|e|, 4), e, BigEndian(|f|, 4), f);
    SameOuterGroups(Framed([a, b], 4), BigEndian(|c|, 4), c, Framed([d, e, f], 4), Framed([g], 4));
  }

  lemma SameGroups(p: string, d: string, q: string, e: string, r: string, f: string)
    ensures p + d + (q + e) + (r + f) == p + d + q + e + r + f
  {
  }

  lemma SameOuterGroups(x: string, p: string, c: string, m: string, z: string)
    ensures x + (p + c) + m + z == x + p + c + m + z
  {
  }

  lemma InnerMiddle()
    ensures |Letters(REST) + Tail()| == LONG
    ensures "a" + (BigEndian(MIDDLE, 4) + Letters(MIDDLE) + BigEndian(MIDDLE, 4) + Letters(MIDDLE) + BigEndian(LONG, 4)
                   + (Letters(REST) + Tail()))
            == "a" + Head() + Letters(REST) + Tail()
  {
    hide BigEndian;
    Prefixes();
  }

  lemma OuterMiddle()
    ensures |"a" + Head() + Letters(REST)| == FOUR_GIB + 1
    ensures BigEndian(SHORT, 4) + Letters(SHORT) + BigEndian(SHORT, 4) + Letters(SHORT) + BigEndian(SHORT, 4)
            + Letters(SHORT) == Tail()
  {
    hide BigEndian;
    Prefixes();
  }

  lemma Regroup(x: string, y: string, a: string, h: string, r: string, t: string, z: string)
    ensures x + y + (a + h + r) + t + z == x + y + (a + h + r + t) + z
    ensures x + y + a + h + z == x + y + (a + h) + z
  {
  }

  /** The two contexts are one. */
  lemma SharedContext(credentialRef: string, versionId: string, nonce: string)
    ensures Outer(credentialRef, versionId, nonce).Context() == Inner(credentialRef, versionId, nonce).Context()
  {
    hide BigEndian, Framed, Letters, Head, Tail;
    var x, z, one := Framed([credentialRef, versionId], 4), Framed([nonce], 4), BigEndian(1, 4);
    var s, m, r := Letters(SHORT), Letters(MIDDLE), Letters(REST);
    FramedSeven(credentialRef, versionId, "a" + Head() + r, s, s, s, nonce);
    FramedSeven(credentialRef, versionId, "a", m, m, r + Tail(), nonce);
    WrappedOne();
    InnerMiddle();
    OuterMiddle();
    Regroup(x, one, "a", Head(), r, Tail(), z);
    Regroup(x, one, "a", BigEndian(MIDDLE, 4) + m + BigEndian(MIDDLE, 4) + m + BigEndian(LONG, 4) + (r + Tail()), "", "", z);
  }

  lemma RefOf(s: string)
    requires s != "" && !IsSpace(s[0]) && !IsSpace(s[|s| - 1]) && forall c :: c in s ==> RefChar(c)
    ensures IsRef(s)
  {
    hide IsSpace, RefChar;
    assert TrimLeft(s) == s && TrimRight(s) == s;
  }

  lemma PieceIsRef(s: string)
    requires s != "" && forall i :: 0 <= i < |s| ==> s[i] in {'a', '~', 'f', 'g', '!'}
    ensures IsRef(s)
  {
    hide IsSpace;
    assert !IsSpace('a') && !IsSpace('~') && !IsSpace('f') && !IsSpace('g') && !IsSpace('!') by { Printable(); }
    RefOf(s);
  }

  lemma Printable()
    ensures !IsSpace('a') && !IsSpace('~') && !IsSpace('f') && !IsSpace('g') && !IsSpace('!')
  {
  }

  predicate Pieces(s: string) {
    forall i :: 0 <= i < |s| ==> s[i] in {'a', '~', 'f', 'g', '!'}
  }

  lemma PiecesJoin(s: string, t: string)
    requires Pieces(s) && Pieces(t)
    ensures Pieces(s + t)
  {
  }

  lemma BothAcquirable(credentialRef: string, versionId: string, nonce: string)
    requires IsRef(credentialRef) && IsRef(versionId)
    ensures Outer(credentialRef, versionId, nonce).Acquirable() && Inner(credentialRef, versionId, nonce).Acquirable()
  {
    hide IsRef, Pieces;
    LettersArePieces(SHORT);
    LettersArePieces(MIDDLE);
    LettersArePieces(REST);
    LiteralPieces();
    PiecesJoin("~~~~", Letters(MIDDLE));
    PiecesJoin("~~~~" + Letters(MIDDLE), "~~~~");
    PiecesJoin("~~~~" + Letters(MIDDLE) + "~~~~", Letters(MIDDLE));
    PiecesJoin("~~~~" + Letters(MIDDLE) + "~~~~" + Letters(MIDDLE), "fffg");
    PiecesJoin("a", Head());
    PiecesJoin("a" + Head(), Letters(REST));
    PiecesJoin("!!!!", Letters(SHORT));
    PiecesJoin("!!!!" + Letters(SHORT), "!!!!");
    PiecesJoin("!!!!" + Letters(SHORT) + "!!!!", Letters(SHORT));
    PiecesJoin("!!!!" + Letters(SHORT) + "!!!!" + Letters(SHORT), "!!!!");
    PiecesJoin("!!!!" + Letters(SHORT) + "!!!!" + Letters(SHORT) + "!!!!", Letters(SHORT));
    PiecesJoin(Letters(REST), Tail());
    PiecesAreRef("a");
    PiecesAreRef(Letters(SHORT));
    PiecesAreRef(Letters(MIDDLE));
    PiecesAreRef("a" + Head() + Letters(REST));
    PiecesAreRef(Letters(REST) + Tail());
  }

  lemma LettersArePieces(n: nat)
    ensures Pieces(Letters(n))
  {
  }

  lemma LiteralPieces()
    ensures Pieces("a") && Pieces("~~~~") && Pieces("fffg") && Pieces("!!!!")
  {
  }

  lemma PiecesAreRef(s: string)
    requires Pieces(s) && s != ""
    ensures IsRef(s)
  {
    hide IsRef;
    PieceIsRef(s);
  }

  lemma JustOverFourGib(credentialRef: string, versionId: string, nonce: string, limit: nat)
    requires |credentialRef| <= FOUR_GIB && |versionId| <= FOUR_GIB && |nonce| <= FOUR_GIB && limit > FOUR_GIB
    ensures Outer(credentialRef, versionId, nonce).Within(limit) && Inner(credentialRef, versionId, nonce).Within(limit)
    ensures Outer(credentialRef, versionId, nonce) != Inner(credentialRef, versionId, nonce)
  {
    hide Head, Tail, Letters;
    InnerMiddle();
    OuterMiddle();
    assert |Letters(SHORT)| == SHORT && |Letters(MIDDLE)| == MIDDLE;
    assert Outer(credentialRef, versionId, nonce).scope.resource != Inner(credentialRef, versionId, nonce).scope.resource;
  }

  ghost predicate Collide(d: Derivation, e: Derivation, limit: nat) {
    && d != e && d.Context() == e.Context()
    && d.Acquirable() && e.Acquirable() && d.Within(limit) && e.Within(limit)
  }

  /** Just above 4 GiB the 4-byte lengths wrap: two different derivations, both of which an acquisition lets through,
      have one context. */
  lemma KdfContextWraps(credentialRef: string, versionId: string, nonce: string)
    requires IsRef(credentialRef) && IsRef(versionId)
    requires |credentialRef| <= FOUR_GIB && |versionId| <= FOUR_GIB && |nonce| <= FOUR_GIB
    ensures Collide(Outer(credentialRef, versionId, nonce), Inner(credentialRef, versionId, nonce), FOUR_GIB + 1)
  {
    hide IsRef, KdfContext, Outer, Inner;
    BothAcquirable(credentialRef, versionId, nonce);
    SharedContext(credentialRef, versionId, nonce);
    JustOverFourGib(credentialRef, versionId, nonce, FOUR_GIB + 1);
  }

  /** Exactly how long the fields of an acquisition may be for its context to be its own: up to 4 GiB each. One byte
      more, and two acquirable derivations, with any credential, version and nonce in common, share a context. */
  lemma ContextsSeparateIff(limit: nat)
    ensures Separated(limit) <==> limit <= FOUR_GIB
  {
    hide IsRef, Framed, KdfContext;
    if limit <= FOUR_GIB {
      forall d: Derivation, e: Derivation
             | d.Acquirable() && e.Acquirable() && d.Within(limit) && e.Within(limit) && d.Context() == e.Context()
        ensures d == e
      {
        AcquirableSeparate(d, e, limit);
      }
    } else {
      PieceIsRef("a");
      KdfContextWraps("a", "a", "a");
      JustOverFourGib("a", "a", "a", limit);
    }
  }

  lemma RefsNotEmpty(d: Derivation)
    requires d.Acquirable()
    ensures forall i :: 0 <= i < 6 ==> d.Fields()[i] != ""
  {
    hide RefChar, TrimSpace;
  }

  lemma AcquirableSeparate(d: Derivation, e: Derivation, limit: nat)
    requires d.Acquirable() && e.Acquirable() && d.Within(limit) && e.Within(limit) && limit <= FOUR_GIB
    requires d.Context() == e.Context()
    ensures d == e
  {
    hide Framed, IsRef;
    RefsNotEmpty(d);
    RefsNotEmpty(e);
    FramedSeparates(d.Fields(), e.Fields());
    SameFields(d, e);
  }

  /** Rejecting the delimiter keeps the audit label of valid scopes injective. */
  lemma LabelInjective(s: Scope, t: Scope)
    requires s.Valid() && t.Valid() && s.Label() == t.Label()
    ensures s == t
  {
    LabelSplits(s);
    LabelSplits(t);
    var p := [s.connectorRef, s.resource, s.operation, s.action];
    var q := [t.connectorRef, t.resource, t.operation, t.action];
    assert p[0] == q[0] && p[1] == q[1] && p[2] == q[2] && p[3] == q[3];
  }

  lemma LabelSplits(s: Scope)
    requires s.Valid()
    ensures Split(s.Label(), '/') == [s.connectorRef, s.resource, s.operation, s.action]
  {
    hide Canonical;
    var parts := [s.connectorRef, s.resource, s.operation, s.action];
    assert Join(parts, '/') == s.Label() by {
      assert parts[1..] == [s.resource, s.operation, s.action];
      assert [s.resource, s.operation, s.action][1..] == [s.operation, s.action];
      assert [s.operation, s.action][1..] == [s.action];
      assert Join([s.action], '/') == s.action;
      assert Join([s.operation, s.action], '/') == s.operation + ['/'] + s.action;
      assert Join([s.resource, s.operation, s.action], '/') == s.resource + ['/'] + (s.operation + ['/'] + s.action);
      assert s.Label() == s.connectorRef + ['/'] + (s.resource + ['/'] + (s.operation + ['/'] + s.action));
    }
    SplitJoin(parts, '/');
  }

  // ---------------------------------------------------------------- the calls as state changes

  datatype AcquireRequest = AcquireRequest(
    callerToken: string, scope: Scope, credentialRef: string, ttl: int, singleUse: bool)

  datatype RedeemRequest = RedeemRequest(callerToken: string, handleId: string, scope: Scope)

  predicate Authentic(setup: Setup, token: string) {
    setup.callerToken != "" && token == setup.callerToken
  }

  /** The first version with the id. */
  function Find(versions: seq<Version>, id: string): Option<Version> {
    if versions == [] then None
    else if versions[0].id == id then Some(versions[0])
    else Find(versions[1..], id)
  }

  /** The newest version still live. */
  function LatestLive(versions: seq<Version>): string {
    if versions == [] then ""
    else if !versions[|versions| - 1].revoked then versions[|versions| - 1].id
    else LatestLive(versions[..|versions| - 1])
  }

  function AllRevoked(versions: seq<Version>): (out: seq<Version>)
    ensures |out| == |versions|
  {
    seq(|versions|, i requires 0 <= i < |versions| => versions[i].(revoked := true))
  }

  /** Only the first version with the id. */
  function RevokeFirst(versions: seq<Version>, id: string): (out: seq<Version>)
    ensures |out| == |versions|
  {
    if versions == [] then []
    else if versions[0].id == id then [versions[0].(revoked := true)] + versions[1..]
    else [versions[0]] + RevokeFirst(versions[1..], id)
  }

  function WithMaster(s: Vault, ref: string, value: string, id: string): (Vault, Result<string, Error>) {
    if !IsRef(ref) || value == "" || ref in s.masters then (s, Err(InvalidRequest))
    else (s.(masters := s.masters[ref := Master([Version(id, value, false)], id)]), Ok(id))
  }

  function Rotated(s: Vault, ref: string, value: string, id: string): (Vault, Result<string, Error>) {
    if !IsRef(ref) || value == "" then (s, Err(InvalidRequest))
    else if ref !in s.masters then (s, Err(UnknownCredential))
    else
      (s.(masters := s.masters[ref := Master(AllRevoked(s.masters[ref].versions) + [Version(id, value, false)], id)]),
       Ok(id))
  }

  function WithoutVersion(s: Vault, ref: string, id: string): (Vault, Result<(), Error>) {
    if ref !in s.masters then (s, Err(UnknownCredential))
    else
      var m := s.masters[ref];
      if Find(m.versions, id).None? then (s, Err(InvalidRequest))
      else
        var versions := RevokeFirst(m.versions, id);
        (s.(masters := s.masters[ref :=
              Master(versions, if m.currentId == id then LatestLive(versions) else m.currentId)]), Ok(()))
  }

  /** The records that have not expired. */
  function Swept(handles: map<string, Record>, now: Time): map<string, Record> {
    map h | h in handles && now < handles[h].expiresAt :: handles[h]
  }

  function Clamped(ttl: int): int {
    if ttl > MAX_HANDLE_TTL then MAX_HANDLE_TTL else ttl
  }

  /** The live current version of a credential. */
  function Current(m: Master): Option<Version> {
    var v := Find(m.versions, m.currentId);
    if m.currentId == "" || v.None? || v.value.revoked then None else v
  }

  predicate AcquireValid(setup: Setup, req: AcquireRequest) {
    Authentic(setup, req.callerToken) && req.scope.Valid() && IsRef(req.credentialRef) && req.ttl > 0
  }

  function Acquired(setup: Setup, s: Vault, req: AcquireRequest, id: string, nonce: string, now: Time)
    : (Vault, Result<Handle, Error>)
  {
    if !Authentic(setup, req.callerToken) then (s, Err(Unauthenticated))
    else if !AcquireValid(setup, req) then (s, Err(InvalidRequest))
    else
      var swept := s.(handles := Swept(s.handles, now));
      if req.credentialRef !in s.masters then (swept, Err(UnknownCredential))
      else
        var current := Current(s.masters[req.credentialRef]);
        if current.None? then (swept, Err(RevokedVersion))
        else if !IsRef(id) || !IsRef(current.value.id) then (swept, Err(InvalidHandle))
        else
          var v, until := current.value, now + Clamped(req.ttl);
          var material := setup.derive(v.value, KdfContext(req.credentialRef, v.id, req.scope, nonce));
          (swept.(handles := swept.handles[
                    id := Record(req.scope, req.credentialRef, v.id, material, until, req.singleUse, false)]),
           Ok(Handle(id, req.scope, v.id, now, until, req.singleUse)))
  }

  /** The version a record is bound to is neither revoked nor gone. */
  predicate BoundVersionLives(s: Vault, r: Record) {
    && r.credentialRef in s.masters
    && var v := Find(s.masters[r.credentialRef].versions, r.versionId);
       v.Some? && !v.value.revoked
  }

  function Redeemed(setup: Setup, s: Vault, req: RedeemRequest, now: Time): (Vault, Result<string, Error>) {
    if !Authentic(setup, req.callerToken) then (s, Err(Unauthenticated))
    else if !IsRef(req.handleId) || !req.scope.Valid() then (s, Err(InvalidRequest))
    else if req.handleId !in s.handles then (s, Err(InvalidHandle))
    else
      var r := s.handles[req.handleId];
      if r.scope != req.scope then (s, Err(ScopeMismatch))
      else if !BoundVersionLives(s, r) then (s, Err(RevokedVersion))
      else if now >= r.expiresAt then (s.(handles := s.handles - {req.handleId}), Err(HandleExpired))
      else if !r.singleUse then (s, Ok(r.material))
      else if r.consumed then (s, Err(HandleConsumed))
      else (s.(handles := s.handles[req.handleId := r.(consumed := true, material := "")]), Ok(r.material))
  }

  class LocalProvider {
    const setup: Setup
    var masters: map<string, Master>
    var handles: map<string, Record>

    ghost function View(): Vault
      reads this
    {
      Vault(masters, handles)
    }

    constructor (setup: Setup)
      ensures View() == EMPTY && this.setup == setup
    {
      this.setup, masters, handles := setup, map[], map[];
    }

    method SetMaster(credentialRef: string, master: string, versionId: string) returns (r: Result<string, Error>)
      modifies this
      ensures (View(), r) == WithMaster(old(View()), credentialRef, master, versionId)
    {
      hide IsRef;
      if !IsRef(credentialRef) || master == "" || credentialRef in masters {
        return Err(InvalidRequest);
      }
      var version := Version(versionId, master, false);
      masters := masters[credentialRef := Master([version], versionId)];
      r := Ok(versionId);
    }

    method Rotate(credentialRef: string, master: string, versionId: string) returns (r: Result<string, Error>)
      modifies this
      ensures (View(), r) == Rotated(old(View()), credentialRef, master, versionId)
    {
      hide IsRef;
      if !IsRef(credentialRef) || master == "" {
        return Err(InvalidRequest);
      }
      if credentialRef !in masters {
        return Err(UnknownCredential);
      }
      var record := masters[credentialRef];
      var versions := record.versions;
      for i := 0 to |versions|
        invariant |versions| == |record.versions|
        invariant forall j :: 0 <= j < i ==> versions[j] == record.versions[j].(revoked := true)
        invariant forall j :: i <= j < |versions| ==> versions[j] == record.versions[j]
      {
        versions := versions[i := versions[i].(revoked := true)];
      }
      assert versions == AllRevoked(record.versions);
      versions := versions + [Version(versionId, master, false)];
      masters := masters[credentialRef := Master(versions, versionId)];
      r := Ok(versionId);
    }

    method Revoke(credentialRef: string, versionId: string) returns (r: Result<(), Error>)
      modifies this
      ensures (View(), r) == WithoutVersion(old(View()), credentialRef, versionId)
    {
      if credentialRef !in masters {
        return Err(UnknownCredential);
      }
      var record := masters[credentialRef];
      for i := 0 to |record.versions|
        invariant forall j :: 0 <= j < i ==> record.versions[j].id != versionId
      {
        if record.versions[i].id == versionId {
          var versions := record.versions[i := record.versions[i].(revoked := true)];
          RevokesAt(record.versions, versionId, i);
          var currentId := record.currentId;
          if currentId == versionId {
            currentId := LatestLiveVersion(versions);
          }
          masters := masters[credentialRef := Master(versions, currentId)];
          return Ok(());
        }
      }
      FindsNone(record.versions, versionId);
      r := Err(InvalidRequest);
    }

    method LatestLiveVersion(versions: seq<Version>) returns (id: string)
      ensures id == LatestLive(versions)
    {
      var i := |versions| - 1;
      assert versions[..|versions|] == versions;
      while i >= 0
        invariant -1 <= i < |versions| && LatestLive(versions[..i + 1]) == LatestLive(versions)
      {
        if !versions[i].revoked {
          return versions[i].id;
        }
        assert versions[..i + 1][..i] == versions[..i];
        i := i - 1;
      }
      id := "";
    }

    method FindVersion(versions: seq<Version>, id: string) returns (v: Option<Version>)
      ensures v == Find(versions, id)
    {
      for i := 0 to |versions|
        invariant Find(versions[i..], id) == Find(versions, id)
      {
        if versions[i].id == id {
          return Some(versions[i]);
        }
        assert versions[i..][1..] == versions[i + 1..];
      }
      v := None;
    }

    /** Drops every record whose time has elapsed. */
    method SweepExpired(now: Time)
      modifies this`handles
      ensures handles == Swept(old(handles), now)
    {
      var rest := handles.Keys;
      while rest != {}
        invariant rest <= old(handles.Keys)
        invariant handles == map h | h in old(handles) && (h in rest || now < old(handles)[h].expiresAt) :: old(handles)[h]
        decreases |rest|
      {
        var h :| h in rest;
        rest := rest - {h};
        if now >= handles[h].expiresAt {
          handles := handles - {h};
        }
      }
    }

    method AcquireHandle(req: AcquireRequest, id: string, nonce: string, now: Time) returns (r: Result<Handle, Error>)
      modifies this
      ensures (View(), r) == Acquired(setup, old(View()), req, id, nonce, now)
    {
      hide IsRef, Framed, Swept;
      if !Authentic(setup, req.callerToken) {
        return Err(Unauthenticated);
      }
      if !req.scope.Valid() || !IsRef(req.credentialRef) || req.ttl <= 0 {
        return Err(InvalidRequest);
      }
      var ttl := req.ttl;
      if ttl > MAX_HANDLE_TTL {
        ttl := MAX_HANDLE_TTL;
      }
      SweepExpired(now);
      if req.credentialRef !in masters {
        return Err(UnknownCredential);
      }
      var record := masters[req.credentialRef];
      var current := FindVersion(record.versions, record.currentId);
      if record.currentId == "" || current.None? || current.value.revoked {
        return Err(RevokedVersion);
      }
      var v := current.value;
      var scope := req.scope;
      var context := Frame([req.credentialRef, v.id, scope.connectorRef, scope.resource, scope.operation, scope.action, nonce], 4);
      var material := setup.derive(v.value, context);
      if !IsRef(id) || !req.scope.Valid() || !IsRef(v.id) || now + ttl <= now {
        return Err(InvalidHandle);
      }
      handles := handles[id := Record(req.scope, req.credentialRef, v.id, material, now + ttl, req.singleUse, false)];
      r := Ok(Handle(id, req.scope, v.id, now, now + ttl, req.singleUse));
    }

    method Redeem(req: RedeemRequest, now: Time) returns (r: Result<string, Error>)
      modifies this
      ensures (View(), r) == Redeemed(setup, old(View()), req, now)
    {
      hide IsRef;
      if !Authentic(setup, req.callerToken) {
        return Err(Unauthenticated);
      }
      if !IsRef(req.handleId) || !req.scope.Valid() {
        return Err(InvalidRequest);
      }
      if req.handleId !in handles {
        return Err(InvalidHandle);
      }
      var record := handles[req.handleId];
      if record.scope != req.scope {
        return Err(ScopeMismatch);
      }
      if record.credentialRef !in masters {
        return Err(RevokedVersion);
      }
      var version := FindVersion(masters[record.credentialRef].versions, record.versionId);
      if version.None? || version.value.revoked {
        return Err(RevokedVersion);
      }
      if now >= record.expiresAt {
        handles := handles - {req.handleId};
        return Err(HandleExpired);
      }
      if record.singleUse {
        if record.consumed {
          return Err(HandleConsumed);
        }
        handles := handles[req.handleId := record.(consumed := true, material := "")];
        return Ok(record.material);
      }
      r := Ok(record.material);
    }
  }

  lemma {:induction false} RevokesAt(versions: seq<Version>, id: string, i: nat)
    requires i < |versions| && versions[i].id == id && forall j :: 0 <= j < i ==> versions[j].id != id
    ensures RevokeFirst(versions, id) == versions[i := versions[i].(revoked := true)]
    ensures Find(versions, id) == Some(versions[i])
  {
    if i > 0 {
      RevokesAt(versions[1..], id, i - 1);
    }
  }

  lemma {:induction false} FindsNone(versions: seq<Version>, id: string)
    requires forall j :: 0 <= j < |versions| ==> versions[j].id != id
    ensures Find(versions, id) == None
  {
    if versions != [] {
      FindsNone(versions[1..], id);
    }
  }

  // ---------------------------------------------------------------- at most one live version

  /** Only the newest version can be live, the current id names it while it is, and ids are not reused. */
  ghost predicate MasterOk(m: Master) {
    && m.versions != []
    && (forall i, j :: 0 <= i < j < |m.versions| ==> m.versions[i].id != m.versions[j].id)
    && (forall i :: 0 <= i < |m.versions| ==> m.versions[i].id != "")
    && (forall i :: 0 <= i < |m.versions| - 1 ==> m.versions[i].revoked)
    && var last := m.versions[|m.versions| - 1];
       m.currentId == if last.revoked then "" else last.id
  }

  ghost predicate VaultOk(s: Vault) {
    forall ref :: ref in s.masters ==> MasterOk(s.masters[ref])
  }

  lemma {:induction false} FindAt(versions: seq<Version>, i: nat)
    requires i < |versions| && forall j :: 0 <= j < i ==> versions[j].id != versions[i].id
    ensures Find(versions, versions[i].id) == Some(versions[i])
  {
    RevokesAt(versions, versions[i].id, i);
  }

  lemma {:induction false} NoneLive(versions: seq<Version>)
    requires forall i :: 0 <= i < |versions| ==> versions[i].revoked
    ensures LatestLive(versions) == ""
  {
    if versions != [] {
      NoneLive(versions[..|versions| - 1]);
    }
  }

  lemma {:induction false} FoundAt(versions: seq<Version>, id: string) returns (i: nat)
    requires Find(versions, id).Some?
    ensures i < |versions| && versions[i].id == id && Find(versions, id) == Some(versions[i])
    ensures forall j :: 0 <= j < i ==> versions[j].id != id
  {
    if versions[0].id == id {
      i := 0;
    } else {
      i := FoundAt(versions[1..], id);
      i := i + 1;
    }
  }

  /** The newest live version, if there is any. */
  lemma {:induction false} LatestLiveIs(versions: seq<Version>)
    ensures if forall i :: 0 <= i < |versions| ==> versions[i].revoked then LatestLive(versions) == ""
            else exists i :: 0 <= i < |versions| && !versions[i].revoked && LatestLive(versions) == versions[i].id
                             && forall j :: i < j < |versions| ==> versions[j].revoked
  {
    if versions != [] {
      var init := versions[..|versions| - 1];
      LatestLiveIs(init);
      assert forall i :: 0 <= i < |init| ==> init[i] == versions[i];
    }
  }

  /** A new id: not empty and not among the credential's. */
  ghost predicate NewVersionId(s: Vault, ref: string, id: string) {
    id != "" && (ref in s.masters ==> forall v :: v in s.masters[ref].versions ==> v.id != id)
  }

  lemma RotateKeeps(s: Vault, ref: string, value: string, id: string)
    requires VaultOk(s) && NewVersionId(s, ref, id)
    ensures VaultOk(WithMaster(s, ref, value, id).0) && VaultOk(Rotated(s, ref, value, id).0)
  {
    hide IsRef;
    if ref in s.masters {
      assert MasterOk(s.masters[ref]);
      var versions := AllRevoked(s.masters[ref].versions);
      assert forall i :: 0 <= i < |versions| ==> versions[i].id == s.masters[ref].versions[i].id;
      RotatedOk(s.masters[ref].versions, Version(id, value, false));
    }
  }

  lemma RotatedOk(versions: seq<Version>, v: Version)
    requires forall i, j :: 0 <= i < j < |versions| ==> versions[i].id != versions[j].id
    requires forall i :: 0 <= i < |versions| ==> versions[i].id != "" && versions[i].id != v.id
    requires v.id != "" && !v.revoked
    ensures MasterOk(Master(AllRevoked(versions) + [v], v.id))
  {
  }

  lemma RevokeKeeps(s: Vault, ref: string, id: string)
    requires VaultOk(s)
    ensures var t := WithoutVersion(s, ref, id).0;
            && VaultOk(t)
            && (t != s && s.masters[ref].currentId == id ==> Current(t.masters[ref]) == None)
  {
    hide MasterOk, RevokeFirst;
    if ref in s.masters && Find(s.masters[ref].versions, id).Some? {
      assert MasterOk(s.masters[ref]);
      RevokedOk(s.masters[ref], id);
    }
  }

  lemma RevokedOk(m: Master, id: string)
    requires MasterOk(m) && Find(m.versions, id).Some?
    ensures var versions := RevokeFirst(m.versions, id);
            var n := Master(versions, if m.currentId == id then LatestLive(versions) else m.currentId);
            MasterOk(n) && (m.currentId == id ==> Current(n) == None)
  {
    hide RevokeFirst, Find, LatestLive;
    var i := FoundAt(m.versions, id);
    RevokesAt(m.versions, id, i);
    var versions := RevokeFirst(m.versions, id);
    if m.currentId == id {
      assert i == |m.versions| - 1;
      NoneLive(versions);
    }
  }

  /** The current id finds the one live version, and without one there is nothing to acquire. */
  lemma OneLiveVersion(m: Master)
    requires MasterOk(m)
    ensures forall v, w :: v in m.versions && w in m.versions && !v.revoked && !w.revoked ==> v == w
    ensures forall v :: v in m.versions && !v.revoked ==> v.id == m.currentId && Current(m) == Some(v)
    ensures Current(m).Some? ==> Current(m).value in m.versions && !Current(m).value.revoked
  {
    var last := m.versions[|m.versions| - 1];
    forall v | v in m.versions && !v.revoked
      ensures v == last
    {
    }
    FindAt(m.versions, |m.versions| - 1);
    assert last in m.versions;
  }

  // ---------------------------------------------------------------- what the operations accept and store

  /** A reference is present, unpadded, and free of control characters and of the delimiter of labels. */
  lemma RefForm(s: string)
    ensures IsRef(s) <==>
              && s != "" && !IsSpace(s[0]) && !IsSpace(s[|s| - 1])
              && forall i :: 0 <= i < |s| ==> ' ' <= s[i] && s[i] !in {'/', 0x7f as char}
  {
    assert (forall c :: c in s ==> RefChar(c)) <==> forall i :: 0 <= i < |s| ==> RefChar(s[i]);
  }

  /** Only the named credential may differ. */
  ghost predicate OthersKept(s: Vault, t: Vault, ref: string) {
    t.handles == s.handles && t.masters.Keys == s.masters.Keys + {ref}
    && forall other :: other in s.masters && other != ref ==> t.masters[other] == s.masters[other]
  }

  /** Seeding and rotating: the new version is live and current, and every version before it is revoked. */
  lemma InstallEffect(s: Vault, ref: string, value: string, id: string)
    ensures var (t, r) := WithMaster(s, ref, value, id);
            if !IsRef(ref) || value == "" || ref in s.masters then t == s && r == Err(InvalidRequest)
            else r == Ok(id) && OthersKept(s, t, ref) && t.masters[ref] == Master([Version(id, value, false)], id)
    ensures var (t, r) := Rotated(s, ref, value, id);
            if !IsRef(ref) || value == "" then t == s && r == Err(InvalidRequest)
            else if ref !in s.masters then t == s && r == Err(UnknownCredential)
            else
              var was, now := s.masters[ref].versions, t.masters[ref].versions;
              && r == Ok(id) && OthersKept(s, t, ref) && t.masters[ref].currentId == id
              && |now| == |was| + 1 && now[|was|] == Version(id, value, false)
              && forall i :: 0 <= i < |was| ==> now[i] == Version(was[i].id, was[i].value, true)
  {
    hide IsRef;
  }

  /** Revoking: the named version and no other, and without it no version is current if it was. */
  lemma RevokeEffect(s: Vault, ref: string, id: string)
    requires VaultOk(s)
    ensures var (t, r) := WithoutVersion(s, ref, id);
            if ref !in s.masters then t == s && r == Err(UnknownCredential)
            else if forall v :: v in s.masters[ref].versions ==> v.id != id then t == s && r == Err(InvalidRequest)
            else
              var was, now := s.masters[ref], t.masters[ref];
              && r == Ok(()) && OthersKept(s, t, ref)
              && now.currentId == (if was.currentId == id then "" else was.currentId)
              && |now.versions| == |was.versions|
              && forall i :: 0 <= i < |was.versions| ==>
                   now.versions[i] == if was.versions[i].id == id then was.versions[i].(revoked := true)
                                      else was.versions[i]
  {
    hide RevokeFirst, Find, LatestLive;
    if ref in s.masters {
      var versions := s.masters[ref].versions;
      assert MasterOk(s.masters[ref]);
      if v :| v in versions && v.id == id {
        var i :| 0 <= i < |versions| && versions[i] == v;
        RevokesAt(versions, id, i);
        if s.masters[ref].currentId == id {
          assert i == |versions| - 1;
          NoneLive(RevokeFirst(versions, id));
        }
      } else {
        assert forall i :: 0 <= i < |versions| ==> versions[i] in versions;
        FindsNone(versions, id);
      }
    }
  }

  /** Acquiring: for an authentic caller with a well-formed request and a positive lifetime, exactly if the credential
      has a live version; expired records are swept, also if that fails, and the handle is for the lifetime asked for
      or 15 minutes. */
  lemma AcquireEffect(setup: Setup, s: Vault, req: AcquireRequest, id: string, nonce: string, now: Time)
    requires VaultOk(s)
    ensures var (t, r) := Acquired(setup, s, req, id, nonce, now);
            var scope, ref, most := req.scope, req.credentialRef, 15 * 60 * 1_000_000_000;
            var until := now + if req.ttl > most then most else req.ttl;
            t.masters == s.masters
            && if setup.callerToken == "" || req.callerToken != setup.callerToken then t == s && r == Err(Unauthenticated)
               else if !IsRef(scope.connectorRef) || !IsRef(scope.resource) || !IsRef(scope.operation)
                       || !IsRef(scope.action) || !IsRef(ref) || req.ttl <= 0 then
                 t == s && r == Err(InvalidRequest)
               else
                 && (forall h :: h in s.handles && h != id ==>
                       (h in t.handles <==> now < s.handles[h].expiresAt)
                       && (h in t.handles ==> t.handles[h] == s.handles[h]))
                 && t.handles.Keys <= s.handles.Keys + {id}
                 && if ref !in s.masters then r == Err(UnknownCredential)
                    else if forall v :: v in s.masters[ref].versions ==> v.revoked then r == Err(RevokedVersion)
                    else
                      var v :| v in s.masters[ref].versions && !v.revoked;
                      if !IsRef(id) || !IsRef(v.id) then r == Err(InvalidHandle)
                      else
                        && r == Ok(Handle(id, scope, v.id, now, until, req.singleUse))
                        && id in t.handles
                        && t.handles[id] == Record(scope, ref, v.id,
                                                   setup.derive(v.value, KdfContext(ref, v.id, scope, nonce)), until,
                                                   req.singleUse, false)
  {
    hide IsRef, KdfContext, Current;
    if req.credentialRef in s.masters {
      OneLiveVersion(s.masters[req.credentialRef]);
    }
  }

  // ---------------------------------------------------------------- histories

  datatype Call =
    | SetMaster(ref: string, value: string, versionId: string)
    | Rotate(ref: string, value: string, versionId: string)
    | Revoke(ref: string, versionId: string)
    | Acquire(acquire: AcquireRequest, handleId: string, nonce: string, now: Time)
    | Redeem(redeem: RedeemRequest, now: Time)

  function Do(setup: Setup, s: Vault, call: Call): Vault {
    match call
    case SetMaster(ref, value, id) => WithMaster(s, ref, value, id).0
    case Rotate(ref, value, id) => Rotated(s, ref, value, id).0
    case Revoke(ref, id) => WithoutVersion(s, ref, id).0
    case Acquire(req, id, nonce, now) => Acquired(setup, s, req, id, nonce, now).0
    case Redeem(req, now) => Redeemed(setup, s, req, now).0
  }

  /** The vault before call number n. */
  function Before(setup: Setup, calls: seq<Call>, n: nat): Vault
    requires n <= |calls|
  {
    if n == 0 then EMPTY else Do(setup, Before(setup, calls, n - 1), calls[n - 1])
  }

  /** What a redemption, or a failed one, revealed. */
  function Revealed(setup: Setup, calls: seq<Call>, n: nat): Option<string>
    requires n < |calls|
  {
    if !calls[n].Redeem? then None
    else match Redeemed(setup, Before(setup, calls, n), calls[n].redeem, calls[n].now).1
      case Ok(material) => Some(material)
      case Err(_) => None
  }

  function Issued(setup: Setup, calls: seq<Call>, n: nat): Option<Handle>
    requires n < |calls|
  {
    if !calls[n].Acquire? then None
    else match Acquired(setup, Before(setup, calls, n), calls[n].acquire, calls[n].handleId, calls[n].nonce, calls[n].now).1
      case Ok(handle) => Some(handle)
      case Err(_) => None
  }

  /** Generated handle ids are new, and so are generated version ids. */
  ghost predicate FreshIds(setup: Setup, calls: seq<Call>) {
    && (forall i, j :: 0 <= i < j < |calls| && calls[i].Acquire? && calls[j].Acquire? ==>
          calls[i].handleId != calls[j].handleId)
    && (forall i :: 0 <= i < |calls| && (calls[i].SetMaster? || calls[i].Rotate?) ==>
          NewVersionId(Before(setup, calls, i), calls[i].ref, calls[i].versionId))
  }

  predicate Timed(call: Call) {
    call.Acquire? || call.Redeem?
  }

  ghost predicate ClockNeverGoesBack(calls: seq<Call>) {
    forall i, j :: 0 <= i < j < |calls| && Timed(calls[i]) && Timed(calls[j]) ==> calls[i].now <= calls[j].now
  }

  lemma {:induction false} MastersStayOk(setup: Setup, calls: seq<Call>, n: nat)
    requires FreshIds(setup, calls) && n <= |calls|
    ensures VaultOk(Before(setup, calls, n))
  {
    hide WithMaster, Rotated, WithoutVersion, Acquired, Redeemed, MasterOk;
    if n > 0 {
      MastersStayOk(setup, calls, n - 1);
      var s := Before(setup, calls, n - 1);
      match calls[n - 1]
      case SetMaster(ref, value, id) => RotateKeeps(s, ref, value, id);
      case Rotate(ref, value, id) => RotateKeeps(s, ref, value, id);
      case Revoke(ref, id) => RevokeKeeps(s, ref, id);
      case Acquire(req, id, nonce, now) => SameMasters(setup, s, calls[n - 1]);
      case Redeem(req, now) => SameMasters(setup, s, calls[n - 1]);
    }
  }

  lemma SameMasters(setup: Setup, s: Vault, call: Call)
    requires call.Acquire? || call.Redeem?
    ensures Do(setup, s, call).masters == s.masters
  {
    hide IsRef, BoundVersionLives, Current, KdfContext, Swept;
  }

  /** In every history each credential has at most one live version, the one its current id names. */
  lemma LiveVersionsOfEveryHistory(setup: Setup, calls: seq<Call>, n: nat, ref: string)
    requires FreshIds(setup, calls) && n <= |calls| && ref in Before(setup, calls, n).masters
    ensures var m := Before(setup, calls, n).masters[ref];
            && (forall v, w :: v in m.versions && w in m.versions && !v.revoked && !w.revoked ==> v == w)
            && (forall v :: v in m.versions && !v.revoked ==> v.id == m.currentId && Current(m) == Some(v))
            && (Current(m).Some? ==> Current(m).value in m.versions && !Current(m).value.revoked)
  {
    MastersStayOk(setup, calls, n);
    OneLiveVersion(Before(setup, calls, n).masters[ref]);
  }

  /** What a record owes to the acquisition that made it. */
  ghost predicate From(setup: Setup, s: Vault, call: Call, h: string, r: Record) {
    && call.Acquire? && call.handleId == h && AcquireValid(setup, call.acquire)
    && r.scope == call.acquire.scope && r.credentialRef == call.acquire.credentialRef
    && r.singleUse == call.acquire.singleUse && r.expiresAt == call.now + Clamped(call.acquire.ttl)
    && r.credentialRef in s.masters && Current(s.masters[r.credentialRef]).Some?
    && var v := Current(s.masters[r.credentialRef]).value;
       && r.versionId == v.id
       && r.material == if r.consumed then ""
                        else setup.derive(v.value, KdfContext(r.credentialRef, v.id, r.scope, call.nonce))
  }

  lemma FromMeans(setup: Setup, s: Vault, call: Call, h: string, r: Record)
    requires From(setup, s, call, h, r)
    ensures call.Acquire? && call.handleId == h && r.singleUse == call.acquire.singleUse
    ensures call.now < r.expiresAt <= call.now + MAX_HANDLE_TTL
  {
    hide Current, KdfContext, IsRef, Authentic;
  }

  ghost predicate Traced(setup: Setup, calls: seq<Call>, n: nat, h: string, r: Record)
    requires n <= |calls|
  {
    exists i :: 0 <= i < n && From(setup, Before(setup, calls, i), calls[i], h, r)
  }

  lemma StepOfRecord(setup: Setup, s: Vault, call: Call, h: string)
    requires h in Do(setup, s, call).handles
    ensures var r := Do(setup, s, call).handles[h];
            || From(setup, s, call, h, r)
            || (h in s.handles && r in {s.handles[h], s.handles[h].(consumed := true, material := "")})
  {
    hide IsRef, BoundVersionLives, Current, KdfContext;
  }

  lemma {:induction false} RecordsAreTraced(setup: Setup, calls: seq<Call>, n: nat, h: string)
    requires n <= |calls| && h in Before(setup, calls, n).handles
    ensures Traced(setup, calls, n, h, Before(setup, calls, n).handles[h])
  {
    hide Do, AcquireValid, Current, KdfContext;
    var s, r := Before(setup, calls, n - 1), Before(setup, calls, n).handles[h];
    StepOfRecord(setup, s, calls[n - 1], h);
    if h in s.handles && !From(setup, s, calls[n - 1], h, r) {
      RecordsAreTraced(setup, calls, n - 1, h);
      var i :| 0 <= i < n - 1 && From(setup, Before(setup, calls, i), calls[i], h, s.handles[h]);
      assert From(setup, Before(setup, calls, i), calls[i], h, r);
    }
  }

  /** A redemption that succeeds returns the material derived when the handle was acquired, for the very scope it was
      issued to, before it expires, at most 15 minutes after it was issued, and while the version it is bound to is
      live. */
  lemma RedeemedAsIssued(setup: Setup, calls: seq<Call>, n: nat)
    requires n < |calls| && Revealed(setup, calls, n).Some?
    ensures exists i :: 0 <= i < n && IssuedFor(setup, calls, i, n)
  {
    hide AcquireValid, Current, KdfContext, Do, IsRef;
    var s, req := Before(setup, calls, n), calls[n].redeem;
    RecordsAreTraced(setup, calls, n, req.handleId);
    var r := s.handles[req.handleId];
    var i :| 0 <= i < n && From(setup, Before(setup, calls, i), calls[i], req.handleId, r);
    NotConsumed(setup, calls, n);
    assert IssuedFor(setup, calls, i, n);
  }

  ghost predicate IssuedFor(setup: Setup, calls: seq<Call>, i: nat, n: nat)
    requires i < n < |calls|
  {
    && calls[i].Acquire? && calls[n].Redeem? && calls[i].handleId == calls[n].redeem.handleId
    && Authentic(setup, calls[n].redeem.callerToken)
    && calls[i].acquire.scope == calls[n].redeem.scope
    && calls[n].now < calls[i].now + Clamped(calls[i].acquire.ttl) <= calls[i].now + MAX_HANDLE_TTL
    && var s, t, ref := Before(setup, calls, i), Before(setup, calls, n), calls[i].acquire.credentialRef;
       && ref in s.masters && Current(s.masters[ref]).Some? && ref in t.masters
       && var v := Current(s.masters[ref]).value;
          && Find(t.masters[ref].versions, v.id).Some? && !Find(t.masters[ref].versions, v.id).value.revoked
          && Revealed(setup, calls, n)
             == Some(setup.derive(v.value, KdfContext(ref, v.id, calls[i].acquire.scope, calls[i].nonce)))
  }

  /** Only single-use records are ever marked consumed. */
  ghost predicate ConsumedOk(s: Vault) {
    forall h :: h in s.handles && s.handles[h].consumed ==> s.handles[h].singleUse
  }

  lemma {:induction false} ConsumedStaysOk(setup: Setup, calls: seq<Call>, n: nat)
    requires n <= |calls|
    ensures ConsumedOk(Before(setup, calls, n))
  {
    if n > 0 {
      ConsumedStaysOk(setup, calls, n - 1);
      DoKeepsConsumed(setup, Before(setup, calls, n - 1), calls[n - 1]);
    }
  }

  lemma DoKeepsConsumed(setup: Setup, s: Vault, call: Call)
    requires ConsumedOk(s)
    ensures ConsumedOk(Do(setup, s, call))
  {
    hide IsRef, BoundVersionLives, Current, KdfContext;
  }

  lemma NotConsumed(setup: Setup, calls: seq<Call>, n: nat)
    requires n < |calls| && Revealed(setup, calls, n).Some?
    ensures calls[n].redeem.handleId in Before(setup, calls, n).handles
    ensures !Before(setup, calls, n).handles[calls[n].redeem.handleId].consumed
  {
    hide IsRef, BoundVersionLives, Do;
    ConsumedStaysOk(setup, calls, n);
  }

  // ---------------------------------------------------------------- single use

  /** The handle can never be redeemed again: gone or consumed. */
  ghost predicate UsedUp(s: Vault, h: string) {
    h in s.handles ==> s.handles[h].singleUse && s.handles[h].consumed
  }

  lemma UsedUpStays(setup: Setup, s: Vault, call: Call, h: string)
    requires UsedUp(s, h) && (call.Acquire? ==> call.handleId != h)
    ensures UsedUp(Do(setup, s, call), h)
  {
    hide IsRef, BoundVersionLives, Current, KdfContext;
  }

  lemma {:induction false} UsedUpForEver(setup: Setup, calls: seq<Call>, i: nat, n: nat, h: string)
    requires i <= n <= |calls| && UsedUp(Before(setup, calls, i), h)
    requires forall j :: i <= j < n && calls[j].Acquire? ==> calls[j].handleId != h
    ensures UsedUp(Before(setup, calls, n), h)
    decreases n
  {
    hide Do;
    if i < n {
      UsedUpForEver(setup, calls, i, n - 1, h);
      UsedUpStays(setup, Before(setup, calls, n - 1), calls[n - 1], h);
    }
  }

  lemma RedemptionUsesUp(setup: Setup, s: Vault, req: RedeemRequest, now: Time)
    requires Redeemed(setup, s, req, now).1.Ok? && s.handles[req.handleId].singleUse
    ensures UsedUp(Redeemed(setup, s, req, now).0, req.handleId)
  {
    hide IsRef, BoundVersionLives;
  }

  /** Over every history, whatever the clock does: a handle issued for single use is redeemed at most once. */
  lemma SingleUseIsOnce(setup: Setup, calls: seq<Call>, a: nat, i: nat, j: nat)
    requires FreshIds(setup, calls) && a < |calls| && i < j < |calls|
    requires Issued(setup, calls, a).Some? && calls[a].acquire.singleUse
    requires calls[i].Redeem? && calls[j].Redeem?
    requires calls[i].redeem.handleId == calls[j].redeem.handleId == calls[a].handleId
    ensures Revealed(setup, calls, i).None? || Revealed(setup, calls, j).None?
  {
    hide Do, Acquired, From, Redeemed, UsedUp, Before;
    var h := calls[a].handleId;
    if Revealed(setup, calls, i).Some? {
      var s := Before(setup, calls, i);
      assert h in s.handles by { NotConsumed(setup, calls, i); }
      RecordsAreTraced(setup, calls, i, h);
      var b :| 0 <= b < i && From(setup, Before(setup, calls, b), calls[b], h, s.handles[h]);
      FromMeans(setup, Before(setup, calls, b), calls[b], h, s.handles[h]);
      assert a == b;
      RedemptionUsesUp(setup, s, calls[i].redeem, calls[i].now);
      RedeemStep(setup, calls, i);
      UsedUpForEver(setup, calls, i + 1, j, h);
      UsedUpReveals(setup, Before(setup, calls, j), calls[j].redeem, calls[j].now);
    }
  }

  lemma UsedUpReveals(setup: Setup, s: Vault, req: RedeemRequest, now: Time)
    requires UsedUp(s, req.handleId)
    ensures Redeemed(setup, s, req, now).1.Err?
  {
    hide IsRef, BoundVersionLives;
  }

  lemma RedeemStep(setup: Setup, calls: seq<Call>, i: nat)
    requires i < |calls| && calls[i].Redeem?
    ensures Before(setup, calls, i + 1) == Redeemed(setup, Before(setup, calls, i), calls[i].redeem, calls[i].now).0
  {
  }

  // ---------------------------------------------------------------- when a redemption succeeds

  /** The record an acquisition makes. */
  function Made(setup: Setup, s: Vault, call: Call): Record
    requires call.Acquire? && Acquired(setup, s, call.acquire, call.handleId, call.nonce, call.now).1.Ok?
  {
    Acquired(setup, s, call.acquire, call.handleId, call.nonce, call.now).0.handles[call.handleId]
  }

  /** The record is still there, without its material once it was used. */
  ghost predicate KeptAs(s: Vault, h: string, r: Record, used: bool) {
    h in s.handles && s.handles[h] == if used then r.(consumed := true, material := "") else r
  }

  ghost predicate UsesUp(setup: Setup, s: Vault, call: Call, h: string, r: Record) {
    call.Redeem? && call.redeem.handleId == h && r.singleUse && Redeemed(setup, s, call.redeem, call.now).1.Ok?
  }

  lemma StepKeepsRecord(setup: Setup, s: Vault, call: Call, h: string, r: Record, used: bool)
    requires KeptAs(s, h, r, used) && !r.consumed && (used ==> r.singleUse)
    requires call.Acquire? ==> call.handleId != h
    requires Timed(call) ==> call.now < r.expiresAt
    ensures KeptAs(Do(setup, s, call), h, r, used || UsesUp(setup, s, call, h, r))
  {
    hide IsRef, BoundVersionLives, Current, KdfContext;
  }

  /** Some redemption of the handle succeeded between the two calls. */
  ghost predicate RedeemedBetween(setup: Setup, calls: seq<Call>, a: nat, n: nat, h: string)
    requires a < n <= |calls|
  {
    exists m :: a < m < n && calls[m].Redeem? && calls[m].redeem.handleId == h && Revealed(setup, calls, m).Some?
  }

  lemma {:induction false} RecordIsKept(setup: Setup, calls: seq<Call>, a: nat, n: nat)
    requires FreshIds(setup, calls) && a < n <= |calls| && Issued(setup, calls, a).Some?
    requires forall m :: a < m < n && Timed(calls[m]) ==> calls[m].now < Made(setup, Before(setup, calls, a), calls[a]).expiresAt
    ensures var h, r := calls[a].handleId, Made(setup, Before(setup, calls, a), calls[a]);
            KeptAs(Before(setup, calls, n), h, r, r.singleUse && RedeemedBetween(setup, calls, a, n, h))
    decreases n
  {
    hide Do, Acquired, Redeemed;
    var h, r := calls[a].handleId, Made(setup, Before(setup, calls, a), calls[a]);
    if n == a + 1 {
      JustMade(setup, Before(setup, calls, a), calls[a]);
      LastStep(setup, calls, a);
    } else {
      RecordIsKept(setup, calls, a, n - 1);
      JustMade(setup, Before(setup, calls, a), calls[a]);
      var used := r.singleUse && RedeemedBetween(setup, calls, a, n - 1, h);
      StepKeepsRecord(setup, Before(setup, calls, n - 1), calls[n - 1], h, r, used);
      LastStep(setup, calls, n - 1);
      assert Revealed(setup, calls, n - 1).Some? <==>
             calls[n - 1].Redeem?
             && Redeemed(setup, Before(setup, calls, n - 1), calls[n - 1].redeem, calls[n - 1].now).1.Ok?;
    }
  }

  /** What is made: a record of the request, bound to the live current version, for the clamped lifetime. */
  lemma JustMade(setup: Setup, s: Vault, call: Call)
    requires call.Acquire? && Acquired(setup, s, call.acquire, call.handleId, call.nonce, call.now).1.Ok?
    ensures var h, r, req := call.handleId, Made(setup, s, call), call.acquire;
            && KeptAs(Do(setup, s, call), h, r, false) && !r.consumed && IsRef(h) && req.scope.Valid()
            && r.scope == req.scope && r.credentialRef == req.credentialRef && r.singleUse == req.singleUse
            && r.expiresAt == call.now + (if req.ttl > 15 * 60 * 1_000_000_000 then 15 * 60 * 1_000_000_000 else req.ttl)
            && Acquired(setup, s, req, h, call.nonce, call.now).1.value.version == r.versionId
            && req.credentialRef in s.masters && Current(s.masters[req.credentialRef]).Some?
            && var v := Current(s.masters[req.credentialRef]).value;
               && r.versionId == v.id
               && r.material == setup.derive(v.value, KdfContext(req.credentialRef, v.id, req.scope, call.nonce))
  {
    hide IsRef, Current, KdfContext;
  }

  /** The credential has a version with the id that nobody revoked. */
  ghost predicate Live(s: Vault, ref: string, id: string) {
    ref in s.masters && exists v :: v in s.masters[ref].versions && v.id == id && !v.revoked
  }

  lemma LiveIsBound(s: Vault, r: Record)
    requires VaultOk(s)
    ensures BoundVersionLives(s, r) <==> Live(s, r.credentialRef, r.versionId)
  {
    if r.credentialRef in s.masters {
      var versions := s.masters[r.credentialRef].versions;
      assert MasterOk(s.masters[r.credentialRef]);
      if v :| v in versions && v.id == r.versionId && !v.revoked {
        var i :| 0 <= i < |versions| && versions[i] == v;
        FindAt(versions, i);
      }
      if Find(versions, r.versionId).Some? {
        var i := FoundAt(versions, r.versionId);
        assert versions[i] in versions;
      }
    }
  }

  /** Over every history with new ids and a clock that never goes back: what redeeming a handle answers before its time
      is up. It reveals exactly the material derived when the handle was issued if the caller is authentic, names the
      scope it was issued for, its version is live, and it is for many uses or was not redeemed yet; otherwise the
      first of these that fails is the error. */
  lemma RedemptionAnswer(setup: Setup, calls: seq<Call>, a: nat, n: nat)
    requires FreshIds(setup, calls) && ClockNeverGoesBack(calls) && a < n < |calls|
    requires Issued(setup, calls, a).Some? && calls[n].Redeem? && calls[n].redeem.handleId == calls[a].handleId
    requires var ttl := calls[a].acquire.ttl;
             calls[n].now < calls[a].now + if ttl > 15 * 60 * 1_000_000_000 then 15 * 60 * 1_000_000_000 else ttl
    ensures var s, t, req, asked := Before(setup, calls, a), Before(setup, calls, n), calls[a].acquire, calls[n].redeem;
            && req.credentialRef in s.masters && Current(s.masters[req.credentialRef]).Some?
            && var v := Current(s.masters[req.credentialRef]).value;
               Redeemed(setup, t, asked, calls[n].now).1
               == if setup.callerToken == "" || asked.callerToken != setup.callerToken then Err(Unauthenticated)
                  else if !asked.scope.Valid() then Err(InvalidRequest)
                  else if asked.scope != req.scope then Err(ScopeMismatch)
                  else if !Live(t, req.credentialRef, v.id) then Err(RevokedVersion)
                  else if req.singleUse && RedeemedBetween(setup, calls, a, n, calls[a].handleId) then Err(HandleConsumed)
                  else Ok(setup.derive(v.value, KdfContext(req.credentialRef, v.id, req.scope, calls[a].nonce)))
  {
    hide Do, Acquired, IsRef, Current, KdfContext, BoundVersionLives, Before, Live, RedeemedBetween, Redeemed, KeptAs;
    var s, t, r := Before(setup, calls, a), Before(setup, calls, n), Made(setup, Before(setup, calls, a), calls[a]);
    JustMade(setup, s, calls[a]);
    RecordIsKept(setup, calls, a, n);
    MastersStayOk(setup, calls, n);
    LiveIsBound(t, r);
    StoredAnswer(setup, t, calls[n].redeem, calls[n].now, r,
                 r.singleUse && RedeemedBetween(setup, calls, a, n, calls[a].handleId));
  }

  lemma StoredAnswer(setup: Setup, t: Vault, asked: RedeemRequest, now: Time, r: Record, used: bool)
    requires KeptAs(t, asked.handleId, r, used) && IsRef(asked.handleId) && !r.consumed && (used ==> r.singleUse)
    requires now < r.expiresAt && (BoundVersionLives(t, r) <==> Live(t, r.credentialRef, r.versionId))
    ensures Redeemed(setup, t, asked, now).1
            == if setup.callerToken == "" || asked.callerToken != setup.callerToken then Err(Unauthenticated)
               else if !asked.scope.Valid() then Err(InvalidRequest)
               else if asked.scope != r.scope then Err(ScopeMismatch)
               else if !Live(t, r.credentialRef, r.versionId) then Err(RevokedVersion)
               else if used then Err(HandleConsumed)
               else Ok(r.material)
  {
    hide IsRef, Live;
  }

  /** From then on it reveals nothing. */
  lemma ExpiredAnswer(setup: Setup, calls: seq<Call>, a: nat, n: nat)
    requires FreshIds(setup, calls) && a < n < |calls|
    requires Issued(setup, calls, a).Some? && calls[n].Redeem? && calls[n].redeem.handleId == calls[a].handleId
    requires var ttl := calls[a].acquire.ttl;
             calls[n].now >= calls[a].now + if ttl > 15 * 60 * 1_000_000_000 then 15 * 60 * 1_000_000_000 else ttl
    ensures Revealed(setup, calls, n) == None
  {
    hide Do, AcquireValid, IsRef, Current, KdfContext, Before, Acquired;
    var h := calls[a].handleId;
    var t := Before(setup, calls, n);
    if h in t.handles {
      RecordsAreTraced(setup, calls, n, h);
      var b :| 0 <= b < n && From(setup, Before(setup, calls, b), calls[b], h, t.handles[h]);
      assert a == b;
    }
  }

  // ---------------------------------------------------------------- retention

  /** Call i made the record, not 15 minutes before call n. */
  ghost predicate AcquiredLately(setup: Setup, calls: seq<Call>, i: nat, n: nat, h: string, r: Record)
    requires i <= n < |calls| && calls[n].Acquire?
  {
    && From(setup, Before(setup, calls, i), calls[i], h, r)
    && calls[n].now - MAX_HANDLE_TTL < calls[i].now <= calls[n].now
  }

  /** Some call up to n made the record, not 15 minutes before call n. */
  ghost predicate RetainedLately(setup: Setup, calls: seq<Call>, n: nat, h: string, r: Record)
    requires n < |calls| && calls[n].Acquire?
  {
    exists i: nat :: i <= n && AcquiredLately(setup, calls, i, n, h, r)
  }

  lemma Lately(setup: Setup, calls: seq<Call>, i: nat, n: nat, h: string, r: Record)
    requires ClockNeverGoesBack(calls) && i <= n < |calls| && calls[i].Acquire? && calls[n].Acquire?
    requires From(setup, Before(setup, calls, i), calls[i], h, r)
    requires calls[n].now < r.expiresAt <= calls[i].now + MAX_HANDLE_TTL
    ensures AcquiredLately(setup, calls, i, n, h, r)
  {
    hide From, Before;
  }

  /** After every acquisition that gets as far as sweeping, each record still held was acquired within the last
      15 minutes; so an hour of acquisitions that are never redeemed leaves no more than a quarter of an hour's. */
  lemma SweepBoundsRetention(setup: Setup, calls: seq<Call>, n: nat, h: string)
    requires ClockNeverGoesBack(calls) && n < |calls| && calls[n].Acquire? && AcquireValid(setup, calls[n].acquire)
    requires h in Before(setup, calls, n + 1).handles
    ensures RetainedLately(setup, calls, n, h, Before(setup, calls, n + 1).handles[h])
  {
    hide Do, From, AcquireValid, Before;
    RecordsAreTraced(setup, calls, n + 1, h);
    var r := Before(setup, calls, n + 1).handles[h];
    var i :| 0 <= i < n + 1 && From(setup, Before(setup, calls, i), calls[i], h, r);
    FromMeans(setup, Before(setup, calls, i), calls[i], h, r);
    LastStep(setup, calls, n);
    NothingExpired(setup, Before(setup, calls, n), calls[n], h);
    Lately(setup, calls, i, n, h, r);
  }

  lemma LastStep(setup: Setup, calls: seq<Call>, n: nat)
    requires n < |calls|
    ensures Before(setup, calls, n + 1) == Do(setup, Before(setup, calls, n), calls[n])
  {
    hide Do;
  }

  lemma NothingExpired(setup: Setup, s: Vault, call: Call, h: string)
    requires call.Acquire? && AcquireValid(setup, call.acquire) && h in Do(setup, s, call).handles
    ensures call.now < Do(setup, s, call).handles[h].expiresAt
  {
    hide IsRef, Current, KdfContext;
  }
}
