/** The frozen trust classes (sdk/go/runtime/context.go). */
module TrustClasses {
  datatype TrustClass = FirstParty | CertifiedThirdParty | Untrusted
}

/** Versions, version ranges and capability ceilings of the trust registry (sdk/go/runtime/trust.go). */
module RuntimeTrust {
  import opened Text
  import opened Wrappers

  // ---------------------------------------------------------------- dotted numeric versions

  predicate IsDigit(c: char) {
    '0' <= c <= '9'
  }

  predicate AllDigits(s: string) {
    forall i :: 0 <= i < |s| ==> IsDigit(s[i])
  }

  function Decimal(s: string): nat
    requires AllDigits(s)
  {
    if s == "" then 0 else Decimal(s[..|s| - 1]) * 10 + (s[|s| - 1] - '0') as int
  }

  function Pow10(e: nat): nat {
    if e == 0 then 1 else 10 * Pow10(e - 1)
  }

  /** Positional: the leading digit counts its power of ten. */
  lemma {:induction false} DecimalIsPositional(s: string)
    requires s != "" && AllDigits(s)
    ensures 0 <= s[0] as int - 48 <= 9 && AllDigits(s[1..])
    ensures Decimal(s) == (s[0] as int - 48) * Pow10(|s| - 1) + Decimal(s[1..])
  {
    var n := |s|;
    assert AllDigits(s[1..]) && IsDigit(s[0]);
    if n == 1 {
      assert s[..0] == "" && s[1..] == "" && Pow10(0) == 1;
      assert Decimal("") == 0;
    } else {
      var init, tail := s[..n - 1], s[1..];
      var lead, last := s[0] as int - 48, (s[n - 1] - '0') as int;
      DecimalIsPositional(init);
      assert init[1..] == tail[..n - 2] && tail[n - 2] == s[n - 1] && init[0] == s[0];
      assert Decimal(tail) == Decimal(init[1..]) * 10 + last;
      assert Pow10(n - 1) == 10 * Pow10(n - 2);
      ShiftDigit(lead, Pow10(n - 2), Decimal(init[1..]), last);
    }
  }

  lemma ShiftDigit(lead: int, power: int, rest: int, last: int)
    ensures (lead * power + rest) * 10 + last == lead * (10 * power) + (rest * 10 + last)
  {
  }

  lemma DigitIs(c: char)
    ensures IsDigit(c) <==> c in "0123456789"
  {
    var digits := "0123456789";
    if '0' <= c <= '9' {
      assert digits[c as int - 48] == c;
    }
    assert digits[0] == '0' && digits[9] == '9';
  }

  const INT_LIMIT := 0x8000_0000_0000_0000

  /** strconv.Atoi: an optional sign and decimal digits, within 64 bits. */
  function Atoi(s: string): Option<int> {
    var signed := s != "" && s[0] in {'+', '-'};
    var digits := if signed then s[1..] else s;
    if digits == "" || !AllDigits(digits) then None
    else
      var size: int := Decimal(digits);
      var n := if signed && s[0] == '-' then -size else size;
      if -INT_LIMIT <= n < INT_LIMIT then Some(n) else None
  }

  predicate IsSegment(part: string) {
    Atoi(part).Some? && Atoi(part).value >= 0
  }

  type Version = seq<nat>

  predicate IsVersion(v: string) {
    v != "" && forall i :: 0 <= i < |Split(v, '.')| ==> IsSegment(Split(v, '.')[i])
  }

  function Segments(v: string): Version
    requires IsVersion(v)
  {
    var parts := Split(v, '.');
    seq(|parts|, i requires 0 <= i < |parts| => Atoi(parts[i]).value)
  }

  method ParseVersion(v: string) returns (r: Option<Version>)
    ensures r.Some? <==> IsVersion(v)
    ensures r.Some? ==> r.value == Segments(v)
  {
    if v == "" {
      return None;
    }
    var parts := Split(v, '.');
    var out: Version := [];
    for i := 0 to |parts|
      invariant |out| == i
      invariant forall j :: 0 <= j < i ==> IsSegment(parts[j]) && out[j] == Atoi(parts[j]).value
    {
      var n := Atoi(parts[i]);
      if n.None? || n.value < 0 {
        return None;
      }
      out := out + [n.value];
    }
    assert out == Segments(v);
    r := Some(out);
  }

  /** The shorter version is padded with zeros. */
  function Segment(v: Version, i: nat): nat {
    if i < |v| then v[i] else 0
  }

  ghost predicate AgreeBelow(a: Version, b: Version, i: nat) {
    forall j :: 0 <= j < i ==> Segment(a, j) == Segment(b, j)
  }

  ghost predicate FirstBelow(a: Version, b: Version, i: nat) {
    AgreeBelow(a, b, i) && Segment(a, i) < Segment(b, i)
  }

  /** The first segment in which they differ is smaller. */
  ghost predicate Before(a: Version, b: Version) {
    exists i: nat :: FirstBelow(a, b, i)
  }

  function CompareFrom(a: Version, b: Version, i: nat): (c: int)
    decreases |a| + |b| - i
  {
    if i >= |a| && i >= |b| then 0
    else if Segment(a, i) < Segment(b, i) then -1
    else if Segment(a, i) > Segment(b, i) then 1
    else CompareFrom(a, b, i + 1)
  }

  function Compare(a: Version, b: Version): int {
    CompareFrom(a, b, 0)
  }

  lemma {:induction false} CompareMeaningFrom(a: Version, b: Version, i: nat)
    requires AgreeBelow(a, b, i)
    ensures CompareFrom(a, b, i) == -1 <==> Before(a, b)
    ensures CompareFrom(a, b, i) == 1 <==> Before(b, a)
    ensures -1 <= CompareFrom(a, b, i) <= 1
    decreases |a| + |b| - i
  {
    if Segment(a, i) < Segment(b, i) {
      assert FirstBelow(a, b, i);
      NotBoth(a, b);
    } else if Segment(b, i) < Segment(a, i) {
      assert FirstBelow(b, a, i);
      NotBoth(a, b);
    } else if i >= |a| && i >= |b| {
      forall j: nat
        ensures Segment(a, j) == Segment(b, j)
      {
      }
    } else {
      CompareMeaningFrom(a, b, i + 1);
    }
  }

  lemma NotBoth(a: Version, b: Version)
    ensures !(Before(a, b) && Before(b, a))
  {
    forall i: nat, j: nat
      ensures !(FirstBelow(a, b, i) && FirstBelow(b, a, j))
    {
    }
  }

  lemma CompareMeaning(a: Version, b: Version)
    ensures Compare(a, b) == -1 <==> Before(a, b)
    ensures Compare(a, b) == 1 <==> Before(b, a)
    ensures -1 <= Compare(a, b) <= 1
  {
    CompareMeaningFrom(a, b, 0);
  }

  lemma BeforeTransitive(a: Version, b: Version, c: Version)
    requires Before(a, b) && !Before(c, b)
    ensures Before(a, c)
  {
    CompareMeaning(b, c);
    var i: nat :| FirstBelow(a, b, i);
    if Before(b, c) {
      var j: nat :| FirstBelow(b, c, j);
      assert FirstBelow(a, c, if i < j then i else j);
    } else {
      SameSegments(b, c, i);
      assert FirstBelow(a, c, i);
    }
  }

  lemma {:induction false} SameSegments(a: Version, b: Version, n: nat)
    requires !Before(a, b) && !Before(b, a)
    ensures AgreeBelow(a, b, n + 1)
  {
    if n > 0 {
      SameSegments(a, b, n - 1);
    }
    assert AgreeBelow(a, b, n);
    assert !FirstBelow(a, b, n) && !FirstBelow(b, a, n);
  }

  /** Versions that only differ in trailing zeros are alike. */
  lemma TrailingZeros(v: Version, zeros: Version)
    requires forall i :: 0 <= i < |zeros| ==> zeros[i] == 0
    ensures Compare(v, v + zeros) == 0 && Compare(v + zeros, v) == 0
  {
    forall i: nat
      ensures Segment(v, i) == Segment(v + zeros, i)
    {
    }
    CompareMeaning(v, v + zeros);
    CompareMeaning(v + zeros, v);
  }

  method CompareVersions(a: string, b: string) returns (r: Option<int>)
    ensures r.Some? <==> IsVersion(a) && IsVersion(b)
    ensures r.Some? ==> r.value == Compare(Segments(a), Segments(b))
  {
    var av := ParseVersion(a);
    var bv := ParseVersion(b);
    if av.None? || bv.None? {
      return None;
    }
    var n := |av.value|;
    if |bv.value| > n {
      n := |bv.value|;
    }
    for i := 0 to n
      invariant CompareFrom(av.value, bv.value, i) == Compare(av.value, bv.value)
    {
      var x, y := 0, 0;
      if i < |av.value| {
        x := av.value[i];
      }
      if i < |bv.value| {
        y := bv.value[i];
      }
      if x != y {
        if x < y {
          return Some(-1);
        }
        return Some(1);
      }
    }
    r := Some(0);
  }

  // ---------------------------------------------------------------- ranges

  datatype VersionRange = VersionRange(minInclusive: string, maxExclusive: string)

  /** In [min, max), an empty bound being open and a bound that is no version admitting nothing. */
  ghost predicate Contains(r: VersionRange, version: string) {
    && IsVersion(version)
    && (r.minInclusive != "" ==>
          IsVersion(r.minInclusive) && !Before(Segments(version), Segments(r.minInclusive)))
    && (r.maxExclusive != "" ==>
          IsVersion(r.maxExclusive) && Before(Segments(version), Segments(r.maxExclusive)))
  }

  method RangeContains(r: VersionRange, version: string) returns (within: bool)
    ensures within <==> Contains(r, version)
  {
    var v := ParseVersion(version);
    if v.None? {
      return false;
    }
    if r.minInclusive != "" {
      var cmp := CompareVersions(version, r.minInclusive);
      if cmp.None? {
        return false;
      }
      CompareMeaning(Segments(version), Segments(r.minInclusive));
      if cmp.value < 0 {
        return false;
      }
    }
    if r.maxExclusive != "" {
      var cmp := CompareVersions(version, r.maxExclusive);
      if cmp.None? {
        return false;
      }
      CompareMeaning(Segments(version), Segments(r.maxExclusive));
      if cmp.value >= 0 {
        return false;
      }
    }
    within := true;
  }

  /** In terms of the comparison: not below the lower bound, and strictly below the upper one. */
  lemma ContainsByComparison(r: VersionRange, v: string)
    requires IsVersion(v) && (r.minInclusive == "" || IsVersion(r.minInclusive))
    requires r.maxExclusive == "" || IsVersion(r.maxExclusive)
    ensures Contains(r, v) <==>
              && (r.minInclusive == "" || Compare(Segments(v), Segments(r.minInclusive)) >= 0)
              && (r.maxExclusive == "" || Compare(Segments(v), Segments(r.maxExclusive)) < 0)
  {
    if r.minInclusive != "" {
      CompareMeaning(Segments(v), Segments(r.minInclusive));
    }
    if r.maxExclusive != "" {
      CompareMeaning(Segments(v), Segments(r.maxExclusive));
    }
  }

  /** Nothing is contained that is no version, or by a range whose bound is none. */
  lemma ContainsNeedsVersions(r: VersionRange, v: string)
    requires !IsVersion(v) || (r.minInclusive != "" && !IsVersion(r.minInclusive))
             || (r.maxExclusive != "" && !IsVersion(r.maxExclusive))
    ensures !Contains(r, v)
  {
  }

  ghost predicate ValidRange(r: VersionRange) {
    && (r.minInclusive != "" || r.maxExclusive != "")
    && (r.minInclusive != "" ==> IsVersion(r.minInclusive))
    && (r.maxExclusive != "" ==> IsVersion(r.maxExclusive))
    && (r.minInclusive != "" && r.maxExclusive != "" ==>
          Before(Segments(r.minInclusive), Segments(r.maxExclusive)))
  }

  /** At least one bound, each a version, the lower strictly below the upper if there are two. */
  lemma ValidRangeIff(r: VersionRange)
    ensures ValidRange(r) <==>
              if r.minInclusive == "" then r.maxExclusive != "" && IsVersion(r.maxExclusive)
              else
                && IsVersion(r.minInclusive)
                && (r.maxExclusive == ""
                    || (IsVersion(r.maxExclusive)
                        && Compare(Segments(r.minInclusive), Segments(r.maxExclusive)) < 0))
  {
    if r.minInclusive != "" && r.maxExclusive != "" && IsVersion(r.minInclusive) && IsVersion(r.maxExclusive) {
      CompareMeaning(Segments(r.minInclusive), Segments(r.maxExclusive));
    }
  }

  method ValidateRange(r: VersionRange) returns (ok: bool)
    ensures ok <==> ValidRange(r)
  {
    if r.minInclusive == "" && r.maxExclusive == "" {
      return false;
    }
    if r.minInclusive != "" {
      var v := ParseVersion(r.minInclusive);
      if v.None? {
        return false;
      }
    }
    if r.maxExclusive != "" {
      var v := ParseVersion(r.maxExclusive);
      if v.None? {
        return false;
      }
    }
    if r.minInclusive != "" && r.maxExclusive != "" {
      var cmp := CompareVersions(r.minInclusive, r.maxExclusive);
      CompareMeaning(Segments(r.minInclusive), Segments(r.maxExclusive));
      if cmp.None? || cmp.value >= 0 {
        return false;
      }
    }
    ok := true;
  }

  /** A range is an interval of a total preorder: it leaves out nothing between two of its versions, treats
      versions that only differ in trailing zeros alike, and a valid one with a lower bound contains it. */
  lemma RangeIsInterval(r: VersionRange, low: string, mid: string, high: string)
    requires Contains(r, low) && Contains(r, high) && IsVersion(mid)
    requires !Before(Segments(mid), Segments(low)) && !Before(Segments(high), Segments(mid))
    ensures Contains(r, mid)
  {
    if r.minInclusive != "" && Before(Segments(mid), Segments(r.minInclusive)) {
      BeforeTransitive(Segments(mid), Segments(r.minInclusive), Segments(low));
    }
    if r.maxExclusive != "" && !Before(Segments(mid), Segments(r.maxExclusive)) {
      BeforeTransitive(Segments(high), Segments(r.maxExclusive), Segments(mid));
    }
  }

  lemma RangeStartsAtItsBound(r: VersionRange)
    requires ValidRange(r) && r.minInclusive != ""
    ensures Contains(r, r.minInclusive)
  {
    NotBoth(Segments(r.minInclusive), Segments(r.minInclusive));
  }

  predicate IsPlain(part: string) {
    part != "" && AllDigits(part)
  }

  predicate AllZeros(s: string) {
    forall i :: 0 <= i < |s| ==> s[i] == '0'
  }

  lemma {:induction false} DecimalIsZero(s: string)
    requires AllDigits(s)
    ensures Decimal(s) == 0 <==> AllZeros(s)
  {
    if s != "" {
      DecimalIsZero(s[..|s| - 1]);
      assert AllZeros(s) <==> AllZeros(s[..|s| - 1]) && s[|s| - 1] == '0';
    }
  }

  /** The segments that parse: decimal digits below 2^63, with or without a plus sign, and zeros with a minus. */
  lemma SegmentForms(part: string)
    ensures IsSegment(part) <==>
              || (IsPlain(part) && Decimal(part) < INT_LIMIT)
              || (part != "" && part[0] == '+' && IsPlain(part[1..]) && Decimal(part[1..]) < INT_LIMIT)
              || (part != "" && part[0] == '-' && IsPlain(part[1..]) && AllZeros(part[1..]))
  {
    if part != "" && part[0] == '-' && IsPlain(part[1..]) {
      DecimalIsZero(part[1..]);
    }
  }

  /** A version that parses is dotted numeric exactly if it has no sign in it. */
  lemma DottedNumericIff(v: string)
    requires IsVersion(v)
    ensures (forall i :: 0 <= i < |Split(v, '.')| ==> IsPlain(Split(v, '.')[i])) <==> '+' !in v && '-' !in v
  {
    hide Atoi, AllDigits, Decimal;
    var parts := Split(v, '.');
    forall i | 0 <= i < |parts|
      ensures IsPlain(parts[i]) <==> '+' !in parts[i] && '-' !in parts[i]
    {
      SegmentForms(parts[i]);
      PlainHasNoSign(parts[i]);
    }
    SplitKeepsChars(v, '.', '+');
    SplitKeepsChars(v, '.', '-');
  }

  lemma PlainHasNoSign(part: string)
    ensures IsPlain(part) ==> '+' !in part && '-' !in part
    ensures part != "" && part[0] in {'+', '-'} ==> '+' in part || '-' in part
  {
  }

  /** Such versions exist: "+1.-0" is the version 1.0. */
  lemma SignsAreAccepted()
    ensures IsVersion("+1.-0") && Segments("+1.-0") == [1, 0]
  {
    var parts := Split("+1.-0", '.');
    assert Join(["+1", "-0"], '.') == "+1.-0";
    SplitJoin(["+1", "-0"], '.');
    assert "+1"[1..] == "1" && "-0"[1..] == "0";
    assert Decimal("1") == 1 && Decimal("0") == 0;
    assert Atoi(parts[0]) == Some(1) && Atoi(parts[1]) == Some(0);
    assert |parts| == 2;
    assert Segments("+1.-0") == [1, 0];
  }

  // ---------------------------------------------------------------- capability ceilings

  /** Byte order of strings. */
  predicate Less(a: string, b: string) {
    b != "" && (a == "" || a[0] < b[0] || (a[0] == b[0] && Less(a[1..], b[1..])))
  }

  /** Byte order: at the first difference the smaller character comes first, and a prefix before what it begins. */
  lemma {:induction false} LessIff(a: string, b: string)
    ensures Less(a, b) <==>
              exists i :: 0 <= i <= |a| && i < |b| && a[..i] == b[..i] && (i == |a| || a[i] < b[i])
  {
    if a == "" {
      assert b != "" ==> a[..0] == b[..0];
    } else if b != "" {
      if a[0] == b[0] {
        LessIff(a[1..], b[1..]);
        if i :| 0 <= i <= |a| - 1 && i < |b| - 1 && a[1..][..i] == b[1..][..i] && (i == |a| - 1 || a[1..][i] < b[1..][i]) {
          assert a[..i + 1] == [a[0]] + a[1..][..i] && b[..i + 1] == [b[0]] + b[1..][..i];
        }
        if i :| 0 <= i <= |a| && i < |b| && a[..i] == b[..i] && (i == |a| || a[i] < b[i]) {
          assert i > 0;
          assert a[1..][..i - 1] == a[..i][1..] == b[..i][1..] == b[1..][..i - 1];
        }
      } else {
        assert a[..0] == b[..0];
        forall i | 0 < i <= |a| && i < |b|
          ensures a[..i] != b[..i]
        {
          assert a[..i][0] != b[..i][0];
        }
      }
    }
  }

  lemma {:induction false} LessTransitive(a: string, b: string, c: string)
    requires Less(a, b) && Less(b, c)
    ensures Less(a, c)
  {
    if a != "" && a[0] == b[0] == c[0] {
      LessTransitive(a[1..], b[1..], c[1..]);
    }
  }

  lemma {:induction false} LessTotal(a: string, b: string)
    ensures a == b || Less(a, b) || Less(b, a)
    ensures !(Less(a, b) && Less(b, a)) && !Less(a, a)
  {
    if a != "" {
      LessTotal(a[1..], a[1..]);
    }
    if a != "" && b != "" && a[0] == b[0] {
      LessTotal(a[1..], b[1..]);
      assert a == [a[0]] + a[1..] && b == [b[0]] + b[1..];
    }
  }

  ghost predicate Ascending(s: seq<string>) {
    forall i, j :: 0 <= i < j < |s| ==> Less(s[i], s[j])
  }

  /** Sorted and free of duplicates, a list is determined by what is in it. */
  lemma {:induction false} AscendingUnique(s: seq<string>, t: seq<string>)
    requires Ascending(s) && Ascending(t) && forall x :: x in s <==> x in t
    ensures s == t
    decreases |s|
  {
    assert |t| > 0 ==> t[0] in t && t[0] in s;
    if s != [] {
      assert s[0] in t && t != [] && t[0] in s;
      var i :| 0 <= i < |t| && t[i] == s[0];
      var j :| 0 <= j < |s| && s[j] == t[0];
      LessTotal(s[0], t[0]);
      assert s[0] == t[0];
      forall x
        ensures x in s[1..] <==> x in t[1..]
      {
        TailHas(s, x);
        TailHas(t, x);
      }
      AscendingUnique(s[1..], t[1..]);
    }
  }

  lemma TailHas(s: seq<string>, x: string)
    requires Ascending(s) && s != []
    ensures x in s[1..] <==> x in s && x != s[0]
  {
    LessTotal(s[0], s[0]);
    if x in s[1..] {
      var i :| 0 <= i < |s| - 1 && s[1..][i] == x;
      assert s[i + 1] == x;
    }
  }

  /** The keys of a set, sorted. */
  method SortedKeys(keys: set<string>) returns (out: seq<string>)
    ensures Ascending(out) && forall k :: k in out <==> k in keys
  {
    out := [];
    var rest := keys;
    while rest != {}
      invariant rest <= keys && Ascending(out) && forall k :: k in out <==> k in keys - rest
      decreases |rest|
    {
      var key :| key in rest;
      rest := rest - {key};
      out := Insert(out, key);
    }
  }

  method Insert(s: seq<string>, key: string) returns (out: seq<string>)
    requires Ascending(s) && key !in s
    ensures Ascending(out) && forall k :: k in out <==> k in s || k == key
  {
    var i := 0;
    while i < |s| && Less(s[i], key)
      invariant 0 <= i <= |s| && forall j :: 0 <= j < i ==> Less(s[j], key)
    {
      i := i + 1;
    }
    out := s[..i] + [key] + s[i..];
    InsertAscending(s, i, key);
  }

  lemma InsertAscending(s: seq<string>, i: nat, key: string)
    requires Ascending(s) && key !in s && i <= |s|
    requires (forall j :: 0 <= j < i ==> Less(s[j], key)) && (i < |s| ==> !Less(s[i], key))
    ensures Ascending(s[..i] + [key] + s[i..])
  {
    hide Less;
    if i < |s| {
      LessTotal(s[i], key);
      forall j | i <= j < |s|
        ensures Less(key, s[j])
      {
        if i < j {
          LessTransitive(key, s[i], s[j]);
        }
      }
    }
  }

  /** Allows on a list that may be absent: nothing is allowed. */
  predicate Allows(ceiling: seq<string>, capability: string) {
    capability in ceiling
  }

  /** What a customer ceiling, if there is one, leaves of a certified ceiling. */
  ghost predicate IsNarrowed(ceiling: seq<string>, customer: Option<seq<string>>, out: seq<string>) {
    Ascending(out)
    && forall c :: c in out <==> c in ceiling && (customer.Some? ==> c in customer.value)
  }

  method Normalized(ceiling: seq<string>) returns (out: seq<string>)
    ensures IsNarrowed(ceiling, None, out)
  {
    var seen: set<string> := {};
    for i := 0 to |ceiling|
      invariant forall c :: c in seen <==> c in ceiling[..i]
    {
      seen := seen + {ceiling[i]};
    }
    assert ceiling[..|ceiling|] == ceiling;
    out := SortedKeys(seen);
  }

  method Narrow(ceiling: seq<string>, customer: Option<seq<string>>) returns (out: seq<string>)
    ensures IsNarrowed(ceiling, customer, out)
    ensures forall c :: c in out <==> c in ceiling && (customer.Some? ==> c in customer.value)
    ensures forall i, j :: 0 <= i < j < |out| ==> Less(out[i], out[j])
  {
    if customer.None? {
      out := Normalized(ceiling);
      return;
    }
    var keep: set<string> := {};
    for i := 0 to |ceiling|
      invariant forall c :: c in keep <==> c in ceiling[..i] && c in customer.value
    {
      if Allows(customer.value, ceiling[i]) {
        keep := keep + {ceiling[i]};
      }
    }
    assert ceiling[..|ceiling|] == ceiling;
    out := SortedKeys(keep);
  }

  /** Narrowing never adds: shrinking the customer ceiling shrinks the result, narrowing twice is narrowing by
      both, and the result is a fixed list however the ceilings were ordered or repeated. */
  lemma NarrowOnlyRemoves(
      ceiling: seq<string>, small: seq<string>, large: seq<string>, a: seq<string>, b: seq<string>, c: seq<string>)
    requires IsNarrowed(ceiling, Some(small), a) && IsNarrowed(ceiling, Some(large), b)
    requires forall x :: x in small ==> x in large
    requires IsNarrowed(b, Some(small), c)
    ensures forall x :: x in a ==> x in b && x in ceiling
    ensures c == a
  {
    AscendingUnique(a, c);
  }
}
