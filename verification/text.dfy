/** Strings as the sources use them: sequences of characters, split, joined and trimmed. */
module Text {

  /** The characters Go's unicode.IsSpace accepts. */
  predicate IsSpace(c: char) {
    c in {'\t', '\n', '\U{000B}', '\U{000C}', '\r', ' ', '\U{0085}', '\U{00A0}', '\U{1680}', '\U{2028}', '\U{2029}',
          '\U{202F}', '\U{205F}', '\U{3000}'}
    || '\U{2000}' <= c <= '\U{200A}'
  }

  /** By code point: the ASCII blanks, next line, and what Unicode calls white space. */
  lemma SpaceCodes(c: char)
    ensures IsSpace(c) <==>
              var n := c as int;
              9 <= n <= 13 || 0x2000 <= n <= 0x200A
              || n in {32, 0x85, 0xA0, 0x1680, 0x2028, 0x2029, 0x202F, 0x205F, 0x3000}
  {
  }

  function TrimLeft(s: string): (t: string)
    ensures t != "" ==> !IsSpace(t[0])
    ensures |t| <= |s| && t == s[|s| - |t|..]
    ensures forall i :: 0 <= i < |s| - |t| ==> IsSpace(s[i])
  {
    if s == "" || !IsSpace(s[0]) then s else TrimLeft(s[1..])
  }

  function TrimRight(s: string): (t: string)
    ensures t != "" ==> !IsSpace(t[|t| - 1])
    ensures t <= s
    ensures forall i :: |t| <= i < |s| ==> IsSpace(s[i])
  {
    if s == "" || !IsSpace(s[|s| - 1]) then s else TrimRight(s[..|s| - 1])
  }

  function TrimSpace(s: string): string {
    TrimRight(TrimLeft(s))
  }

  predicate Blank(s: string) {
    forall i :: 0 <= i < |s| ==> IsSpace(s[i])
  }

  lemma TrimSpaceBlank(s: string)
    ensures TrimSpace(s) == "" <==> Blank(s)
  {
    var t := TrimLeft(s);
    if t != "" {
      assert s[|s| - |t|] == t[0] && !IsSpace(t[0]);
      assert !IsSpace(t[0]) && TrimRight(t) != "";
    }
  }

  /** Present and not padded. */
  predicate Canonical(s: string) {
    s != "" && TrimSpace(s) == s
  }

  // ---------------------------------------------------------------- splitting

  function Split(s: string, sep: char): (parts: seq<string>)
    ensures parts != []
  {
    if s == "" then [""]
    else
      var rest := Split(s[1..], sep);
      if s[0] == sep then [""] + rest else [[s[0]] + rest[0]] + rest[1..]
  }

  function Join(parts: seq<string>, sep: char): string {
    if parts == [] then ""
    else if |parts| == 1 then parts[0]
    else parts[0] + [sep] + Join(parts[1..], sep)
  }

  lemma {:induction false} JoinSplit(s: string, sep: char)
    ensures Join(Split(s, sep), sep) == s
  {
    if s != "" {
      var rest := Split(s[1..], sep);
      JoinSplit(s[1..], sep);
      if s[0] == sep {
        assert ([""] + rest)[1..] == rest;
      } else {
        assert ([[s[0]] + rest[0]] + rest[1..])[1..] == rest[1..];
      }
    }
  }

  lemma {:induction false} SplitParts(s: string, sep: char)
    ensures forall i :: 0 <= i < |Split(s, sep)| ==> sep !in Split(s, sep)[i]
  {
    if s != "" {
      SplitParts(s[1..], sep);
    }
  }

  lemma {:induction false} SplitConcat(a: string, b: string, sep: char)
    ensures Split(a + [sep] + b, sep) == Split(a, sep) + Split(b, sep)
  {
    var s := a + [sep] + b;
    if a == "" {
      assert s[1..] == b;
    } else {
      assert s[1..] == a[1..] + [sep] + b;
      SplitConcat(a[1..], b, sep);
    }
  }

  /** A character other than the separator is in a string exactly if it is in one of the parts. */
  lemma {:induction false} SplitKeepsChars(s: string, sep: char, c: char)
    requires c != sep
    ensures c in s <==> exists i :: 0 <= i < |Split(s, sep)| && c in Split(s, sep)[i]
  {
    if s != "" {
      var rest, parts := Split(s[1..], sep), Split(s, sep);
      SplitKeepsChars(s[1..], sep, c);
      assert c in s <==> c == s[0] || c in s[1..];
      if s[0] == sep {
        assert forall i :: 0 <= i < |rest| ==> parts[i + 1] == rest[i];
      } else {
        assert parts[0] == [s[0]] + rest[0] && forall i :: 0 < i < |rest| ==> parts[i] == rest[i];
        assert c in parts[0] <==> c == s[0] || c in rest[0];
      }
    }
  }

  lemma {:induction false} SplitWhole(s: string, sep: char)
    requires sep !in s
    ensures Split(s, sep) == [s]
  {
    if s != "" {
      assert s[0] in s;
      SplitWhole(s[1..], sep);
      assert [s[0]] + s[1..] == s;
    }
  }

  /** A single part is the whole string, which then has no separator in it. */
  lemma SplitSingle(s: string, sep: char)
    requires |Split(s, sep)| == 1
    ensures sep !in s && Split(s, sep) == [s]
  {
    JoinSplit(s, sep);
    SplitParts(s, sep);
    assert Split(s, sep)[0] == s;
  }

  lemma {:induction false} SplitPrefix(head: string, tail: string, sep: char)
    requires sep !in head
    ensures Split(head + [sep] + tail, sep) == [head] + Split(tail, sep)
  {
    var whole := head + [sep] + tail;
    if head == "" {
      assert whole[1..] == tail;
    } else {
      assert whole[1..] == head[1..] + [sep] + tail && head[0] in head;
      SplitPrefix(head[1..], tail, sep);
      var rest := Split(whole[1..], sep);
      assert rest[0] == head[1..] && rest[1..] == Split(tail, sep);
      assert [head[0]] + head[1..] == head;
    }
  }

  lemma {:induction false} SplitJoin(parts: seq<string>, sep: char)
    requires parts != [] && forall i :: 0 <= i < |parts| ==> sep !in parts[i]
    ensures Split(Join(parts, sep), sep) == parts
  {
    if |parts| == 1 {
      SplitWhole(parts[0], sep);
    } else {
      SplitJoin(parts[1..], sep);
      SplitPrefix(parts[0], Join(parts[1..], sep), sep);
    }
  }
}

/** Fields framed by fixed-width big-endian length prefixes. */
module LengthPrefix {

  function Power256(width: nat): (p: nat)
    ensures p >= 1
  {
    if width == 0 then 1 else 256 * Power256(width - 1)
  }

  function BigEndian(n: nat, width: nat): (bytes: string)
    ensures |bytes| == width
  {
    if width == 0 then "" else BigEndian(n / 256, width - 1) + [(n % 256) as char]
  }

  lemma {:induction false} BigEndianInjective(m: nat, n: nat, width: nat)
    requires m < Power256(width) && n < Power256(width) && BigEndian(m, width) == BigEndian(n, width)
    ensures m == n
  {
    if width > 0 {
      var a, b := BigEndian(m, width), BigEndian(n, width);
      assert a[..width - 1] == BigEndian(m / 256, width - 1) && b[..width - 1] == BigEndian(n / 256, width - 1);
      assert a[width - 1] == (m % 256) as char && b[width - 1] == (n % 256) as char;
      assert m % 256 == n % 256;
      BigEndianInjective(m / 256, n / 256, width - 1);
    }
  }

  /** Every field after its length; a length that does not fit the prefix wraps. */
  function Framed(fields: seq<string>, width: nat): string {
    if fields == [] then "" else BigEndian(|fields[0]|, width) + fields[0] + Framed(fields[1..], width)
  }

  lemma {:induction false} FramedAppend(fields: seq<string>, last: string, width: nat)
    ensures Framed(fields + [last], width) == Framed(fields, width) + BigEndian(|last|, width) + last
  {
    var more := fields + [last];
    if fields == [] {
      assert more[1..] == [];
    } else {
      assert more[1..] == fields[1..] + [last];
      FramedAppend(fields[1..], last, width);
    }
  }

  lemma {:induction false} FramedConcat(fields: seq<string>, more: seq<string>, width: nat)
    ensures Framed(fields + more, width) == Framed(fields, width) + Framed(more, width)
    decreases |fields|
  {
    if fields == [] {
      assert fields + more == more;
    } else {
      assert (fields + more)[1..] == fields[1..] + more;
      FramedConcat(fields[1..], more, width);
    }
  }

  lemma FramedOne(field: string, width: nat)
    ensures Framed([field], width) == BigEndian(|field|, width) + field
  {
    assert [field][1..] == [];
  }

  method Frame(fields: seq<string>, width: nat) returns (buf: string)
    ensures buf == Framed(fields, width)
  {
    buf := "";
    for i := 0 to |fields|
      invariant buf == Framed(fields[..i], width)
    {
      FramedAppend(fields[..i], fields[i], width);
      assert fields[..i + 1] == fields[..i] + [fields[i]];
      buf := buf + BigEndian(|fields[i]|, width);
      buf := buf + fields[i];
    }
    assert fields[..|fields|] == fields;
  }

  predicate Fit(fields: seq<string>, width: nat) {
    forall f :: f in fields ==> |f| < Power256(width)
  }

  /** No field can shift a boundary: equally many framed fields are equal only field by field. */
  lemma {:induction false} FramedInjective(fields: seq<string>, others: seq<string>, width: nat)
    requires |fields| == |others| && Fit(fields, width) && Fit(others, width)
    requires Framed(fields, width) == Framed(others, width)
    ensures fields == others
  {
    if fields != [] {
      var f, g := fields[0], others[0];
      var p, q := BigEndian(|f|, width), BigEndian(|g|, width);
      var s := Framed(fields, width);
      assert s[..width] == p && s[..width] == q;
      assert f in fields && g in others;
      BigEndianInjective(|f|, |g|, width);
      assert s[width..width + |f|] == f && s[width..width + |g|] == g;
      assert s[width + |f|..] == Framed(fields[1..], width) && s[width + |g|..] == Framed(others[1..], width);
      FramedInjective(fields[1..], others[1..], width);
    }
  }
}
