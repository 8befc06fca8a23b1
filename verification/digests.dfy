/** Byte strings are `string`s whose characters stand for bytes.  SHA-256 followed by the
    "sha256:<hex>" rendering is a parameter `sha`; the type `Digest` records the shape, and so the
    common length, of every rendering, and collision freedom is only ever assumed on the finitely many strings
    that the computations under discussion really hash. */
module Digests {
  type Bytes = string

  const DIGEST_PREFIX := "sha256:"
  const DIGEST_LENGTH := 71  // the prefix and 64 hexadecimal digits

  predicate IsHexDigit(c: char) {
    '0' <= c <= '9' || 'a' <= c <= 'f'
  }

  /** The canonical reference shape sha256:<64 hex>. */
  predicate IsSha256Ref(s: string) {
    |s| == DIGEST_LENGTH && DIGEST_PREFIX <= s
    && forall i :: |DIGEST_PREFIX| <= i < |s| ==> IsHexDigit(s[i])
  }

  /** The prefix and 64 hexadecimal digits in lower case. */
  lemma Sha256RefForm(s: string)
    ensures IsSha256Ref(s) <==>
              && |s| == 7 + 64 && s[..7] == "sha256:"
              && forall i :: 7 <= i < 7 + 64 ==> '0' <= s[i] <= '9' || 'a' <= s[i] <= 'f'
  {
    assert |"sha256:"| == 7;
    if |s| == 7 + 64 {
      assert "sha256:" <= s <==> s[..7] == "sha256:";
    }
  }

  const ZERO_DIGEST := DIGEST_PREFIX + seq(64, _ => '0')

  type Digest = s: string | IsSha256Ref(s) witness ZERO_DIGEST

  ghost predicate InjectiveOn<X(!new), Y>(f: X -> Y, xs: set<X>) {
    forall x, y :: x in xs && y in xs && f(x) == f(y) ==> x == y
  }
}

module Wrappers {
  datatype Option<+T> = None | Some(value: T)

  datatype Result<+T, +E> = Ok(value: T) | Err(error: E)
}

module Powers {
  function Pow2(e: nat): nat {
    if e == 0 then 1 else 2 * Pow2(e - 1)
  }

  lemma {:induction false} Pow2Monotone(m: nat, n: nat)
    requires m <= n
    ensures Pow2(m) <= Pow2(n)
    decreases n
  {
    if m < n {
      Pow2Monotone(m, n - 1);
    }
  }
}
