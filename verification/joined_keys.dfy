/** Composite keys of the in-memory stores: fields joined by a NUL (storeKey in
    services/agentnexus/internal/actions/model.go, certKey and clientKey in
    services/agentnexus/internal/agenttrust/model.go). */
module JoinedKeys {
  import opened Text

  const NUL := 0 as char

  function Pair(a: string, b: string): string {
    a + [NUL] + b
  }

  function Triple(a: string, b: string, c: string): string {
    Pair(a, Pair(b, c))
  }

  function Parts(s: string): (parts: seq<string>)
    ensures parts != []
  {
    Split(s, NUL)
  }

  function Glued(parts: seq<string>): string {
    Join(parts, NUL)
  }

  /** The pair that a joined key stands for if it is cut at its i-th NUL. */
  function PairAt(s: string, i: nat): (string, string)
    requires 0 < i < |Parts(s)|
  {
    (Glued(Parts(s)[..i]), Glued(Parts(s)[i..]))
  }

  /** The triple that a joined key stands for if it is cut at its i-th and its j-th NUL. */
  function TripleAt(s: string, i: nat, j: nat): (string, string, string)
    requires 0 < i < j < |Parts(s)|
  {
    (Glued(Parts(s)[..i]), Glued(Parts(s)[i..j]), Glued(Parts(s)[j..]))
  }

  lemma GluedParts(s: string)
    ensures Glued(Parts(s)) == s
    ensures forall i :: 0 <= i < |Parts(s)| ==> NUL !in Parts(s)[i]
  {
    JoinSplit(s, NUL);
    SplitParts(s, NUL);
  }

  lemma PartsGlued(parts: seq<string>)
    requires parts != [] && forall i :: 0 <= i < |parts| ==> NUL !in parts[i]
    ensures Parts(Glued(parts)) == parts
  {
    SplitJoin(parts, NUL);
  }

  lemma PartsOfPair(a: string, b: string)
    ensures Parts(Pair(a, b)) == Parts(a) + Parts(b)
  {
    SplitConcat(a, b, NUL);
  }

  /** Every pair is its joined key cut somewhere. */
  lemma PairIsCut(a: string, b: string)
    ensures var (s, i) := (Pair(a, b), |Parts(a)|); 0 < i < |Parts(s)| && PairAt(s, i) == (a, b)
  {
    hide Parts, Glued, Pair;
    PartsOfPair(a, b);
    GluedParts(a);
    GluedParts(b);
    var parts, i := Parts(Pair(a, b)), |Parts(a)|;
    assert parts[..i] == Parts(a) && parts[i..] == Parts(b);
  }

  /** Every cut of a key is a pair under that key, cut where it says. */
  lemma CutIsPair(s: string, i: nat)
    requires 0 < i < |Parts(s)|
    ensures var (a, b) := PairAt(s, i); Pair(a, b) == s && |Parts(a)| == i
  {
    hide Parts, Glued, Pair;
    var parts := Parts(s);
    GluedParts(s);
    PartsGlued(parts[..i]);
    PartsGlued(parts[i..]);
    var (a, b) := PairAt(s, i);
    PartsOfPair(a, b);
    assert parts[..i] + parts[i..] == parts;
    GluedParts(Pair(a, b));
  }

  lemma TripleIsCut(a: string, b: string, c: string)
    ensures var (s, i, j) := (Triple(a, b, c), |Parts(a)|, |Parts(a)| + |Parts(b)|);
            0 < i < j < |Parts(s)| && TripleAt(s, i, j) == (a, b, c)
  {
    hide Parts, Glued, Pair;
    PartsOfPair(b, c);
    PartsOfPair(a, Pair(b, c));
    GluedParts(a);
    GluedParts(b);
    GluedParts(c);
    var parts, i, j := Parts(Triple(a, b, c)), |Parts(a)|, |Parts(a)| + |Parts(b)|;
    assert parts == Parts(a) + Parts(b) + Parts(c);
    assert parts[..i] == Parts(a) && parts[i..j] == Parts(b) && parts[j..] == Parts(c);
  }

  lemma CutIsTriple(s: string, i: nat, j: nat)
    requires 0 < i < j < |Parts(s)|
    ensures var (a, b, c) := TripleAt(s, i, j);
            Triple(a, b, c) == s && |Parts(a)| == i && |Parts(b)| == j - i
  {
    hide Parts, Glued, Pair;
    var parts := Parts(s);
    GluedParts(s);
    PartsGlued(parts[..i]);
    PartsGlued(parts[i..j]);
    PartsGlued(parts[j..]);
    var (a, b, c) := TripleAt(s, i, j);
    PartsOfPair(b, c);
    PartsOfPair(a, Pair(b, c));
    assert parts[..i] + (parts[i..j] + parts[j..]) == parts;
    GluedParts(Triple(a, b, c));
  }

  lemma OnePart(s: string)
    ensures |Parts(s)| == 1 <==> NUL !in s
    ensures |Parts(s)| == 1 ==> Parts(s) == [s]
  {
    if NUL !in s {
      SplitWhole(s, NUL);
    } else if |Parts(s)| == 1 {
      SplitSingle(s, NUL);
    }
  }

  /** Pairs keep their boundary when neither first field, or neither second field, contains a NUL. */
  lemma PairInjective(a: string, b: string, u: string, v: string)
    requires Pair(a, b) == Pair(u, v)
    requires (NUL !in a && NUL !in u) || (NUL !in b && NUL !in v)
    ensures a == u && b == v
  {
    hide Parts, Glued, Pair;
    PartsOfPair(a, b);
    PartsOfPair(u, v);
    OnePart(a);
    OnePart(u);
    OnePart(b);
    OnePart(v);
    PairIsCut(a, b);
    PairIsCut(u, v);
  }

  /** Otherwise a NUL can move from one side to the other. */
  lemma PairMoves(a: string, b: string, c: string)
    ensures Pair(Pair(a, b), c) == Pair(a, Pair(b, c)) && Pair(a, b) != a
  {
  }

  /** Of all pairs a store can be given, no other is filed under the key of this one if and only if no other NUL of
      the key cuts it into a pair the store can be given. */
  lemma PairApartIff(acceptable: (string, string) -> bool, a: string, b: string)
    ensures (forall u, v :: acceptable(u, v) && Pair(u, v) == Pair(a, b) ==> (u, v) == (a, b))
       <==> (forall i :: 0 < i < |Parts(Pair(a, b))| && i != |Parts(a)| ==>
               var (u, v) := PairAt(Pair(a, b), i); !acceptable(u, v))
  {
    hide Parts, Pair, PairAt;
    var s := Pair(a, b);
    if forall i :: 0 < i < |Parts(s)| && i != |Parts(a)| ==> var (u, v) := PairAt(s, i); !acceptable(u, v) {
      forall u, v | acceptable(u, v) && Pair(u, v) == s
        ensures (u, v) == (a, b)
      {
        PairIsCut(a, b);
        PairIsCut(u, v);
      }
    } else {
      var i :| 0 < i < |Parts(s)| && i != |Parts(a)| && var (u, v) := PairAt(s, i); acceptable(u, v);
      CutIsPair(s, i);
      var (u, v) := PairAt(s, i);
      assert acceptable(u, v) && Pair(u, v) == s;
    }
  }
}
