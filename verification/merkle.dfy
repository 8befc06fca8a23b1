/** The tree hash and audit path of section 2.1 of RFC 6962, taken over digest strings. */
module Rfc6962 {
  import opened Digests
  import opened Powers

  const LEAF_PREFIX: Bytes := [0 as char]
  const NODE_PREFIX: Bytes := [1 as char]

  /** Whether the sibling digest sits to the right of the running digest. */
  datatype Sibling = Sibling(hash: string, right: bool)

  function LeafDigest(sha: Bytes -> Digest, value: string): Digest {
    sha(LEAF_PREFIX + value)
  }

  function NodeDigest(sha: Bytes -> Digest, left: string, right: string): Digest {
    sha(NODE_PREFIX + left + right)
  }

  /** Leaves and nodes are hashed after a byte 0 and a byte 1, so that no leaf is taken for a node. */
  lemma HashedStrings(sha: Bytes -> Digest, value: string, left: string, right: string)
    ensures LeafDigest(sha, value) == sha(['\0'] + value)
    ensures NodeDigest(sha, left, right) == sha([1 as char] + left + right)
    ensures ['\0'] + value != [1 as char] + left + right
  {
    assert (['\0'] + value)[0] != ([1 as char] + left + right)[0];
  }

  /** The largest power of two below n. */
  function Split(n: nat): (k: nat)
    requires n >= 2
    ensures 1 <= k < n <= 2 * k
    ensures n > 2 ==> k % 2 == 0
  {
    if n == 2 then 1 else 2 * Split((n + 1) / 2)
  }

  /** MTH of section 2.1, with the leaves already hashed. */
  function TreeHash(sha: Bytes -> Digest, level: seq<Digest>): Digest
    requires level != []
    decreases |level|
  {
    if |level| == 1 then level[0]
    else
      var k := Split(|level|);
      NodeDigest(sha, TreeHash(sha, level[..k]), TreeHash(sha, level[k..]))
  }

  /** PATH of section 2.1.1, in leaf-to-root order, each node with the side it sits on. */
  function AuditPath(sha: Bytes -> Digest, level: seq<Digest>, m: nat): seq<Sibling>
    requires m < |level|
    decreases |level|
  {
    if |level| == 1 then []
    else
      var k := Split(|level|);
      if m < k then AuditPath(sha, level[..k], m) + [Sibling(TreeHash(sha, level[k..]), true)]
      else AuditPath(sha, level[k..], m - k) + [Sibling(TreeHash(sha, level[..k]), false)]
  }

  function Leaves(sha: Bytes -> Digest, values: seq<string>): (leaves: seq<Digest>)
    ensures |leaves| == |values|
    ensures forall i :: 0 <= i < |values| ==> leaves[i] == LeafDigest(sha, values[i])
  {
    seq(|values|, i requires 0 <= i < |values| => LeafDigest(sha, values[i]))
  }

  function CeilLog2(n: nat): nat
    requires n >= 1
  {
    if n == 1 then 0 else 1 + CeilLog2((n + 1) / 2)
  }

  lemma {:induction false} SplitIsPowerOfTwo(n: nat) returns (e: nat)
    requires n >= 2
    ensures Split(n) == Pow2(e)
  {
    if n == 2 {
      e := 0;
    } else {
      var d := SplitIsPowerOfTwo((n + 1) / 2);
      e := d + 1;
    }
  }

  lemma {:induction false} CeilLog2Exact(n: nat)
    requires n >= 1
    ensures n <= Pow2(CeilLog2(n))
    ensures n > 1 ==> Pow2(CeilLog2(n) - 1) < n
  {
    if n > 1 {
      CeilLog2Exact((n + 1) / 2);
    }
  }

  lemma {:induction false} CeilLog2Monotone(m: nat, n: nat)
    requires 1 <= m <= n
    ensures CeilLog2(m) <= CeilLog2(n)
  {
    if m > 1 {
      CeilLog2Monotone((m + 1) / 2, (n + 1) / 2);
    }
  }

  lemma {:induction false} CeilLog2Split(n: nat)
    requires n >= 2
    ensures CeilLog2(n) == 1 + CeilLog2(Split(n))
  {
    if n > 2 {
      CeilLog2Split((n + 1) / 2);
      assert (Split(n) + 1) / 2 == Split((n + 1) / 2);
    }
  }

  /** A path through a tree of n leaves is never longer than the tree is deep. */
  lemma {:induction false} PathLength(sha: Bytes -> Digest, level: seq<Digest>, m: nat)
    requires m < |level|
    ensures |AuditPath(sha, level, m)| <= CeilLog2(|level|)
    decreases |level|
  {
    if |level| > 1 {
      var k := Split(|level|);
      CeilLog2Split(|level|);
      if m < k {
        PathLength(sha, level[..k], m);
      } else {
        PathLength(sha, level[k..], m - k);
        CeilLog2Monotone(|level| - k, k);
      }
    }
  }
}

/** The level-by-level algorithms of the source (sdk/go/audit/merkle.go), proved against RFC 6962. */
module Merkle {
  import opened Digests
  import opened Powers
  import opened Rfc6962
  import opened Wrappers

  datatype Witness = Witness(leafIndex: int, siblings: seq<Sibling>)

  datatype MerkleError = EmptyBatch | IndexOutOfRange

  /** Entry j of the level above: a pair of entries combined, or the odd tail promoted. */
  function Parent(sha: Bytes -> Digest, level: seq<Digest>, j: nat): Digest
    requires 2 * j < |level|
  {
    if 2 * j + 1 == |level| then level[2 * j] else NodeDigest(sha, level[2 * j], level[2 * j + 1])
  }

  function NextLevel(sha: Bytes -> Digest, level: seq<Digest>): (next: seq<Digest>)
    ensures |next| == (|level| + 1) / 2
    ensures forall j :: 0 <= j < |next| ==> next[j] == Parent(sha, level, j)
  {
    seq((|level| + 1) / 2, j requires 0 <= j < (|level| + 1) / 2 => Parent(sha, level, j))
  }

  /** What one level contributes to the witness of position pos. */
  function Step(level: seq<Digest>, pos: nat): seq<Sibling>
    requires pos < |level|
  {
    if pos % 2 == 1 then [Sibling(level[pos - 1], false)]
    else if pos + 1 < |level| then [Sibling(level[pos + 1], true)]
    else []
  }

  function Fold(sha: Bytes -> Digest, running: Digest, siblings: seq<Sibling>): Digest
    decreases |siblings|
  {
    if siblings == [] then running
    else Fold(sha, Combine(sha, running, siblings[0]), siblings[1..])
  }

  function Combine(sha: Bytes -> Digest, running: Digest, s: Sibling): Digest {
    if s.right then NodeDigest(sha, running, s.hash) else NodeDigest(sha, s.hash, running)
  }

  // ---------------------------------------------------------------- one level at a time

  lemma NextLevelSplits(sha: Bytes -> Digest, level: seq<Digest>, k: nat)
    requires k <= |level| && k % 2 == 0
    ensures NextLevel(sha, level)[..k / 2] == NextLevel(sha, level[..k])
    ensures NextLevel(sha, level)[k / 2..] == NextLevel(sha, level[k..])
  {
    var next := NextLevel(sha, level);
    forall j | 0 <= j < k / 2
      ensures next[j] == NextLevel(sha, level[..k])[j]
    {
      assert 2 * j + 1 < k;
    }
    var right := NextLevel(sha, level[k..]);
    forall j | 0 <= j < |right|
      ensures next[k / 2 + j] == right[j]
    {
      assert level[k..][2 * j] == level[k + 2 * j];
    }
  }

  /** Building one level does not change the RFC 6962 hash of the level. */
  lemma {:induction false} LevelKeepsTreeHash(sha: Bytes -> Digest, level: seq<Digest>)
    requires |level| >= 2
    ensures TreeHash(sha, NextLevel(sha, level)) == TreeHash(sha, level)
    decreases |level|
  {
    if |level| == 2 {
      LevelOfTwo(sha, level);
    } else {
      hide NextLevel, NodeDigest, TreeHash;
      var k := Split(|level|);
      NextLevelSplits(sha, level, k);
      LevelKeepsTreeHash(sha, level[..k]);
      if |level| - k >= 2 {
        LevelKeepsTreeHash(sha, level[k..]);
      } else {
        LevelOfOne(sha, level[k..]);
      }
      assert Split((|level| + 1) / 2) == k / 2;
      TreeHashUnfolds(sha, level);
      TreeHashUnfolds(sha, NextLevel(sha, level));
    }
  }

  lemma TreeHashUnfolds(sha: Bytes -> Digest, level: seq<Digest>)
    requires |level| >= 2
    ensures var k := Split(|level|);
            TreeHash(sha, level) == NodeDigest(sha, TreeHash(sha, level[..k]), TreeHash(sha, level[k..]))
  {
  }

  lemma LevelOfTwo(sha: Bytes -> Digest, level: seq<Digest>)
    requires |level| == 2
    ensures TreeHash(sha, NextLevel(sha, level)) == TreeHash(sha, level)
  {
  }

  lemma LevelOfOne(sha: Bytes -> Digest, level: seq<Digest>)
    requires |level| == 1
    ensures NextLevel(sha, level) == level
  {
  }

  /** How the split of a level relates to the split of the level above. */
  lemma NextLevelSplit(sha: Bytes -> Digest, level: seq<Digest>)
    requires |level| > 2
    ensures var k, next := Split(|level|), NextLevel(sha, level);
            && Split(|next|) == k / 2
            && next[..k / 2] == NextLevel(sha, level[..k])
            && next[k / 2..] == NextLevel(sha, level[k..])
            && TreeHash(sha, next[..k / 2]) == TreeHash(sha, level[..k])
            && TreeHash(sha, next[k / 2..]) == TreeHash(sha, level[k..])
  {
    var k := Split(|level|);
    NextLevelSplits(sha, level, k);
    LevelKeepsTreeHash(sha, level[..k]);
    if |level| - k >= 2 {
      LevelKeepsTreeHash(sha, level[k..]);
    } else {
      assert NextLevel(sha, level[k..]) == level[k..];
    }
  }

  lemma NextPath(sha: Bytes -> Digest, level: seq<Digest>, pos: nat)
    requires |level| > 2 && pos < |level|
    ensures var k := Split(|level|);
            AuditPath(sha, NextLevel(sha, level), pos / 2)
            == if pos < k
               then AuditPath(sha, NextLevel(sha, level[..k]), pos / 2)
                    + [Sibling(TreeHash(sha, level[k..]), true)]
               else AuditPath(sha, NextLevel(sha, level[k..]), (pos - k) / 2)
                    + [Sibling(TreeHash(sha, level[..k]), false)]
  {
    NextLevelSplit(sha, level);
    assert pos >= Split(|level|) ==> pos / 2 - Split(|level|) / 2 == (pos - Split(|level|)) / 2;
  }

  lemma PathUnfolds(sha: Bytes -> Digest, level: seq<Digest>, pos: nat)
    requires |level| >= 2 && pos < |level|
    ensures var k := Split(|level|);
            AuditPath(sha, level, pos)
            == if pos < k then AuditPath(sha, level[..k], pos) + [Sibling(TreeHash(sha, level[k..]), true)]
               else AuditPath(sha, level[k..], pos - k) + [Sibling(TreeHash(sha, level[..k]), false)]
  {
  }

  lemma PathOfTwo(sha: Bytes -> Digest, level: seq<Digest>, pos: nat)
    requires |level| == 2 && pos < 2
    ensures AuditPath(sha, level, pos)
         == Step(level, pos) + AuditPath(sha, NextLevel(sha, level), pos / 2)
  {
  }

  lemma PathOfOne(sha: Bytes -> Digest, level: seq<Digest>)
    requires |level| == 1
    ensures AuditPath(sha, level, 0) == AuditPath(sha, NextLevel(sha, level), 0) == []
  {
  }

  /** One level contributes exactly the lowest node of the RFC 6962 path. */
  lemma {:induction false} LevelKeepsPath(sha: Bytes -> Digest, level: seq<Digest>, pos: nat)
    requires |level| >= 2 && pos < |level|
    ensures AuditPath(sha, level, pos)
         == Step(level, pos) + AuditPath(sha, NextLevel(sha, level), pos / 2)
    decreases |level|
  {
    hide AuditPath, TreeHash, NextLevel, Split;
    if |level| == 2 {
      PathOfTwo(sha, level, pos);
    } else {
      var k := Split(|level|);
      PathUnfolds(sha, level, pos);
      NextPath(sha, level, pos);
      if pos < k {
        LevelKeepsPath(sha, level[..k], pos);
        assert Step(level, pos) == Step(level[..k], pos);
        Assoc(Step(level, pos), AuditPath(sha, NextLevel(sha, level[..k]), pos / 2),
              [Sibling(TreeHash(sha, level[k..]), true)]);
      } else {
        StepShift(level, k, pos);
        if |level| - k == 1 {
          PathOfOne(sha, level[k..]);
        } else {
          LevelKeepsPath(sha, level[k..], pos - k);
        }
        Assoc(Step(level, pos), AuditPath(sha, NextLevel(sha, level[k..]), (pos - k) / 2),
              [Sibling(TreeHash(sha, level[..k]), false)]);
      }
    }
  }

  lemma Assoc<T>(a: seq<T>, b: seq<T>, c: seq<T>)
    ensures (a + b) + c == a + (b + c)
  {
  }

  lemma StepShift(level: seq<Digest>, k: nat, pos: nat)
    requires k <= pos < |level| && k % 2 == 0
    ensures Step(level, pos) == Step(level[k..], pos - k)
  {
  }

  // ---------------------------------------------------------------- the source's methods

  method BuildLevel(sha: Bytes -> Digest, level: seq<Digest>) returns (next: seq<Digest>)
    ensures next == NextLevel(sha, level)
  {
    next := [];
    var i := 0;
    while i < |level|
      invariant 0 <= i <= |level| + 1
      invariant i % 2 == 0 && |next| == i / 2
      invariant forall j :: 0 <= j < |next| ==> 2 * j < |level| && next[j] == Parent(sha, level, j)
    {
      if i + 1 == |level| {
        next := next + [level[i]];
      } else {
        next := next + [NodeDigest(sha, level[i], level[i + 1])];
      }
      i := i + 2;
    }
  }

  method HashLeaves(sha: Bytes -> Digest, values: seq<string>) returns (level: seq<Digest>)
    ensures level == Leaves(sha, values)
  {
    level := [];
    for i := 0 to |values|
      invariant |level| == i
      invariant forall j :: 0 <= j < i ==> level[j] == LeafDigest(sha, values[j])
    {
      level := level + [LeafDigest(sha, values[i])];
    }
  }

  method MerkleRoot(sha: Bytes -> Digest, values: seq<string>) returns (r: Result<Digest, MerkleError>)
    ensures values == [] ==> r == Err(EmptyBatch)
    ensures values != [] ==> r == Ok(TreeHash(sha, Leaves(sha, values)))
  {
    if |values| == 0 {
      return Err(EmptyBatch);
    }
    var level := HashLeaves(sha, values);
    while |level| > 1
      invariant level != []
      invariant TreeHash(sha, level) == TreeHash(sha, Leaves(sha, values))
      decreases |level|
    {
      LevelKeepsTreeHash(sha, level);
      level := BuildLevel(sha, level);
    }
    return Ok(level[0]);
  }

  method MerkleProof(sha: Bytes -> Digest, values: seq<string>, index: int)
    returns (r: Result<Witness, MerkleError>)
    ensures !(0 <= index < |values|) ==> r == Err(IndexOutOfRange)
    ensures 0 <= index < |values| ==> r == Ok(Witness(index, AuditPath(sha, Leaves(sha, values), index)))
  {
    if index < 0 || index >= |values| {
      return Err(IndexOutOfRange);
    }
    var level := HashLeaves(sha, values);
    var siblings: seq<Sibling> := [];
    var pos: nat := index;
    while |level| > 1
      invariant pos < |level|
      invariant siblings + AuditPath(sha, level, pos) == AuditPath(sha, Leaves(sha, values), index)
      decreases |level|
    {
      LevelKeepsPath(sha, level, pos);
      ghost var before := siblings;
      var next := BuildLevel(sha, level);
      if pos % 2 == 0 {
        if pos + 1 < |level| {
          siblings := siblings + [Sibling(level[pos + 1], true)];
        }
      } else {
        siblings := siblings + [Sibling(level[pos - 1], false)];
      }
      assert siblings == before + Step(level, pos);
      Assoc(before, Step(level, pos), AuditPath(sha, next, pos / 2));
      pos := pos / 2;
      level := next;
    }
    assert siblings + [] == siblings;
    return Ok(Witness(index, siblings));
  }

  lemma {:induction false} FoldAppend(sha: Bytes -> Digest, running: Digest, a: seq<Sibling>, b: seq<Sibling>)
    ensures Fold(sha, running, a + b) == Fold(sha, Fold(sha, running, a), b)
    decreases |a|
  {
    if a == [] {
      assert a + b == b;
    } else {
      assert (a + b)[1..] == a[1..] + b;
      FoldAppend(sha, Combine(sha, running, a[0]), a[1..], b);
    }
  }

  method VerifyMerkleProof(sha: Bytes -> Digest, leafValue: string, root: string, proof: Witness)
    returns (ok: bool)
    ensures ok == (Fold(sha, LeafDigest(sha, leafValue), proof.siblings) == root)
  {
    var running := LeafDigest(sha, leafValue);
    var siblings := proof.siblings;
    for i := 0 to |siblings|
      invariant running == Fold(sha, LeafDigest(sha, leafValue), siblings[..i])
    {
      FoldAppend(sha, LeafDigest(sha, leafValue), siblings[..i], [siblings[i]]);
      assert siblings[..i + 1] == siblings[..i] + [siblings[i]];
      if siblings[i].right {
        running := NodeDigest(sha, running, siblings[i].hash);
      } else {
        running := NodeDigest(sha, siblings[i].hash, running);
      }
    }
    assert siblings[..|siblings|] == siblings;
    return running == root;
  }

  // ---------------------------------------------------------------- what the witnesses prove

  function Root(sha: Bytes -> Digest, values: seq<string>): Digest
    requires values != []
  {
    TreeHash(sha, Leaves(sha, values))
  }

  ghost predicate Proves(sha: Bytes -> Digest, value: string, siblings: seq<Sibling>, root: string) {
    Fold(sha, LeafDigest(sha, value), siblings) == root
  }

  /** Every string hashed while the tree over values is computed. */
  ghost function TreePreimages(sha: Bytes -> Digest, values: seq<string>): set<Bytes>
    requires values != []
    decreases |values|
  {
    if |values| == 1 then {LEAF_PREFIX + values[0]}
    else
      var k := Split(|values|);
      {NODE_PREFIX + Root(sha, values[..k]) + Root(sha, values[k..])}
      + TreePreimages(sha, values[..k]) + TreePreimages(sha, values[k..])
  }

  ghost function CombinePreimage(running: Digest, s: Sibling): Bytes {
    if s.right then NODE_PREFIX + running + s.hash else NODE_PREFIX + s.hash + running
  }

  ghost function FoldPreimages(sha: Bytes -> Digest, running: Digest, siblings: seq<Sibling>): set<Bytes>
    decreases |siblings|
  {
    if siblings == [] then {}
    else {CombinePreimage(running, siblings[0])}
         + FoldPreimages(sha, Combine(sha, running, siblings[0]), siblings[1..])
  }

  /** Every string hashed while a witness is checked. */
  ghost function ProofPreimages(sha: Bytes -> Digest, value: string, siblings: seq<Sibling>): set<Bytes> {
    {LEAF_PREFIX + value} + FoldPreimages(sha, LeafDigest(sha, value), siblings)
  }

  lemma LeavesSplit(sha: Bytes -> Digest, values: seq<string>, k: nat)
    requires k <= |values|
    ensures Leaves(sha, values)[..k] == Leaves(sha, values[..k])
    ensures Leaves(sha, values)[k..] == Leaves(sha, values[k..])
  {
  }

  lemma RootSplits(sha: Bytes -> Digest, values: seq<string>)
    requires |values| >= 2
    ensures var k := Split(|values|);
            Root(sha, values) == NodeDigest(sha, Root(sha, values[..k]), Root(sha, values[k..]))
  {
    LeavesSplit(sha, values, Split(|values|));
  }

  /** The last string hashed while the tree over values is computed. */
  ghost function RootPreimage(sha: Bytes -> Digest, values: seq<string>): Bytes
    requires values != []
  {
    if |values| == 1 then LEAF_PREFIX + values[0]
    else
      var k := Split(|values|);
      NODE_PREFIX + Root(sha, values[..k]) + Root(sha, values[k..])
  }

  lemma RootIsHashed(sha: Bytes -> Digest, values: seq<string>)
    requires values != []
    ensures Root(sha, values) == sha(RootPreimage(sha, values))
    ensures RootPreimage(sha, values) in TreePreimages(sha, values)
    ensures RootPreimage(sha, values)[0] == if |values| == 1 then LEAF_PREFIX[0] else NODE_PREFIX[0]
  {
    if |values| > 1 {
      RootSplits(sha, values);
    }
  }

  /** The witness built for a leaf proves that leaf. */
  lemma {:induction false} WitnessVerifies(sha: Bytes -> Digest, level: seq<Digest>, m: nat)
    requires m < |level|
    ensures Fold(sha, level[m], AuditPath(sha, level, m)) == TreeHash(sha, level)
    decreases |level|
  {
    if |level| > 1 {
      var k := Split(|level|);
      if m < k {
        WitnessVerifies(sha, level[..k], m);
        FoldAppend(sha, level[m], AuditPath(sha, level[..k], m), [Sibling(TreeHash(sha, level[k..]), true)]);
      } else {
        WitnessVerifies(sha, level[k..], m - k);
        FoldAppend(sha, level[m], AuditPath(sha, level[k..], m - k), [Sibling(TreeHash(sha, level[..k]), false)]);
      }
    }
  }

  lemma FoldLast(sha: Bytes -> Digest, running: Digest, siblings: seq<Sibling>)
    requires siblings != []
    ensures var init, last := siblings[..|siblings| - 1], siblings[|siblings| - 1];
            && Fold(sha, running, siblings) == Combine(sha, Fold(sha, running, init), last)
            && CombinePreimage(Fold(sha, running, init), last) in FoldPreimages(sha, running, siblings)
            && FoldPreimages(sha, running, init) <= FoldPreimages(sha, running, siblings)
    decreases |siblings|
  {
    var init, last := siblings[..|siblings| - 1], siblings[|siblings| - 1];
    if |siblings| == 1 {
      assert init == [];
      assert siblings[1..] == [];
    } else {
      FoldLast(sha, Combine(sha, running, siblings[0]), siblings[1..]);
      assert siblings[1..][..|siblings| - 2] == init[1..];
    }
  }

  /** Any accepted witness is the one witness of some leaf, and that leaf holds the proved value.
      The sibling strings are unconstrained: they need not even have the length of a digest. */
  lemma {:induction false} AcceptedWitnessIsGenuine(
      sha: Bytes -> Digest, values: seq<string>, value: string, siblings: seq<Sibling>) returns (m: nat)
    requires values != []
    requires Proves(sha, value, siblings, Root(sha, values))
    requires InjectiveOn(sha, TreePreimages(sha, values) + ProofPreimages(sha, value, siblings))
    ensures m < |values| && values[m] == value
    ensures siblings == AuditPath(sha, Leaves(sha, values), m)
    decreases |values|
  {
    hide TreeHash, NodeDigest, LeafDigest, Split;
    if siblings == [] {
      BareWitness(sha, values, value);
      return 0;
    }
    var init, last := siblings[..|siblings| - 1], siblings[|siblings| - 1];
    assert siblings == init + [last];
    TopOfWitness(sha, values, value, siblings);
    var k := Split(|values|);
    LeavesSplit(sha, values, k);
    if last.right {
      m := AcceptedWitnessIsGenuine(sha, values[..k], value, init);
    } else {
      var i := AcceptedWitnessIsGenuine(sha, values[k..], value, init);
      m := k + i;
    }
  }

  /** Only a batch of one has the empty witness. */
  lemma BareWitness(sha: Bytes -> Digest, values: seq<string>, value: string)
    requires values != [] && Proves(sha, value, [], Root(sha, values))
    requires InjectiveOn(sha, TreePreimages(sha, values) + ProofPreimages(sha, value, []))
    ensures values == [value]
  {
    RootIsHashed(sha, values);
    assert (LEAF_PREFIX + value)[0] == LEAF_PREFIX[0] != NODE_PREFIX[0];
    assert sha(LEAF_PREFIX + value) == sha(RootPreimage(sha, values));
    assert RootPreimage(sha, values) == LEAF_PREFIX + values[0];
    assert (LEAF_PREFIX + value)[1..] == value && (LEAF_PREFIX + values[0])[1..] == values[0];
  }

  /** The last sibling of an accepted witness is one half of the tree, and the rest proves the other half. */
  lemma TopOfWitness(sha: Bytes -> Digest, values: seq<string>, value: string, siblings: seq<Sibling>)
    requires values != [] && siblings != [] && Proves(sha, value, siblings, Root(sha, values))
    requires InjectiveOn(sha, TreePreimages(sha, values) + ProofPreimages(sha, value, siblings))
    ensures |values| > 1
    ensures var k, init, last := Split(|values|), siblings[..|siblings| - 1], siblings[|siblings| - 1];
            var near, far := if last.right then values[..k] else values[k..], if last.right then values[k..] else values[..k];
            && last.hash == Root(sha, far)
            && Proves(sha, value, init, Root(sha, near))
            && InjectiveOn(sha, TreePreimages(sha, near) + ProofPreimages(sha, value, init))
  {
    hide TreeHash, Split, Leaves, LeafDigest, Fold, FoldPreimages;
    var leaf := LeafDigest(sha, value);
    RootIsHashed(sha, values);
    var init, last := siblings[..|siblings| - 1], siblings[|siblings| - 1];
    var running := Fold(sha, leaf, init);
    var top := CombinePreimage(running, last);
    FoldLast(sha, leaf, siblings);
    assert top[0] == NODE_PREFIX[0] != LEAF_PREFIX[0];
    assert sha(top) == sha(RootPreimage(sha, values));
    assert top == RootPreimage(sha, values);
    assert |values| > 1;
    var k := Split(|values|);
    var left, right := Root(sha, values[..k]), Root(sha, values[k..]);
    if last.right {
      SamePrefix(NODE_PREFIX, running, last.hash, left, right);
    } else {
      SameSuffix(NODE_PREFIX, last.hash, running, left, right);
    }
  }

  lemma SamePrefix(p: string, a: Digest, b: string, c: Digest, d: string)
    requires p + a + b == p + c + d
    ensures a == c && b == d
  {
    var whole := p + a + b;
    assert a == whole[|p|..|p| + |a|] == c;
    assert b == whole[|p| + |a|..] == d;
  }

  lemma SameSuffix(p: string, a: string, b: Digest, c: Digest, d: Digest)
    requires p + a + b == p + c + d
    ensures a == c && b == d
  {
    var whole := p + a + b;
    assert |a| == |c|;
    assert a == whole[|p|..|p| + |a|] == c;
    assert b == whole[|p| + |a|..] == d;
  }

  /** The witness of position m proves exactly the value at position m. */
  lemma WitnessProvesExactly(sha: Bytes -> Digest, values: seq<string>, m: nat, value: string)
    requires m < |values|
    requires var path := AuditPath(sha, Leaves(sha, values), m);
             InjectiveOn(sha, ProofPreimages(sha, value, path) + ProofPreimages(sha, values[m], path))
    ensures Proves(sha, value, AuditPath(sha, Leaves(sha, values), m), Root(sha, values)) <==> value == values[m]
  {
    var path := AuditPath(sha, Leaves(sha, values), m);
    WitnessVerifies(sha, Leaves(sha, values), m);
    if Proves(sha, value, path, Root(sha, values)) {
      FoldInjective(sha, LeafDigest(sha, value), LeafDigest(sha, values[m]), path);
      assert (LEAF_PREFIX + value)[1..] == value && (LEAF_PREFIX + values[m])[1..] == values[m];
    }
  }

  lemma {:induction false} FoldInjective(sha: Bytes -> Digest, a: Digest, b: Digest, siblings: seq<Sibling>)
    requires Fold(sha, a, siblings) == Fold(sha, b, siblings)
    requires InjectiveOn(sha, FoldPreimages(sha, a, siblings) + FoldPreimages(sha, b, siblings))
    ensures a == b
    decreases |siblings|
  {
    if siblings != [] {
      var s := siblings[0];
      FoldInjective(sha, Combine(sha, a, s), Combine(sha, b, s), siblings[1..]);
      if s.right {
        SamePrefix(NODE_PREFIX, a, s.hash, b, s.hash);
      } else {
        var whole := NODE_PREFIX + s.hash + a;
        assert whole == NODE_PREFIX + s.hash + b;
        assert a == whole[|NODE_PREFIX| + |s.hash|..] == b;
      }
    }
  }

  /** The claimed leaf index is not part of what a witness proves. */
  lemma LeafIndexIsNotBound(sha: Bytes -> Digest, values: seq<string>, m: nat, claimed: int)
    requires m < |values|
    ensures var w := Witness(m, AuditPath(sha, Leaves(sha, values), m));
            Proves(sha, values[m], w.(leafIndex := claimed).siblings, Root(sha, values))
  {
    WitnessVerifies(sha, Leaves(sha, values), m);
  }

  /** On which side the siblings of a witness sit, in leaf-to-root order. */
  function Sides(siblings: seq<Sibling>): seq<bool> {
    seq(|siblings|, i requires 0 <= i < |siblings| => siblings[i].right)
  }

  /** The position that the sides spell out in a tree of n leaves: from the root down, a sibling to the right means
      the left half. */
  function Position(n: nat, sides: seq<bool>): (m: nat)
    requires n >= 1
    ensures m < n
    decreases |sides|
  {
    if n == 1 || sides == [] then 0
    else
      var k, init := Split(n), sides[..|sides| - 1];
      if sides[|sides| - 1] then Position(k, init) else k + Position(n - k, init)
  }

  /** The sides of an audit path spell out the position it was made for, so no two positions share their sides. */
  lemma {:induction false} PathPosition(sha: Bytes -> Digest, level: seq<Digest>, m: nat)
    requires m < |level|
    ensures Position(|level|, Sides(AuditPath(sha, level, m))) == m
    decreases |level|
  {
    hide TreeHash, Split, Position, Sides;
    if |level| > 1 {
      var k := Split(|level|);
      if m < k {
        PathPosition(sha, level[..k], m);
        PositionOneUp(|level|, AuditPath(sha, level[..k], m), Sibling(TreeHash(sha, level[k..]), true));
      } else {
        PathPosition(sha, level[k..], m - k);
        PositionOneUp(|level|, AuditPath(sha, level[k..], m - k), Sibling(TreeHash(sha, level[..k]), false));
      }
    } else {
      PositionOfOne(Sides(AuditPath(sha, level, m)));
    }
  }

  lemma PositionOfOne(sides: seq<bool>)
    ensures Position(1, sides) == 0
  {
  }

  lemma PositionOneUp(n: nat, siblings: seq<Sibling>, top: Sibling)
    requires n >= 2
    ensures var k := Split(n);
            Position(n, Sides(siblings + [top]))
            == if top.right then Position(k, Sides(siblings)) else k + Position(n - k, Sides(siblings))
  {
    hide Split;
    var sides := Sides(siblings + [top]);
    assert sides[..|sides| - 1] == Sides(siblings);
  }

  /** When the claimed index of an accepted witness can be trusted: it is the position the witness was made for
      exactly if it is the one the sides of the siblings spell out for the size of the batch, and the leaf there
      holds the proved value. */
  lemma LeafIndexRightIff(sha: Bytes -> Digest, values: seq<string>, value: string, w: Witness)
    requires values != [] && Proves(sha, value, w.siblings, Root(sha, values))
    requires InjectiveOn(sha, TreePreimages(sha, values) + ProofPreimages(sha, value, w.siblings))
    ensures var m := Position(|values|, Sides(w.siblings));
            && values[m] == value
            && (0 <= w.leafIndex < |values| && w.siblings == AuditPath(sha, Leaves(sha, values), w.leafIndex)
                <==> w.leafIndex == m)
  {
    hide AuditPath, TreeHash, Proves, InjectiveOn, Sides, Position;
    var m := AcceptedWitnessIsGenuine(sha, values, value, w.siblings);
    PathPosition(sha, Leaves(sha, values), m);
    if 0 <= w.leafIndex < |values| && w.siblings == AuditPath(sha, Leaves(sha, values), w.leafIndex) {
      PathPosition(sha, Leaves(sha, values), w.leafIndex);
    }
  }

  /** Batches of any two lengths with one root are the same batch. */
  lemma {:induction false} RootBinds(sha: Bytes -> Digest, a: seq<string>, b: seq<string>)
    requires a != [] && b != []
    requires Root(sha, a) == Root(sha, b)
    requires InjectiveOn(sha, TreePreimages(sha, a) + TreePreimages(sha, b))
    ensures a == b
    decreases |a|
  {
    hide Root, TreeHash, Split;
    RootIsHashed(sha, a);
    RootIsHashed(sha, b);
    assert NODE_PREFIX[0] != LEAF_PREFIX[0];
    assert sha(RootPreimage(sha, a)) == sha(RootPreimage(sha, b));
    if |a| == 1 && |b| == 1 {
      assert (LEAF_PREFIX + a[0])[1..] == a[0] && (LEAF_PREFIX + b[0])[1..] == b[0];
    } else if |a| == 1 || |b| == 1 {
      assert false;
    } else {
      var i, j := Split(|a|), Split(|b|);
      SamePrefix(NODE_PREFIX, Root(sha, a[..i]), Root(sha, a[i..]), Root(sha, b[..j]), Root(sha, b[j..]));
      RootBinds(sha, a[..i], b[..j]);
      RootBinds(sha, a[i..], b[j..]);
      assert a == a[..i] + a[i..] && b == b[..j] + b[j..];
    }
  }

  /** Every witness the source builds has at most ceil(log2 n) siblings. */
  lemma WitnessIsShort(sha: Bytes -> Digest, values: seq<string>, m: nat)
    requires m < |values|
    ensures |AuditPath(sha, Leaves(sha, values), m)| <= CeilLog2(|values|)
    ensures |values| <= Pow2(CeilLog2(|values|)) && (|values| > 1 ==> Pow2(CeilLog2(|values|) - 1) < |values|)
  {
    PathLength(sha, Leaves(sha, values), m);
    CeilLog2Exact(|values|);
  }
}
