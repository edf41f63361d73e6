/** Merkle trees that duplicate the last node of an odd level, their proofs, and their verifier. */
module Merkle {
  import opened Prelude
  import opened Hashing

  datatype Direction = Left | Right

  type Proof = seq<(Hash, Direction)>

  // ---------------------------------------------------------------- specification

  /** The right partner of node i: its right neighbour, or itself when it is the odd one out. */
  function Partner(level: seq<Hash>, i: nat): Hash
    requires i < |level|
  {
    if i + 1 < |level| then level[i + 1] else level[i]
  }

  function Halved(n: nat): nat {
    (n + 1) / 2
  }

  function ParentLevel(level: seq<Hash>): (up: seq<Hash>)
    ensures |up| == Halved(|level|)
  {
    seq(Halved(|level|), i requires 0 <= i < Halved(|level|) => PairDigest(level[2 * i], Partner(level, 2 * i)))
  }

  function Root(level: seq<Hash>): Hash
    requires |level| > 0
    decreases |level|
  {
    if |level| == 1 then level[0] else Root(ParentLevel(level))
  }

  function Depth(n: nat): nat {
    if n <= 1 then 0 else 1 + Depth(Halved(n))
  }

  function Sibling(level: seq<Hash>, i: nat): (Hash, Direction)
    requires i < |level|
  {
    if i % 2 == 0 then (Partner(level, i), Right) else (level[i - 1], Left)
  }

  function ProofFor(level: seq<Hash>, i: nat): (proof: Proof)
    requires i < |level|
    decreases |level|
  {
    if |level| == 1 then [] else [Sibling(level, i)] + ProofFor(ParentLevel(level), i / 2)
  }

  function Combine(h: Hash, step: (Hash, Direction)): Hash {
    match step.1
    case Left => PairDigest(step.0, h)
    case Right => PairDigest(h, step.0)
  }

  function Climb(h: Hash, proof: Proof): Hash
    decreases |proof|
  {
    if proof == [] then h else Climb(Combine(h, proof[0]), proof[1..])
  }

  function Verifies(h: Hash, proof: Proof, root: Hash): bool {
    Climb(h, proof) == root
  }

  function Pow2(d: nat): nat {
    if d == 0 then 1 else 2 * Pow2(d - 1)
  }

  /**
   The leaf position that the directions of a proof spell out in a tree over n leaves.
   A step may claim to be the right child of a duplicated last node, hence the clamp.
   */
  function Position(n: nat, proof: Proof): (i: nat)
    requires n > 0
    ensures i < n
    decreases |proof|
  {
    if proof == [] then 0
    else
      var above := Position(Halved(n), proof[1..]);
      Min(2 * above + (if proof[0].1.Left? then 1 else 0), n - 1)
  }

  // ---------------------------------------------------------------- completeness

  lemma ParentOfPair(level: seq<Hash>, i: nat)
    requires i < |level|
    ensures i / 2 < |ParentLevel(level)| && ParentLevel(level)[i / 2] == Combine(level[i], Sibling(level, i))
  {
    var up := ParentLevel(level);
    assert up[i / 2] == PairDigest(level[2 * (i / 2)], Partner(level, 2 * (i / 2)));
  }

  lemma {:induction false} Completeness(leaves: seq<Hash>, i: nat)
    requires i < |leaves|
    ensures Verifies(leaves[i], ProofFor(leaves, i), Root(leaves))
    ensures |ProofFor(leaves, i)| == Depth(|leaves|)
    ensures Position(|leaves|, ProofFor(leaves, i)) == i
    decreases |leaves|
  {
    if |leaves| > 1 {
      hide ParentLevel;
      var up := ParentLevel(leaves);
      ParentOfPair(leaves, i);
      Completeness(up, i / 2);
      var proof := ProofFor(leaves, i);
      assert proof[1..] == ProofFor(up, i / 2);
    }
  }

  lemma {:induction false} DepthIsLogarithm(n: nat)
    requires n > 0
    ensures n <= Pow2(Depth(n))
    ensures n > 1 ==> Pow2(Depth(n) - 1) < n
  {
    if n > 1 {
      DepthIsLogarithm(Halved(n));
      if n > 2 {
        assert Depth(Halved(n)) >= 1;
        assert Pow2(Depth(Halved(n))) == 2 * Pow2(Depth(Halved(n)) - 1);
      }
    }
  }

  // ---------------------------------------------------------------- soundness

  /** A proof of full depth that verifies against the root proves the leaf at its position. */
  lemma {:induction false} Soundness(leaves: seq<Hash>, h: Hash, proof: Proof)
    requires |leaves| > 0
    requires |proof| == Depth(|leaves|)
    requires Verifies(h, proof, Root(leaves))
    ensures h == leaves[Position(|leaves|, proof)]
    decreases |leaves|
  {
    if |leaves| > 1 {
      var up := ParentLevel(leaves);
      Soundness(up, Combine(h, proof[0]), proof[1..]);
      var above := Position(|up|, proof[1..]);
      assert up[above] == PairDigest(leaves[2 * above], Partner(leaves, 2 * above));
    }
  }

  lemma {:induction false} ClimbSplit(h: Hash, p: Proof, q: Proof)
    ensures Climb(h, p + q) == Climb(Climb(h, p), q)
    decreases |p|
  {
    if p == [] {
      assert p + q == q;
    } else {
      assert (p + q)[0] == p[0] && (p + q)[1..] == p[1..] + q;
      ClimbSplit(Combine(h, p[0]), p[1..], q);
    }
  }

  lemma {:induction false} ClimbMakesPairs(h: Hash, p: Proof)
    requires p != []
    ensures Climb(h, p).PairDigest?
    decreases |p|
  {
    if |p| > 1 {
      ClimbMakesPairs(Combine(h, p[0]), p[1..]);
    }
  }

  /** No leaf hash is itself the digest of a pair. */
  predicate PlainLeaves(leaves: seq<Hash>) {
    forall i :: 0 <= i < |leaves| ==> !leaves[i].PairDigest?
  }

  /** A proof longer than the tree is deep would make a leaf the digest of a pair. */
  lemma LongProofsFail(leaves: seq<Hash>, h: Hash, proof: Proof)
    requires |leaves| > 0 && PlainLeaves(leaves) && |proof| > Depth(|leaves|)
    ensures !Verifies(h, proof, Root(leaves))
  {
    var n := |proof| - Depth(|leaves|);
    assert proof == proof[..n] + proof[n..];
    ClimbSplit(h, proof[..n], proof[n..]);
    ClimbMakesPairs(h, proof[..n]);
    if Verifies(h, proof, Root(leaves)) {
      Soundness(leaves, Climb(h, proof[..n]), proof[n..]);
    }
  }

  /** A proof shorter than the tree is deep can prove an inner node. */
  lemma ShortProofOfInnerNode(leaves: seq<Hash>, d: nat) returns (h: Hash, proof: Proof)
    requires |leaves| > 0 && PlainLeaves(leaves) && d < Depth(|leaves|)
    ensures |proof| == d && Verifies(h, proof, Root(leaves)) && h !in leaves
  {
    hide Root, ProofFor;
    Completeness(leaves, 0);
    var whole := ProofFor(leaves, 0);
    var n := |whole| - d;
    h, proof := Climb(leaves[0], whole[..n]), whole[n..];
    assert whole == whole[..n] + proof;
    ClimbSplit(leaves[0], whole[..n], proof);
    ClimbMakesPairs(leaves[0], whole[..n]);
  }

  /** Verifying proofs of one length prove only leaves exactly when that length reaches the depth of the tree. */
  lemma SoundLengths(leaves: seq<Hash>, d: nat)
    requires |leaves| > 0 && PlainLeaves(leaves)
    ensures (forall h, proof | |proof| == d && Verifies(h, proof, Root(leaves)) :: h in leaves) <==> d >= Depth(|leaves|)
  {
    hide Root, Verifies;
    if d < Depth(|leaves|) {
      var h, proof := ShortProofOfInnerNode(leaves, d);
      assert |proof| == d && Verifies(h, proof, Root(leaves));
    } else {
      forall h, proof | |proof| == d && Verifies(h, proof, Root(leaves)) ensures h in leaves {
        if d == Depth(|leaves|) {
          Soundness(leaves, h, proof);
        } else {
          LongProofsFail(leaves, h, proof);
        }
      }
    }
  }

  /** Within one length the root determines every leaf. */
  lemma {:induction false} RootBinds(a: seq<Hash>, b: seq<Hash>)
    requires |a| == |b| > 0
    ensures Root(a) == Root(b) <==> a == b
    decreases |a|
  {
    if |a| > 1 {
      var up, vp := ParentLevel(a), ParentLevel(b);
      RootBinds(up, vp);
      if up == vp {
        forall i | 0 <= i < |a| ensures a[i] == b[i] {
          assert up[i / 2] == vp[i / 2];
          assert up[i / 2] == PairDigest(a[2 * (i / 2)], Partner(a, 2 * (i / 2)));
          assert vp[i / 2] == PairDigest(b[2 * (i / 2)], Partner(b, 2 * (i / 2)));
        }
      }
    }
  }

  /** The lists have the same leaf at every position that directions of the given number can spell out. */
  ghost predicate SameLeaves(a: seq<Hash>, b: seq<Hash>, d: nat)
    requires |a| > 0 && |b| > 0
  {
    forall proof: Proof :: |proof| == d ==> a[Position(|a|, proof)] == b[Position(|b|, proof)]
  }

  /** One more direction picks the left or the right half of a pair. */
  lemma PositionBelow(leaves: seq<Hash>, step: (Hash, Direction), proof: Proof)
    requires |leaves| > 1
    ensures var i := Position(Halved(|leaves|), proof);
      && Position(|leaves|, [step] + proof) == (if step.1.Left? then Min(2 * i + 1, |leaves| - 1) else 2 * i)
      && ParentLevel(leaves)[i] == PairDigest(leaves[2 * i], Partner(leaves, 2 * i))
      && leaves[Position(|leaves|, [step] + proof)] == (if step.1.Left? then Partner(leaves, 2 * i) else leaves[2 * i])
  {
    assert ([step] + proof)[1..] == proof;
  }

  lemma SameParents(a: seq<Hash>, b: seq<Hash>, d: nat)
    requires |a| > 1 && |b| > 1 && d > 0
    ensures SameLeaves(a, b, d) <==> SameLeaves(ParentLevel(a), ParentLevel(b), d - 1)
  {
    var up, vp := ParentLevel(a), ParentLevel(b);
    hide ParentLevel, Position, Partner;
    var left, right := (Zero, Left), (Zero, Right);
    if SameLeaves(a, b, d) {
      forall proof: Proof | |proof| == d - 1 ensures up[Position(|up|, proof)] == vp[Position(|vp|, proof)] {
        PositionBelow(a, left, proof);
        PositionBelow(b, left, proof);
        PositionBelow(a, right, proof);
        PositionBelow(b, right, proof);
        assert |[left] + proof| == d && |[right] + proof| == d;
      }
    }
    if SameLeaves(up, vp, d - 1) {
      forall proof: Proof | |proof| == d ensures a[Position(|a|, proof)] == b[Position(|b|, proof)] {
        assert proof == [proof[0]] + proof[1..];
        PositionBelow(a, proof[0], proof[1..]);
        PositionBelow(b, proof[0], proof[1..]);
      }
    }
  }

  lemma {:induction false} SameDepthRoots(a: seq<Hash>, b: seq<Hash>)
    requires |a| > 0 && |b| > 0 && Depth(|a|) == Depth(|b|)
    ensures Root(a) == Root(b) <==> SameLeaves(a, b, Depth(|a|))
    decreases |a|
  {
    if |a| == 1 {
      DepthZero(|b|);
      assert forall proof: Proof :: |proof| == 0 ==> proof == [];
      var none: Proof := [];
      assert |none| == 0;
    } else {
      hide ParentLevel, SameLeaves;
      SameDepthRoots(ParentLevel(a), ParentLevel(b));
      SameParents(a, b, Depth(|a|));
    }
  }

  /** Lists of any lengths share a root exactly when their trees are equally deep and agree at every position. */
  lemma RootsEqualIff(a: seq<Hash>, b: seq<Hash>)
    requires |a| > 0 && |b| > 0 && PlainLeaves(a) && PlainLeaves(b)
    ensures Root(a) == Root(b) <==> Depth(|a|) == Depth(|b|) && SameLeaves(a, b, Depth(|a|))
  {
    hide Root, ProofFor, SameLeaves;
    Completeness(a, 0);
    Completeness(b, 0);
    if Depth(|a|) > Depth(|b|) {
      LongProofsFail(b, a[0], ProofFor(a, 0));
    } else if Depth(|b|) > Depth(|a|) {
      LongProofsFail(a, b[0], ProofFor(b, 0));
    } else {
      SameDepthRoots(a, b);
    }
  }

  /** In a longer list under an equally deep tree a leaf's directions still lead to its index. */
  lemma {:induction false} SameDirections(leaves: seq<Hash>, i: nat, n: nat)
    requires i < |leaves| <= n && Depth(n) == Depth(|leaves|)
    ensures Position(n, ProofFor(leaves, i)) == i
    decreases |leaves|
  {
    if |leaves| == 1 {
      DepthZero(n);
    } else {
      hide ParentLevel;
      var up := ParentLevel(leaves);
      SameDirections(up, i / 2, Halved(n));
      assert ProofFor(leaves, i)[1..] == ProofFor(up, i / 2);
    }
  }

  ghost predicate NoRepeats(leaves: seq<Hash>) {
    forall i, j :: 0 <= i < j < |leaves| ==> leaves[i] != leaves[j]
  }

  /** A longer list with the same root repeats one of its leaves. */
  lemma LongerListRepeats(a: seq<Hash>, b: seq<Hash>)
    requires 0 < |a| < |b| && PlainLeaves(a) && PlainLeaves(b) && Root(a) == Root(b)
    ensures !NoRepeats(b)
  {
    hide Root, ProofFor, Position;
    RootsEqualIff(a, b);
    var next := ProofFor(b, |a|);
    Completeness(b, |a|);
    var j := Position(|a|, next);
    assert b[|a|] == a[j];
    Completeness(a, j);
    SameDirections(a, j, |b|);
    assert b[j] == a[j];
  }

  /** Lists without repeats share a root exactly when they are equal, whatever their lengths. */
  lemma DistinctRootsEqualIff(a: seq<Hash>, b: seq<Hash>)
    requires |a| > 0 && |b| > 0 && PlainLeaves(a) && PlainLeaves(b) && NoRepeats(a) && NoRepeats(b)
    ensures Root(a) == Root(b) <==> a == b
  {
    hide Root, NoRepeats;
    if Root(a) == Root(b) {
      if |a| < |b| {
        LongerListRepeats(a, b);
      } else if |b| < |a| {
        LongerListRepeats(b, a);
      } else {
        RootBinds(a, b);
      }
    }
  }

  lemma RepeatedLastLeafSameParents(a: seq<Hash>, m: nat)
    requires |a| == 2 * m + 1
    ensures ParentLevel(a + [Last(a)]) == ParentLevel(a)
  {
    var b := a + [Last(a)];
    var up, vp := ParentLevel(a), ParentLevel(b);
    assert |up| == |vp| == m + 1;
    forall i | 0 <= i < m + 1 ensures vp[i] == up[i] {
      assert Partner(b, 2 * i) == Partner(a, 2 * i);
    }
  }

  /** So repeating the last leaf of an odd list keeps the root. */
  lemma RepeatedLastLeafKeepsRoot(a: seq<Hash>)
    requires |a| > 1 && |a| % 2 == 1
    ensures Root(a + [Last(a)]) == Root(a)
  {
    hide ParentLevel;
    RepeatedLastLeafSameParents(a, |a| / 2);
  }

  // ---------------------------------------------------------------- the program

  lemma SingleProof(level: seq<Hash>, i: nat)
    requires Depth(|level|) == 0 && i < |level|
    ensures ProofFor(level, i) == []
  {
  }

  lemma ProofStep(level: seq<Hash>, i: nat)
    requires Depth(|level|) > 0 && i < |level|
    ensures |level| > 1 && i / 2 < |ParentLevel(level)| && Depth(|ParentLevel(level)|) == Depth(|level|) - 1
    ensures ProofFor(level, i) == [Sibling(level, i)] + ProofFor(ParentLevel(level), i / 2)
  {
    hide ParentLevel;
  }

  datatype MerkleTree = MerkleTree(nodes: seq<seq<Hash>>) {
    /** The levels are those of the tree over the given leaves, from the leaves to the root. */
    predicate IsTreeOver(leaves: seq<Hash>) {
      && |leaves| > 0
      && |nodes| == Depth(|leaves|) + 1
      && nodes[0] == leaves
      && forall k :: 0 <= k < |nodes| - 1 ==> nodes[k] != [] && nodes[k + 1] == ParentLevel(nodes[k])
    }

    function GetRoot(): Option<Hash> {
      if |nodes| > 0 && |Last(nodes)| > 0 then Some(Last(nodes)[0]) else None
    }

    method GetProof(leafIndex: nat, ghost leaves: seq<Hash>) returns (r: Option<Proof>)
      requires IsTreeOver(leaves)
      ensures r == if leafIndex < |leaves| then Some(ProofFor(leaves, leafIndex)) else None
    {
      hide ParentLevel, ProofFor, Depth;
      if |nodes| == 0 || |nodes[0]| <= leafIndex {
        return None;
      }
      if |nodes| == 1 {
        SingleProof(leaves, leafIndex);
        return Some([]);
      }
      var proof: Proof := [];
      var i: nat := leafIndex;
      for levelIdx := 0 to |nodes| - 1
        invariant i < |nodes[levelIdx]|
        invariant Depth(|nodes[levelIdx]|) == |nodes| - 1 - levelIdx
        invariant proof + ProofFor(nodes[levelIdx], i) == ProofFor(leaves, leafIndex)
      {
        var level := nodes[levelIdx];
        var sibling, direction;
        if i % 2 == 0 {
          direction := Right;
          if i + 1 < |level| {
            sibling := level[i + 1];
          } else {
            sibling := level[i];
          }
        } else {
          direction := Left;
          sibling := level[i - 1];
        }
        assert nodes[levelIdx + 1] == ParentLevel(nodes[levelIdx]);
        ProofStep(level, i);
        assert (sibling, direction) == Sibling(level, i);
        proof := proof + [(sibling, direction)];
        i := i / 2;
      }
      SingleProof(nodes[|nodes| - 1], i);
      assert proof + [] == proof;
      return Some(proof);
    }
  }

  lemma DepthZero(n: nat)
    requires Depth(n) == 0
    ensures n <= 1
  {
  }

  /** The levels of a finished tree lead to its root. */
  lemma {:induction false} TopIsRoot(tree: MerkleTree, leaves: seq<Hash>)
    requires tree.IsTreeOver(leaves)
    ensures tree.GetRoot() == Some(Root(leaves))
    decreases |leaves|
  {
    if |leaves| > 1 {
      var rest := MerkleTree(tree.nodes[1..]);
      forall k | 0 <= k < |rest.nodes| - 1 ensures rest.nodes[k] != [] && rest.nodes[k + 1] == ParentLevel(rest.nodes[k]) {
        assert tree.nodes[k + 1] != [];
      }
      TopIsRoot(rest, ParentLevel(leaves));
    }
  }

  method PairUp(level: seq<Hash>) returns (up: seq<Hash>)
    ensures up == ParentLevel(level)
  {
    up := [];
    var i := 0;
    while i < |level|
      invariant i == 2 * |up| && i <= |level| + 1
      invariant forall j :: 0 <= j < |up| ==> up[j] == PairDigest(level[2 * j], Partner(level, 2 * j))
    {
      var left := level[i];
      var right := if i + 1 < |level| then level[i + 1] else left;
      up := up + [PairDigest(left, right)];
      i := i + 2;
    }
  }

  method NewTree(leafHashes: seq<Hash>) returns (r: Result<MerkleTree, string>)
    ensures r.Err? <==> leafHashes == []
    ensures r.Ok? ==> r.value.IsTreeOver(leafHashes) && r.value.GetRoot() == Some(Root(leafHashes))
  {
    if leafHashes == [] {
      return Err("Cannot construct Merkle tree with no leaf hashes");
    }
    var nodes := [leafHashes];
    while |Last(nodes)| > 1
      invariant |nodes| > 0 && nodes[0] == leafHashes && |Last(nodes)| > 0
      invariant forall k :: 0 <= k < |nodes| - 1 ==> nodes[k] != [] && nodes[k + 1] == ParentLevel(nodes[k])
      invariant |nodes| - 1 + Depth(|Last(nodes)|) == Depth(|leafHashes|)
      decreases |Last(nodes)|
    {
      var current := PairUp(Last(nodes));
      nodes := nodes + [current];
    }
    var tree := MerkleTree(nodes);
    TopIsRoot(tree, leafHashes);
    return Ok(tree);
  }

  method VerifyMerkleProof(leafHash: Hash, proof: Proof, expectedRoot: Hash) returns (ok: bool)
    ensures ok == Verifies(leafHash, proof, expectedRoot)
  {
    var current := leafHash;
    for i := 0 to |proof|
      invariant Climb(current, proof[i..]) == Climb(leafHash, proof)
    {
      var (sibling, direction) := proof[i];
      assert proof[i..][1..] == proof[i + 1..];
      match direction
      case Left => current := PairDigest(sibling, current);
      case Right => current := PairDigest(current, sibling);
    }
    return current == expectedRoot;
  }
}
