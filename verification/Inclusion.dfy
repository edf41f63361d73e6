/** What an inclusion proof for a leaf hash claims, and when that claim is unique. */
module Inclusion {
  import opened Prelude
  import opened Hashing
  import opened Config
  import opened Merkle
  import opened Pages
  import opened Towers
  import opened Safety
  import opened Conservation
  import opened QuerySpec

  datatype InclusionProof = InclusionProof(leaf: Leaf, pageId: nat, level: nat, proof: Proof, root: Hash)

  /** Some finalized leaf has the given hash. */
  ghost predicate Recorded(stored: seq<Page>, h: Hash) {
    exists l :: l in LeavesIn(stored) && l.hash == h
  }

  /** The answer places h at leaf j of stored page i, with that page's root and the tree path to j. */
  ghost predicate ProvesAt(stored: seq<Page>, a: InclusionProof, h: Hash, i: nat, j: nat) {
    && i < |stored| && j < |PageLeaves(stored[i])|
    && PageLeaves(stored[i])[j].hash == h
    && a.pageId == stored[i].id && a.level == 0 && a.root == stored[i].root
    && a.proof == ProofFor(LeafHashes(PageLeaves(stored[i])), j)
    && a.leaf in LeavesIn(stored) && a.leaf.hash == h
  }

  ghost predicate Proves(stored: seq<Page>, a: InclusionProof, h: Hash) {
    exists i: nat, j: nat :: ProvesAt(stored, a, h, i, j)
  }

  ghost predicate UniqueHashes(ls: seq<Leaf>) {
    forall i, j :: 0 <= i < j < |ls| ==> ls[i].hash != ls[j].hash
  }

  // ---------------------------------------------------------------- leaves by page and position

  function Offset(pages: seq<Page>, i: nat): nat
    requires i <= |pages|
  {
    |LeavesIn(pages[..i])|
  }

  lemma OffsetStep(pages: seq<Page>, i: nat)
    requires i < |pages|
    ensures Offset(pages, i + 1) == Offset(pages, i) + |PageLeaves(pages[i])|
  {
    assert DropLast(pages[..i + 1]) == pages[..i];
  }

  lemma {:induction false} OffsetMonotone(pages: seq<Page>, i: nat, j: nat)
    requires i <= j <= |pages|
    ensures Offset(pages, i) <= Offset(pages, j)
    decreases j - i
  {
    hide Offset;
    if i < j {
      OffsetStep(pages, j - 1);
      OffsetMonotone(pages, i, j - 1);
    }
  }

  lemma LeafPosition(pages: seq<Page>, i: nat, j: nat)
    requires i < |pages| && j < |PageLeaves(pages[i])|
    ensures Offset(pages, i) + j < |LeavesIn(pages)|
    ensures LeavesIn(pages)[Offset(pages, i) + j] == PageLeaves(pages[i])[j]
  {
    hide LeavesIn, PageLeaves;
    assert pages == pages[..i] + pages[i..] && pages[i..] == [pages[i]] + pages[i + 1..];
    LeavesInConcat(pages[..i], pages[i..]);
    LeavesInCons(pages[i..]);
  }

  /** With unique hashes, equal hashes sit on the same page at the same position. */
  lemma PositionUnique(pages: seq<Page>, i: nat, j: nat, m: nat, n: nat)
    requires UniqueHashes(LeavesIn(pages))
    requires i < |pages| && j < |PageLeaves(pages[i])| && m < |pages| && n < |PageLeaves(pages[m])|
    requires PageLeaves(pages[i])[j].hash == PageLeaves(pages[m])[n].hash
    ensures i == m && j == n
  {
    hide Offset, LeavesIn, PageLeaves;
    LeafPosition(pages, i, j);
    LeafPosition(pages, m, n);
    var a, b := Offset(pages, i) + j, Offset(pages, m) + n;
    assert a == b by {
      assert LeavesIn(pages)[a].hash == LeavesIn(pages)[b].hash;
    }
    OffsetStep(pages, i);
    OffsetStep(pages, m);
    if i < m {
      OffsetMonotone(pages, i + 1, m);
    } else if m < i {
      OffsetMonotone(pages, m + 1, i);
    }
  }

  /** With unique leaf hashes at most one answer is right. */
  lemma ProofUnique(stored: seq<Page>, a: InclusionProof, b: InclusionProof, h: Hash)
    requires UniqueHashes(LeavesIn(stored)) && Proves(stored, a, h) && Proves(stored, b, h)
    ensures a == b
  {
    hide LeavesIn, PageLeaves, ProofFor;
    var i: nat, j: nat :| ProvesAt(stored, a, h, i, j);
    var m: nat, n: nat :| ProvesAt(stored, b, h, m, n);
    PositionUnique(stored, i, j, m, n);
    var ls := LeavesIn(stored);
    var x :| 0 <= x < |ls| && ls[x] == a.leaf;
    var y :| 0 <= y < |ls| && ls[y] == b.leaf;
    assert x == y;
  }

  /** Against the page's stored root the proof verifies. */
  lemma ProofVerifies(cfg: Settings, t: Tier, a: InclusionProof, h: Hash)
    requires |cfg.levels| > 0 && TierOk(cfg, 0, t) && Proves(t.stored, a, h)
    ensures Verifies(h, a.proof, a.root)
  {
    hide ProofFor, Root, Verifies, LeavesIn, Extends;
    var i: nat, j: nat :| ProvesAt(t.stored, a, h, i, j);
    assert StoredOk(cfg, 0, t.stored[i]);
    var hashes := LeafHashes(PageLeaves(t.stored[i]));
    Completeness(hashes, j);
    assert t.stored[i].root == t.stored[i].Rehash().root == Root(hashes);
  }

  lemma RecordedOnPage(pages: seq<Page>, h: Hash)
    ensures Recorded(pages, h) <==> exists i :: 0 <= i < |pages| && h in LeafHashes(PageLeaves(pages[i]))
  {
    if Recorded(pages, h) {
      var l :| l in LeavesIn(pages) && l.hash == h;
      LeavesInMembers(pages, l);
      var i :| 0 <= i < |pages| && pages[i].content.Leaves? && l in pages[i].content.leaves;
      var j :| 0 <= j < |PageLeaves(pages[i])| && PageLeaves(pages[i])[j] == l;
      assert LeafHashes(PageLeaves(pages[i]))[j] == h;
    }
    forall i | 0 <= i < |pages| && h in LeafHashes(PageLeaves(pages[i])) ensures Recorded(pages, h) {
      var j :| 0 <= j < |PageLeaves(pages[i])| && LeafHashes(PageLeaves(pages[i]))[j] == h;
      LeavesInMembers(pages, PageLeaves(pages[i])[j]);
      assert PageLeaves(pages[i])[j] in LeavesIn(pages);
    }
  }
}
