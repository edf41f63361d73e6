/** What the page-chain checker detects, over any pages whatever: its verdict, entry by entry, and altered pages. */
module Audits {
  import opened Prelude
  import opened Hashing
  import opened Config
  import opened Merkle
  import opened Patches
  import opened Pages
  import opened Towers
  import opened Safety
  import opened Conservation
  import opened Timeline
  import opened Integrity

  // ---------------------------------------------------------------- pages that carry their own hashes

  /** The hashes a page's root is taken over: its leaves' hashes, its child hashes, or those of its patches alone. */
  ghost predicate ContentHashes(c: Content, hashes: seq<Hash>) {
    match c
    case Leaves(ls) => |hashes| == |ls| && forall i :: 0 <= i < |ls| ==> hashes[i] == ls[i].hash
    case ThrallHashes(hs) => hashes == hs
    case ThrallHashesWithNetPatches(hs, _) => hashes == hs
    case NetPatches(ps) => hashes == PatchHashes(ps)
  }

  /** The page's root is that of its content, and its hash that of its own fields. */
  ghost predicate SelfHashed(p: Page) {
    && (exists hashes :: ContentHashes(p.content, hashes) && p.root == if hashes == [] then Zero else Root(hashes))
    && p.hash == PageDigest(p.id, p.level, p.start, p.end, p.root, p.prev, p.firstChild, p.lastChild)
  }

  lemma ContentHashesAre(c: Content, hashes: seq<Hash>)
    ensures ContentHashes(c, hashes) <==> hashes == HashList(c)
  {
  }

  lemma SelfHashedIff(p: Page)
    ensures SelfHashed(p) <==> p == p.Rehash()
  {
    hide Root, HashList, ContentHashes;
    ContentHashesAre(p.content, HashList(p.content));
    if SelfHashed(p) {
      var hashes :| ContentHashes(p.content, hashes) && p.root == if hashes == [] then Zero else Root(hashes);
      ContentHashesAre(p.content, hashes);
    }
  }

  // ---------------------------------------------------------------- the verdict

  /** Entry h is the last one before i in the range. */
  ghost predicate LastBefore(entries: seq<Entry>, from: Option<nat>, to: Option<nat>, h: int, i: int) {
    && 0 <= h < i <= |entries| && InIdRange(entries[h].page.id, from, to)
    && forall j :: h < j < i ==> !InIdRange(entries[j].page.id, from, to)
  }

  predicate InIdRange(id: nat, from: Option<nat>, to: Option<nat>) {
    && (match from case None => true case Some(a) => a <= id)
    && (match to case None => true case Some(b) => id <= b)
  }

  /** A page from the store carries its own hashes and names the last page before it in the range, if there is one. */
  ghost predicate EntryRight(entries: seq<Entry>, from: Option<nat>, to: Option<nat>, i: nat)
    requires i < |entries|
  {
    entries[i].fromStorage && InIdRange(entries[i].page.id, from, to) ==>
      && SelfHashed(entries[i].page)
      && forall h :: LastBefore(entries, from, to, h, i) ==> entries[i].page.prev == Some(entries[h].page.hash)
  }

  lemma LastBeforeAll(entries: seq<Entry>, from: Option<nat>, to: Option<nat>, h: int)
    requires entries != []
    ensures LastBefore(entries, from, to, h, |entries|) <==>
      if InIdRange(Last(entries).page.id, from, to) then h == |entries| - 1
      else LastBefore(DropLast(entries), from, to, h, |entries| - 1)
    ensures LastBefore(DropLast(entries), from, to, h, |entries| - 1) ==> 0 <= h < |entries| - 1 && DropLast(entries)[h] == entries[h]
  {
    hide InIdRange;
    var front, n := DropLast(entries), |entries| - 1;
    assert forall j :: 0 <= j < n ==> front[j] == entries[j];
    if LastBefore(entries, from, to, h, n + 1) && h < n {
      assert !InIdRange(entries[n].page.id, from, to);
    }
  }

  lemma {:induction false} LastSeenIs(entries: seq<Entry>, from: Option<nat>, to: Option<nat>)
    ensures LastSeen(entries, from, to).None? <==> forall h :: !LastBefore(entries, from, to, h, |entries|)
    ensures forall h :: LastBefore(entries, from, to, h, |entries|) ==>
      0 <= h < |entries| && LastSeen(entries, from, to) == Some(entries[h].page.hash)
  {
    if entries != [] {
      var front, n := DropLast(entries), |entries| - 1;
      LastSeenIs(front, from, to);
      SelectedIs(entries[n].page.id, from, to);
      hide LastBefore, InIdRange, Selected;
      LastBeforeAll(entries, from, to, n);
      forall h | LastBefore(entries, from, to, h, n + 1) ensures 0 <= h < n + 1 && LastSeen(entries, from, to) == Some(entries[h].page.hash) {
        LastBeforeAll(entries, from, to, h);
      }
      forall h | LastBefore(front, from, to, h, n) && !InIdRange(entries[n].page.id, from, to) ensures LastBefore(entries, from, to, h, n + 1) {
        LastBeforeAll(entries, from, to, h);
      }
    }
  }

  lemma ReportRight(entries: seq<Entry>, level: nat, from: Option<nat>, to: Option<nat>, i: nat)
    requires i < |entries| && InIdRange(entries[i].page.id, from, to)
    ensures ReportOn(entries[i], level, LastSeen(entries[..i], from, to)).valid <==> EntryRight(entries, from, to, i)
  {
    hide SelfHashed, RootOf, HashList, LastSeen;
    LastSeenIs(entries[..i], from, to);
    SelfHashedIff(entries[i].page);
    forall h ensures LastBefore(entries, from, to, h, i) <==> LastBefore(entries[..i], from, to, h, i) {
    }
    IssuesNone(entries[i].page, LastSeen(entries[..i], from, to));
  }

  lemma IssuesNone(p: Page, prev: Option<Hash>)
    ensures IssuesOf(p, prev) == [] <==> p == p.Rehash() && (prev.Some? ==> p.prev == prev)
  {
    hide RootOf;
    var a := if p.Rehash().root != p.root then ["merkle_root mismatch"] else [];
    var b := if p.Rehash().hash != p.hash then ["page_hash mismatch"] else [];
    var c := if prev.Some? && p.prev != prev then ["prev_page_hash mismatch"] else [];
    assert IssuesOf(p, prev) == a + b + c;
    assert |a + b + c| == |a| + |b| + |c|;
  }

  ghost predicate AllRight(entries: seq<Entry>, from: Option<nat>, to: Option<nat>) {
    forall i :: 0 <= i < |entries| ==> EntryRight(entries, from, to, i)
  }

  lemma AllRightSnoc(entries: seq<Entry>, from: Option<nat>, to: Option<nat>)
    requires entries != []
    ensures AllRight(entries, from, to) <==> AllRight(DropLast(entries), from, to) && EntryRight(entries, from, to, |entries| - 1)
  {
    hide EntryRight;
    forall i | 0 <= i < |entries| - 1 ensures EntryRight(DropLast(entries), from, to, i) <==> EntryRight(entries, from, to, i) {
      FrontRight(entries, from, to, i);
    }
  }

  /** Each issue is named exactly when that check fails; the page's hash is recomputed over the recomputed root. */
  lemma IssuesNamed(p: Page, prev: Option<Hash>, hashes: seq<Hash>)
    requires ContentHashes(p.content, hashes)
    ensures var root := if hashes == [] then Zero else Root(hashes);
      && ("merkle_root mismatch" in IssuesOf(p, prev) <==> p.root != root)
      && ("page_hash mismatch" in IssuesOf(p, prev)
          <==> p.hash != PageDigest(p.id, p.level, p.start, p.end, root, p.prev, p.firstChild, p.lastChild))
      && ("prev_page_hash mismatch" in IssuesOf(p, prev) <==> prev.Some? && p.prev != prev)
  {
    hide Root, HashList, ContentHashes;
    ContentHashesAre(p.content, hashes);
    var a := if p.Rehash().root != p.root then ["merkle_root mismatch"] else [];
    var b := if p.Rehash().hash != p.hash then ["page_hash mismatch"] else [];
    var c := if prev.Some? && p.prev != prev then ["prev_page_hash mismatch"] else [];
    assert IssuesOf(p, prev) == a + b + c;
    DifferentTexts();
  }

  lemma DifferentTexts()
    ensures "merkle_root mismatch" != "page_hash mismatch" && "page_hash mismatch" != "prev_page_hash mismatch"
    ensures "merkle_root mismatch" != "prev_page_hash mismatch"
  {
    assert "merkle_root mismatch"[0] != "page_hash mismatch"[0];
    assert "page_hash mismatch"[1] != "prev_page_hash mismatch"[1];
    assert "merkle_root mismatch"[0] != "prev_page_hash mismatch"[0];
  }

  /** Over any pages, the checker accepts exactly when every stored page in the range is right. */
  lemma {:induction false} AcceptedIff(entries: seq<Entry>, level: nat, from: Option<nat>, to: Option<nat>)
    ensures AllValid(Reports(entries, level, from, to)) <==> AllRight(entries, from, to)
  {
    hide EntryRight, ReportOn, LastSeen, AllRight;
    if entries == [] {
      NoneWrong(from, to);
    } else {
      var front, n := DropLast(entries), |entries| - 1;
      AcceptedIff(front, level, from, to);
      AllRightSnoc(entries, from, to);
      assert entries[..n] == front;
      SelectedIs(entries[n].page.id, from, to);
      if InIdRange(entries[n].page.id, from, to) {
        ReportRight(entries, level, from, to, n);
        AllValidSnoc(Reports(front, level, from, to), ReportOn(entries[n], level, LastSeen(front, from, to)));
      } else {
        UnselectedRight(entries, from, to, n);
        assert Reports(front, level, from, to) + [] == Reports(front, level, from, to);
      }
    }
  }

  lemma NoneWrong(from: Option<nat>, to: Option<nat>)
    ensures AllRight([], from, to)
  {
  }

  lemma SelectedIs(id: nat, from: Option<nat>, to: Option<nat>)
    ensures Selected(id, from, to) <==> InIdRange(id, from, to)
  {
  }

  lemma AllValidSnoc(reports: seq<Report>, r: Report)
    ensures AllValid(reports + [r]) <==> AllValid(reports) && r.valid
  {
    assert (reports + [r])[|reports|] == r;
    forall i | 0 <= i < |reports| ensures (reports + [r])[i] == reports[i] {
    }
  }

  lemma UnselectedRight(entries: seq<Entry>, from: Option<nat>, to: Option<nat>, i: nat)
    requires i < |entries| && !InIdRange(entries[i].page.id, from, to)
    ensures EntryRight(entries, from, to, i)
  {
  }

  lemma LastBeforeFront(entries: seq<Entry>, from: Option<nat>, to: Option<nat>, h: int, i: int)
    requires entries != [] && i < |entries|
    ensures LastBefore(DropLast(entries), from, to, h, i) <==> LastBefore(entries, from, to, h, i)
  {
    hide InIdRange;
    assert forall j :: 0 <= j < |entries| - 1 ==> DropLast(entries)[j] == entries[j];
  }

  lemma FrontRight(entries: seq<Entry>, from: Option<nat>, to: Option<nat>, i: nat)
    requires i < |entries| - 1
    ensures EntryRight(DropLast(entries), from, to, i) <==> EntryRight(entries, from, to, i)
  {
    hide SelfHashed, InIdRange;
    assert DropLast(entries)[i] == entries[i];
    forall h ensures LastBefore(DropLast(entries), from, to, h, i) <==> LastBefore(entries, from, to, h, i) {
      LastBeforeFront(entries, from, to, h, i);
    }
    forall h | LastBefore(entries, from, to, h, i) ensures DropLast(entries)[h] == entries[h] {
    }
    hide LastBefore;
  }

  function InRangeEntries(entries: seq<Entry>, from: Option<nat>, to: Option<nat>): seq<Entry> {
    if entries == [] then []
    else InRangeEntries(DropLast(entries), from, to) + if InIdRange(Last(entries).page.id, from, to) then [Last(entries)] else []
  }

  /** There is one report per page in the range, in the order of the pages, under its id. */
  lemma {:induction false} ReportsListed(entries: seq<Entry>, level: nat, from: Option<nat>, to: Option<nat>)
    ensures var listed := InRangeEntries(entries, from, to);
      var reports := Reports(entries, level, from, to);
      && |reports| == |listed|
      && forall i :: 0 <= i < |listed| ==>
        reports[i].id == listed[i].page.id && reports[i].level == level && (reports[i].valid <==> reports[i].issues == [])
  {
    if entries != [] {
      ReportsListed(DropLast(entries), level, from, to);
      SelectedIs(Last(entries).page.id, from, to);
    }
  }

  // ---------------------------------------------------------------- altered pages

  /** Everything a page's hash is taken over besides its root. */
  ghost predicate SameFields(p: Page, q: Page) {
    && p.id == q.id && p.level == q.level && p.start == q.start && p.end == q.end
    && p.prev == q.prev && p.firstChild == q.firstChild && p.lastChild == q.lastChild
  }

  /** A page altered under its old root and hash passes exactly when the root of its content and all hashed fields are
      what they were. */
  lemma AlteredIff(p: Page, q: Page)
    requires SelfHashed(p) && q.root == p.root && q.hash == p.hash
    ensures SelfHashed(q) <==> SameFields(p, q) && RootOf(HashList(q.content)) == RootOf(HashList(p.content))
  {
    hide SelfHashed, RootOf, HashList;
    SelfHashedIff(p);
    SelfHashedIff(q);
  }

  /** With as many leaves as before, every leaf must keep its hash. */
  lemma AlteredLeavesIff(p: Page, q: Page)
    requires SelfHashed(p) && q.root == p.root && q.hash == p.hash
    requires p.content.Leaves? && q.content.Leaves? && |p.content.leaves| == |q.content.leaves|
    ensures SelfHashed(q) <==>
      SameFields(p, q) && forall i :: 0 <= i < |p.content.leaves| ==> q.content.leaves[i].hash == p.content.leaves[i].hash
  {
    hide SelfHashed, Root;
    AlteredIff(p, q);
    var a, b := LeafHashes(p.content.leaves), LeafHashes(q.content.leaves);
    if a != [] {
      RootBinds(a, b);
    }
    if a == b {
      forall i | 0 <= i < |a| ensures q.content.leaves[i].hash == p.content.leaves[i].hash {
        assert a[i] == b[i];
      }
    }
  }

  /** With as many child hashes as before, every one must be what it was; what patches beside them say is not looked at. */
  lemma AlteredChildrenIff(p: Page, q: Page)
    requires SelfHashed(p) && q.root == p.root && q.hash == p.hash
    requires p.content.HasHashes() && q.content.HasHashes() && |p.content.hashes| == |q.content.hashes|
    ensures SelfHashed(q) <==> SameFields(p, q) && q.content.hashes == p.content.hashes
  {
    hide SelfHashed, Root;
    AlteredIff(p, q);
    if p.content.hashes != [] {
      RootBinds(p.content.hashes, q.content.hashes);
    }
  }

  lemma AlteredOthersRight(entries: seq<Entry>, from: Option<nat>, to: Option<nat>, i: nat, q: Page, j: nat)
    requires i < |entries| && j < |entries| && i != j && q.id == entries[i].page.id && q.hash == entries[i].page.hash
    ensures EntryRight(entries[i := Entry(q, true)], from, to, j) <==> EntryRight(entries, from, to, j)
  {
    hide SelfHashed, InIdRange;
    var altered := entries[i := Entry(q, true)];
    forall h ensures LastBefore(altered, from, to, h, j) <==> LastBefore(entries, from, to, h, j) {
      SameRange(entries, altered, from, to, h, j);
    }
    assert forall h :: 0 <= h < |entries| ==> altered[h].page.hash == entries[h].page.hash;
  }

  lemma SameRange(a: seq<Entry>, b: seq<Entry>, from: Option<nat>, to: Option<nat>, h: int, j: int)
    requires |a| == |b| && forall i :: 0 <= i < |a| ==> a[i].page.id == b[i].page.id
    ensures LastBefore(a, from, to, h, j) <==> LastBefore(b, from, to, h, j)
  {
    hide InIdRange;
  }

  lemma AlteredEntryRight(entries: seq<Entry>, from: Option<nat>, to: Option<nat>, i: nat, q: Page)
    requires i < |entries| && entries[i].fromStorage && EntryRight(entries, from, to, i)
    requires q.id == entries[i].page.id && q.root == entries[i].page.root && q.hash == entries[i].page.hash
    ensures EntryRight(entries[i := Entry(q, true)], from, to, i) <==> (InIdRange(q.id, from, to) ==>
      SameFields(entries[i].page, q) && RootOf(HashList(q.content)) == RootOf(HashList(entries[i].page.content)))
  {
    hide SelfHashed, InIdRange, RootOf, HashList;
    var altered := entries[i := Entry(q, true)];
    if InIdRange(q.id, from, to) {
      AlteredIff(entries[i].page, q);
      forall h ensures LastBefore(altered, from, to, h, i) <==> LastBefore(entries, from, to, h, i) {
        SameRange(entries, altered, from, to, h, i);
      }
    }
  }

  /** A stored page of a run, altered under its old id, root and hash: the checker accepts exactly when the page is out of
      the range, or the root of its content and all hashed fields are what they were. */
  lemma AlteredRunIff(cfg: Settings, steps: seq<Step>, k: nat, i: nat, q: Page, from: Option<nat>, to: Option<nat>)
    requires ValidSettings(cfg) && k < |cfg.levels| && i < |Run(cfg, steps).tiers[k].stored|
    requires !ActiveAlsoStored(Run(cfg, steps).tiers[k])
    requires var p := Run(cfg, steps).tiers[k].stored[i]; q.id == p.id && q.root == p.root && q.hash == p.hash
    ensures var t := Run(cfg, steps).tiers[k];
      AllValid(Reports(Entries(t)[i := Entry(q, true)], k, from, to)) <==> (InIdRange(q.id, from, to) ==>
        SameFields(t.stored[i], q) && RootOf(HashList(q.content)) == RootOf(HashList(t.stored[i].content)))
  {
    var t := Run(cfg, steps).tiers[k];
    var entries := Entries(t);
    assert entries[i] == Entry(t.stored[i], true);
    hide Run, AllValid, Reports, Entries, ActiveAlsoStored, EntryRight, RootOf, HashList, SameFields, InIdRange;
    CheckerAcceptsIff(cfg, steps, k, from, to);
    AcceptedIff(entries, k, from, to);
    var altered := entries[i := Entry(q, true)];
    AcceptedIff(altered, k, from, to);
    forall j | 0 <= j < |entries| && j != i ensures EntryRight(altered, from, to, j) {
      AlteredOthersRight(entries, from, to, i, q, j);
    }
    AlteredEntryRight(entries, from, to, i, q);
  }
}
