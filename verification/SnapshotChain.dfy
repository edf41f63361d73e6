/** Snapshot pages: what their hashes cover, which journal page they name, and when they form one chain. */
module SnapshotChains {
  import opened Prelude
  import opened Hashing
  import opened Config
  import opened Pages
  import opened Towers
  import opened Safety
  import opened Conservation
  import opened QuerySpec
  import opened Snapshots
  import opened SnapshotManagers
  import opened SnapshotRoots
  import opened SnapshotTargets

  // ---------------------------------------------------------------- what one page hash says

  /** Two snapshot pages agree in everything their hash is taken over. */
  ghost predicate HashedAlike(p: SnapshotPage, q: SnapshotPage) {
    && p.id == q.id && p.level == q.level && p.start == q.start && p.end == q.end && p.prev == q.prev
    && StateHashes(p.States()) == StateHashes(q.States())
  }

  /** Snapshot pages share a hash exactly when they have the same place, window, predecessor and states; the time the
      snapshot was taken as of, and the journal page that precedes it, play no part. */
  lemma PageHashIff(p: SnapshotPage, q: SnapshotPage)
    requires SnapshotPageOk(p) && SnapshotPageOk(q)
    ensures p.hash == q.hash <==> HashedAlike(p, q)
    ensures p.hash == q.hash ==> |p.States()| == |q.States()| && forall i :: 0 <= i < |p.States()| ==> p.States()[i].Agrees(q.States()[i])
  {
    hide RootOf, StateHashes, DistinctOwners;
    SnapshotRootBinds(p.States(), q.States());
  }

  /** A snapshot page's window starts when it was made and lasts as long as its level's, or a second where no level is set up. */
  lemma SnapshotWindow(p: SnapshotPage, cfg: Settings, tw: Tower, level: nat, earlier: seq<SnapshotPage>, at: Time, ids: Option<seq<string>>, created: Time)
    requires IsSnapshotPage(p, cfg, tw, level, earlier, at, ids, created)
    ensures p.start == created && p.payload.createdAt == created
    ensures level < |cfg.levels| ==> p.end == created + cfg.levels[level].duration * 1_000_000_000
    ensures level >= |cfg.levels| ==> p.end == created + 1_000_000_000
  {
  }

  // ---------------------------------------------------------------- the preceding journal page

  /** The preceding page is the one that ended last by the time, the higher level first, and the later id last of all. */
  lemma PrecedingEndsLast(pages: seq<Page>, at: Time, h: Option<Hash>)
    requires IsPreceding(h, pages, at)
    ensures h.None? <==> forall q :: q in pages ==> at < q.end
    ensures h.Some? ==> exists p :: p in pages && p.end <= at && p.hash == h.value && forall q :: q in pages && q.end <= at ==>
      q.end < p.end || (q.end == p.end && q.level < p.level) || (q.end == p.end && q.level == p.level && q.id <= p.id)
  {
  }

  /** The pages of level 0 among those gathered. */
  function GatheredLeafPages(tw: Tower, at: Time): seq<Page> {
    if tw.tiers == [] then [] else Filter(tw.tiers[0].stored, StartsBy(at))
  }

  /** A gathered page carries its own level and the digest of its own fields; level 0 is level 0. */
  lemma GatheredPage(cfg: Settings, tw: Tower, at: Time, p: Page)
    requires Sound(cfg, tw) && p in Gathered(tw.tiers, at)
    ensures p.hash == p.Digest() && (p.level == 0 <==> p in GatheredLeafPages(tw, at))
  {
    hide IdsSafe, RootOf, Extends, ActiveOk, Filter, Gathered;
    GatheredMembers(tw.tiers, at, p);
    var k :| 0 <= k < |tw.tiers| && p in tw.tiers[k].stored;
    var i :| 0 <= i < |tw.tiers[k].stored| && tw.tiers[k].stored[i] == p;
    assert TierOk(cfg, k, tw.tiers[k]) && StoredOk(cfg, k, tw.tiers[k].stored[i]);
    FilterMembers(tw.tiers[0].stored, StartsBy(at));
    if p in tw.tiers[0].stored {
      var j :| 0 <= j < |tw.tiers[0].stored| && tw.tiers[0].stored[j] == p;
      assert TierOk(cfg, 0, tw.tiers[0]) && StoredOk(cfg, 0, tw.tiers[0].stored[j]);
    }
  }

  lemma LeafPagesGathered(tw: Tower, at: Time, p: Page)
    requires p in GatheredLeafPages(tw, at)
    ensures p in Gathered(tw.tiers, at)
  {
    FilterMembers(tw.tiers[0].stored, StartsBy(at));
    GatheredMembers(tw.tiers, at, p);
  }

  /** Every page of a higher level that ended by the time ended before some level-0 page that did. */
  ghost predicate LeafPageEndsLast(tw: Tower, at: Time) {
    forall q :: q in Gathered(tw.tiers, at) && q.level > 0 && q.end <= at ==>
      exists p :: p in GatheredLeafPages(tw, at) && p.end <= at && p.end > q.end
  }

  /** The preceding page is the latest of level 0 exactly when one of those ended after all higher pages. */
  lemma PrecedingIsLeafPageIff(cfg: Settings, tw: Tower, at: Time, h: Option<Hash>)
    requires Sound(cfg, tw) && IsPreceding(h, Gathered(tw.tiers, at), at)
    ensures IsPreceding(h, GatheredLeafPages(tw, at), at) <==> LeafPageEndsLast(tw, at)
  {
    hide Sound, Gathered, GatheredLeafPages;
    var all, low := Gathered(tw.tiers, at), GatheredLeafPages(tw, at);
    forall p | p in low ensures p in all {
      LeafPagesGathered(tw, at, p);
    }
    if h.Some? {
      var w :| w in all && w.end <= at && w.hash == h.value && forall q :: q in all && q.end <= at ==> Outranks(w, q);
      GatheredPage(cfg, tw, at, w);
      if IsPreceding(h, low, at) {
        var v :| v in low && v.end <= at && v.hash == h.value;
        GatheredPage(cfg, tw, at, v);
        assert w.level == v.level == 0;
      }
    }
  }

  // ---------------------------------------------------------------- the chain

  ghost predicate Linked(pages: seq<SnapshotPage>) {
    forall i :: 0 < i < |pages| ==> pages[i].prev == Some(pages[i - 1].hash)
  }

  /** The clock never ran backwards between snapshots, the newest one aside. */
  predicate CreatedInOrder(pages: seq<SnapshotPage>) {
    forall i, j :: 0 <= i < j < |pages| - 1 ==> pages[i].start <= pages[j].start
  }

  lemma SamePage(pages: seq<SnapshotPage>, i: nat, j: nat)
    requires Series(pages) && i < |pages| && j < |pages| && pages[i].hash == pages[j].hash
    ensures i == j
  {
    hide RootOf, DistinctOwners, IsPrevious;
    assert SnapshotPageOk(pages[i]) && SnapshotPageOk(pages[j]);
    assert pages[i].id == pages[j].id;
  }

  lemma FirstHasNoPrevious(pages: seq<SnapshotPage>)
    requires Series(pages) && pages != []
    ensures pages[0].prev == None
  {
    hide SnapshotPageOk;
    assert IsPrevious(pages[0].prev, pages[..0]);
  }

  /** The index of the page that page i names as its predecessor. */
  ghost function PreviousIndex(pages: seq<SnapshotPage>, i: nat): (j: nat)
    requires Series(pages) && i < |pages| && pages[i].prev.Some?
    ensures j < i && pages[j].hash == pages[i].prev.value
    ensures forall k :: 0 <= k < i ==> NotOlder(pages[j], pages[k])
  {
    assert IsPrevious(pages[i].prev, pages[..i]);
    var p :| p in pages[..i] && p.hash == pages[i].prev.value && forall q :: q in pages[..i] ==> NotOlder(p, q);
    var j :| 0 <= j < |pages[..i]| && pages[..i][j] == p;
    assert forall k :: 0 <= k < i ==> pages[k] in pages[..i];
    j
  }

  lemma NamesSome(pages: seq<SnapshotPage>, i: nat)
    requires Series(pages) && 0 < i < |pages|
    ensures pages[i].prev.Some?
  {
    hide SnapshotPageOk;
    assert IsPrevious(pages[i].prev, pages[..i]);
  }

  /** Every snapshot names the one made just before it exactly when the clock never ran backwards before the newest. */
  lemma LinkedIff(pages: seq<SnapshotPage>)
    requires Series(pages)
    ensures Linked(pages) <==> CreatedInOrder(pages)
  {
    hide SnapshotPageOk, IsPrevious;
    if CreatedInOrder(pages) {
      forall i | 0 < i < |pages| ensures pages[i].prev == Some(pages[i - 1].hash) {
        NamesSome(pages, i);
        var j := PreviousIndex(pages, i);
        assert NotOlder(pages[j], pages[i - 1]);
      }
    }
    if Linked(pages) {
      forall i, j | 0 <= i < j < |pages| - 1 ensures pages[i].start <= pages[j].start {
        assert pages[j + 1].prev == Some(pages[j + 1 - 1].hash);
        SamePage(pages, PreviousIndex(pages, j + 1), j);
        assert NotOlder(pages[j], pages[i]);
      }
    }
  }

  // ---------------------------------------------------------------- what the newest hash says

  /** Page i and all pages behind it along the chain, oldest first. */
  ghost function Behind(pages: seq<SnapshotPage>, i: nat): (chain: seq<SnapshotPage>)
    requires Series(pages) && i < |pages|
    ensures 0 < |chain| <= i + 1
    decreases i
  {
    if pages[i].prev.None? then [pages[i]] else Behind(pages, PreviousIndex(pages, i)) + [pages[i]]
  }

  /** One snapshot page hash determines the states of every snapshot on the chain behind it, up to the microsecond. */
  lemma {:induction false} HeadBindsChain(a: seq<SnapshotPage>, i: nat, b: seq<SnapshotPage>, j: nat)
    requires Series(a) && Series(b) && i < |a| && j < |b| && a[i].hash == b[j].hash
    ensures |Behind(a, i)| == |Behind(b, j)|
    ensures forall k :: 0 <= k < |Behind(a, i)| ==> HashedAlike(Behind(a, i)[k], Behind(b, j)[k])
    decreases i
  {
    hide SnapshotPageOk, IsPrevious, StateHashes;
    assert SnapshotPageOk(a[i]) && SnapshotPageOk(b[j]);
    PageHashIff(a[i], b[j]);
    if a[i].prev.Some? {
      HeadBindsChain(a, PreviousIndex(a, i), b, PreviousIndex(b, j));
    }
  }

  lemma {:induction false} LinkedBehind(pages: seq<SnapshotPage>, i: nat)
    requires Series(pages) && Linked(pages) && i < |pages|
    ensures Behind(pages, i) == pages[..i + 1]
    decreases i
  {
    hide SnapshotPageOk, IsPrevious;
    FirstHasNoPrevious(pages);
    if i > 0 {
      LinkedBehind(pages, i - 1);
      SamePage(pages, PreviousIndex(pages, i), i - 1);
    }
  }

  lemma {:induction false} BehindLinked(pages: seq<SnapshotPage>, i: nat)
    requires Series(pages) && i < |pages| && Behind(pages, i) == pages[..i + 1]
    ensures Linked(pages[..i + 1])
    decreases i
  {
    hide SnapshotPageOk, IsPrevious;
    if i > 0 {
      NamesSome(pages, i);
      var j := PreviousIndex(pages, i);
      assert |Behind(pages, j)| == i;
      assert j == i - 1;
      assert Behind(pages, j) == pages[..i + 1][..i] == pages[..j + 1];
      BehindLinked(pages, j);
    }
  }

  /** The newest hash determines all snapshots exactly when the clock never ran backwards before the newest. */
  lemma HeadCoversAllIff(pages: seq<SnapshotPage>)
    requires Series(pages) && pages != []
    ensures Behind(pages, |pages| - 1) == pages <==> CreatedInOrder(pages)
  {
    hide Series, Behind, Linked, CreatedInOrder;
    var n := |pages| - 1;
    LinkedIff(pages);
    assert pages[..n + 1] == pages;
    if Linked(pages) {
      LinkedBehind(pages, n);
    }
    if Behind(pages, n) == pages {
      BehindLinked(pages, n);
    }
  }

  // ---------------------------------------------------------------- a clock that runs backwards

  lemma SomePreceding(pages: seq<Page>, at: Time) returns (h: Option<Hash>)
    ensures IsPreceding(h, pages, at)
  {
    var best := BestEnded(pages, at);
    h := if best.Some? then Some(best.value.hash) else None;
  }

  lemma {:induction false} BestEnded(pages: seq<Page>, at: Time) returns (best: Option<Page>)
    ensures best.None? ==> forall q :: q in pages ==> q.end > at
    ensures best.Some? ==> best.value in pages && best.value.end <= at && forall q :: q in pages && q.end <= at ==> Outranks(best.value, q)
  {
    if pages == [] {
      best := None;
    } else {
      var last := Last(pages);
      best := BestEnded(DropLast(pages), at);
      assert pages == DropLast(pages) + [last];
      if last.end <= at && (best.None? || !Outranks(best.value, last)) {
        best := Some(last);
      }
    }
  }

  lemma SomePrevious(pages: seq<SnapshotPage>) returns (h: Option<Hash>)
    ensures IsPrevious(h, pages)
  {
    if pages == [] {
      h := None;
    } else {
      var newest := NewestOf(pages);
      h := Some(newest.hash);
    }
  }

  lemma {:induction false} NewestOf(pages: seq<SnapshotPage>) returns (p: SnapshotPage)
    requires pages != []
    ensures p in pages && forall q :: q in pages ==> NotOlder(p, q)
  {
    var last := Last(pages);
    assert pages == DropLast(pages) + [last];
    p := last;
    if |pages| > 1 {
      var front := NewestOf(DropLast(pages));
      if NotOlder(front, last) {
        p := front;
      }
    }
  }

  /** At any time and behind any earlier snapshots a snapshot page can be made. */
  lemma SomeSnapshotPage(cfg: Settings, tw: Tower, level: nat, earlier: seq<SnapshotPage>, at: Time, ids: Option<seq<string>>, created: Time, id: nat)
      returns (p: SnapshotPage)
    ensures IsSnapshotPage(p, cfg, tw, level, earlier, at, ids, created) && p.id == id
  {
    hide IsStateOf, Targets, Gathered, RootOf, IsPreceding, IsPrevious, DistinctOwners;
    var states := SomeStates(tw, at, Targets(tw, at, ids));
    var preceding := SomePreceding(Gathered(tw.tiers, at), at);
    var previous := SomePrevious(earlier);
    var root := if states == [] then Zero else RootOf(StateHashes(states));
    var end := created + (if level < |cfg.levels| then cfg.levels[level].duration else 1) * NANOS_PER_SECOND;
    p := SnapshotPage(id, level, created, end, SnapshotPayload(at, created, Snapshot(states, RootOf(StateHashes(states))), preceding, previous),
                      root, previous, PageDigest(id, level, created, end, root, previous, None, None));
  }

  lemma MadeBehind(cfg: Settings, tw: Tower, level: nat, earlier: seq<SnapshotPage>, at: Time, ids: Option<seq<string>>, created: Time)
      returns (p: SnapshotPage)
    requires Series(earlier) && forall i :: 0 <= i < |earlier| ==> earlier[i].id < |earlier|
    ensures IsSnapshotPage(p, cfg, tw, level, earlier, at, ids, created) && p.id == |earlier| && Series(earlier + [p])
  {
    hide Series, IsSnapshotPage;
    p := SomeSnapshotPage(cfg, tw, level, earlier, at, ids, created, |earlier|);
    MadePageOk(p, cfg, tw, level, earlier, at, ids, created);
    SeriesSnoc(earlier, p);
  }

  /** For every journal, three snapshots between whose first two the clock runs backwards: the third names the first. */
  lemma ClockBackSkipsSnapshot(cfg: Settings, tw: Tower, level: nat, at: Time, ids: Option<seq<string>>, created: Time) returns (pages: seq<SnapshotPage>)
    ensures |pages| == 3 && Series(pages) && !Linked(pages) && pages[2].prev == Some(pages[0].hash)
    ensures IsSnapshotPage(pages[0], cfg, tw, level, [], at, ids, created)
    ensures IsSnapshotPage(pages[1], cfg, tw, level, pages[..1], at, ids, created - 1)
    ensures IsSnapshotPage(pages[2], cfg, tw, level, pages[..2], at, ids, created)
  {
    hide Series, IsSnapshotOf, IsPreceding, IsPrevious;
    EmptySeries();
    var a := MadeBehind(cfg, tw, level, [], at, ids, created);
    assert [] + [a] == [a];
    var b := MadeBehind(cfg, tw, level, [a], at, ids, created - 1);
    assert [a] + [b] == [a, b];
    var c := MadeBehind(cfg, tw, level, [a, b], at, ids, created);
    pages := [a, b, c];
    assert [a, b] + [c] == pages && pages[..1] == [a] && pages[..2] == [a, b];
    ThirdNamesFirst(a, b, c);
    assert pages[1].start < pages[0].start;
    LinkedIff(pages);
  }

  lemma EmptySeries()
    ensures Series([])
  {
  }

  lemma ThirdNamesFirst(a: SnapshotPage, b: SnapshotPage, c: SnapshotPage)
    requires IsPrevious(c.prev, [a, b]) && b.start < a.start
    ensures c.prev == Some(a.hash)
  {
    assert a in [a, b];
  }

  // ---------------------------------------------------------------- what no hash says

  /** With every leaf before both times, a snapshot as of the earlier time is one as of the later time. */
  lemma IdleSnapshot(cfg: Settings, tw: Tower, s: Snapshot, at: Time, later: Time)
    requires ValidSettings(cfg) && RunOk(cfg, tw) && NoPatchPages(tw) && at <= later
    requires forall l :: l in AllLeaves(tw) ==> InRange(l.at) && l.at <= at
    requires IsSnapshotOf(s, tw, at, None)
    ensures IsSnapshotOf(s, tw, later, None)
  {
    hide RunOk, NoPatchPages, Targets, IsStateOf, AllLeaves, DistinctOwners, RootOf;
    forall c ensures c in Targets(tw, at, None) <==> c in Targets(tw, later, None) {
      IdleTarget(cfg, tw, c, at, later);
    }
    assert Targets(tw, at, None) == Targets(tw, later, None);
    forall i | 0 <= i < |s.states| ensures IsStateOf(s.states[i], tw, s.states[i].owner, later) {
      assert s.states[i].owner in OwnerSet(s.states);
      IdleState(cfg, tw, s.states[i], s.states[i].owner, at, later);
    }
  }

  lemma IdleTarget(cfg: Settings, tw: Tower, c: string, at: Time, later: Time)
    requires ValidSettings(cfg) && RunOk(cfg, tw) && NoPatchPages(tw) && at <= later
    requires forall l :: l in AllLeaves(tw) ==> InRange(l.at) && l.at <= at
    ensures c in Targets(tw, at, None) <==> c in Targets(tw, later, None)
    ensures c in Targets(tw, at, None) <==> HasLeaf(tw, c, at)
  {
    hide RunOk, NoPatchPages, Targets, Baseline, AllLeaves;
    TargetsIff(cfg, tw, at, c);
    TargetsIff(cfg, tw, later, c);
    NoBaseline(tw, c, at);
    NoBaseline(tw, c, later);
  }

  lemma IdleState(cfg: Settings, tw: Tower, s: ContainerState, c: string, at: Time, later: Time)
    requires ValidSettings(cfg) && RunOk(cfg, tw) && NoPatchPages(tw) && at <= later
    requires forall l :: l in AllLeaves(tw) ==> InRange(l.at) && l.at <= at
    requires IsStateOf(s, tw, c, at) && c in Targets(tw, at, None)
    ensures IsStateOf(s, tw, c, later)
  {
    hide RunOk, NoPatchPages, Targets, Baseline, AllLeaves, Serializes, Filter, Replay, HasLeaf, SortLeaves, SnapshotLeaves;
    IdleTarget(cfg, tw, c, at, later);
    SnapshotSeesAll(cfg, tw, c, at);
    SnapshotSeesAll(cfg, tw, c, later);
    FilterAgrees(AllLeaves(tw), OfUpTo(c, at), OfUpTo(c, later));
    NoBaseline(tw, c, at);
    NoBaseline(tw, c, later);
    HasLeafByFilter(tw, c, at);
    var mine := Filter(AllLeaves(tw), OfUpTo(c, at));
    SortLeavesSorts(mine);
    assert |SortLeaves(mine)| == |multiset(SortLeaves(mine))| == |multiset(mine)| == |mine|;
  }

  /** So on an idle journal snapshots as of different times get the same page hash. */
  lemma IdleSnapshotsHashAlike(cfg: Settings, tw: Tower, p: SnapshotPage, level: nat, earlier: seq<SnapshotPage>, at: Time, later: Time, created: Time)
      returns (q: SnapshotPage)
    requires ValidSettings(cfg) && RunOk(cfg, tw) && NoPatchPages(tw) && at <= later
    requires forall l :: l in AllLeaves(tw) ==> InRange(l.at) && l.at <= at
    requires IsSnapshotPage(p, cfg, tw, level, earlier, at, None, created)
    ensures IsSnapshotPage(q, cfg, tw, level, earlier, later, None, created)
    ensures q.hash == p.hash && q.payload.asOf == later && p.payload.asOf == at
  {
    hide RunOk, NoPatchPages, AllLeaves, IsSnapshotOf, IsPreceding, IsPrevious, Gathered;
    IdleSnapshot(cfg, tw, p.payload.snapshot, at, later);
    var preceding := SomePreceding(Gathered(tw.tiers, later), later);
    q := p.(payload := p.payload.(asOf := later, preceding := preceding));
  }
}
