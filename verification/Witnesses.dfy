/** Reachable states behind the findings: the conditions of the theorems really do fail in some runs. */
module Witnesses {
  import opened Prelude
  import opened Hashing
  import opened Config
  import opened Pages
  import opened Towers
  import opened Safety
  import opened Conservation
  import opened Timeline
  import opened Radix
  import opened Rules
  import opened LeafSteps
  import opened Exactness
  import opened Integrity
  import opened Retention
  import opened QuerySpec
  import opened Journals
  import opened Storage
  import opened Snapshots
  import opened SnapshotManagers
  import opened SnapshotChains

  function PlainLeaf(id: nat, at: Time): Leaf {
    NewLeaf(id, at, None, "", Null)
  }

  // ---------------------------------------------------------------- a wrong page id

  /** One level of ten seconds whose pages are due after a second. */
  function HastySettings(): (cfg: Settings)
    ensures ValidSettings(cfg)
  {
    Settings([Level(10, 2, 1, ChildHashes, None)], false, 0)
  }

  /** The first leaf opens a page and leaves it open. */
  lemma FirstLeafStays(cfg: Settings, leaf: Leaf)
    requires cfg == HastySettings() && leaf.at == 0
    ensures var tw := Run(cfg, [Step(leaf, 0)]);
      tw.tiers[0].active == Some(FreshLeafPage(cfg, EmptyTower(cfg), 0).AddLeaf(leaf))
  {
    hide FinalizeAndRollup, WindowStart;
    assert DropLast([Step(leaf, 0)]) == [];
    assert LeafPage(cfg, EmptyTower(cfg), 0, 0).0 == FreshLeafPage(cfg, EmptyTower(cfg), 0);
    FreshBounds(cfg);
  }

  lemma FreshBounds(cfg: Settings)
    requires cfg == HastySettings()
    ensures var p := FreshLeafPage(cfg, EmptyTower(cfg), 0); p.start == 0 && p.end == 10 * NANOS_PER_SECOND && p.content == Leaves([]) && p.firstChild.None?
  {
  }

  /** A leaf at half a second, added at two seconds, finalizes the open page early, and the id returned is wrong. */
  lemma WrongIdIsReturned()
    ensures var cfg, first, second := HastySettings(), PlainLeaf(0, 0), PlainLeaf(1, NANOS_PER_SECOND / 2);
      var tw := Run(cfg, [Step(first, 0)]);
      var pages := TierPages(AddLeaf(cfg, tw, second, 2 * NANOS_PER_SECOND).tiers[0]);
      RunOk(cfg, tw) && pages != [] && OpenLeafPage(cfg, tw, second.at).0.id != Last(pages).id
  {
    hide Run, AddLeaf, TierPages, RunOk, FreshLeafPage, LeafChained;
    var cfg, first, second := HastySettings(), PlainLeaf(0, 0), PlainLeaf(1, NANOS_PER_SECOND / 2);
    var tw := Run(cfg, [Step(first, 0)]);
    RunConserves(cfg, [Step(first, 0)]);
    FirstLeafStays(cfg, first);
    FreshBounds(cfg);
    assert PreFinalizes(cfg.levels[0], OpenLeafPage(cfg, tw, second.at).0, second.at, 2 * NANOS_PER_SECOND);
    ReturnedIdIsRightIff(cfg, tw, second, 2 * NANOS_PER_SECOND);
  }

  // ---------------------------------------------------------------- a tie at the cut

  /** One level of one-leaf pages that keeps n of them. */
  function KeepingSettings(n: nat): (cfg: Settings)
    ensures ValidSettings(cfg)
  {
    Settings([Level(10, 1, 0, ChildHashes, Some(KeepNPages(n)))], false, 0)
  }

  /** n + 1 leaves at the epoch make n + 1 pages of the same window. */
  lemma TiedPages(n: nat)
    ensures var cfg := KeepingSettings(n);
      var stored := Run(cfg, Simultaneous(0, n + 1)).tiers[0].stored;
      && |stored| == n + 1 && EndsInOrder(stored) && Ascending(stored)
      && forall i :: 0 <= i < |stored| ==> stored[i].end == 10 * NANOS_PER_SECOND
  {
    hide Run, IdsSafe, TierTyped, LeavesPlaced, Chained, Closed, LeavesIn, RootOf, Extends;
    var cfg, steps := KeepingSettings(n), Simultaneous(0, n + 1);
    var l := cfg.levels[0];
    RunConserves(cfg, steps);
    RunTimely(cfg, steps);
    RunObeys(Dated, cfg, steps);
    var tw := Run(cfg, steps);
    var t := tw.tiers[0];
    assert TierOk(cfg, 0, t) && TierTimely(l, 0, t, 0) && TierObeys(Dated, 0, t);
    WindowBounds(l, 0);
    hide WindowStart;
    forall i | 0 <= i < |t.stored| ensures t.stored[i].end == 10 * NANOS_PER_SECOND && t.stored[i].Length() == 1 && t.stored[i].content.Leaves? {
      assert StoredOk(cfg, 0, t.stored[i]) && Marked(Dated, 0, t.stored[i]);
    }
    LeafCount(t.stored, 1);
  }

  /** In such a state keeping n pages may drop the newer of two pages that end together. */
  lemma KeepNMayLeaveGap(n: nat, now: Time) returns (after: seq<Page>)
    requires n > 0
    ensures var cfg := KeepingSettings(n);
      var stored := Run(cfg, Simultaneous(0, n + 1)).tiers[0].stored;
      && EffectivePolicy(cfg, 0) == KeepNPages(n) && !CleanCut(KeepNPages(n), stored)
      && Retained(KeepNPages(n), now, stored, after) && after != stored[|stored| - n..]
  {
    hide Run, Retained;
    TiedPages(n);
    var stored := Run(KeepingSettings(n), Simultaneous(0, n + 1)).tiers[0].stored;
    after := OtherOutcome(stored, 1, now);
  }

  // ---------------------------------------------------------------- a reopened page that stays open

  /** One-leaf pages at level 0; ten-second pages of five hashes at level 1. */
  function ReopeningSettings(): (cfg: Settings)
    ensures ValidSettings(cfg)
  {
    Settings([Level(1, 1, 0, ChildHashes, None), Level(10, 5, 10, ChildHashes, None)], false, 0)
  }

  /** The page a leaf fills on its own. */
  ghost function OneLeafPage(cfg: Settings, tw: Tower, leaf: Leaf): Page
    requires ValidSettings(cfg) && |cfg.levels| == |tw.tiers|
  {
    FreshLeafPage(cfg, tw, leaf.at).AddLeaf(leaf).Rehash()
  }

  /** The tower once that page is stored, before it is rolled up. */
  ghost function LeafStored(cfg: Settings, tw: Tower, leaf: Leaf): Tower
    requires ValidSettings(cfg) && |cfg.levels| == |tw.tiers|
  {
    tw.(next := tw.next + 1).Finalize(0, OneLeafPage(cfg, tw, leaf))
  }

  lemma OneLeafRollsUp(cfg: Settings, tw: Tower, leaf: Leaf)
    requires cfg == ReopeningSettings() && RunOk(cfg, tw) && tw.tiers[0].active.None? && InRange(leaf.at)
    ensures var mid, f := LeafStored(cfg, tw, leaf), OneLeafPage(cfg, tw, leaf);
      && Sound(cfg, mid) && mid.tiers[1] == tw.tiers[1] && mid.next == tw.next + 1
      && AddLeaf(cfg, tw, leaf, leaf.at) == AbsorbAndSettle(cfg, RetireStale(cfg, mid, 1, leaf.at), 1, f, leaf.at)
  {
    hide RootOf, TierOk, TierTyped, IdsSafe, LeafTierOk, WindowStart, RetireStale, AbsorbAndSettle;
    OneLeafFits(cfg, tw, leaf);
    assert LeafPage(cfg, tw, leaf.at, leaf.at) == (FreshLeafPage(cfg, tw, leaf.at), tw.(next := tw.next + 1));
  }

  lemma OneLeafFits(cfg: Settings, tw: Tower, leaf: Leaf)
    requires cfg == ReopeningSettings() && RunOk(cfg, tw) && InRange(leaf.at)
    ensures Sound(cfg, LeafStored(cfg, tw, leaf))
  {
    hide FinalizeAndRollup, RootOf, TierOk, TierTyped, IdsSafe, LeafTierOk, Fits, StoredOk, Grows, Follows;
    var ready, p := tw.(next := tw.next + 1), FreshLeafPage(cfg, tw, leaf.at);
    WindowBounds(cfg.levels[0], leaf.at);
    FreshLeafPageFits(cfg, tw, leaf.at);
    FilledFits(cfg, ready, p, leaf);
    RehashFits(cfg, ready, p.AddLeaf(leaf));
    FinalizeSound(cfg, ready, 0, OneLeafPage(cfg, tw, leaf));
  }

  /** A page of n hashes in the window that starts then. */
  ghost predicate PageHolds(p: Page, start: Time, n: nat) {
    p.start == start && p.end == start + 10 * NANOS_PER_SECOND && p.content.ThrallHashes? && |p.content.hashes| == n
  }

  /** Absorbing a child that leaves the parent short of items and young keeps it active. */
  lemma StaysActive(cfg: Settings, tw: Tower, f: Page, at: Time, start: Time, n: nat)
    requires cfg == ReopeningSettings() && Sound(cfg, tw) && PageHolds(OpenParent(cfg, tw, 1, at).0, start, n)
    requires n < 4 && start <= at < start + 10 * NANOS_PER_SECOND
    ensures var r, page := AbsorbAndSettle(cfg, tw, 1, f, at), OpenParent(cfg, tw, 1, at).0;
      && r.tiers[1].stored == tw.tiers[1].stored && r.tiers[1].last == tw.tiers[1].last && r.tiers[0] == tw.tiers[0]
      && r.tiers[1].active.Some? && r.tiers[1].active.value.id == page.id && PageHolds(r.tiers[1].active.value, start, n + 1)
  {
    hide RootOf, TierOk, TierTyped, IdsSafe, OpenParent, FinalizeAndRollup;
    assert Typed(cfg, tw);
  }

  /** A first leaf at 0s opens a level-1 page; one at 12s stores it and opens another; one at 3s reopens the first. */
  function LateLeaf(): seq<Step> {
    [Step(PlainLeaf(0, 0), 0), Step(PlainLeaf(1, 12 * NANOS_PER_SECOND), 12 * NANOS_PER_SECOND),
     Step(PlainLeaf(2, 3 * NANOS_PER_SECOND), 3 * NANOS_PER_SECOND)]
  }

  ghost predicate Quiet(tw: Tower) {
    |tw.tiers| == 2 && tw.tiers[0].active.None?
  }

  lemma OpensNew(cfg: Settings, tw: Tower, at: Time, start: Time)
    requires cfg == ReopeningSettings() && |tw.tiers| == 2 && tw.tiers[1].active.None? && InRange(at)
    requires tw.tiers[1].LastStored().Some? ==> tw.tiers[1].LastStored().value.start != start
    requires start == at / (10 * NANOS_PER_SECOND) * (10 * NANOS_PER_SECOND)
    ensures PageHolds(OpenParent(cfg, tw, 1, at).0, start, 0)
  {
  }

  lemma OpensStored(cfg: Settings, tw: Tower)
    requires cfg == ReopeningSettings() && |tw.tiers| == 2 && tw.tiers[1].LastStored().Some? && PageHolds(tw.tiers[1].LastStored().value, 0, 1)
    requires tw.tiers[1].active.Some? && PageHolds(tw.tiers[1].active.value, 10 * NANOS_PER_SECOND, 1)
    ensures OpenParent(cfg, tw, 1, 3 * NANOS_PER_SECOND).0 == tw.tiers[1].LastStored().value
  {
  }

  lemma NothingRetired(cfg: Settings, tw: Tower, at: Time)
    requires ValidSettings(cfg) && Typed(cfg, tw) && |tw.tiers| == 2 && !Stale(tw.tiers[1], at)
    ensures RetireStale(cfg, tw, 1, at) == tw
  {
  }

  lemma OneRetired(cfg: Settings, tw: Tower, at: Time)
    requires cfg == ReopeningSettings() && Typed(cfg, tw) && |tw.tiers| == 2 && tw.tiers[1].stored == []
    requires tw.tiers[1].active.Some? && PageHolds(tw.tiers[1].active.value, 0, 1) && at >= 10 * NANOS_PER_SECOND
    ensures var u := RetireStale(cfg, tw, 1, at).tiers[1];
      && u.active.None? && |u.stored| == 1 && PageHolds(u.stored[0], 0, 1) && u.LastStored() == Some(u.stored[0])
      && RetireStale(cfg, tw, 1, at).tiers[0] == tw.tiers[0]
  {
    hide RootOf, TierTyped;
  }

  lemma RunOkTyped(cfg: Settings, tw: Tower)
    requires ValidSettings(cfg) && RunOk(cfg, tw)
    ensures Typed(cfg, tw) && |tw.tiers| == |cfg.levels|
  {
  }

  lemma SoundTyped(cfg: Settings, tw: Tower)
    requires Sound(cfg, tw)
    ensures Typed(cfg, tw) && |tw.tiers| == |cfg.levels|
  {
  }

  lemma StoredAway(cfg: Settings, tw: Tower, leaf: Leaf)
    requires ValidSettings(cfg) && |cfg.levels| == |tw.tiers|
    ensures LeafStored(cfg, tw, leaf).tiers[0].active.None?
  {
  }

  lemma AfterFirst(cfg: Settings, leaf: Leaf)
    requires cfg == ReopeningSettings() && leaf.at == 0
    ensures Typed(cfg, EmptyTower(cfg))
    ensures var r := AddLeaf(cfg, EmptyTower(cfg), leaf, 0);
      RunOk(cfg, r) && Quiet(r) && r.tiers[1].stored == [] && r.tiers[1].active.Some? && PageHolds(r.tiers[1].active.value, 0, 1)
  {
    hide OneLeafPage, LeafStored, AbsorbAndSettle, RetireStale, OpenParent, AddLeaf, RunOk, Sound, Typed, PageHolds;
    var tw := EmptyTower(cfg);
    EmptyTowerOk(cfg);
    AddLeafOk(cfg, tw, leaf, 0);
    OneLeafRollsUp(cfg, tw, leaf);
    RunOkTyped(cfg, AddLeaf(cfg, tw, leaf, 0));
    var mid := LeafStored(cfg, tw, leaf);
    SoundTyped(cfg, mid);
    StoredAway(cfg, tw, leaf);
    NothingRetired(cfg, mid, 0);
    OpensNew(cfg, mid, 0, 0);
    StaysActive(cfg, mid, OneLeafPage(cfg, tw, leaf), 0, 0, 0);
  }

  lemma AfterSecond(cfg: Settings, tw: Tower, leaf: Leaf)
    requires cfg == ReopeningSettings() && RunOk(cfg, tw) && Quiet(tw) && leaf.at == 12 * NANOS_PER_SECOND
    requires tw.tiers[1].stored == [] && tw.tiers[1].active.Some? && PageHolds(tw.tiers[1].active.value, 0, 1)
    ensures Typed(cfg, tw)
    ensures var r := AddLeaf(cfg, tw, leaf, leaf.at);
      RunOk(cfg, r) && Quiet(r) && r.tiers[1].LastStored().Some? && PageHolds(r.tiers[1].LastStored().value, 0, 1)
      && r.tiers[1].active.Some? && PageHolds(r.tiers[1].active.value, 10 * NANOS_PER_SECOND, 1)
  {
    hide OneLeafPage, LeafStored, AbsorbAndSettle, RetireStale, OpenParent, AddLeaf, RunOk, Sound, Typed, Grows, LeafChained;
    AddLeafOk(cfg, tw, leaf, leaf.at);
    OneLeafRollsUp(cfg, tw, leaf);
    RunOkTyped(cfg, AddLeaf(cfg, tw, leaf, leaf.at));
    var mid := LeafStored(cfg, tw, leaf);
    SoundTyped(cfg, mid);
    StoredAway(cfg, tw, leaf);
    OneRetired(cfg, mid, leaf.at);
    RetireStaleSound(cfg, mid, 1, leaf.at);
    var retired := RetireStale(cfg, mid, 1, leaf.at);
    SoundTyped(cfg, retired);
    OpensNew(cfg, retired, leaf.at, 10 * NANOS_PER_SECOND);
    StaysActive(cfg, retired, OneLeafPage(cfg, tw, leaf), leaf.at, 10 * NANOS_PER_SECOND, 0);
  }

  lemma AfterThird(cfg: Settings, tw: Tower, leaf: Leaf)
    requires cfg == ReopeningSettings() && RunOk(cfg, tw) && Quiet(tw) && leaf.at == 3 * NANOS_PER_SECOND
    requires tw.tiers[1].LastStored().Some? && PageHolds(tw.tiers[1].LastStored().value, 0, 1)
    requires tw.tiers[1].active.Some? && PageHolds(tw.tiers[1].active.value, 10 * NANOS_PER_SECOND, 1)
    ensures Typed(cfg, tw)
    ensures ActiveAlsoStored(AddLeaf(cfg, tw, leaf, leaf.at).tiers[1])
  {
    hide OneLeafPage, LeafStored, AbsorbAndSettle, RetireStale, OpenParent, AddLeaf, RunOk, Sound, Typed, Grows, LeafChained;
    RunOkTyped(cfg, tw);
    OneLeafRollsUp(cfg, tw, leaf);
    var mid := LeafStored(cfg, tw, leaf);
    SoundTyped(cfg, mid);
    NothingRetired(cfg, mid, leaf.at);
    OpensStored(cfg, mid);
    StaysActive(cfg, mid, OneLeafPage(cfg, tw, leaf), leaf.at, 0, 1);
  }

  /** The state just before the late leaf. */
  lemma BeforeLateLeaf()
    ensures var tw := Run(ReopeningSettings(), LateLeaf()[..2]);
      && RunOk(ReopeningSettings(), tw) && Quiet(tw)
      && tw.tiers[1].LastStored().Some? && PageHolds(tw.tiers[1].LastStored().value, 0, 1)
      && tw.tiers[1].active.Some? && PageHolds(tw.tiers[1].active.value, 10 * NANOS_PER_SECOND, 1)
      && forall l :: l in AllLeaves(tw) ==> l.at == 0 || l.at == 12 * NANOS_PER_SECOND
  {
    var cfg, steps := ReopeningSettings(), LateLeaf()[..2];
    hide AddLeaf, RunOk, PageHolds, Typed, AllLeaves, LeafChained, LeavesOf;
    assert DropLast(steps) == steps[..1] && DropLast(steps[..1]) == [];
    assert Last(steps) == steps[1] && Last(steps[..1]) == steps[0];
    assert Run(cfg, []) == EmptyTower(cfg);
    AfterFirst(cfg, steps[0].leaf);
    AfterSecond(cfg, Run(cfg, steps[..1]), steps[1].leaf);
    RunConserves(cfg, steps);
    TwoTimes();
  }

  lemma TwoTimes()
    ensures forall l :: l in LeavesOf(LateLeaf()[..2]) ==> l.at == 0 || l.at == 12 * NANOS_PER_SECOND
  {
  }

  /** The checker flags level 1 of this run. */
  lemma ReopenedPageIsFlagged()
    ensures var t := Run(ReopeningSettings(), LateLeaf()).tiers[1];
      ActiveAlsoStored(t) && !AllValid(Reports(Entries(t), 1, None, None))
  {
    var cfg, steps := ReopeningSettings(), LateLeaf();
    hide AddLeaf, RunOk, AllValid, Reports, Entries, ActiveAlsoStored, PageHolds, Typed, Quiet, AllLeaves;
    BeforeLateLeaf();
    assert DropLast(steps) == steps[..2] && Last(steps) == steps[2];
    AfterThird(cfg, Run(cfg, steps[..2]), steps[2].leaf);
    CheckerAcceptsIff(cfg, steps, 1, None, None);
  }

  // ---------------------------------------------------------------- another preceding page than documented

  /** Before the late leaf no level-0 page ends between 2s and 12s. */
  lemma LeafPagesEndEarly(cfg: Settings, tw: Tower, p: Page)
    requires cfg == ReopeningSettings() && RunOk(cfg, tw) && p in tw.tiers[0].stored
    requires forall l :: l in AllLeaves(tw) ==> l.at == 0 || l.at == 12 * NANOS_PER_SECOND
    ensures p.end <= NANOS_PER_SECOND || p.end > 12 * NANOS_PER_SECOND
  {
    hide IdsSafe, RootOf, Extends, ActiveOk, LeavesIn;
    var i :| 0 <= i < |tw.tiers[0].stored| && tw.tiers[0].stored[i] == p;
    assert TierOk(cfg, 0, tw.tiers[0]) && StoredOk(cfg, 0, p) && LeavesPlaced(p);
    var l := p.content.leaves[0];
    LeavesInMembers(tw.tiers[0].stored, l);
    assert l in AllLeaves(tw);
  }

  lemma ParentPageGathered(cfg: Settings, tw: Tower, at: Time)
    requires cfg == ReopeningSettings() && RunOk(cfg, tw) && at >= 10 * NANOS_PER_SECOND
    requires tw.tiers[1].LastStored().Some? && PageHolds(tw.tiers[1].LastStored().value, 0, 1)
    ensures var p := tw.tiers[1].LastStored().value; p in Gathered(tw.tiers, at) && p.level == 1 && p.end == 10 * NANOS_PER_SECOND
  {
    hide IdsSafe, RootOf, Extends, ActiveOk, Gathered;
    var t := tw.tiers[1];
    var p := t.stored[|t.stored| - 1];
    assert TierOk(cfg, 1, t) && StoredOk(cfg, 1, p);
    assert p in t.stored;
    GatheredMembers(tw.tiers, at, p);
  }

  lemma NamesParentPage(cfg: Settings, tw: Tower, at: Time, h: Option<Hash>)
    requires cfg == ReopeningSettings() && RunOk(cfg, tw) && at == 11 * NANOS_PER_SECOND
    requires tw.tiers[1].LastStored().Some? && PageHolds(tw.tiers[1].LastStored().value, 0, 1)
    requires forall l :: l in AllLeaves(tw) ==> l.at == 0 || l.at == 12 * NANOS_PER_SECOND
    requires IsPreceding(h, Gathered(tw.tiers, at), at)
    ensures !IsPreceding(h, GatheredLeafPages(tw, at), at)
  {
    hide RunOk, PageHolds, IsPreceding, Gathered, AllLeaves, LeafPageEndsLast, GatheredLeafPages;
    ParentPageGathered(cfg, tw, at);
    EndsLate(cfg, tw, at);
    RunOkSound(cfg, tw);
    PrecedingIsLeafPageIff(cfg, tw, at, h);
  }

  /** Two leaves, at 0s and 12s: a snapshot as of 11s does not name the most recent level-0 page. */
  lemma ParentPagePrecedes(h: Option<Hash>)
    requires IsPreceding(h, Gathered(Run(ReopeningSettings(), LateLeaf()[..2]).tiers, 11 * NANOS_PER_SECOND), 11 * NANOS_PER_SECOND)
    ensures !IsPreceding(h, GatheredLeafPages(Run(ReopeningSettings(), LateLeaf()[..2]), 11 * NANOS_PER_SECOND), 11 * NANOS_PER_SECOND)
  {
    hide Run, RunOk, PageHolds, IsPreceding, Gathered, AllLeaves, GatheredLeafPages;
    BeforeLateLeaf();
    NamesParentPage(ReopeningSettings(), Run(ReopeningSettings(), LateLeaf()[..2]), 11 * NANOS_PER_SECOND, h);
  }

  lemma RunOkSound(cfg: Settings, tw: Tower)
    requires ValidSettings(cfg) && RunOk(cfg, tw)
    ensures Sound(cfg, tw)
  {
  }

  lemma EndsLate(cfg: Settings, tw: Tower, at: Time)
    requires cfg == ReopeningSettings() && RunOk(cfg, tw) && at == 11 * NANOS_PER_SECOND
    requires forall l :: l in AllLeaves(tw) ==> l.at == 0 || l.at == 12 * NANOS_PER_SECOND
    requires exists q :: q in Gathered(tw.tiers, at) && q.level == 1 && q.end == 10 * NANOS_PER_SECOND
    ensures !LeafPageEndsLast(tw, at)
  {
    hide RunOk, Gathered, AllLeaves, Filter;
    var q :| q in Gathered(tw.tiers, at) && q.level == 1 && q.end == 10 * NANOS_PER_SECOND;
    forall p | p in GatheredLeafPages(tw, at) && p.end <= at ensures p.end <= q.end {
      FilterMembers(tw.tiers[0].stored, StartsBy(at));
      LeafPagesEndEarly(cfg, tw, p);
    }
  }

  // ---------------------------------------------------------------- a leaf the queries miss

  /** One level of ten seconds and two leaves a page. */
  function PairSettings(): (cfg: Settings)
    ensures ValidSettings(cfg)
  {
    Settings([Level(10, 2, 0, ChildHashes, None)], false, 0)
  }

  function SwappedLeaves(): seq<Step> {
    [Step(PlainLeaf(0, 5 * NANOS_PER_SECOND), 5 * NANOS_PER_SECOND), Step(PlainLeaf(1, 3 * NANOS_PER_SECOND), 3 * NANOS_PER_SECOND)]
  }

  /** The two leaves share the first window's page, in the order of arrival. */
  lemma SwappedPage()
    ensures var stored := Run(PairSettings(), SwappedLeaves()).tiers[0].stored;
      |stored| == 1 && stored[0].start == 0 && stored[0].content == Leaves([SwappedLeaves()[0].leaf, SwappedLeaves()[1].leaf])
  {
    var cfg, steps := PairSettings(), SwappedLeaves();
    var l := cfg.levels[0];
    hide Run, WindowStart;
    EmptyRun(cfg);
    RunAddsLeaf(cfg, [], steps[0]);
    RunAddsLeaf(cfg, [steps[0]], steps[1]);
    assert [] + [steps[0]] == [steps[0]] && [steps[0]] + [steps[1]] == steps;
    var t, u, v := Run(cfg, []).tiers[0], Run(cfg, [steps[0]]).tiers[0], Run(cfg, steps).tiers[0];
    FirstJoins(l, t, steps[0].leaf, steps[0].now, u);
    SecondJoins(l, u, steps[1].leaf, steps[1].now, v);
  }

  lemma EmptyRun(cfg: Settings)
    requires ValidSettings(cfg)
    ensures Run(cfg, []).tiers[0] == Tier([], None, None)
  {
  }

  lemma FirstJoins(l: Level, t: Tier, leaf: Leaf, now: Time, u: Tier)
    requires l == PairSettings().levels[0] && t == Tier([], None, None) && leaf.at == now == 5 * NANOS_PER_SECOND && LeafAdded(l, t, leaf, now, u)
    ensures u.stored == [] && u.active.Some? && u.active.value.content == Leaves([leaf])
    ensures u.active.value.start == 0 && u.active.value.end == 10 * NANOS_PER_SECOND
  {
    var stored, p :| Takes(l, t, stored, p, leaf.at, now) && LeafSteps.Settles(l, stored, p, leaf, now, u);
    assert WindowStart(l, leaf.at) == 0;
  }

  lemma SecondJoins(l: Level, t: Tier, leaf: Leaf, now: Time, u: Tier)
    requires l == PairSettings().levels[0] && leaf.at == now == 3 * NANOS_PER_SECOND && LeafAdded(l, t, leaf, now, u)
    requires t.stored == [] && t.active.Some? && t.active.value.content.Leaves? && |t.active.value.content.leaves| == 1
    requires t.active.value.start == 0 && t.active.value.end == 10 * NANOS_PER_SECOND
    ensures |u.stored| == 1 && u.stored[0].content == Leaves(t.active.value.content.leaves + [leaf]) && u.stored[0].start == 0
  {
    hide WindowStart;
    var stored, p :| Takes(l, t, stored, p, leaf.at, now) && LeafSteps.Settles(l, stored, p, leaf, now, u);
  }

  lemma MissedOnPage(p: Page, a: Leaf, b: Leaf, c: string, at: Time)
    requires p.content == Leaves([a, b]) && p.start <= at < a.at
    ensures b in LeavesIn([p]) && Reconstruct([p], c, at) == Err(ContainerNotFound)
  {
    var one := [p];
    LeavesInMembers(one, b);
    assert one[0] == p && b in [a, b];
    SortBySorted(one, ByStart);
    hide SortBy;
    assert TakeWhile(PageLeaves(p), UpTo(at)) == [];
    assert one[1..] == [] && ReadUpTo(one[1..], c, at) == [];
    assert Filter<Leaf>([], Of(c)) == [];
    assert ReadUpTo(one, c, at) == [];
  }

  /** Leaves at 5s and then at 3s: asked for the state at 4s, the reconstruction finds none. */
  lemma LateLeafIsMissed()
    ensures var stored := Run(PairSettings(), SwappedLeaves()).tiers[0].stored;
      && SwappedLeaves()[1].leaf in LeavesIn(stored) && SwappedLeaves()[1].leaf.at == 3 * NANOS_PER_SECOND
      && Reconstruct(stored, "", 4 * NANOS_PER_SECOND) == Err(ContainerNotFound)
  {
    SwappedPage();
    hide Run, LeavesIn, Reconstruct;
    var stored := Run(PairSettings(), SwappedLeaves()).tiers[0].stored;
    assert stored == [stored[0]];
    MissedOnPage(stored[0], SwappedLeaves()[0].leaf, SwappedLeaves()[1].leaf, "", 4 * NANOS_PER_SECOND);
  }
}
