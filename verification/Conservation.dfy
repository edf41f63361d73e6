/** Level 0 in every run: leaves are kept exactly once and in order, inside chained pages. */
module Conservation {
  import opened Prelude
  import opened Hashing
  import opened Config
  import opened Pages
  import opened Towers
  import opened Safety

  /** The leaves of level-0 pages, in order. */
  function LeavesIn(pages: seq<Page>): seq<Leaf> {
    if pages == [] then []
    else LeavesIn(DropLast(pages)) + if Last(pages).content.Leaves? then Last(pages).content.leaves else []
  }

  function ActiveLeaves(t: Tier): seq<Leaf> {
    if t.active.Some? && t.active.value.content.Leaves? then t.active.value.content.leaves else []
  }

  function AllLeaves(tw: Tower): seq<Leaf> {
    if tw.tiers == [] then [] else LeavesIn(tw.tiers[0].stored) + ActiveLeaves(tw.tiers[0])
  }

  // ---------------------------------------------------------------- invariant

  ghost predicate LeavesPlaced(p: Page) {
    p.content.Leaves? && forall l :: l in p.content.leaves && InRange(l.at) ==> p.InWindow(l.at)
  }

  /** Page p may follow the stored pages. */
  ghost predicate Follows(stored: seq<Page>, p: Page) {
    stored != [] ==> p.prev == Some(Last(stored).hash)
  }

  ghost predicate Chained(pages: seq<Page>) {
    forall i :: 0 < i < |pages| ==> pages[i].prev == Some(pages[i - 1].hash)
  }

  /** The last finalized id is that of the last stored page. */
  ghost predicate Anchored(t: Tier) {
    t.stored != [] ==> t.LastStored().Some?
  }

  /** Every page names the hash of the page stored before it. */
  ghost predicate LeafChained(t: Tier) {
    Chained(t.stored) && Anchored(t) && (t.active.Some? ==> Follows(t.stored, t.active.value))
  }

  ghost predicate LeafPagesOk(cfg: Settings, pages: seq<Page>)
    requires ValidSettings(cfg)
  {
    forall i :: 0 <= i < |pages| ==> LeavesPlaced(pages[i]) && 1 <= pages[i].Length() <= cfg.levels[0].maxItems
  }

  ghost predicate LeafTierOk(cfg: Settings, t: Tier)
    requires ValidSettings(cfg)
  {
    LeafPagesOk(cfg, t.stored) && (t.active.Some? ==> LeavesPlaced(t.active.value) && !t.active.value.IsEmpty())
  }

  /** The invariant of every run. */
  ghost predicate RunOk(cfg: Settings, tw: Tower)
    requires ValidSettings(cfg)
  {
    Sound(cfg, tw) && LeafTierOk(cfg, tw.tiers[0])
  }

  lemma EmptyTowerOk(cfg: Settings)
    requires ValidSettings(cfg)
    ensures RunOk(cfg, EmptyTower(cfg)) && AllLeaves(EmptyTower(cfg)) == [] && LeafChained(EmptyTower(cfg).tiers[0])
  {
  }

  // ---------------------------------------------------------------- steps

  /** A level-0 page always goes behind everything stored. */
  lemma StoreAppends(cfg: Settings, tw: Tower, p: Page)
    requires ValidSettings(cfg) && RunOk(cfg, tw) && Fits(cfg, tw, 0, p)
    ensures tw.tiers[0].Store(p).stored == tw.tiers[0].stored + [p]
    ensures LeavesIn(tw.tiers[0].stored + [p]) == LeavesIn(tw.tiers[0].stored) + if p.content.Leaves? then p.content.leaves else []
  {
    var t := tw.tiers[0];
    assert TierOk(cfg, 0, t);
    assert DropLast(t.stored + [p]) == t.stored;
  }

  lemma RehashFits(cfg: Settings, tw: Tower, p: Page)
    requires |cfg.levels| == |tw.tiers| > 0 && Fits(cfg, tw, 0, p) && !p.IsEmpty() && p.Length() <= cfg.levels[0].maxItems
    ensures Fits(cfg, tw, 0, p.Rehash()) && StoredOk(cfg, 0, p.Rehash())
  {
    hide Extends;
    var t := tw.tiers[0];
    if t.LastStored().Some? {
      assert t.LastStored().value.id == t.last.value.id;
    }
  }

  lemma ChainedSnoc(pages: seq<Page>, p: Page)
    requires Chained(pages) && Follows(pages, p)
    ensures Chained(pages + [p])
  {
    var all := pages + [p];
    forall i | 0 < i < |all| ensures all[i].prev == Some(all[i - 1].hash) {
      if i < |pages| {
        assert pages[i].prev == Some(pages[i - 1].hash);
      }
    }
  }

  lemma StoredLeafTierOk(cfg: Settings, tw: Tower, p: Page)
    requires ValidSettings(cfg) && RunOk(cfg, tw) && Fits(cfg, tw, 0, p) && !p.IsEmpty() && LeavesPlaced(p)
    requires p.Length() <= cfg.levels[0].maxItems
    ensures LeafTierOk(cfg, tw.tiers[0].Store(p))
    ensures LeafChained(tw.tiers[0]) && Follows(tw.tiers[0].stored, p) ==> LeafChained(tw.tiers[0].Store(p))
  {
    StoreAppends(cfg, tw, p);
    hide TierOk, IdsSafe, TierTyped, Extends, Chained, Follows, LeavesPlaced, Sound, LeavesIn;
    if LeafChained(tw.tiers[0]) && Follows(tw.tiers[0].stored, p) {
      ChainedSnoc(tw.tiers[0].stored, p);
    }
  }

  lemma FinalizeLeafPage(cfg: Settings, tw: Tower, p: Page, trigger: Time)
    requires ValidSettings(cfg) && RunOk(cfg, tw) && Fits(cfg, tw, 0, p) && !p.IsEmpty() && LeavesPlaced(p)
    requires p.Length() <= cfg.levels[0].maxItems
    ensures Typed(cfg, tw) && PageTyped(cfg, 0, p)
    ensures var r := FinalizeAndRollup(cfg, tw, 0, p.Rehash(), trigger);
      && RunOk(cfg, r) && Grows(tw, r) && r.tiers[0].active.None?
      && LeavesIn(r.tiers[0].stored) == LeavesIn(tw.tiers[0].stored) + p.content.leaves
      && (LeafChained(tw.tiers[0]) && Follows(tw.tiers[0].stored, p) ==> LeafChained(r.tiers[0]))
  {
    hide TierOk, IdsSafe, TierGrows, Extends, StoredOk, RootOf, Rollup, LeafTierOk, LeafChained;
    var q := p.Rehash();
    RehashFits(cfg, tw, p);
    FinalizeAndRollupSound(cfg, tw, 0, q, trigger);
    StoredLeafTierOk(cfg, tw, q);
    StoreAppends(cfg, tw, q);
  }

  /** What `OpenLeafPage` hands out, given the tower it leaves behind. */
  ghost predicate OpenedFor(cfg: Settings, tw: Tower, ready: Tower, p: Page, at: Time)
    requires ValidSettings(cfg)
  {
    && RunOk(cfg, tw) && RunOk(cfg, ready) && Grows(tw, ready) && Fits(cfg, ready, 0, p)
    && p.Length() < cfg.levels[0].maxItems && LeavesPlaced(p)
    && (LeafChained(tw.tiers[0]) ==> LeafChained(ready.tiers[0]) && Follows(ready.tiers[0].stored, p))
    && (InRange(at) ==> p.InWindow(at))
    && LeavesIn(ready.tiers[0].stored) + p.content.leaves == AllLeaves(tw)
  }

  lemma FreshLeafPageFits(cfg: Settings, tw: Tower, at: Time)
    requires ValidSettings(cfg) && RunOk(cfg, tw)
    ensures Fits(cfg, tw.(next := tw.next + 1), 0, FreshLeafPage(cfg, tw, at))
    ensures RunOk(cfg, tw.(next := tw.next + 1)) && Grows(tw, tw.(next := tw.next + 1))
  {
    hide Extends;
    BumpSound(cfg, tw);
    GrowsReflexive(tw);
    var t := tw.tiers[0];
    assert TierOk(cfg, 0, t);
    if t.last.Some? {
      assert t.last.value.id in t.Ids();
    }
  }

  /** A fresh page links to the page stored last. */
  lemma FreshLeafPageFollows(cfg: Settings, tw: Tower, at: Time)
    requires ValidSettings(cfg) && RunOk(cfg, tw)
    ensures LeafChained(tw.tiers[0]) ==> Follows(tw.tiers[0].stored, FreshLeafPage(cfg, tw, at))
  {
  }

  lemma FreshLeafPageOpens(cfg: Settings, tw: Tower, at: Time)
    requires ValidSettings(cfg) && RunOk(cfg, tw) && tw.tiers[0].active.None?
    ensures OpenedFor(cfg, tw, tw.(next := tw.next + 1), FreshLeafPage(cfg, tw, at), at)
  {
    hide TierOk, IdsSafe, TierTyped, LeafTierOk, Fits, Grows;
    FreshLeafPageFits(cfg, tw, at);
    FreshLeafPageFollows(cfg, tw, at);
    if InRange(at) {
      WindowBounds(cfg.levels[0], at);
    }
  }

  lemma OpenLeafPageOpens(cfg: Settings, tw: Tower, at: Time)
    requires ValidSettings(cfg) && RunOk(cfg, tw)
    ensures Typed(cfg, tw)
    ensures var r := OpenLeafPage(cfg, tw, at); OpenedFor(cfg, tw, r.1, r.0, at)
  {
    hide TierOk, IdsSafe, TierTyped, LeafTierOk, Fits, Grows, FinalizeAndRollup, LeavesPlaced, Follows, LeafChained;
    var t := tw.tiers[0];
    if t.active.Some? {
      ActiveLeafPageFits(cfg, tw);
      if Reusable(cfg.levels[0], t.active.value, at) {
        GrowsReflexive(tw);
      } else {
        FinalizeLeafPage(cfg, tw, t.active.value, at);
        var ready := FinalizeHelper(cfg, tw, t.active.value, at);
        FreshLeafPageOpens(cfg, ready, at);
        GrowsTransitive(tw, ready, ready.(next := ready.next + 1));
      }
    } else {
      FreshLeafPageOpens(cfg, tw, at);
    }
  }

  lemma ActiveLeafPageFits(cfg: Settings, tw: Tower)
    requires ValidSettings(cfg) && RunOk(cfg, tw) && tw.tiers[0].active.Some?
    ensures var a := tw.tiers[0].active.value;
      && Fits(cfg, tw, 0, a) && LeavesPlaced(a) && !a.IsEmpty()
      && (LeafChained(tw.tiers[0]) ==> Follows(tw.tiers[0].stored, a))
      && a.Length() < cfg.levels[0].maxItems && PageTyped(cfg, 0, a)
  {
    hide Extends;
    var t := tw.tiers[0];
    assert t.active.value.id in t.Ids();
    assert TierOk(cfg, 0, t);
  }

  lemma LeafPageOpens(cfg: Settings, tw: Tower, at: Time, now: Time)
    requires ValidSettings(cfg) && RunOk(cfg, tw)
    ensures Typed(cfg, tw)
    ensures var r := LeafPage(cfg, tw, at, now); OpenedFor(cfg, tw, r.1, r.0, at)
  {
    hide TierOk, IdsSafe, TierTyped, LeafTierOk, Fits, Grows, FinalizeAndRollup, LeavesPlaced, Follows, LeafChained, OpenLeafPage;
    OpenLeafPageOpens(cfg, tw, at);
    var (p, ready) := OpenLeafPage(cfg, tw, at);
    if PreFinalizes(cfg.levels[0], p, at, now) {
      FinalizeLeafPage(cfg, ready, p, at);
      var after := FinalizeAndRollup(cfg, ready, 0, p.Rehash(), at);
      OpenLeafPageOpens(cfg, after, at);
      GrowsTransitive(tw, ready, after);
      GrowsTransitive(tw, after, OpenLeafPage(cfg, after, at).1);
    }
  }

  lemma FilledFits(cfg: Settings, tw: Tower, p: Page, leaf: Leaf)
    requires ValidSettings(cfg) && RunOk(cfg, tw) && Fits(cfg, tw, 0, p) && LeavesPlaced(p)
    requires InRange(leaf.at) ==> p.InWindow(leaf.at)
    ensures PageTyped(cfg, 0, p)
    ensures var q := p.AddLeaf(leaf);
      Fits(cfg, tw, 0, q) && LeavesPlaced(q) && !q.IsEmpty() && Follows(tw.tiers[0].stored, q) == Follows(tw.tiers[0].stored, p)
      && q.content.leaves == p.content.leaves + [leaf]
  {
    hide Extends, TierOk, IdsSafe, TierTyped, LeafTierOk;
    var t := tw.tiers[0];
    if t.LastStored().Some? {
      assert t.LastStored().value.id == t.last.value.id;
    }
  }

  lemma KeepLeafPage(cfg: Settings, tw: Tower, p: Page)
    requires ValidSettings(cfg) && RunOk(cfg, tw) && Fits(cfg, tw, 0, p) && LeavesPlaced(p) && !p.IsEmpty()
    requires p.Length() < cfg.levels[0].maxItems
    ensures var r := tw.Activate(0, p);
      && RunOk(cfg, r) && Grows(tw, r) && AllLeaves(r) == LeavesIn(tw.tiers[0].stored) + p.content.leaves
      && (LeafChained(tw.tiers[0]) && Follows(tw.tiers[0].stored, p) ==> LeafChained(r.tiers[0]))
  {
    hide TierOk, IdsSafe, TierGrows, Extends, LeafPagesOk;
    ActivateSound(cfg, tw, 0, p);
  }

  /** One `add_leaf`, at any timestamp and operation time. */
  lemma AddLeafOk(cfg: Settings, tw: Tower, leaf: Leaf, now: Time)
    requires ValidSettings(cfg) && RunOk(cfg, tw)
    ensures Typed(cfg, tw)
    ensures var r := AddLeaf(cfg, tw, leaf, now);
      && RunOk(cfg, r) && Grows(tw, r) && AllLeaves(r) == AllLeaves(tw) + [leaf]
      && (LeafChained(tw.tiers[0]) ==> LeafChained(r.tiers[0]))
  {
    hide TierOk, IdsSafe, TierTyped, LeafTierOk, Fits, Grows, FinalizeAndRollup, LeavesPlaced, Follows, LeafChained, LeafPage, LeavesIn;
    LeafPageOpens(cfg, tw, leaf.at, now);
    var (p, ready) := LeafPage(cfg, tw, leaf.at, now);
    FilledFits(cfg, ready, p, leaf);
    var filled := p.AddLeaf(leaf);
    assert LeavesIn(ready.tiers[0].stored) + filled.content.leaves == AllLeaves(tw) + [leaf];
    if DueLeafPage(cfg.levels[0], filled, leaf.at, now) {
      FinalizeLeafPage(cfg, ready, filled, leaf.at);
      GrowsTransitive(tw, ready, FinalizeAndRollup(cfg, ready, 0, filled.Rehash(), leaf.at));
    } else {
      KeepLeafPage(cfg, ready, filled);
      GrowsTransitive(tw, ready, ready.Activate(0, filled));
    }
  }

  function LeavesOf(steps: seq<Step>): seq<Leaf> {
    seq(|steps|, i requires 0 <= i < |steps| => steps[i].leaf)
  }

  /** Leaf conservation, in every run: the pages of level 0 hold exactly the leaves added, in order. */
  lemma {:induction false} RunConserves(cfg: Settings, steps: seq<Step>)
    requires ValidSettings(cfg)
    ensures RunOk(cfg, Run(cfg, steps)) && LeafChained(Run(cfg, steps).tiers[0])
    ensures AllLeaves(Run(cfg, steps)) == LeavesOf(steps)
  {
    hide TierOk, IdsSafe, TierTyped, LeafTierOk, LeafChained, AddLeaf, AllLeaves;
    if steps == [] {
      EmptyTowerOk(cfg);
    } else {
      RunConserves(cfg, DropLast(steps));
      AddLeafOk(cfg, Run(cfg, DropLast(steps)), Last(steps).leaf, Last(steps).now);
      assert LeavesOf(steps) == LeavesOf(DropLast(steps)) + [Last(steps).leaf];
    }
  }

  /** Between any two points of a run the store only grows: level 0 pages are never rewritten. */
  lemma {:induction false} RunGrows(cfg: Settings, steps: seq<Step>, more: seq<Step>)
    requires ValidSettings(cfg)
    ensures Grows(Run(cfg, steps), Run(cfg, steps + more))
  {
    hide TierOk, IdsSafe, TierTyped, LeafTierOk, AddLeaf, Grows, AllLeaves;
    if more == [] {
      assert steps + more == steps;
      GrowsReflexive(Run(cfg, steps));
    } else {
      var whole := steps + more;
      assert DropLast(whole) == steps + DropLast(more);
      RunGrows(cfg, steps, DropLast(more));
      RunConserves(cfg, DropLast(whole));
      AddLeafOk(cfg, Run(cfg, DropLast(whole)), Last(more).leaf, Last(more).now);
      GrowsTransitive(Run(cfg, steps), Run(cfg, DropLast(whole)), Run(cfg, whole));
    }
  }
}
