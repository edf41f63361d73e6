/**
 What monotone runs keep on top of safety: at every level pages are chained, windows
 ascend, an active page lies behind everything stored, and a stored parent page is
 never extended and then left open.
 */
module Timeline {
  import opened Prelude
  import opened Hashing
  import opened Config
  import opened Pages
  import opened Towers
  import opened Safety
  import opened Conservation

  // ---------------------------------------------------------------- invariant

  /** Why the last stored page of a parent level was closed; each reason outlasts later triggers. */
  ghost predicate Closed(l: Level, p: Page, now: Time) {
    p.Length() >= l.maxItems || p.end <= now || OverAge(l, p, now)
  }

  ghost predicate StoredTimely(l: Level, pages: seq<Page>, now: Time)
    requires ValidLevel(l)
  {
    && Chained(pages)
    && (forall i, j :: 0 <= i < j < |pages| ==> pages[i].start <= pages[j].start)
    && (forall i :: 0 <= i < |pages| ==> pages[i].start <= WindowStart(l, now))
  }

  /** Page p may be put behind, or in place of, the last stored page. */
  ghost predicate Continues(l: Level, t: Tier, p: Page, now: Time)
    requires ValidLevel(l)
  {
    && p.start <= WindowStart(l, now)
    && (t.stored != [] ==>
         var q := Last(t.stored);
         if p.id == q.id then p.prev == q.prev && p.start == q.start
         else p.id > q.id && p.prev == Some(q.hash) && p.start >= q.start)
  }

  ghost predicate TierTimely(l: Level, k: nat, t: Tier, now: Time)
    requires ValidLevel(l)
  {
    && Anchored(t)
    && StoredTimely(l, t.stored, now)
    && (k > 0 && t.LastStored().Some? ==> Closed(l, t.LastStored().value, now))
    && (t.active.Some? ==> Continues(l, t, t.active.value, now) && (t.stored != [] ==> t.active.value.id != Last(t.stored).id))
  }

  ghost predicate Timely(cfg: Settings, tw: Tower, now: Time)
    requires ValidSettings(cfg)
  {
    && InRange(now) && |tw.tiers| == |cfg.levels|
    && forall k :: 0 <= k < |tw.tiers| ==> TierTimely(cfg.levels[k], k, tw.tiers[k], now)
  }

  lemma EmptyTowerTimely(cfg: Settings)
    requires ValidSettings(cfg)
    ensures Timely(cfg, EmptyTower(cfg), 0)
  {
  }

  // ---------------------------------------------------------------- time passes

  lemma OverAgeLasts(l: Level, p: Page, a: Time, b: Time)
    requires a <= b && p.start <= a && OverAge(l, p, a)
    ensures OverAge(l, p, b)
  {
  }

  lemma TierTimelyLater(l: Level, k: nat, t: Tier, a: Time, b: Time)
    requires ValidLevel(l) && InRange(a) && InRange(b) && a <= b && TierTimely(l, k, t, a)
    ensures TierTimely(l, k, t, b)
  {
    hide WindowStart, OverAge, Chained;
    WindowMonotone(l, a, b);
    WindowBounds(l, a);
    if t.LastStored().Some? {
      var p := t.LastStored().value;
      assert p.start <= WindowStart(l, a);
      if OverAge(l, p, a) {
        OverAgeLasts(l, p, a, b);
      }
    }
  }

  lemma TimelyLater(cfg: Settings, tw: Tower, a: Time, b: Time)
    requires ValidSettings(cfg) && Timely(cfg, tw, a) && InRange(b) && a <= b
    ensures Timely(cfg, tw, b)
  {
    hide TierTimely;
    forall k | 0 <= k < |tw.tiers| ensures TierTimely(cfg.levels[k], k, tw.tiers[k], b) {
      TierTimelyLater(cfg.levels[k], k, tw.tiers[k], a, b);
    }
  }

  // ---------------------------------------------------------------- single updates

  lemma StoreTimely(l: Level, k: nat, t: Tier, p: Page, now: Time)
    requires ValidLevel(l) && TierTimely(l, k, t, now) && Continues(l, t, p, now)
    requires k > 0 ==> Closed(l, p, now)
    ensures TierTimely(l, k, t.Store(p), now)
  {
    hide WindowStart, Closed;
    var u := t.Store(p);
    var n := |u.stored| - 1;
    forall i | 0 < i <= n ensures u.stored[i].prev == Some(u.stored[i - 1].hash) && u.stored[i - 1].start <= u.stored[i].start {
      assert u.stored[i - 1] == t.stored[i - 1];
      if i < n {
        assert u.stored[i] == t.stored[i];
      } else if t.stored != [] && p.id == Last(t.stored).id {
        assert t.stored[i].prev == Some(t.stored[i - 1].hash);
      }
    }
    forall i | 0 <= i < n ensures u.stored[i].start <= p.start {
      assert u.stored[i] == t.stored[i];
      assert t.stored[i].start <= Last(t.stored).start;
    }
  }

  lemma ActivateTimely(l: Level, k: nat, t: Tier, p: Page, now: Time)
    requires ValidLevel(l) && TierTimely(l, k, t, now) && Continues(l, t, p, now)
    requires t.stored != [] ==> p.id != Last(t.stored).id
    ensures TierTimely(l, k, t.(active := Some(p)), now)
  {
  }

  lemma TimelyAt(cfg: Settings, tw: Tower, ux: Tower, k: nat, now: Time)
    requires ValidSettings(cfg) && Timely(cfg, tw, now) && k < |tw.tiers| == |ux.tiers|
    requires forall j :: 0 <= j < |tw.tiers| && j != k ==> ux.tiers[j] == tw.tiers[j]
    requires TierTimely(cfg.levels[k], k, ux.tiers[k], now)
    ensures Timely(cfg, ux, now)
  {
  }

  // ---------------------------------------------------------------- rollup

  lemma FinalizeKeepsTimely(cfg: Settings, tw: Tower, j: nat, p: Page, now: Time)
    requires ValidSettings(cfg) && Sound(cfg, tw) && Timely(cfg, tw, now) && j < |cfg.levels|
    requires Fits(cfg, tw, j, p) && StoredOk(cfg, j, p) && Continues(cfg.levels[j], tw.tiers[j], p, now)
    requires j > 0 ==> Closed(cfg.levels[j], p, now)
    ensures Sound(cfg, tw.Finalize(j, p)) && Timely(cfg, tw.Finalize(j, p), now) && PageTyped(cfg, j, p)
  {
    assert PageTyped(cfg, j, p);
    hide TierTimely, TierOk, IdsSafe, TierTyped, Grows, Fits, StoredOk, Continues, Closed;
    FinalizeSound(cfg, tw, j, p);
    StoreTimely(cfg.levels[j], j, tw.tiers[j], p, now);
    TimelyAt(cfg, tw, tw.Finalize(j, p), j, now);
  }

  lemma {:induction false} FinalizeAndRollupTimely(cfg: Settings, tw: Tower, k: nat, p: Page, now: Time)
    requires ValidSettings(cfg) && Sound(cfg, tw) && Timely(cfg, tw, now) && k < |cfg.levels|
    requires Fits(cfg, tw, k, p) && StoredOk(cfg, k, p) && Continues(cfg.levels[k], tw.tiers[k], p, now)
    requires k > 0 ==> Closed(cfg.levels[k], p, now)
    ensures PageTyped(cfg, k, p) && Timely(cfg, FinalizeAndRollup(cfg, tw, k, p, now), now)
    decreases |cfg.levels| - k, 1
  {
    hide TierTimely, TierOk, IdsSafe, TierTyped, Fits, StoredOk, Continues, Closed, Rollup;
    FinalizeKeepsTimely(cfg, tw, k, p, now);
    RollupTimely(cfg, tw.Finalize(k, p), k, p, now);
  }

  /** A stale active page is ready to be stored. */
  lemma StaleReady(cfg: Settings, tw: Tower, p: nat, now: Time)
    requires ValidSettings(cfg) && Sound(cfg, tw) && Timely(cfg, tw, now) && 0 < p < |cfg.levels|
    requires Stale(tw.tiers[p], now) && !tw.tiers[p].active.value.IsEmpty()
    ensures var a := tw.tiers[p].active.value.Rehash();
      && PageTyped(cfg, p, a) && Fits(cfg, tw, p, a) && StoredOk(cfg, p, a)
      && Continues(cfg.levels[p], tw.tiers[p], a, now) && Closed(cfg.levels[p], a, now)
  {
    hide WindowStart, RootOf, Chained;
    var t := tw.tiers[p];
    assert t.active.value.id in t.Ids();
    assert TierOk(cfg, p, t) && TierTimely(cfg.levels[p], p, t, now);
  }

  lemma {:induction false} RetireStaleTimely(cfg: Settings, tw: Tower, p: nat, now: Time)
    requires ValidSettings(cfg) && Sound(cfg, tw) && Timely(cfg, tw, now) && 0 < p < |cfg.levels|
    ensures var r := RetireStale(cfg, tw, p, now); Timely(cfg, r, now) && !Stale(r.tiers[p], now)
    decreases |cfg.levels| - p, 2
  {
    hide TierOk, IdsSafe, TierTyped, FinalizeAndRollup, Fits, StoredOk, Continues, Closed, StoredTimely;
    if Stale(tw.tiers[p], now) {
      var a := tw.tiers[p].active.value;
      if a.IsEmpty() {
        TimelyAt(cfg, tw, tw.Vacate(p), p, now);
      } else {
        StaleReady(cfg, tw, p, now);
        FinalizeAndRollupTimely(cfg, tw, p, a.Rehash(), now);
      }
    }
  }

  /** With no stale page in the way, the parent is the active page, a reopened page, or a new one. */
  lemma OpenParentContinues(cfg: Settings, tw: Tower, p: nat, now: Time)
    requires ValidSettings(cfg) && Sound(cfg, tw) && Timely(cfg, tw, now) && 0 < p < |cfg.levels|
    requires !Stale(tw.tiers[p], now)
    ensures var page := OpenParent(cfg, tw, p, now).0;
      && Continues(cfg.levels[p], tw.tiers[p], page, now)
      && (tw.tiers[p].active.Some? ==> page == tw.tiers[p].active.value)
      && (tw.tiers[p].stored != [] && page.id == Last(tw.tiers[p].stored).id ==> OverAge(cfg.levels[p], page, now) && !page.IsEmpty())
  {
    hide Chained, Extends, OverAge, RootOf;
    var l, t := cfg.levels[p], tw.tiers[p];
    assert TierOk(cfg, p, t) && TierTimely(l, p, t, now);
    WindowBounds(l, now);
    hide WindowStart;
    if t.active.Some? {
      assert Reusable(l, t.active.value, now);
    } else if t.stored != [] {
      assert t.LastStored().Some?;
      assert Last(t.stored).id in t.Ids();
    }
  }

  lemma {:induction false} SettleTimely(cfg: Settings, tw: Tower, p: nat, page: Page, now: Time)
    requires ValidSettings(cfg) && Sound(cfg, tw) && Timely(cfg, tw, now) && 0 < p < |cfg.levels|
    requires Fits(cfg, tw, p, page) && PageTyped(cfg, p, page) && page == page.Rehash() && Continues(cfg.levels[p], tw.tiers[p], page, now)
    requires tw.tiers[p].stored != [] && page.id == Last(tw.tiers[p].stored).id ==> OverAge(cfg.levels[p], page, now) && !page.IsEmpty()
    requires !page.content.NetPatches? ==> page.Length() <= cfg.levels[p].maxItems
    ensures Timely(cfg, Settle(cfg, tw, p, page, now), now)
    decreases |cfg.levels| - p, 2
  {
    hide TierOk, IdsSafe, TierTyped, FinalizeAndRollup, Continues, StoredTimely, OverAge, Extends;
    if page.IsEmpty() || !Due(cfg.levels[p], page, now) {
      TimelyAt(cfg, tw, tw.Vacate(p), p, now);
      ActivateTimely(cfg.levels[p], p, tw.tiers[p], page, now);
      TimelyAt(cfg, tw, tw.Activate(p, page), p, now);
    } else {
      FinalizeAndRollupTimely(cfg, tw, p, page, now);
    }
  }

  lemma {:induction false} AbsorbAndSettleTimely(cfg: Settings, tw: Tower, p: nat, child: Page, now: Time)
    requires ValidSettings(cfg) && Sound(cfg, tw) && Timely(cfg, tw, now) && 0 < p < |cfg.levels|
    requires !Stale(tw.tiers[p], now)
    ensures Timely(cfg, AbsorbAndSettle(cfg, tw, p, child, now), now)
    decreases |cfg.levels| - p, 3
  {
    hide TierOk, IdsSafe, TierTyped, TierTimely, Settle;
    OpenParentContinues(cfg, tw, p, now);
    AbsorbedFits(cfg, tw, p, child, now);
    var ready := tw.(next := OpenParent(cfg, tw, p, now).1);
    var page, full := OpenParent(cfg, tw, p, now).0, Absorbed(cfg, tw, p, child, now);
    AbsorbedExtends(cfg, tw, p, child, now);
    SettleTimely(cfg, ready, p, full, now);
  }

  lemma AbsorbedExtends(cfg: Settings, tw: Tower, p: nat, child: Page, now: Time)
    requires ValidSettings(cfg) && Sound(cfg, tw) && 0 < p < |cfg.levels|
    ensures Extends(OpenParent(cfg, tw, p, now).0, Absorbed(cfg, tw, p, child, now))
    ensures !OpenParent(cfg, tw, p, now).0.IsEmpty() ==> !Absorbed(cfg, tw, p, child, now).IsEmpty()
  {
    hide TierOk, IdsSafe, TierTyped;
    OpenParentFits(cfg, tw, p, now);
    AbsorbExtends(cfg, p, OpenParent(cfg, tw, p, now).0, child);
  }

  lemma AbsorbedContinues(cfg: Settings, tw: Tower, p: nat, child: Page, now: Time)
    requires ValidSettings(cfg) && Sound(cfg, tw) && Timely(cfg, tw, now) && 0 < p < |cfg.levels|
    requires !Stale(tw.tiers[p], now)
    ensures Continues(cfg.levels[p], tw.tiers[p], Absorbed(cfg, tw, p, child, now), now)
  {
    hide TierOk, IdsSafe, TierTyped, TierTimely, RootOf, Absorbed, OpenParent;
    OpenParentContinues(cfg, tw, p, now);
    AbsorbedExtends(cfg, tw, p, child, now);
  }

  lemma {:induction false} RollupTimely(cfg: Settings, tw: Tower, level: nat, child: Page, now: Time)
    requires ValidSettings(cfg) && Sound(cfg, tw) && Timely(cfg, tw, now) && level < |cfg.levels|
    ensures Timely(cfg, Rollup(cfg, tw, level, child, now), now)
    decreases |cfg.levels| - level, 0
  {
    hide TierOk, IdsSafe, TierTyped, TierTimely, RetireStale, AbsorbAndSettle;
    if level + 1 < |cfg.levels| {
      RetireStaleSound(cfg, tw, level + 1, now);
      RetireStaleTimely(cfg, tw, level + 1, now);
      AbsorbAndSettleTimely(cfg, RetireStale(cfg, tw, level + 1, now), level + 1, child, now);
    }
  }

  // ---------------------------------------------------------------- adding leaves

  lemma FinalizeLeafPageTimely(cfg: Settings, tw: Tower, p: Page, now: Time)
    requires ValidSettings(cfg) && RunOk(cfg, tw) && Timely(cfg, tw, now)
    requires Fits(cfg, tw, 0, p) && !p.IsEmpty() && p.Length() <= cfg.levels[0].maxItems && Continues(cfg.levels[0], tw.tiers[0], p, now)
    ensures PageTyped(cfg, 0, p) && Typed(cfg, tw)
    ensures Timely(cfg, FinalizeAndRollup(cfg, tw, 0, p.Rehash(), now), now)
  {
    hide TierOk, IdsSafe, TierTyped, TierTimely, LeafTierOk, Rollup, RootOf, Extends;
    RehashFits(cfg, tw, p);
    FinalizeAndRollupTimely(cfg, tw, 0, p.Rehash(), now);
  }

  lemma FreshLeafPageTimely(cfg: Settings, tw: Tower, at: Time)
    requires ValidSettings(cfg) && RunOk(cfg, tw) && Timely(cfg, tw, at)
    ensures Continues(cfg.levels[0], tw.tiers[0], FreshLeafPage(cfg, tw, at), at)
  {
    hide WindowStart, Chained, Extends, RootOf;
    var t := tw.tiers[0];
    assert TierTimely(cfg.levels[0], 0, t, at);
    if t.stored != [] {
      assert t.LastStored().Some? && t.stored[|t.stored| - 1].id in t.Ids();
    }
  }

  lemma OpenLeafPageTimely(cfg: Settings, tw: Tower, at: Time)
    requires ValidSettings(cfg) && RunOk(cfg, tw) && Timely(cfg, tw, at)
    ensures Typed(cfg, tw)
    ensures var r := OpenLeafPage(cfg, tw, at); Timely(cfg, r.1, at) && Continues(cfg.levels[0], r.1.tiers[0], r.0, at)
  {
    var t := tw.tiers[0];
    if t.active.Some? {
      assert Continues(cfg.levels[0], t, t.active.value, at) by {
        assert TierTimely(cfg.levels[0], 0, t, at);
      }
      hide TierOk, IdsSafe, TierTyped, TierTimely, LeafTierOk, LeafPagesOk, Fits, FinalizeAndRollup, Follows, LeavesPlaced, Continues;
      ActiveLeafPageFits(cfg, tw);
      if !Reusable(cfg.levels[0], t.active.value, at) {
        FinalizeLeafPage(cfg, tw, t.active.value, at);
        FinalizeLeafPageTimely(cfg, tw, t.active.value, at);
        FreshLeafPageTimely(cfg, FinalizeHelper(cfg, tw, t.active.value, at), at);
      }
    } else {
      FreshLeafPageTimely(cfg, tw, at);
    }
  }

  lemma LeafPageTimely(cfg: Settings, tw: Tower, at: Time, now: Time)
    requires ValidSettings(cfg) && RunOk(cfg, tw) && Timely(cfg, tw, at)
    ensures Typed(cfg, tw)
    ensures var r := LeafPage(cfg, tw, at, now); Timely(cfg, r.1, at) && Continues(cfg.levels[0], r.1.tiers[0], r.0, at)
  {
    hide TierOk, IdsSafe, TierTyped, TierTimely, LeafTierOk, Fits, Grows, FinalizeAndRollup, LeavesPlaced, Follows, OpenLeafPage, Continues;
    OpenLeafPageOpens(cfg, tw, at);
    OpenLeafPageTimely(cfg, tw, at);
    var (p, ready) := OpenLeafPage(cfg, tw, at);
    if PreFinalizes(cfg.levels[0], p, at, now) {
      FinalizeLeafPage(cfg, ready, p, at);
      FinalizeLeafPageTimely(cfg, ready, p, at);
      OpenLeafPageTimely(cfg, FinalizeAndRollup(cfg, ready, 0, p.Rehash(), at), at);
    }
  }

  /** One `add_leaf` no earlier than everything before it. */
  lemma AddLeafTimely(cfg: Settings, tw: Tower, leaf: Leaf, now: Time, before: Time)
    requires ValidSettings(cfg) && RunOk(cfg, tw) && Timely(cfg, tw, before)
    requires before <= leaf.at && InRange(leaf.at)
    ensures Typed(cfg, tw)
    ensures Timely(cfg, AddLeaf(cfg, tw, leaf, now), leaf.at)
  {
    hide TierOk, IdsSafe, TierTyped, TierTimely, LeafTierOk, Grows, FinalizeAndRollup, LeavesPlaced, LeafPage, LeavesIn, Extends;
    TimelyLater(cfg, tw, before, leaf.at);
    LeafPageOpens(cfg, tw, leaf.at, now);
    LeafPageTimely(cfg, tw, leaf.at, now);
    var (p, ready) := LeafPage(cfg, tw, leaf.at, now);
    FilledFits(cfg, ready, p, leaf);
    var filled := p.AddLeaf(leaf);
    if DueLeafPage(cfg.levels[0], filled, leaf.at, now) {
      FinalizeLeafPageTimely(cfg, ready, filled, leaf.at);
    } else {
      NewIdAtLevelZero(cfg, ready, filled);
      ActivateTimely(cfg.levels[0], 0, ready.tiers[0], filled, leaf.at);
      TimelyAt(cfg, ready, ready.Activate(0, filled), 0, leaf.at);
    }
  }

  lemma NewIdAtLevelZero(cfg: Settings, tw: Tower, p: Page)
    requires ValidSettings(cfg) && Sound(cfg, tw) && Fits(cfg, tw, 0, p)
    ensures tw.tiers[0].stored != [] ==> p.id != Last(tw.tiers[0].stored).id
  {
    assert TierOk(cfg, 0, tw.tiers[0]);
  }

  // ---------------------------------------------------------------- runs

  /** Leaf timestamps never decrease, and none makes window arithmetic truncate upward. */
  predicate Monotone(steps: seq<Step>) {
    && (forall i :: 0 <= i < |steps| ==> InRange(steps[i].leaf.at))
    && (forall i, j :: 0 <= i < j < |steps| ==> steps[i].leaf.at <= steps[j].leaf.at)
  }

  function Clock(steps: seq<Step>): Time {
    if steps == [] then 0 else Last(steps).leaf.at
  }

  lemma MonotonePrefix(steps: seq<Step>)
    requires Monotone(steps) && steps != []
    ensures Monotone(DropLast(steps)) && Clock(DropLast(steps)) <= Clock(steps) && InRange(Clock(steps))
  {
    if |steps| > 1 {
      assert Clock(DropLast(steps)) == steps[|steps| - 2].leaf.at;
    }
  }

  lemma {:induction false} RunTimely(cfg: Settings, steps: seq<Step>)
    requires ValidSettings(cfg) && Monotone(steps)
    ensures Timely(cfg, Run(cfg, steps), Clock(steps))
  {
    hide TierOk, IdsSafe, TierTyped, LeafTierOk, AddLeaf, TierTimely, Monotone;
    if steps == [] {
      EmptyTowerTimely(cfg);
    } else {
      MonotonePrefix(steps);
      RunTimely(cfg, DropLast(steps));
      RunConserves(cfg, DropLast(steps));
      AddLeafTimely(cfg, Run(cfg, DropLast(steps)), Last(steps).leaf, Last(steps).now, Clock(DropLast(steps)));
    }
  }
}
