/**
 Relations between a level and its parent that every rollup of a monotone run keeps.
 One induction over the cascade serves all of them; each relation only supplies what
 happens when a page is stored at its own level.
 */
module Relations {
  import opened Prelude
  import opened Hashing
  import opened Config
  import opened Patches
  import opened Pages
  import opened Towers
  import opened Safety
  import opened Conservation
  import opened Timeline
  import opened Links

  datatype Relation =
    | Exact      // the parent lists exactly the stored pages' hashes, in id order
    | AtLeast    // the parent lists at least as many hashes as pages are stored
    | Overlay    // the parent's net patches overlay to the same map
    | Reclosing  // a level that is always over age: every rollup closes its last page again
    | Flushed(seen: nat, owner: string, end: Time)
                 // once more pages are stored than were seen, the parent has stored a page of the owner that ended then

  /** A stored page with the given end mentions the owner. */
  ghost predicate Kept(t: Tier, owner: string, end: Time) {
    exists i :: 0 <= i < |t.stored| && t.stored[i].end == end && owner in NetPatch(t.stored[i].content)
  }

  /** The active page has the given end and mentions the owner. */
  ghost predicate Open(t: Tier, owner: string, end: Time) {
    t.active.Some? && t.active.value.end == end && owner in NetPatch(t.active.value.content)
  }

  ghost predicate Reclosed(l: Level, t: Tier, u: Tier, now: Time)
    requires ValidLevel(l)
  {
    && t.active.None?
    && |Carried(u)| == |Carried(t)|
    && (forall i :: 0 <= i < |t.stored| - 1 ==> t.stored[i].Length() == l.maxItems)
    && (forall i :: 0 <= i < |t.stored| ==> t.stored[i].start == WindowStart(l, now))
  }

  /** Which settings a relation is about. */
  predicate Applies(rel: Relation, cfg: Settings, k: nat, now: Time) {
    && ValidSettings(cfg) && k + 1 < |cfg.levels|
    && match rel
       case Exact => cfg.levels[k + 1].CarriesHashes() && (k > 0 ==> NeverReopens(cfg.levels[k]))
       case AtLeast => cfg.levels[k + 1].CarriesHashes()
       case Overlay => cfg.levels[k + 1].CarriesPatches()
       case Reclosing =>
         && k > 0 && cfg.levels[k].CarriesHashes() && cfg.levels[k + 1].CarriesHashes()
         && TruncDiv(now - WindowStart(cfg.levels[k], now), NANOS_PER_SECOND) >= cfg.levels[k].maxAge
       case Flushed(_, _, end) => end <= now
  }

  lemma AppliesValid(rel: Relation, cfg: Settings, k: nat, at: Time)
    requires Applies(rel, cfg, k, at)
    ensures ValidSettings(cfg) && k + 1 < |cfg.levels|
  {
  }

  ghost predicate Holds(rel: Relation, cfg: Settings, tw: Tower, k: nat, now: Time)
    requires ValidSettings(cfg) && k + 1 < |cfg.levels| == |tw.tiers|
  {
    match rel
    case Exact => Linked(tw, k)
    case AtLeast => |Carried(tw.tiers[k + 1])| >= |tw.tiers[k].stored|
    case Overlay => Net(tw.tiers[k + 1]) == NetIn(tw.tiers[k].stored)
    case Reclosing => Reclosed(cfg.levels[k], tw.tiers[k], tw.tiers[k + 1], now)
    case Flushed(seen, owner, end) =>
      Kept(tw.tiers[k + 1], owner, end) || (|tw.tiers[k].stored| <= seen && Open(tw.tiers[k + 1], owner, end))
  }

  /** What a relation asks of a page about to be stored at its level. */
  ghost predicate MayStore(rel: Relation, l: Level, t: Tier, p: Page, now: Time)
    requires ValidLevel(l)
  {
    && (rel.Exact? && t.stored != [] ==> p.id != Last(t.stored).id)
    && (rel.Reclosing? ==>
         && p.start == WindowStart(l, now)
         && |Carried(t.Store(p))| == |Carried(t)| + 1
         && (t.stored != [] && p.id != Last(t.stored).id ==> Last(t.stored).Length() == l.maxItems))
  }

  // ---------------------------------------------------------------- storing at the level itself

  lemma StoreExact(cfg: Settings, tw: Tower, k: nat, p: Page, now: Time)
    requires Applies(Exact, cfg, k, now) && Typed(cfg, tw) && PageTyped(cfg, k, p)
    requires Sound(cfg, tw.Finalize(k, p)) && Timely(cfg, tw.Finalize(k, p), now)
    requires Linked(tw, k) && (tw.tiers[k].stored != [] ==> p.id != Last(tw.tiers[k].stored).id)
    ensures Linked(FinalizeAndRollup(cfg, tw, k, p, now), k)
  {
    hide TierTimely, TierOk, IdsSafe, TierTyped, Carried, Rollup, NeverReopens;
    CarriedSnoc(tw.tiers[k].stored, p);
    RollupCarries(cfg, tw.Finalize(k, p), k, p, now);
  }

  lemma StoreAtLeast(cfg: Settings, tw: Tower, k: nat, p: Page, now: Time)
    requires Applies(AtLeast, cfg, k, now) && Typed(cfg, tw) && PageTyped(cfg, k, p)
    requires Sound(cfg, tw.Finalize(k, p)) && Timely(cfg, tw.Finalize(k, p), now)
    requires Holds(AtLeast, cfg, tw, k, now)
    ensures Holds(AtLeast, cfg, FinalizeAndRollup(cfg, tw, k, p, now), k, now)
  {
    hide TierTimely, TierOk, IdsSafe, TierTyped, Carried, Rollup;
    RollupCarries(cfg, tw.Finalize(k, p), k, p, now);
  }

  /** Re-storing an extended page hides its earlier patch; a new page goes on top. */
  lemma StoredOverlay(t: Tier, p: Page)
    requires t.stored != [] && Last(t.stored).id == p.id ==> Extends(Last(t.stored), p)
    ensures NetIn(t.Store(p).stored) == Merge(NetIn(t.stored), NetPatch(p.content))
  {
    hide Merge, NetPatch, KeysWithin;
    if t.stored != [] && Last(t.stored).id == p.id {
      NetSnoc(DropLast(t.stored), p);
      MergeAbsorbs(NetIn(DropLast(t.stored)), NetPatch(Last(t.stored).content), NetPatch(p.content));
    } else {
      NetSnoc(t.stored, p);
    }
  }

  lemma StoreOverlay(cfg: Settings, tw: Tower, k: nat, p: Page, now: Time)
    requires Applies(Overlay, cfg, k, now) && Typed(cfg, tw) && PageTyped(cfg, k, p)
    requires Sound(cfg, tw.Finalize(k, p)) && Timely(cfg, tw.Finalize(k, p), now)
    requires tw.tiers[k].stored != [] && Last(tw.tiers[k].stored).id == p.id ==> Extends(Last(tw.tiers[k].stored), p)
    requires Holds(Overlay, cfg, tw, k, now)
    ensures Holds(Overlay, cfg, FinalizeAndRollup(cfg, tw, k, p, now), k, now)
  {
    hide TierTimely, TierOk, IdsSafe, TierTyped, Net, NetIn, Merge, NetPatch, Extends, Rollup;
    StoredOverlay(tw.tiers[k], p);
    RollupNets(cfg, tw.Finalize(k, p), k, p, now);
  }

  /** Storing the page that is closed again, or a new one behind a full one. */
  lemma StoreReclosed(l: Level, t: Tier, u: Tier, v: Tier, p: Page, now: Time)
    requires ValidLevel(l) && Reclosed(l, t, u, now) && MayStore(Reclosing, l, t, p, now) && |Carried(v)| == |Carried(u)| + 1
    ensures Reclosed(l, t.Store(p), v, now)
  {
    hide Carried, WindowStart;
    var w := t.Store(p);
    forall i | 0 <= i < |w.stored| - 1 ensures w.stored[i] == t.stored[i] {
    }
  }

  lemma StoreReclosing(cfg: Settings, tw: Tower, k: nat, p: Page, now: Time)
    requires Applies(Reclosing, cfg, k, now) && Typed(cfg, tw) && PageTyped(cfg, k, p)
    requires Sound(cfg, tw.Finalize(k, p)) && Timely(cfg, tw.Finalize(k, p), now)
    requires MayStore(Reclosing, cfg.levels[k], tw.tiers[k], p, now) && Reclosed(cfg.levels[k], tw.tiers[k], tw.tiers[k + 1], now)
    ensures var r := FinalizeAndRollup(cfg, tw, k, p, now); Reclosed(cfg.levels[k], r.tiers[k], r.tiers[k + 1], now)
  {
    hide TierTimely, TierOk, IdsSafe, TierTyped, Carried, Rollup, WindowStart, Reclosed, MayStore;
    var r := FinalizeAndRollup(cfg, tw, k, p, now);
    RollupCarries(cfg, tw.Finalize(k, p), k, p, now);
    StoreReclosed(cfg.levels[k], tw.tiers[k], tw.tiers[k + 1], r.tiers[k + 1], p, now);
  }

  lemma KeptGrows(k: nat, t: Tier, u: Tier, owner: string, end: Time)
    requires Kept(t, owner, end) && TierGrows(k, t, u)
    ensures Kept(u, owner, end)
  {
    hide NetPatch;
    var i :| 0 <= i < |t.stored| && t.stored[i].end == end && owner in NetPatch(t.stored[i].content);
    if i < |t.stored| - 1 {
      assert u.stored[i] == t.stored[i];
    } else {
      assert Extends(t.stored[i], u.stored[i]);
    }
  }

  /** An open page whose window has passed is stored. */
  lemma OpenIsRetired(cfg: Settings, tw: Tower, p: nat, now: Time, owner: string, end: Time)
    requires ValidSettings(cfg) && Typed(cfg, tw) && p < |cfg.levels| && Open(tw.tiers[p], owner, end) && end <= now
    ensures Kept(RetireStale(cfg, tw, p, now).tiers[p], owner, end)
  {
    assert TierTyped(cfg, p, tw.tiers[p]);
    hide TierTyped, RootOf, FinalizeAndRollup;
    var a := tw.tiers[p].active.value.Rehash();
    var u := tw.tiers[p].Store(a);
    assert u.stored[|u.stored| - 1] == a;
    assert RetireStale(cfg, tw, p, now) == FinalizeAndRollup(cfg, tw, p, a, now);
  }

  lemma StoreFlushed(seen: nat, owner: string, end: Time, cfg: Settings, tw: Tower, k: nat, p: Page, now: Time)
    requires Applies(Flushed(seen, owner, end), cfg, k, now) && Typed(cfg, tw) && PageTyped(cfg, k, p)
    requires Sound(cfg, tw.Finalize(k, p)) && Holds(Flushed(seen, owner, end), cfg, tw, k, now)
    ensures Kept(FinalizeAndRollup(cfg, tw, k, p, now).tiers[k + 1], owner, end)
  {
    hide TierOk, IdsSafe, TierTyped, Kept, Open, TierGrows, RetireStale, AbsorbAndSettle;
    var stored, q := tw.Finalize(k, p), k + 1;
    var retired := RetireStale(cfg, stored, q, now);
    RetireStaleSound(cfg, stored, q, now);
    if Kept(tw.tiers[q], owner, end) {
      KeptGrows(q, tw.tiers[q], retired.tiers[q], owner, end);
    } else {
      OpenIsRetired(cfg, stored, q, now, owner, end);
    }
    AbsorbAndSettleSound(cfg, retired, q, p, now);
    KeptGrows(q, retired.tiers[q], AbsorbAndSettle(cfg, retired, q, p, now).tiers[q], owner, end);
  }

  lemma StoreHolds(rel: Relation, cfg: Settings, tw: Tower, k: nat, p: Page, now: Time)
    requires Applies(rel, cfg, k, now) && Typed(cfg, tw) && PageTyped(cfg, k, p)
    requires Sound(cfg, tw.Finalize(k, p)) && Timely(cfg, tw.Finalize(k, p), now)
    requires tw.tiers[k].stored != [] && Last(tw.tiers[k].stored).id == p.id ==> Extends(Last(tw.tiers[k].stored), p)
    requires MayStore(rel, cfg.levels[k], tw.tiers[k], p, now) && Holds(rel, cfg, tw, k, now)
    ensures Holds(rel, cfg, FinalizeAndRollup(cfg, tw, k, p, now), k, now)
  {
    hide TierTimely, TierOk, IdsSafe, TierTyped, Carried, Net, NetIn, Extends, FinalizeAndRollup, Reclosed, WindowStart, Linked;
    match rel
    case Exact => StoreExact(cfg, tw, k, p, now);
    case AtLeast => StoreAtLeast(cfg, tw, k, p, now);
    case Overlay => StoreOverlay(cfg, tw, k, p, now);
    case Reclosing => StoreReclosing(cfg, tw, k, p, now);
    case Flushed(seen, owner, end) => StoreFlushed(seen, owner, end, cfg, tw, k, p, now);
  }

  lemma SameTiersHold(rel: Relation, cfg: Settings, tw: Tower, ux: Tower, k: nat, now: Time)
    requires ValidSettings(cfg) && k + 1 < |cfg.levels| == |tw.tiers| == |ux.tiers| && Holds(rel, cfg, tw, k, now)
    requires ux.tiers[k].stored == tw.tiers[k].stored && ux.tiers[k + 1] == tw.tiers[k + 1]
    requires rel.Reclosing? ==> ux.tiers[k] == tw.tiers[k]
    ensures Holds(rel, cfg, ux, k, now)
  {
  }

  // ---------------------------------------------------------------- the parent page at the level itself

  lemma AbsorbedMayStore(rel: Relation, cfg: Settings, tw: Tower, k: nat, child: Page, now: Time)
    requires Applies(rel, cfg, k, now) && Sound(cfg, tw) && Timely(cfg, tw, now) && 0 < k
    requires !Stale(tw.tiers[k], now) && Holds(rel, cfg, tw, k, now)
    ensures var full := Absorbed(cfg, tw, k, child, now);
      MayStore(rel, cfg.levels[k], tw.tiers[k], full, now) && (rel.Reclosing? ==> !full.IsEmpty() && Due(cfg.levels[k], full, now))
  {
    hide TierOk, IdsSafe, TierTyped, TierTimely, Absorbed, OpenParent, OpensFrom, Carried, Net, NetIn;
    OpenParentFrom(cfg, tw, k, now);
    AbsorbedExtends(cfg, tw, k, child, now);
    if rel.Reclosing? {
      ReclosingMayStore(cfg, tw, k, child, now);
    }
  }

  lemma ReclosingMayStore(cfg: Settings, tw: Tower, k: nat, child: Page, now: Time)
    requires Applies(Reclosing, cfg, k, now) && Sound(cfg, tw) && Timely(cfg, tw, now)
    requires Reclosed(cfg.levels[k], tw.tiers[k], tw.tiers[k + 1], now)
    ensures var full := Absorbed(cfg, tw, k, child, now);
      MayStore(Reclosing, cfg.levels[k], tw.tiers[k], full, now) && !full.IsEmpty() && Due(cfg.levels[k], full, now)
  {
    hide TierOk, IdsSafe, TierTyped, TierTimely, Absorbed, OpenParent, OpensFrom, Carried, WindowStart, KeysWithin, ThrallList, Reopens, NetPatch;
    var l, t := cfg.levels[k], tw.tiers[k];
    var page, full := OpenParent(cfg, tw, k, now).0, Absorbed(cfg, tw, k, child, now);
    OpenParentFrom(cfg, tw, k, now);
    AbsorbedExtends(cfg, tw, k, child, now);
    AbsorbedList(cfg, tw, k, child, now);
    PutBackCarries(t, page, full, child.hash);
    LastIsReopenedUnlessFull(cfg, tw, k, now);
    assert full.start == page.start == WindowStart(l, now);
  }

  lemma LastIsReopenedUnlessFull(cfg: Settings, tw: Tower, k: nat, now: Time)
    requires Applies(Reclosing, cfg, k, now) && Sound(cfg, tw) && Timely(cfg, tw, now)
    requires Reclosed(cfg.levels[k], tw.tiers[k], tw.tiers[k + 1], now)
    ensures var page := OpenParent(cfg, tw, k, now).0;
      page.start == WindowStart(cfg.levels[k], now)
      && (tw.tiers[k].stored != [] && page.id != Last(tw.tiers[k].stored).id ==> Last(tw.tiers[k].stored).Length() == cfg.levels[k].maxItems)
  {
    hide IdsSafe, Carried, Chained, Continues, Closed, RootOf, Extends, WindowStart;
    var l, t := cfg.levels[k], tw.tiers[k];
    assert TierOk(cfg, k, t) && TierTimely(l, k, t, now);
    if t.stored != [] {
      assert t.LastStored() == Some(Last(t.stored));
      assert StoredOk(cfg, k, t.stored[|t.stored| - 1]);
    }
  }

  // ---------------------------------------------------------------- the cascade

  lemma {:induction false} FinalizeAndRollupHolds(rel: Relation, cfg: Settings, tw: Tower, j: nat, p: Page, now: Time, k: nat)
    requires Applies(rel, cfg, k, now) && Sound(cfg, tw) && Timely(cfg, tw, now) && j <= k && Holds(rel, cfg, tw, k, now)
    requires Fits(cfg, tw, j, p) && StoredOk(cfg, j, p) && Continues(cfg.levels[j], tw.tiers[j], p, now)
    requires j > 0 ==> Closed(cfg.levels[j], p, now)
    requires j == k ==> MayStore(rel, cfg.levels[k], tw.tiers[k], p, now)
    ensures PageTyped(cfg, j, p) && Holds(rel, cfg, FinalizeAndRollup(cfg, tw, j, p, now), k, now)
    decreases |cfg.levels| - j, 1
  {
    hide TierTimely, TierOk, IdsSafe, TierTyped, Fits, StoredOk, Continues, Closed, Rollup, Holds, MayStore, NeverReopens;
    FinalizeKeepsTimely(cfg, tw, j, p, now);
    if j == k {
      FitsExtends(cfg, tw, k, p, now);
      StoreHolds(rel, cfg, tw, k, p, now);
    } else {
      var stored := tw.Finalize(j, p);
      SameTiersHold(rel, cfg, tw, stored, k, now);
      RollupHolds(rel, cfg, stored, j, p, now, k);
    }
  }

  lemma FitsExtends(cfg: Settings, tw: Tower, k: nat, p: Page, now: Time)
    requires ValidSettings(cfg) && Timely(cfg, tw, now) && k < |cfg.levels| && Fits(cfg, tw, k, p)
    ensures tw.tiers[k].stored != [] && Last(tw.tiers[k].stored).id == p.id ==> Extends(Last(tw.tiers[k].stored), p)
  {
    hide Extends, StoredTimely, Continues, Closed;
    assert TierTimely(cfg.levels[k], k, tw.tiers[k], now);
  }

  lemma {:induction false} RetireStaleHolds(rel: Relation, cfg: Settings, tw: Tower, p: nat, now: Time, k: nat)
    requires Applies(rel, cfg, k, now) && Sound(cfg, tw) && Timely(cfg, tw, now) && 0 < p <= k && Holds(rel, cfg, tw, k, now)
    ensures Holds(rel, cfg, RetireStale(cfg, tw, p, now), k, now)
    decreases |cfg.levels| - p, 2
  {
    if Stale(tw.tiers[p], now) {
      StaleMayStore(rel, cfg, tw, p, now, k);
      hide TierOk, IdsSafe, TierTyped, TierTimely, FinalizeAndRollup, Fits, StoredOk, Continues, Closed, Holds, MayStore;
      if tw.tiers[p].active.value.IsEmpty() {
        SameTiersHold(rel, cfg, tw, tw.Vacate(p), k, now);
      } else {
        StaleReady(cfg, tw, p, now);
        FinalizeAndRollupHolds(rel, cfg, tw, p, tw.tiers[p].active.value.Rehash(), now, k);
      }
    }
  }

  lemma StaleMayStore(rel: Relation, cfg: Settings, tw: Tower, p: nat, now: Time, k: nat)
    requires Applies(rel, cfg, k, now) && Timely(cfg, tw, now) && 0 < p <= k < |tw.tiers| && k + 1 < |tw.tiers| && Holds(rel, cfg, tw, k, now)
    requires Stale(tw.tiers[p], now)
    ensures rel.Reclosing? ==> p != k
    ensures p == k ==> MayStore(rel, cfg.levels[k], tw.tiers[k], tw.tiers[p].active.value.Rehash(), now)
  {
    hide StoredTimely, Continues, Closed, Carried;
    assert TierTimely(cfg.levels[p], p, tw.tiers[p], now);
  }

  lemma {:induction false} SettleHolds(rel: Relation, cfg: Settings, tw: Tower, p: nat, page: Page, now: Time, k: nat)
    requires Applies(rel, cfg, k, now) && Sound(cfg, tw) && Timely(cfg, tw, now) && 0 < p <= k && Holds(rel, cfg, tw, k, now)
    requires Fits(cfg, tw, p, page) && page == page.Rehash() && PageTyped(cfg, p, page) && Continues(cfg.levels[p], tw.tiers[p], page, now)
    requires !page.content.NetPatches? ==> page.Length() <= cfg.levels[p].maxItems
    requires p == k ==> MayStore(rel, cfg.levels[k], tw.tiers[k], page, now) && (rel.Reclosing? ==> !page.IsEmpty() && Due(cfg.levels[k], page, now))
    ensures Holds(rel, cfg, Settle(cfg, tw, p, page, now), k, now)
    decreases |cfg.levels| - p, 2
  {
    hide TierOk, IdsSafe, TierTyped, TierTimely, FinalizeAndRollup, Fits, Continues, RootOf, OverAge, StoredOk, Holds, MayStore, Applies, PageTyped;
    AppliesValid(rel, cfg, k, now);
    if !page.IsEmpty() && Due(cfg.levels[p], page, now) {
      FitsStoredOk(cfg, tw, p, page);
      FinalizeAndRollupHolds(rel, cfg, tw, p, page, now, k);
    } else {
      SameTiersHold(rel, cfg, tw, Settle(cfg, tw, p, page, now), k, now);
    }
  }

  lemma SameTiersTimely(cfg: Settings, tw: Tower, next: nat, now: Time)
    requires ValidSettings(cfg) && Timely(cfg, tw, now)
    ensures Timely(cfg, tw.(next := next), now)
  {
    hide TierTimely;
  }

  lemma {:induction false} AbsorbAndSettleHolds(rel: Relation, cfg: Settings, tw: Tower, p: nat, child: Page, now: Time, k: nat)
    requires Applies(rel, cfg, k, now) && Sound(cfg, tw) && Timely(cfg, tw, now) && 0 < p <= k && Holds(rel, cfg, tw, k, now)
    requires !Stale(tw.tiers[p], now)
    ensures Holds(rel, cfg, AbsorbAndSettle(cfg, tw, p, child, now), k, now)
    decreases |cfg.levels| - p, 3
  {
    hide TierOk, IdsSafe, TierTyped, Settle, Timely, Fits, Continues, RootOf, Due, Grows, Holds, MayStore, Absorbed, OpenParent, Applies;
    AppliesValid(rel, cfg, k, now);
    var full := Absorbed(cfg, tw, p, child, now);
    var ready := tw.(next := OpenParent(cfg, tw, p, now).1);
    AbsorbedFits(cfg, tw, p, child, now);
    AbsorbedContinues(cfg, tw, p, child, now);
    SameTiersHold(rel, cfg, tw, ready, k, now);
    SameTiersTimely(cfg, tw, ready.next, now);
    if p == k {
      AbsorbedMayStore(rel, cfg, tw, k, child, now);
    }
    SettleHolds(rel, cfg, ready, p, full, now, k);
  }

  lemma {:induction false} RollupHolds(rel: Relation, cfg: Settings, tw: Tower, level: nat, child: Page, now: Time, k: nat)
    requires Applies(rel, cfg, k, now) && Sound(cfg, tw) && Timely(cfg, tw, now) && level < k && Holds(rel, cfg, tw, k, now)
    ensures Holds(rel, cfg, Rollup(cfg, tw, level, child, now), k, now)
    decreases |cfg.levels| - level, 0
  {
    hide TierOk, IdsSafe, TierTyped, TierTimely, RetireStale, AbsorbAndSettle, Holds;
    var p := level + 1;
    RetireStaleSound(cfg, tw, p, now);
    RetireStaleTimely(cfg, tw, p, now);
    RetireStaleHolds(rel, cfg, tw, p, now, k);
    AbsorbAndSettleHolds(rel, cfg, RetireStale(cfg, tw, p, now), p, child, now, k);
  }

  // ---------------------------------------------------------------- adding leaves

  lemma FinalizeLeafPageHolds(rel: Relation, cfg: Settings, tw: Tower, p: Page, now: Time, k: nat)
    requires Applies(rel, cfg, k, now) && RunOk(cfg, tw) && Timely(cfg, tw, now) && Holds(rel, cfg, tw, k, now)
    requires Fits(cfg, tw, 0, p) && !p.IsEmpty() && p.Length() <= cfg.levels[0].maxItems && Continues(cfg.levels[0], tw.tiers[0], p, now)
    ensures PageTyped(cfg, 0, p) && Holds(rel, cfg, FinalizeAndRollup(cfg, tw, 0, p.Rehash(), now), k, now)
  {
    hide TierOk, IdsSafe, TierTyped, TierTimely, LeafTierOk, Rollup, RootOf, Extends, Holds, FinalizeAndRollup, WindowStart, NeverReopens;
    RehashFits(cfg, tw, p);
    NewIdAtLevelZero(cfg, tw, p.Rehash());
    FinalizeAndRollupHolds(rel, cfg, tw, 0, p.Rehash(), now, k);
  }

  lemma OpenLeafPageHolds(rel: Relation, cfg: Settings, tw: Tower, at: Time, k: nat)
    requires Applies(rel, cfg, k, at) && RunOk(cfg, tw) && Timely(cfg, tw, at) && Holds(rel, cfg, tw, k, at)
    ensures Typed(cfg, tw) && Holds(rel, cfg, OpenLeafPage(cfg, tw, at).1, k, at)
  {
    var t := tw.tiers[0];
    if t.active.Some? {
      assert Continues(cfg.levels[0], t, t.active.value, at) by {
        assert TierTimely(cfg.levels[0], 0, t, at);
      }
    }
    hide TierOk, IdsSafe, TierTyped, TierTimely, LeafTierOk, Fits, FinalizeAndRollup, Follows, LeavesPlaced, Continues, Holds, Applies;
    if t.active.Some? && !Reusable(cfg.levels[0], t.active.value, at) {
      ActiveLeafPageFits(cfg, tw);
      FinalizeLeafPageHolds(rel, cfg, tw, t.active.value, at, k);
      var ready := FinalizeHelper(cfg, tw, t.active.value, at);
      SameTiersHold(rel, cfg, ready, ready.(next := ready.next + 1), k, at);
    } else {
      SameTiersHold(rel, cfg, tw, tw.(next := tw.next + 1), k, at);
    }
  }

  lemma LeafPageHolds(rel: Relation, cfg: Settings, tw: Tower, at: Time, now: Time, k: nat)
    requires Applies(rel, cfg, k, at) && RunOk(cfg, tw) && Timely(cfg, tw, at) && Holds(rel, cfg, tw, k, at)
    ensures Typed(cfg, tw) && Holds(rel, cfg, LeafPage(cfg, tw, at, now).1, k, at)
  {
    hide TierOk, IdsSafe, TierTyped, TierTimely, LeafTierOk, Fits, Grows, FinalizeAndRollup, LeavesPlaced, Follows, OpenLeafPage, Continues, Holds;
    OpenLeafPageOpens(cfg, tw, at);
    OpenLeafPageTimely(cfg, tw, at);
    OpenLeafPageHolds(rel, cfg, tw, at, k);
    var (p, ready) := OpenLeafPage(cfg, tw, at);
    if PreFinalizes(cfg.levels[0], p, at, now) {
      FinalizeLeafPage(cfg, ready, p, at);
      FinalizeLeafPageTimely(cfg, ready, p, at);
      FinalizeLeafPageHolds(rel, cfg, ready, p, at, k);
      OpenLeafPageHolds(rel, cfg, FinalizeAndRollup(cfg, ready, 0, p.Rehash(), at), at, k);
    }
  }

  lemma AddLeafHolds(rel: Relation, cfg: Settings, tw: Tower, leaf: Leaf, now: Time, before: Time, k: nat)
    requires Applies(rel, cfg, k, leaf.at) && RunOk(cfg, tw) && Timely(cfg, tw, before) && Holds(rel, cfg, tw, k, leaf.at)
    requires before <= leaf.at && InRange(leaf.at)
    ensures Typed(cfg, tw) && Holds(rel, cfg, AddLeaf(cfg, tw, leaf, now), k, leaf.at)
  {
    hide TierOk, IdsSafe, TierTyped, TierTimely, LeafTierOk, Grows, FinalizeAndRollup, LeavesPlaced, LeafPage, LeavesIn, Extends, Holds, NeverReopens, WindowStart;
    TimelyLater(cfg, tw, before, leaf.at);
    LeafPageOpens(cfg, tw, leaf.at, now);
    LeafPageTimely(cfg, tw, leaf.at, now);
    LeafPageHolds(rel, cfg, tw, leaf.at, now, k);
    var (p, ready) := LeafPage(cfg, tw, leaf.at, now);
    FilledFits(cfg, ready, p, leaf);
    var filled := p.AddLeaf(leaf);
    if DueLeafPage(cfg.levels[0], filled, leaf.at, now) {
      FinalizeLeafPageHolds(rel, cfg, ready, filled, leaf.at, k);
    } else {
      SameTiersHold(rel, cfg, ready, ready.Activate(0, filled), k, leaf.at);
    }
  }

  // ---------------------------------------------------------------- runs

  /** These relations speak about one time only. */
  predicate Timed(rel: Relation) {
    rel.Reclosing? || rel.Flushed?
  }

  ghost predicate AtTime(rel: Relation, steps: seq<Step>, at: Time) {
    Timed(rel) ==> forall i :: 0 <= i < |steps| ==> steps[i].leaf.at == at
  }

  lemma AnyTime(rel: Relation, cfg: Settings, tw: Tower, k: nat, a: Time, b: Time)
    requires ValidSettings(cfg) && k + 1 < |cfg.levels| == |tw.tiers| && (Timed(rel) ==> a == b)
    ensures Holds(rel, cfg, tw, k, a) == Holds(rel, cfg, tw, k, b)
    ensures Applies(rel, cfg, k, a) == Applies(rel, cfg, k, b)
  {
  }

  lemma EmptyTowerHolds(rel: Relation, cfg: Settings, k: nat, at: Time)
    requires Applies(rel, cfg, k, at) && !rel.Flushed?
    ensures Holds(rel, cfg, EmptyTower(cfg), k, at)
  {
    assert EmptyTower(cfg).tiers[k] == Tier([], None, None) == EmptyTower(cfg).tiers[k + 1];
  }

  /** A relation that holds at one point of a monotone run holds from there on. */
  lemma {:induction false} RunHoldsFrom(rel: Relation, cfg: Settings, steps: seq<Step>, more: seq<Step>, k: nat, at: Time)
    requires Applies(rel, cfg, k, at) && Monotone(steps + more) && AtTime(rel, more, at) && Holds(rel, cfg, Run(cfg, steps), k, at)
    ensures Holds(rel, cfg, Run(cfg, steps + more), k, at)
  {
    hide TierOk, IdsSafe, TierTyped, LeafTierOk, AddLeaf, TierTimely, Monotone, Holds, NeverReopens, WindowStart, Applies, AllLeaves, LeafChained;
    if more == [] {
      assert steps + more == steps;
    } else {
      var front, t := DropLast(more), Last(more).leaf.at;
      var before := steps + front;
      assert DropLast(steps + more) == before && Last(steps + more) == Last(more);
      AppliesValid(rel, cfg, k, at);
      MonotonePrefix(steps + more);
      RunHoldsFrom(rel, cfg, steps, front, k, at);
      RunConserves(cfg, before);
      RunTimely(cfg, before);
      AnyTime(rel, cfg, Run(cfg, before), k, at, t);
      AddLeafHolds(rel, cfg, Run(cfg, before), Last(more).leaf, Last(more).now, Clock(before), k);
      AnyTime(rel, cfg, Run(cfg, steps + more), k, at, t);
    }
  }

  lemma RunHolds(rel: Relation, cfg: Settings, steps: seq<Step>, k: nat, at: Time)
    requires Applies(rel, cfg, k, at) && Monotone(steps) && AtTime(rel, steps, at) && !rel.Flushed?
    ensures Holds(rel, cfg, Run(cfg, steps), k, at)
  {
    hide Holds, Monotone, AddLeaf, Applies, AtTime;
    AppliesValid(rel, cfg, k, at);
    EmptyTowerHolds(rel, cfg, k, at);
    assert Run(cfg, []) == EmptyTower(cfg) && [] + steps == steps;
    RunHoldsFrom(rel, cfg, [], steps, k, at);
  }
}
