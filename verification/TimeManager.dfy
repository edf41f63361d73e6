/**
 The time hierarchy manager: maps of active pages and last finalized ids and hashes over
 a page store and an id generator.  The ghost field `tower` is the abstract state; every
 method is proved to act on it as the specification in module Towers says.
 */
module TimeManager {
  import opened Prelude
  import opened Hashing
  import opened Config
  import opened Patches
  import opened Pages
  import opened Towers
  import opened Safety
  import opened Conservation
  import opened Storage

  // ---------------------------------------------------------------- representation

  /** The manager's maps as one value. */
  datatype Maps = Maps(
    pages: map<PageKey, Page>, counter: nat,
    active: map<nat, Page>, lastIds: map<nat, nat>, lastHashes: map<nat, Hash>)

  ghost predicate TierMirrors(f: Maps, k: nat, t: Tier) {
    && (k in f.active <==> t.active.Some?)
    && (k in f.active ==> t.active.value == f.active[k])
    && (k in f.lastIds <==> t.last.Some?)
    && (k in f.lastHashes <==> t.last.Some?)
    && (k in f.lastIds && k in f.lastHashes ==> t.last.value == Finalized(f.lastIds[k], f.lastHashes[k]))
  }

  ghost predicate TiersMirror(f: Maps, tw: Tower) {
    && (forall k :: 0 <= k < |tw.tiers| ==> TierMirrors(f, k, tw.tiers[k]))
    && (forall k :: k in f.active ==> k < |tw.tiers|)
  }

  ghost predicate Represents(f: Maps, cfg: Settings, tw: Tower) {
    && ValidSettings(cfg) && Sound(cfg, tw) && Typed(cfg, tw) && |tw.tiers| == |cfg.levels|
    && tw.next == f.counter
    && StoreMirrors(f.pages, tw)
    && TiersMirror(f, tw)
  }

  lemma SameStoreMirrors(pages: map<PageKey, Page>, tw: Tower, ux: Tower)
    requires StoreMirrors(pages, tw) && |tw.tiers| == |ux.tiers|
    requires forall k :: 0 <= k < |tw.tiers| ==> ux.tiers[k].stored == tw.tiers[k].stored
    ensures StoreMirrors(pages, ux)
  {
  }

  /** Changing the maps at one level only disturbs that level. */
  lemma TiersMirrorAt(f: Maps, g: Maps, tw: Tower, ux: Tower, k: nat)
    requires TiersMirror(f, tw) && k < |tw.tiers| == |ux.tiers| && TierMirrors(g, k, ux.tiers[k])
    requires forall j :: 0 <= j < |tw.tiers| && j != k ==> ux.tiers[j] == tw.tiers[j]
    requires forall j: nat :: j != k ==>
      && (j in g.active <==> j in f.active) && (j in f.active ==> g.active[j] == f.active[j])
      && (j in g.lastIds <==> j in f.lastIds) && (j in f.lastIds ==> g.lastIds[j] == f.lastIds[j])
      && (j in g.lastHashes <==> j in f.lastHashes) && (j in f.lastHashes ==> g.lastHashes[j] == f.lastHashes[j])
    ensures TiersMirror(g, ux)
  {
    forall j | 0 <= j < |ux.tiers| ensures TierMirrors(g, j, ux.tiers[j]) {
      assert TierMirrors(f, j, tw.tiers[j]);
    }
  }

  lemma FinalizeRepresents(f: Maps, cfg: Settings, tw: Tower, p: Page)
    requires Represents(f, cfg, tw) && p.level < |cfg.levels| && Fits(cfg, tw, p.level, p) && StoredOk(cfg, p.level, p)
    ensures p.level < |tw.tiers|
    ensures Represents(Maps(f.pages[PageKey(p.level, p.id) := p], f.counter, f.active - {p.level},
                              f.lastIds[p.level := p.id], f.lastHashes[p.level := p.hash]), cfg, tw.Finalize(p.level, p))
  {
    hide TierOk, IdsSafe, TierTyped, StoreMirrors, TiersMirror, Fits, StoredOk, Grows;
    var g := Maps(f.pages[PageKey(p.level, p.id) := p], f.counter, f.active - {p.level},
                    f.lastIds[p.level := p.id], f.lastHashes[p.level := p.hash]);
    FinalizeSound(cfg, tw, p.level, p);
    StoreKeepsMirror(cfg, f.pages, tw, p.level, p);
    TiersMirrorAt(f, g, tw, tw.Finalize(p.level, p), p.level);
  }

  lemma ActivateRepresents(f: Maps, cfg: Settings, tw: Tower, p: Page)
    requires Represents(f, cfg, tw) && p.level < |cfg.levels| && Fits(cfg, tw, p.level, p) && p.Length() < cfg.levels[p.level].maxItems
    ensures p.level < |tw.tiers|
    ensures Represents(f.(active := f.active[p.level := p]), cfg, tw.Activate(p.level, p))
  {
    assert TierMirrors(f, p.level, tw.tiers[p.level]);
    hide TierOk, IdsSafe, TierTyped, StoreMirrors, TiersMirror, Fits, Grows;
    ActivateSound(cfg, tw, p.level, p);
    SameStoreMirrors(f.pages, tw, tw.Activate(p.level, p));
    TiersMirrorAt(f, f.(active := f.active[p.level := p]), tw, tw.Activate(p.level, p), p.level);
  }

  lemma VacateRepresents(f: Maps, cfg: Settings, tw: Tower, k: nat)
    requires Represents(f, cfg, tw) && k < |cfg.levels|
    ensures k < |tw.tiers|
    ensures Represents(f.(active := f.active - {k}), cfg, tw.Vacate(k))
  {
    assert TierMirrors(f, k, tw.tiers[k]);
    hide TierOk, IdsSafe, TierTyped, StoreMirrors, TiersMirror, Grows;
    VacateSound(cfg, tw, k);
    SameStoreMirrors(f.pages, tw, tw.Vacate(k));
    TiersMirrorAt(f, f.(active := f.active - {k}), tw, tw.Vacate(k), k);
  }

  /** The counter plays no part in what the maps mirror. */
  lemma CounterRepresents(f: Maps, cfg: Settings, tw: Tower, next: nat)
    requires Represents(f, cfg, tw) && Sound(cfg, tw.(next := next))
    ensures Represents(f.(counter := next), cfg, tw.(next := next))
  {
    hide TierOk, IdsSafe, TierTyped, StoreMirrors, TierMirrors;
    SameStoreMirrors(f.pages, tw, tw.(next := next));
    var g, ux := f.(counter := next), tw.(next := next);
    forall j | 0 <= j < |ux.tiers| ensures TierMirrors(g, j, ux.tiers[j]) {
      assert TierMirrors(f, j, tw.tiers[j]);
      CounterTierMirrors(f, next, j, tw.tiers[j]);
    }
  }

  lemma CounterTierMirrors(f: Maps, next: nat, j: nat, t: Tier)
    ensures TierMirrors(f.(counter := next), j, t) == TierMirrors(f, j, t)
  {
  }

  lemma BumpRepresents(f: Maps, cfg: Settings, tw: Tower)
    requires Represents(f, cfg, tw)
    ensures Represents(f.(counter := f.counter + 1), cfg, tw.(next := tw.next + 1))
  {
    hide TierOk, IdsSafe, TierTyped, StoreMirrors, TiersMirror;
    BumpSound(cfg, tw);
    CounterRepresents(f, cfg, tw, tw.next + 1);
  }

  lemma DiscardRepresents(f: Maps, cfg: Settings, tw: Tower, k: nat, p: Page)
    requires Represents(f, cfg, tw) && k < |cfg.levels| && Fits(cfg, tw, k, p) && p.IsEmpty()
    ensures k < |tw.tiers|
    ensures Represents(f.(active := f.active - {k}, counter := if p.id + 1 == f.counter then p.id else f.counter), cfg, tw.Vacate(k).Revert(p.id))
  {
    hide TierOk, IdsSafe, TierTyped, StoreMirrors, TiersMirror, Fits, Grows;
    VacateRepresents(f, cfg, tw, k);
    DiscardSound(cfg, tw, k, p);
    if p.id + 1 == f.counter {
      CounterRepresents(f.(active := f.active - {k}), cfg, tw.Vacate(k), p.id);
    }
  }

  lemma Lookup(f: Maps, cfg: Settings, tw: Tower, k: nat)
    requires Represents(f, cfg, tw) && k < |cfg.levels|
    ensures ValidSettings(cfg) && Typed(cfg, tw) && Sound(cfg, tw) && ValidLevel(cfg.levels[k])
    ensures k < |tw.tiers| == |cfg.levels| && tw.next == f.counter
    ensures TierMirrors(f, k, tw.tiers[k])
    ensures tw.tiers[k].LastStored() ==
      if k in f.lastIds && PageKey(k, f.lastIds[k]) in f.pages then Some(f.pages[PageKey(k, f.lastIds[k])]) else None
  {
    assert TierMirrors(f, k, tw.tiers[k]);
    hide TierOk, IdsSafe, TierTyped, StoreMirrors, TiersMirror;
    if tw.tiers[k].last.Some? {
      LastLookup(cfg, f.pages, tw, k);
    }
  }

  lemma HashLookup(f: Maps, cfg: Settings, tw: Tower, a: PageKey, b: PageKey)
    requires Represents(f, cfg, tw) && a in f.pages && b in f.pages && f.pages[a].hash == f.pages[b].hash
    ensures a == b
  {
    HashesDetermine(cfg, f.pages, tw, a, b);
  }

  lemma HashUnique(f: Maps, cfg: Settings, tw: Tower, child: Page)
    requires Represents(f, cfg, tw) && exists key :: key in f.pages && f.pages[key] == child
    ensures forall key :: key in f.pages && f.pages[key].hash == child.hash ==> f.pages[key] == child
  {
    hide Represents;
    var found :| found in f.pages && f.pages[found] == child;
    forall key | key in f.pages && f.pages[key].hash == child.hash ensures f.pages[key] == child {
      HashLookup(f, cfg, tw, key, found);
    }
  }

  // ---------------------------------------------------------------- listings

  /** The ascending listing of a level is the tier's stored pages. */
  lemma ListedIsStored(f: Maps, cfg: Settings, tw: Tower, level: nat, listed: seq<Summary>)
    requires Represents(f, cfg, tw)
    requires forall i, j :: 0 <= i < j < |listed| ==> listed[i].id < listed[j].id
    requires forall s :: s in listed <==> exists key :: key in f.pages && key.level == level && s == Summarize(f.pages[key])
    ensures |tw.tiers| == |cfg.levels|
    ensures listed == if level < |tw.tiers| then Summaries(tw.tiers[level].stored) else []
  {
    hide Sound, TiersMirror;
    if level < |tw.tiers| {
      StoredAscends(cfg, tw, level);
      var stored := tw.tiers[level].stored;
      var expected := Summaries(stored);
      forall s ensures s in listed <==> s in expected {
        if s in listed {
          var key :| key in f.pages && key.level == level && s == Summarize(f.pages[key]);
          var i :| 0 <= i < |stored| && stored[i] == f.pages[key];
          assert expected[i] == s;
        }
        if s in expected {
          var i :| 0 <= i < |expected| && expected[i] == s;
          assert stored[i] in stored;
          assert s == Summarize(f.pages[PageKey(level, stored[i].id)]);
        }
      }
      AscendingUnique(listed, expected);
    } else {
      HeadIsMember(listed);
    }
  }

  lemma HeadIsMember<T>(s: seq<T>)
    ensures s == [] || s[0] in s
  {
  }

  lemma StoredAscends(cfg: Settings, tw: Tower, k: nat)
    requires Sound(cfg, tw) && k < |tw.tiers|
    ensures Ascending(tw.tiers[k].stored)
  {
    assert TierOk(cfg, k, tw.tiers[k]);
  }

  /** Looking a stored page up by id finds that page. */
  lemma StoredLookup(f: Maps, cfg: Settings, tw: Tower, k: nat, p: Page)
    requires Represents(f, cfg, tw) && k < |tw.tiers| && p in tw.tiers[k].stored
    ensures p.level == k && PageKey(k, p.id) in f.pages && f.pages[PageKey(k, p.id)] == p
  {
    hide TiersMirror, Sound, Typed;
  }

  lemma MirrorsWellKeyed(f: Maps, cfg: Settings, tw: Tower)
    requires Represents(f, cfg, tw)
    ensures forall key :: key in f.pages ==> f.pages[key].level == key.level && f.pages[key].id == key.id
  {
    hide Sound, TiersMirror;
  }

  // ---------------------------------------------------------------- the specification, branch by branch

  /** What the maps say about the active page of a level. */
  lemma ActiveOf(f: Maps, cfg: Settings, tw: Tower, k: nat)
    requires Represents(f, cfg, tw) && k < |cfg.levels|
    ensures ValidSettings(cfg) && Typed(cfg, tw) && ValidLevel(cfg.levels[k]) && k < |tw.tiers| == |cfg.levels|
    ensures tw.tiers[k].active == if k in f.active then Some(f.active[k]) else None
  {
    hide Sound, StoreMirrors, Typed;
    assert TierMirrors(f, k, tw.tiers[k]);
  }

  lemma RetireStaleIs(cfg: Settings, tw: Tower, p: nat, trigger: Time)
    requires ValidSettings(cfg) && Typed(cfg, tw) && p < |cfg.levels|
    ensures !Stale(tw.tiers[p], trigger) ==> RetireStale(cfg, tw, p, trigger) == tw
    ensures Stale(tw.tiers[p], trigger) ==>
      var a := tw.tiers[p].active.value;
      && PageTyped(cfg, p, a.Rehash()) && a.level == p
      && (a.IsEmpty() ==> RetireStale(cfg, tw, p, trigger) == tw.Vacate(p))
      && (!a.IsEmpty() ==> RetireStale(cfg, tw, p, trigger) == FinalizeAndRollup(cfg, tw, p, a.Rehash(), trigger))
  {
    hide FinalizeAndRollup, RootOf;
    assert TierTyped(cfg, p, tw.tiers[p]);
  }

  lemma SettleIs(cfg: Settings, tw: Tower, p: nat, page: Page, trigger: Time)
    requires ValidSettings(cfg) && Typed(cfg, tw) && p < |cfg.levels| && PageTyped(cfg, p, page)
    ensures var full := page.Length() >= cfg.levels[p].maxItems;
      var over := TruncDiv(trigger - page.start, NANOS_PER_SECOND) >= cfg.levels[p].maxAge;
      Settle(cfg, tw, p, page, trigger) ==
        if page.IsEmpty() && over then tw.Vacate(p).Revert(page.id)
        else if page.IsEmpty() || (!full && !over) then tw.Activate(p, page)
        else FinalizeAndRollup(cfg, tw, p, page, trigger)
  {
    hide FinalizeAndRollup, TierTyped, TruncDiv;
  }

  lemma AbsorbedIs(cfg: Settings, tw: Tower, p: nat, child: Page, trigger: Time)
    requires ValidSettings(cfg) && Typed(cfg, tw) && 0 < p < |cfg.levels|
    ensures var parent, kind := OpenParent(cfg, tw, p, trigger).0, cfg.levels[p].kind;
      && parent.level == p && (kind != NetPatchesOnly ==> parent.content.HasHashes()) && (kind != ChildHashes ==> parent.content.HasPatches())
      && Absorbed(cfg, tw, p, child, trigger) == Absorb(kind, parent, child).Rehash()
      && Absorbed(cfg, tw, p, child, trigger).level == p && PageTyped(cfg, p, Absorbed(cfg, tw, p, child, trigger))
  {
    hide RootOf, TierTyped, Absorb;
    assert PageTyped(cfg, p, OpenParent(cfg, tw, p, trigger).0) by {
      assert TierTyped(cfg, p, tw.tiers[p]);
      OpenedTyped(cfg, tw, p, trigger);
    }
  }

  lemma OpenedTyped(cfg: Settings, tw: Tower, p: nat, trigger: Time)
    requires ValidSettings(cfg) && Typed(cfg, tw) && p < |cfg.levels|
    ensures PageTyped(cfg, p, OpenParent(cfg, tw, p, trigger).0)
  {
    assert TierTyped(cfg, p, tw.tiers[p]);
  }

  lemma SettleReady(cfg: Settings, tw: Tower, page: Page)
    requires page.level < |cfg.levels| == |tw.tiers| && Fits(cfg, tw, page.level, page) && page == page.Rehash()
    requires !page.content.NetPatches? ==> page.Length() <= cfg.levels[page.level].maxItems
    ensures PageTyped(cfg, page.level, page)
    ensures !page.IsEmpty() ==> StoredOk(cfg, page.level, page)
    ensures page.IsEmpty() ==> page.Length() == 0
  {
    hide RootOf, Extends;
  }

  lemma OpenLeafPageIs(cfg: Settings, tw: Tower, at: Time)
    requires ValidSettings(cfg) && Typed(cfg, tw)
    ensures var a := tw.tiers[0].active;
      && (a.Some? && Reusable(cfg.levels[0], a.value, at) ==> OpenLeafPage(cfg, tw, at) == (a.value, tw))
      && (a.Some? ==> PageTyped(cfg, 0, a.value))
      && (a.Some? && !Reusable(cfg.levels[0], a.value, at) ==>
            var ready := FinalizeHelper(cfg, tw, a.value, at);
            OpenLeafPage(cfg, tw, at) == (FreshLeafPage(cfg, ready, at), ready.(next := ready.next + 1)))
      && (a.None? ==> OpenLeafPage(cfg, tw, at) == (FreshLeafPage(cfg, tw, at), tw.(next := tw.next + 1)))
  {
    hide FinalizeHelper, FreshLeafPage;
    assert TierTyped(cfg, 0, tw.tiers[0]);
  }

  // ---------------------------------------------------------------- the manager

  class TimeHierarchyManager {
    const cfg: Settings
    const storage: MemoryStorage
    const gen: PageIdGenerator
    var activePages: map<nat, Page>
    var lastFinalizedIds: map<nat, nat>
    var lastFinalizedHashes: map<nat, Hash>
    ghost var tower: Tower

    ghost function View(): Maps
      reads this, storage, gen
    {
      Maps(storage.pages, gen.counter, activePages, lastFinalizedIds, lastFinalizedHashes)
    }

    /** The fields represent a sound tower. */
    ghost predicate Consistent()
      reads this, storage, gen
    {
      Represents(View(), cfg, tower)
    }

    /** The state between calls. */
    ghost predicate Valid()
      reads this, storage, gen
    {
      Consistent() && ValidSettings(cfg) && |tower.tiers| > 0 && LeafTierOk(cfg, tower.tiers[0])
    }

    constructor (settings: Settings)
      requires ValidSettings(settings)
      ensures Valid() && cfg == settings && tower == EmptyTower(settings)
      ensures fresh(storage) && fresh(gen)
    {
      cfg := settings;
      storage := new MemoryStorage();
      gen := new PageIdGenerator();
      activePages := map[];
      lastFinalizedIds := map[];
      lastFinalizedHashes := map[];
      tower := EmptyTower(settings);
      new;
      EmptyTowerOk(cfg);
    }

    /** A level that is not configured is an error. */
    method GetPageWindow(level: nat, ts: Time) returns (r: Result<(Time, Time), string>)
      requires ValidSettings(cfg)
      ensures r.Ok? <==> level < |cfg.levels|
      ensures r.Ok? ==> r.value == (WindowStart(cfg.levels[level], ts), WindowStart(cfg.levels[level], ts) + cfg.levels[level].DurationNanos())
    {
      if level >= |cfg.levels| {
        return Err("Time hierarchy level not configured.");
      }
      var l := cfg.levels[level];
      if l.DurationNanos() == 0 {
        return Err("granularity cannot be zero");
      }
      var start := WindowStart(l, ts);
      return Ok((start, start + l.DurationNanos()));
    }

    /** Stores a finished page, records it as last finalized, and takes its level's page out of the active map. */
    method StoreFinalized(page: Page)
      requires Consistent() && page.level < |cfg.levels| == |tower.tiers|
      requires Fits(cfg, tower, page.level, page) && StoredOk(cfg, page.level, page)
      modifies this, storage
      ensures Consistent() && tower == old(tower).Finalize(page.level, page)
      ensures PageKey(page.level, page.id) in storage.pages && storage.pages[PageKey(page.level, page.id)] == page
    {
      FinalizeRepresents(View(), cfg, tower, page);
      hide Represents, Fits, StoredOk;
      storage.StorePage(page);
      lastFinalizedIds := lastFinalizedIds[page.level := page.id];
      lastFinalizedHashes := lastFinalizedHashes[page.level := page.hash];
      activePages := activePages - {page.level};
      tower := tower.Finalize(page.level, page);
    }

    /** The page the last finalized id denotes, if it is still stored. */
    method LoadLastFinalized(level: nat) returns (r: Option<Page>)
      requires Consistent() && level < |cfg.levels|
      ensures level < |tower.tiers| && r == tower.tiers[level].LastStored()
    {
      Lookup(View(), cfg, tower, level);
      hide Represents;
      if level in lastFinalizedIds {
        r := storage.LoadPage(level, lastFinalizedIds[level]);
      } else {
        return None;
      }
    }

    method GetOrCreateActiveParentPage(p: nat, trigger: Time) returns (page: Page)
      requires Consistent() && 0 < p < |cfg.levels|
      modifies this`tower, gen
      ensures Consistent()
      ensures ValidSettings(cfg) && |old(tower).tiers| == |cfg.levels|
      ensures (page, gen.counter) == OpenParent(cfg, old(tower), p, trigger)
      ensures tower == old(tower).(next := gen.counter)
    {
      hide Represents, Typed, Sound, ValidSettings, WindowStart;
      Lookup(View(), cfg, tower, p);
      var l := cfg.levels[p];
      var window := GetPageWindow(p, trigger);
      var start := window.value.0;
      if p in activePages {
        var active := activePages[p];
        if active.start <= trigger < active.end && active.Length() < l.maxItems {
          return active;
        }
      }
      var prev: Option<Hash> := None;
      if p in lastFinalizedHashes {
        prev := Some(lastFinalizedHashes[p]);
      }
      if p in lastFinalizedIds {
        var loaded := storage.LoadPage(p, lastFinalizedIds[p]);
        if loaded.Some? {
          prev := Some(loaded.value.hash);
          if loaded.value.start == start && loaded.value.end == start + l.DurationNanos() && loaded.value.Length() < l.maxItems {
            return loaded.value;
          }
        }
      }
      BumpRepresents(View(), cfg, tower);
      var id := gen.Next();
      tower := tower.(next := tower.next + 1);
      page := NewPage(id, p, prev, start, cfg);
    }

    /** The net patch a stored child contributes, gathered leaf by leaf at level 0. */
    method NetPatchOf(content: Content) returns (ps: PatchMap)
      ensures ps == NetPatch(content)
    {
      match content {
        case Leaves(leaves) => ps := PatchFromLeaves(leaves);
        case ThrallHashes(_) => ps := map[];
        case ThrallHashesWithNetPatches(_, patches) => ps := patches;
        case NetPatches(patches) => ps := patches;
      }
    }

    method AbsorbChild(kind: ContentKind, parent: Page, child: Page) returns (page: Page)
      requires parent.level != 0
      requires kind != NetPatchesOnly ==> parent.content.HasHashes()
      requires kind != ChildHashes ==> parent.content.HasPatches()
      ensures page == Absorb(kind, parent, child).Rehash()
    {
      page := parent;
      if kind != NetPatchesOnly {
        page := page.AddThrallHash(child.hash, child.end);
      }
      if kind != ChildHashes {
        var ps := NetPatchOf(child.content);
        if ps != map[] {
          var merged := MergeInto(page.content.patches, ps);
          page := page.TouchChild(child.end).(content := page.content.(patches := merged));
        }
      }
      page := page.Recalculate();
    }

    /** Stores a page of level k and rolls it up. */
    method FinalizeThenRollup(page: Page, trigger: Time)
      requires Consistent() && page.level < |cfg.levels| == |tower.tiers|
      requires Fits(cfg, tower, page.level, page) && StoredOk(cfg, page.level, page)
      modifies this, storage, gen
      ensures Consistent()
      ensures ValidSettings(cfg) && Typed(cfg, old(tower)) && PageTyped(cfg, page.level, page)
      ensures tower == FinalizeAndRollup(cfg, old(tower), page.level, page, trigger)
      decreases |cfg.levels| - page.level, 1
    {
      Lookup(View(), cfg, tower, page.level);
      assert PageTyped(cfg, page.level, page);
      hide Represents, Typed, Sound, ValidSettings, Fits, StoredOk, PageTyped, Rollup;
      StoreFinalized(page);
      var ok := PerformRollup(page.level, page.hash, trigger);
      assert ok;
    }

    /** Retires an active parent page whose window the trigger has passed. */
    method RetireStaleParent(p: nat, trigger: Time)
      requires Consistent() && 0 < p < |cfg.levels|
      modifies this, storage, gen
      ensures Consistent()
      ensures ValidSettings(cfg) && Typed(cfg, old(tower))
      ensures tower == RetireStale(cfg, old(tower), p, trigger)
      decreases |cfg.levels| - p, 2
    {
      hide Represents, Typed, Sound, ValidSettings, ValidLevel, Fits, StoredOk, FinalizeAndRollup, RetireStale, PageTyped, RootOf;
      ActiveOf(View(), cfg, tower, p);
      RetireStaleIs(cfg, tower, p, trigger);
      if p in activePages && trigger >= activePages[p].end {
        var existing := activePages[p];
        if existing.IsEmpty() {
          VacateRepresents(View(), cfg, tower, p);
          activePages := activePages - {p};
          tower := tower.Vacate(p);
        } else {
          RepresentsSound(View(), cfg, tower);
          ActiveReady(cfg, tower, p);
          var toStore := existing.Recalculate();
          FinalizeThenRollup(toStore, trigger);
        }
      }
    }

    /** Discards, keeps, or finalizes a parent page that has absorbed its child. */
    method SettleParent(page: Page, trigger: Time)
      requires Consistent() && 0 < page.level < |cfg.levels| == |tower.tiers|
      requires Fits(cfg, tower, page.level, page) && page == page.Rehash()
      requires !page.content.NetPatches? ==> page.Length() <= cfg.levels[page.level].maxItems
      modifies this, storage, gen
      ensures Consistent()
      ensures ValidSettings(cfg) && Typed(cfg, old(tower)) && PageTyped(cfg, page.level, page)
      ensures tower == Settle(cfg, old(tower), page.level, page, trigger)
      decreases |cfg.levels| - page.level, 2
    {
      hide Represents, Typed, Sound, ValidSettings, Fits, PageTyped, StoredOk, FinalizeAndRollup, Settle, RootOf, TruncDiv;
      var p := page.level;
      ActiveOf(View(), cfg, tower, p);
      SettleReady(cfg, tower, page);
      SettleIs(cfg, tower, p, page, trigger);
      var l := cfg.levels[p];
      var ageSeconds := TruncDiv(trigger - page.start, NANOS_PER_SECOND);
      var isFull := page.Length() >= l.maxItems;
      var isOverAge := ageSeconds >= l.maxAge;
      if page.IsEmpty() && isOverAge {
        DiscardRepresents(View(), cfg, tower, p, page);
        activePages := activePages - {p};
        gen.Revert(page.id);
        tower := tower.Vacate(p).Revert(page.id);
      } else if page.IsEmpty() || (!isFull && !isOverAge) {
        ActivateRepresents(View(), cfg, tower, page);
        activePages := activePages[p := page];
        tower := tower.Activate(p, page);
      } else {
        FinalizeThenRollup(page, trigger);
      }
    }

    /** Fails exactly when no stored page has the given hash; otherwise rolls that page up. */
    method PerformRollup(level: nat, hash: Hash, trigger: Time) returns (ok: bool)
      requires Consistent() && level < |cfg.levels|
      modifies this, storage, gen
      ensures Consistent()
      ensures ValidSettings(cfg) && Typed(cfg, old(tower))
      ensures ok <==> exists key :: key in old(storage.pages) && old(storage.pages)[key].hash == hash
      ensures !ok ==> tower == old(tower)
      ensures forall key :: key in old(storage.pages) && old(storage.pages)[key].hash == hash ==>
        tower == Rollup(cfg, old(tower), level, old(storage.pages)[key], trigger)
      decreases |cfg.levels| - level, 0
    {
      hide Represents, Typed, Sound, ValidSettings, RetireStale, AbsorbAndSettle;
      Lookup(View(), cfg, tower, level);
      var loaded := storage.LoadPageByHash(hash);
      if loaded.None? {
        return false;
      }
      var child := loaded.value;
      HashUnique(View(), cfg, tower, child);
      var p := level + 1;
      if p < |cfg.levels| {
        RollUpChild(p, child, trigger);
      }
      return true;
    }

    /** The body of `perform_rollup` once the child is loaded and its parent level exists. */
    method RollUpChild(p: nat, child: Page, trigger: Time)
      requires Consistent() && 0 < p < |cfg.levels|
      modifies this, storage, gen
      ensures Consistent()
      ensures ValidSettings(cfg) && Typed(cfg, old(tower))
      ensures tower == AbsorbAndSettle(cfg, RetireStale(cfg, old(tower), p, trigger), p, child, trigger)
      decreases |cfg.levels| - p, 3
    {
      hide Represents, Typed, Sound, ValidSettings, ValidLevel, Fits, PageTyped, RetireStale, Settle, OpenParent, Absorbed, Absorb, Grows, RootOf;
      RetireStaleParent(p, trigger);
      ghost var retired := tower;
      ActiveOf(View(), cfg, tower, p);
      RepresentsSound(View(), cfg, tower);
      AbsorbedFits(cfg, retired, p, child, trigger);
      AbsorbedIs(cfg, retired, p, child, trigger);
      var parent := GetOrCreateActiveParentPage(p, trigger);
      var full := AbsorbChild(cfg.levels[p].kind, parent, child);
      SettleParent(full, trigger);
    }

    /** Finalizes the active leaf page; an empty one would only be discarded. */
    method FinalizeAndRollupPage(page: Page, trigger: Time)
      requires Consistent() && |cfg.levels| == |tower.tiers| > 0 && tower.tiers[0].active == Some(page)
      modifies this, storage, gen
      ensures Consistent()
      ensures ValidSettings(cfg) && Typed(cfg, old(tower)) && PageTyped(cfg, 0, page)
      ensures tower == FinalizeHelper(cfg, old(tower), page, trigger)
    {
      Lookup(View(), cfg, tower, 0);
      ActiveTyped(cfg, tower, 0);
      if page.IsEmpty() {
        ActiveFits(cfg, tower, 0);
        DiscardRepresents(View(), cfg, tower, 0, page);
        hide Represents, Typed, Sound, ValidSettings, Fits, PageTyped, FinalizeAndRollup;
        activePages := activePages - {0};
        gen.Revert(page.id);
        tower := tower.Vacate(0).Revert(page.id);
      } else {
        ActiveReady(cfg, tower, 0);
        hide Represents, Typed, Sound, ValidSettings, Fits, StoredOk, FinalizeAndRollup;
        var toStore := page.Recalculate();
        FinalizeThenRollup(toStore, trigger);
      }
    }

    /** A new level-0 page linked to the page stored last. */
    method CreateLeafPage(start: Time, ghost at: Time) returns (page: Page)
      requires Consistent() && ValidSettings(cfg) && start == WindowStart(cfg.levels[0], at)
      modifies this`tower, gen
      ensures Consistent() && |old(tower).tiers| == |cfg.levels| && tower == old(tower).(next := old(tower).next + 1)
      ensures page == FreshLeafPage(cfg, old(tower), at)
    {
      hide Represents, Typed, Sound, ValidSettings, TierMirrors, NewPage, WindowStart;
      NonEmpty(View(), cfg, tower);
      Lookup(View(), cfg, tower, 0);
      var prev: Option<Hash> := None;
      var last := LoadLastFinalized(0);
      if last.Some? {
        prev := Some(last.value.hash);
      }
      BumpRepresents(View(), cfg, tower);
      var id := gen.Next();
      tower := tower.(next := tower.next + 1);
      page := NewPage(id, 0, prev, start, cfg);
    }

    /** The page for a leaf; a page that no longer suits is finalized first. */
    method GetOrCreateActivePageForLeaf(at: Time) returns (page: Page)
      requires Consistent()
      modifies this, storage, gen
      ensures Consistent()
      ensures ValidSettings(cfg) && Typed(cfg, old(tower))
      ensures (page, tower) == OpenLeafPage(cfg, old(tower), at)
    {
      hide Represents, Typed, Sound, ValidSettings, FinalizeHelper, WindowStart, OpenLeafPage, FreshLeafPage, PageTyped;
      NonEmpty(View(), cfg, tower);
      ActiveOf(View(), cfg, tower, 0);
      OpenLeafPageIs(cfg, tower, at);
      var l := cfg.levels[0];
      var window := GetPageWindow(0, at);
      var start := window.value.0;
      if 0 in activePages {
        var active := activePages[0];
        var isInWindow := active.start <= at < active.end;
        if isInWindow && active.Length() < l.maxItems {
          return active;
        }
        FinalizeAndRollupPage(active, at);
      }
      page := CreateLeafPage(start, at);
    }

    /** The stored pages of a level in id order. */
    method ListPages(level: nat) returns (summaries: seq<Summary>)
      requires Consistent()
      ensures |tower.tiers| == |cfg.levels|
      ensures summaries == if level < |tower.tiers| then Summaries(tower.tiers[level].stored) else []
    {
      MirrorsWellKeyed(View(), cfg, tower);
      hide Represents;
      summaries := storage.ListFinalizedPagesSummary(level);
      ListedIsStored(View(), cfg, tower, level, summaries);
    }

    /** Finds the page for a leaf, finalizing a page that is already due. */
    method PageForLeaf(at: Time, now: Time) returns (pageId: nat, page: Page)
      requires Valid()
      modifies this, storage, gen
      ensures Consistent()
      ensures ValidSettings(cfg) && Typed(cfg, old(tower))
      ensures (page, tower) == LeafPage(cfg, old(tower), at, now)
      ensures pageId == OpenLeafPage(cfg, old(tower), at).0.id
    {
      NonEmpty(View(), cfg, tower);
      Lookup(View(), cfg, tower, 0);
      OpenLeafPageOpens(cfg, tower, at);
      hide Represents, Typed, ValidSettings, Sound, LeafTierOk, OpenLeafPage, FinalizeAndRollup, Fits, Grows, LeavesPlaced, LeavesIn, AllLeaves, LeafChained, Follows;
      page := GetOrCreateActivePageForLeaf(at);
      pageId := page.id;
      var l := cfg.levels[0];
      var maxAge := if l.maxAge > 0 then Some(l.maxAge * NANOS_PER_SECOND) else None;
      var preFinalize := page.ShouldFinalize(at, now, l.maxItems, maxAge);
      if preFinalize.0 && now > at && !page.IsEmpty() {
        LeafPageReady(cfg, tower, page);
        var full := page.Recalculate();
        FinalizeThenRollup(full, at);
        page := GetOrCreateActivePageForLeaf(at);
      }
    }

    /** Finalizes a leaf page that is due, and keeps it active otherwise. */
    method SettleLeafPage(page: Page, at: Time, now: Time)
      requires Consistent() && |cfg.levels| == |tower.tiers| > 0 && Fits(cfg, tower, 0, page) && !page.IsEmpty()
      requires page.Length() <= cfg.levels[0].maxItems
      modifies this, storage, gen
      ensures Consistent()
      ensures ValidSettings(cfg) && Typed(cfg, old(tower)) && PageTyped(cfg, 0, page.Rehash())
      ensures tower == if DueLeafPage(cfg.levels[0], page, at, now)
        then FinalizeAndRollup(cfg, old(tower), 0, page.Rehash(), at) else old(tower).Activate(0, page)
    {
      hide Represents, Typed, ValidSettings, Sound, FinalizeAndRollup, Fits, StoredOk, PageTyped, TierMirrors, RootOf, HashList;
      Lookup(View(), cfg, tower, 0);
      LeafPageReady(cfg, tower, page);
      var l := cfg.levels[0];
      var maxAge := if l.maxAge > 0 then Some(l.maxAge * NANOS_PER_SECOND) else None;
      var due := page.ShouldFinalize(at, now, l.maxItems, maxAge);
      if due.0 || due.1 {
        var full := page.Recalculate();
        FinalizeThenRollup(full, at);
      } else {
        ActivateRepresents(View(), cfg, tower, page);
        activePages := activePages[page.level := page];
        tower := tower.Activate(page.level, page);
      }
    }

    /** Adds a leaf; returns the id of the page that was open for it when the call began. */
    method AddLeaf(leaf: Leaf, now: Time) returns (pageId: nat)
      requires Valid()
      modifies this, storage, gen
      ensures Valid()
      ensures ValidSettings(cfg) && Typed(cfg, old(tower))
      ensures tower == Towers.AddLeaf(cfg, old(tower), leaf, now)
      ensures pageId == OpenLeafPage(cfg, old(tower), leaf.at).0.id
    {
      ghost var before := tower;
      NonEmpty(View(), cfg, tower);
      Lookup(View(), cfg, tower, 0);
      LeafPageOpens(cfg, before, leaf.at, now);
      AddLeafOk(cfg, before, leaf, now);
      hide Represents, Typed, ValidSettings, Sound, LeafTierOk, OpenLeafPage, LeafPage, FinalizeAndRollup, Fits, Grows, LeavesPlaced, LeavesIn, AllLeaves, LeafChained, Follows, PageTyped, DueLeafPage;
      var page;
      pageId, page := PageForLeaf(leaf.at, now);
      FilledFits(cfg, tower, page, leaf);
      page := page.AddLeaf(leaf);
      SettleLeafPage(page, leaf.at, now);
    }
  }

  lemma RepresentsSound(f: Maps, cfg: Settings, tw: Tower)
    requires Represents(f, cfg, tw)
    ensures Sound(cfg, tw)
  {
  }

  lemma NonEmpty(f: Maps, cfg: Settings, tw: Tower)
    requires Represents(f, cfg, tw)
    ensures |cfg.levels| > 0
  {
  }

  lemma ActiveTyped(cfg: Settings, tw: Tower, k: nat)
    requires Typed(cfg, tw) && k < |tw.tiers| && tw.tiers[k].active.Some?
    ensures PageTyped(cfg, k, tw.tiers[k].active.value)
  {
    assert TierTyped(cfg, k, tw.tiers[k]);
  }

  lemma ActiveFits(cfg: Settings, tw: Tower, k: nat)
    requires Sound(cfg, tw) && k < |cfg.levels| && tw.tiers[k].active.Some?
    ensures Fits(cfg, tw, k, tw.tiers[k].active.value)
  {
    hide Extends, RootOf;
    assert TierOk(cfg, k, tw.tiers[k]);
    assert tw.tiers[k].active.value.id in tw.tiers[k].Ids();
  }

  lemma LeafPageReady(cfg: Settings, tw: Tower, p: Page)
    requires |cfg.levels| == |tw.tiers| > 0 && Fits(cfg, tw, 0, p) && !p.IsEmpty() && p.Length() <= cfg.levels[0].maxItems
    ensures p.level == 0 && PageTyped(cfg, 0, p.Rehash()) && Fits(cfg, tw, 0, p.Rehash()) && StoredOk(cfg, 0, p.Rehash())
  {
    RehashFits(cfg, tw, p);
  }
}
