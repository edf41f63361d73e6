/** Snapshots: what the replay behind `create_snapshot` computes, and when that is the exact state. */
module Snapshots {
  import opened Prelude
  import opened Hashing
  import opened Config
  import opened Patches
  import opened Pages
  import opened Towers
  import opened Safety
  import opened Conservation
  import opened Timeline
  import opened Retention
  import opened Rules
  import opened Storage
  import opened QuerySpec

  // ---------------------------------------------------------------- order of leaves

  /** By timestamp, then by leaf id. */
  predicate NotAfter(a: Leaf, b: Leaf) {
    a.at < b.at || (a.at == b.at && a.id <= b.id)
  }

  function ById(l: Leaf): int { l.id }

  /** Stable sorting by id and then by timestamp sorts by `NotAfter`. */
  function SortLeaves(s: seq<Leaf>): seq<Leaf> {
    SortBy(SortBy(s, ById), ByTime)
  }

  ghost predicate LeavesSorted(s: seq<Leaf>) {
    forall i, j :: 0 <= i < j < |s| ==> NotAfter(s[i], s[j])
  }

  lemma {:induction false} InsertLeafBound(s: seq<Leaf>, l: Leaf, bound: Leaf)
    requires NotAfter(l, bound) && forall i :: 0 <= i < |s| ==> NotAfter(s[i], bound)
    ensures forall i :: 0 <= i < |InsertBy(s, l, ByTime)| ==> NotAfter(InsertBy(s, l, ByTime)[i], bound)
  {
    if s != [] && ByTime(Last(s)) > ByTime(l) {
      InsertLeafBound(DropLast(s), l, bound);
    }
  }

  /** Inserting a leaf whose id is no smaller goes behind the leaves of its timestamp. */
  lemma {:induction false} InsertLeafSorts(s: seq<Leaf>, l: Leaf)
    requires LeavesSorted(s) && forall i :: 0 <= i < |s| ==> s[i].id <= l.id
    ensures LeavesSorted(InsertBy(s, l, ByTime))
  {
    if s != [] && ByTime(Last(s)) > ByTime(l) {
      InsertLeafSorts(DropLast(s), l);
      InsertLeafBound(DropLast(s), l, Last(s));
    }
  }

  lemma {:induction false} SortByTimeSorts(s: seq<Leaf>)
    requires SortedBy(s, ById)
    ensures LeavesSorted(SortBy(s, ByTime))
  {
    if s != [] {
      var front, sorted := DropLast(s), SortBy(DropLast(s), ByTime);
      assert SortedBy(front, ById);
      SortByTimeSorts(front);
      SortBySorts(front, ByTime);
      forall i | 0 <= i < |sorted| ensures sorted[i].id <= Last(s).id {
        assert sorted[i] in multiset(sorted) && sorted[i] in front;
        var j :| 0 <= j < |front| && front[j] == sorted[i];
        assert ById(s[j]) <= ById(s[|s| - 1]);
      }
      InsertLeafSorts(sorted, Last(s));
    }
  }

  lemma SortLeavesSorts(s: seq<Leaf>)
    ensures LeavesSorted(SortLeaves(s)) && multiset(SortLeaves(s)) == multiset(s)
  {
    hide LeavesSorted, SortedBy, SortBy;
    SortBySorts(s, ById);
    SortBySorts(SortBy(s, ById), ByTime);
    SortByTimeSorts(SortBy(s, ById));
  }

  /** Leaves that arrive in id and time order stay in that order. */
  lemma SortLeavesSorted(s: seq<Leaf>)
    requires SortedBy(s, ById) && SortedBy(s, ByTime)
    ensures SortLeaves(s) == s
  {
    hide SortedBy, SortBy;
    SortBySorted(s, ById);
    SortBySorted(s, ByTime);
  }

  // ---------------------------------------------------------------- what is replayed

  function StartsBy(at: Time): Page -> bool { (p: Page) => p.start <= at }

  function After(at: Time): Leaf -> bool { (l: Leaf) => l.at > at }

  /** The stored pages of all levels whose window starts by the time, level by level. */
  function Gathered(tiers: seq<Tier>, at: Time): seq<Page> {
    if tiers == [] then [] else Gathered(DropLast(tiers), at) + Filter(Last(tiers).stored, StartsBy(at))
  }

  function ActiveUpTo(tw: Tower, at: Time): seq<Leaf> {
    if tw.tiers == [] then [] else Filter(ActiveLeaves(tw.tiers[0]), UpTo(at))
  }

  /** The container's leaves up to the time, in replay order. */
  function SnapshotLeaves(tw: Tower, c: string, at: Time): seq<Leaf> {
    SortLeaves(Filter(LeavesIn(Gathered(tw.tiers, at)), OfUpTo(c, at)) + Filter(ActiveUpTo(tw, at), OfUpTo(c, at)))
  }

  function NonNull(f: Fields): Fields {
    map k | k in f && f[k] != Null :: f[k]
  }

  /** Top-level fields are replaced, and null removes a field; other payloads are ignored. */
  function ApplyPatch(state: Fields, delta: Json): Fields {
    if delta.Object? then NonNull(delta.fields) + (map k | k in state && k !in delta.fields :: state[k]) else state
  }

  function Replay(state: Fields, leaves: seq<Leaf>): Fields {
    if leaves == [] then state else ApplyPatch(Replay(state, DropLast(leaves)), Last(leaves).payload)
  }

  function ByEndDescending(p: Page): int { -p.end }

  predicate IsBaseline(p: Page, c: string, at: Time) {
    p.end <= at && p.content.NetPatches? && c in p.content.patches
  }

  function FirstBaseline(pages: seq<Page>, c: string, at: Time): Option<Page> {
    if pages == [] then None
    else if IsBaseline(pages[0], c, at) then Some(pages[0])
    else FirstBaseline(pages[1..], c, at)
  }

  /** The patch page the replay starts from: the one that ends last among those that mention the container. */
  function Baseline(tw: Tower, c: string, at: Time): Option<Page> {
    FirstBaseline(SortBy(Gathered(tw.tiers, at), ByEndDescending), c, at)
  }

  lemma {:induction false} FirstBaselineIs(pages: seq<Page>, c: string, at: Time)
    ensures FirstBaseline(pages, c, at).Some? ==> FirstBaseline(pages, c, at).value in pages && IsBaseline(FirstBaseline(pages, c, at).value, c, at)
    ensures FirstBaseline(pages, c, at).None? <==> forall p :: p in pages ==> !IsBaseline(p, c, at)
  {
    if pages != [] {
      FirstBaselineIs(pages[1..], c, at);
      assert pages == [pages[0]] + pages[1..];
    }
  }

  function SnapshotFields(tw: Tower, c: string, at: Time): Fields {
    var leaves := SnapshotLeaves(tw, c, at);
    var base := Baseline(tw, c, at);
    if base.Some? && base.value.content.NetPatches? && c in base.value.content.patches
    then Replay(NonNull(base.value.content.patches[c]), Filter(leaves, After(base.value.end)))
    else Replay(map[], leaves)
  }

  // ---------------------------------------------------------------- pruning loses nothing

  lemma {:induction false} GatheredMembers(tiers: seq<Tier>, at: Time, p: Page)
    ensures p in Gathered(tiers, at) <==> p.start <= at && exists k :: 0 <= k < |tiers| && p in tiers[k].stored
  {
    if tiers != [] {
      GatheredMembers(DropLast(tiers), at, p);
      FilterMembers(Last(tiers).stored, StartsBy(at));
      assert tiers == DropLast(tiers) + [Last(tiers)];
      if p in Last(tiers).stored {
        assert p in tiers[|tiers| - 1].stored;
      }
    }
  }

  lemma {:induction false} NoLeavesAbove(pages: seq<Page>)
    requires forall p :: p in pages ==> !p.content.Leaves?
    ensures LeavesIn(pages) == []
  {
    if pages != [] {
      assert Last(pages) in pages;
      NoLeavesAbove(DropLast(pages));
    }
  }

  /** Only level 0 contributes leaves. */
  lemma {:induction false} GatheredLeaves(cfg: Settings, tiers: seq<Tier>, at: Time)
    requires 0 < |tiers| && forall k :: 0 <= k < |tiers| ==> TierTyped(cfg, k, tiers[k])
    ensures LeavesIn(Gathered(tiers, at)) == LeavesIn(Filter(tiers[0].stored, StartsBy(at)))
  {
    hide LeavesIn, TierTyped;
    var front, top := DropLast(tiers), Filter(Last(tiers).stored, StartsBy(at));
    LeavesInConcat(Gathered(front, at), top);
    if |tiers| == 1 {
      assert Gathered(front, at) == [];
      assert Gathered(tiers, at) == top;
    } else {
      GatheredLeaves(cfg, front, at);
      FilterMembers(Last(tiers).stored, StartsBy(at));
      TypedAbove(cfg, |tiers| - 1, Last(tiers));
      NoLeavesAbove(top);
    }
  }

  lemma TypedAbove(cfg: Settings, k: nat, t: Tier)
    requires k > 0 && TierTyped(cfg, k, t)
    ensures forall p :: p in t.stored ==> !p.content.Leaves?
  {
    forall p | p in t.stored ensures !p.content.Leaves? {
      var i :| 0 <= i < |t.stored| && t.stored[i] == p;
      assert PageTyped(cfg, k, t.stored[i]);
    }
  }

  /** A page that starts after the time holds no leaf up to it. */
  lemma {:induction false} PruningLosesNothing(pages: seq<Page>, c: string, at: Time)
    requires forall i :: 0 <= i < |pages| ==> LeavesPlaced(pages[i])
    requires forall l :: l in LeavesIn(pages) ==> InRange(l.at)
    ensures Filter(LeavesIn(Filter(pages, StartsBy(at))), OfUpTo(c, at)) == Filter(LeavesIn(pages), OfUpTo(c, at))
  {
    if pages != [] {
      var front, last := DropLast(pages), Last(pages);
      assert LeavesIn(pages) == LeavesIn(front) + last.content.leaves;
      assert forall i :: 0 <= i < |front| ==> front[i] == pages[i];
      PruningLosesNothing(front, c, at);
      FilterConcat(LeavesIn(front), last.content.leaves, OfUpTo(c, at));
      var kept := Filter(front, StartsBy(at));
      if last.start <= at {
        assert DropLast(kept + [last]) == kept;
        FilterConcat(LeavesIn(kept), last.content.leaves, OfUpTo(c, at));
      } else {
        forall l | l in last.content.leaves ensures !OfUpTo(c, at)(l) {
          assert l in LeavesIn(pages) && LeavesPlaced(pages[|pages| - 1]);
        }
        NoneLeft(last.content.leaves, OfUpTo(c, at));
        assert Filter(pages, StartsBy(at)) == kept;
      }
    }
  }

  /** The replayed leaves are all of the container's leaves up to the time, finalized or active. */
  lemma SnapshotSeesAll(cfg: Settings, tw: Tower, c: string, at: Time)
    requires ValidSettings(cfg) && RunOk(cfg, tw) && forall l :: l in AllLeaves(tw) ==> InRange(l.at)
    ensures SnapshotLeaves(tw, c, at) == SortLeaves(Filter(AllLeaves(tw), OfUpTo(c, at)))
  {
    hide TierOk, IdsSafe, TierTyped, LeavesPlaced, LeavesIn, SortLeaves, Filter, Gathered;
    var t := tw.tiers[0];
    GatheredLeaves(cfg, tw.tiers, at);
    PruningLosesNothing(t.stored, c, at);
    FilterTwice(ActiveLeaves(t), UpTo(at), OfUpTo(c, at), OfUpTo(c, at));
    FilterConcat(LeavesIn(t.stored), ActiveLeaves(t), OfUpTo(c, at));
  }

  // ---------------------------------------------------------------- exactness

  predicate Sets(l: Leaf, k: string) {
    l.payload.Object? && k in l.payload.fields
  }

  /** Leaf i is the last one to mention field k. */
  ghost predicate LastSets(leaves: seq<Leaf>, k: string, i: nat) {
    i < |leaves| && Sets(leaves[i], k) && forall j :: i < j < |leaves| ==> !Sets(leaves[j], k)
  }

  /** Field k is v exactly when the last leaf that mentions it says so and v is not null. */
  lemma {:induction false} ReplayExact(leaves: seq<Leaf>, k: string, v: Json)
    ensures (k in Replay(map[], leaves) && Replay(map[], leaves)[k] == v)
      <==> v != Null && exists i: nat :: LastSets(leaves, k, i) && leaves[i].payload.fields[k] == v
  {
    if leaves != [] {
      var front, last := DropLast(leaves), Last(leaves);
      var n := |leaves| - 1;
      ReplayExact(front, k, v);
      if Sets(last, k) {
        assert LastSets(leaves, k, n);
        assert forall i: nat :: LastSets(leaves, k, i) ==> i == n;
      } else {
        forall i: nat ensures LastSets(front, k, i) <==> LastSets(leaves, k, i) {
          if LastSets(front, k, i) {
            assert leaves[i] == front[i];
            assert forall j :: i < j < n ==> leaves[j] == front[j];
          }
          if LastSets(leaves, k, i) {
            assert leaves[i] == front[i] && forall j :: i < j < n ==> leaves[j] == front[j];
          }
        }
      }
    }
  }

  /** No page of net patches alone is stored. */
  ghost predicate NoPatchPages(tw: Tower) {
    forall k, i :: 0 <= k < |tw.tiers| && 0 <= i < |tw.tiers[k].stored| ==> !tw.tiers[k].stored[i].content.NetPatches?
  }

  lemma NoBaseline(tw: Tower, c: string, at: Time)
    requires NoPatchPages(tw)
    ensures Baseline(tw, c, at).None?
  {
    hide SortBy, Gathered, FirstBaseline;
    var pages := Gathered(tw.tiers, at);
    var sorted := SortBy(pages, ByEndDescending);
    SortBySorts(pages, ByEndDescending);
    FirstBaselineIs(sorted, c, at);
    forall p | p in sorted ensures !p.content.NetPatches? {
      assert p in multiset(sorted);
      assert p in pages;
      GatheredMembers(tw.tiers, at, p);
      var k :| 0 <= k < |tw.tiers| && p in tw.tiers[k].stored;
      var i :| 0 <= i < |tw.tiers[k].stored| && tw.tiers[k].stored[i] == p;
    }
  }

  /** The exact state: every leaf of the container up to the time, replayed in time order from nothing. */
  function ExactFields(tw: Tower, c: string, at: Time): Fields {
    Replay(map[], SortLeaves(Filter(AllLeaves(tw), OfUpTo(c, at))))
  }

  /** What the exact state is: field k is v iff the last leaf that mentions k sets it to v and v is not null. */
  lemma ExactFieldsMean(tw: Tower, c: string, at: Time, k: string, v: Json)
    ensures var mine := SortLeaves(Filter(AllLeaves(tw), OfUpTo(c, at)));
      && LeavesSorted(mine) && multiset(mine) == multiset(Filter(AllLeaves(tw), OfUpTo(c, at)))
      && ((k in ExactFields(tw, c, at) && ExactFields(tw, c, at)[k] == v)
          <==> v != Null && exists i: nat :: LastSets(mine, k, i) && mine[i].payload.fields[k] == v)
  {
    hide Replay, SortLeaves, LastSets, AllLeaves, Filter;
    SortLeavesSorts(Filter(AllLeaves(tw), OfUpTo(c, at)));
    ReplayExact(SortLeaves(Filter(AllLeaves(tw), OfUpTo(c, at))), k, v);
  }

  /** As long as no page of net patches alone is stored, snapshots are exact. */
  lemma SnapshotIsExact(cfg: Settings, tw: Tower, c: string, at: Time)
    requires ValidSettings(cfg) && RunOk(cfg, tw) && NoPatchPages(tw) && forall l :: l in AllLeaves(tw) ==> InRange(l.at)
    ensures SnapshotFields(tw, c, at) == ExactFields(tw, c, at)
  {
    hide RunOk, SnapshotLeaves, Baseline, Replay, SortLeaves, AllLeaves, NoPatchPages;
    SnapshotSeesAll(cfg, tw, c, at);
    NoBaseline(tw, c, at);
  }

  // ---------------------------------------------------------------- when no patch page is ever stored

  /** Every level of net patches alone has a level of hashes alone between it and level 0. */
  predicate PatchesBlocked(cfg: Settings) {
    forall k :: 0 < k < |cfg.levels| && cfg.levels[k].kind == NetPatchesOnly ==>
      exists j :: 0 < j < k && cfg.levels[j].kind == ChildHashes
  }

  ghost predicate Dried(cfg: Settings, tw: Tower) {
    forall j :: 0 < j < |cfg.levels| && cfg.levels[j].kind == ChildHashes ==> Obeys(Dry(j), tw)
  }

  /** A page of net patches alone that holds none is empty, and empty pages are never stored. */
  lemma DriedHasNoPatchPages(cfg: Settings, tw: Tower)
    requires ValidSettings(cfg) && Sound(cfg, tw) && PatchesBlocked(cfg) && Dried(cfg, tw)
    ensures NoPatchPages(tw)
  {
    hide IdsSafe, Extends, RootOf, ActiveOk;
    forall k, i | 0 <= k < |tw.tiers| && 0 <= i < |tw.tiers[k].stored| ensures !tw.tiers[k].stored[i].content.NetPatches? {
      assert TierOk(cfg, k, tw.tiers[k]);
      assert StoredOk(cfg, k, tw.tiers[k].stored[i]);
      if k > 0 && cfg.levels[k].kind == NetPatchesOnly {
        var j :| 0 < j < k && cfg.levels[j].kind == ChildHashes;
        assert Obeys(Dry(j), tw);
        assert TierObeys(Dry(j), k, tw.tiers[k]);
        assert Marked(Dry(j), k, tw.tiers[k].stored[i]);
      }
    }
  }

  lemma RunHasNoPatchPages(cfg: Settings, steps: seq<Step>)
    requires ValidSettings(cfg) && PatchesBlocked(cfg)
    ensures NoPatchPages(Run(cfg, steps))
  {
    hide Run, TierOk, IdsSafe, TierTyped, LeafTierOk, LeafChained, PatchesBlocked, NoPatchPages, Obeys;
    RunConserves(cfg, steps);
    forall j | 0 < j < |cfg.levels| && cfg.levels[j].kind == ChildHashes ensures Obeys(Dry(j), Run(cfg, steps)) {
      RunObeys(Dry(j), cfg, steps);
    }
    DriedHasNoPatchPages(cfg, Run(cfg, steps));
  }

  lemma RetentionKeepsDry(cfg: Settings, now: Time, tw: Tower, ux: Tower, from: nat)
    requires Sound(cfg, tw) && RetainedAll(cfg, now, tw, ux) && Obeys(Dry(from), tw)
    ensures Obeys(Dry(from), ux)
  {
    hide Retained, Marked;
    forall k | 0 <= k < |ux.tiers| ensures TierObeys(Dry(from), k, ux.tiers[k]) {
      var t, u := tw.tiers[k], ux.tiers[k];
      assert RetainedTier(cfg, now, k, t, u) && TierObeys(Dry(from), k, t);
      TierAscends(cfg, tw, k);
      var gone := RetainedIsWithout(EffectivePolicy(cfg, k), now, t.stored, u.stored);
      FilterMembers(t.stored, IdOutside(gone));
      forall i | 0 <= i < |u.stored| ensures Marked(Dry(from), k, u.stored[i]) {
        assert u.stored[i] in u.stored;
        var j :| 0 <= j < |t.stored| && t.stored[j] == u.stored[i];
      }
    }
  }

  lemma {:induction false} LifeStaysDry(cfg: Settings, events: seq<Event>, towers: seq<Tower>, from: nat)
    requires ValidSettings(cfg) && Lives(cfg, events, towers) && InTimeOrder(events)
    requires 0 < from < |cfg.levels| && cfg.levels[from].kind == ChildHashes
    ensures Obeys(Dry(from), Last(towers))
  {
    hide TierOk, IdsSafe, TierTyped, LeafTierOk, Timely, Typed, RetainedAll, AddLeaf, CleanPass, Obeys;
    if events == [] {
      assert Obeys(Dry(from), EmptyTower(cfg)) by {
        RunObeys(Dry(from), cfg, []);
      }
    } else {
      var n := |events| - 1;
      LifeStaysDry(cfg, DropLast(events), DropLast(towers), from);
      LivesKeep(cfg, DropLast(events), DropLast(towers));
      assert Follow(cfg, events[n], towers[n], towers[n + 1]);
      match events[n]
      case Added(step) => AddLeafObeys(Dry(from), cfg, towers[n], step.leaf, step.now);
      case Swept(now) => RetentionKeepsDry(cfg, now, towers[n], towers[n + 1], from);
    }
  }

  /** With patches blocked, snapshots stay exact through any mix of ordered leaves and clean retention passes. */
  lemma SnapshotsExactInLife(cfg: Settings, events: seq<Event>, towers: seq<Tower>, c: string, at: Time)
    requires ValidSettings(cfg) && Lives(cfg, events, towers) && InTimeOrder(events) && PatchesBlocked(cfg)
    requires forall l :: l in AllLeaves(Last(towers)) ==> InRange(l.at)
    ensures SnapshotFields(Last(towers), c, at) == ExactFields(Last(towers), c, at)
  {
    assert |towers| > 0;
    hide Lives, InTimeOrder, Timely, SnapshotFields, ExactFields, PatchesBlocked, NoPatchPages, Obeys, TierOk, IdsSafe, TierTyped, LeafTierOk, AllLeaves;
    LivesKeep(cfg, events, towers);
    forall j | 0 < j < |cfg.levels| && cfg.levels[j].kind == ChildHashes ensures Obeys(Dry(j), Last(towers)) {
      LifeStaysDry(cfg, events, towers, j);
    }
    DriedHasNoPatchPages(cfg, Last(towers));
    SnapshotIsExact(cfg, Last(towers), c, at);
  }

  // ---------------------------------------------------------------- agreement with reconstruction

  predicate NullFree(j: Json) {
    j.Object? && forall k :: k in j.fields ==> j.fields[k] != Null
  }

  lemma PatchIsOverlay(state: Fields, delta: Json)
    requires NullFree(delta)
    ensures ApplyPatch(state, delta) == state + delta.fields
  {
  }

  /** For flat, null-free payloads replacing fields and merging deeply are the same thing. */
  lemma {:induction false} ReplayIsFold(leaves: seq<Leaf>)
    requires leaves != [] && forall l :: l in leaves ==> Flat(l.payload) && NullFree(l.payload)
    ensures FoldDeltas(leaves) == Object(Replay(map[], leaves)) && Flat(FoldDeltas(leaves))
  {
    var front, l := DropLast(leaves), Last(leaves);
    assert l in leaves;
    assert forall x :: x in front ==> x in leaves;
    PatchIsOverlay(Replay(map[], front), l.payload);
    hide ApplyPatch, Flat;
    if front == [] {
      assert map[] + l.payload.fields == l.payload.fields;
      assert ApplyDelta(Null, l.payload) == l.payload;
    } else {
      ReplayIsFold(front);
      ApplyFlat(FoldDeltas(front), l.payload);
    }
  }

  ghost predicate IdsAscend(steps: seq<Step>) {
    forall i, j :: 0 <= i < j < |steps| ==> steps[i].leaf.id <= steps[j].leaf.id
  }

  lemma {:induction false} FilterStaysSorted(ls: seq<Leaf>, p: Leaf -> bool, key: Leaf -> int)
    requires SortedBy(ls, key)
    ensures SortedBy(Filter(ls, p), key)
  {
    if ls != [] {
      FilterStaysSorted(DropLast(ls), p, key);
      FilterMembers(DropLast(ls), p);
      var front := Filter(DropLast(ls), p);
      forall i | 0 <= i < |front| ensures key(front[i]) <= key(Last(ls)) {
        assert front[i] in front;
        var j :| 0 <= j < |DropLast(ls)| && DropLast(ls)[j] == front[i];
        assert key(ls[j]) <= key(ls[|ls| - 1]);
      }
    }
  }

  /** Replaying a snapshot and reconstructing from the finalized pages agree once level 0 has no active page. */
  lemma SnapshotAgreesWithReconstruction(cfg: Settings, steps: seq<Step>, c: string, at: Time)
    requires ValidSettings(cfg) && Monotone(steps) && IdsAscend(steps) && NoPatchPages(Run(cfg, steps))
    requires Run(cfg, steps).tiers[0].active.None?
    requires forall i :: 0 <= i < |steps| && steps[i].leaf.container == c ==> Flat(steps[i].leaf.payload) && NullFree(steps[i].leaf.payload)
    ensures var tw := Run(cfg, steps);
      Reconstruct(tw.tiers[0].stored, c, at)
        == if SnapshotLeaves(tw, c, at) == [] then Err(ContainerNotFound) else Ok(Object(SnapshotFields(tw, c, at)))
  {
    hide Run, RunOk, LeavesIn, FoldDeltas, Replay, Monotone, IdsAscend, Reconstruct, SortLeaves, SnapshotLeaves, Baseline, LeafChained, Filter, NoPatchPages;
    var tw := Run(cfg, steps);
    RunConserves(cfg, steps);
    ReconstructIsFold(cfg, steps, c, at);
    LogSorted(steps);
    assert AllLeaves(tw) == LeavesIn(tw.tiers[0].stored) == LeavesOf(steps);
    SnapshotSeesAll(cfg, tw, c, at);
    NoBaseline(tw, c, at);
    var mine := Filter(LeavesOf(steps), OfUpTo(c, at));
    FilterStaysSorted(LeavesOf(steps), OfUpTo(c, at), ById);
    FilterStaysSorted(LeavesOf(steps), OfUpTo(c, at), ByTime);
    SortLeavesSorted(mine);
    FilterMembers(LeavesOf(steps), OfUpTo(c, at));
    if mine != [] {
      ReplayIsFold(mine);
    }
  }

  lemma LogSorted(steps: seq<Step>)
    requires Monotone(steps) && IdsAscend(steps)
    ensures SortedBy(LeavesOf(steps), ById) && SortedBy(LeavesOf(steps), ByTime)
    ensures forall l :: l in LeavesOf(steps) ==> InRange(l.at)
  {
  }

  // ---------------------------------------------------------------- patch-only levels

  lemma {:induction false} FirstBaselineLatest(pages: seq<Page>, c: string, at: Time)
    requires SortedBy(pages, ByEndDescending)
    ensures FirstBaseline(pages, c, at).Some? ==>
      forall q :: q in pages && IsBaseline(q, c, at) ==> q.end <= FirstBaseline(pages, c, at).value.end
  {
    if pages != [] {
      assert pages == [pages[0]] + pages[1..];
      if IsBaseline(pages[0], c, at) {
        forall q | q in pages ensures q.end <= pages[0].end {
          var j :| 0 <= j < |pages| && pages[j] == q;
          assert ByEndDescending(pages[0]) <= ByEndDescending(pages[j]);
        }
      } else {
        assert SortedBy(pages[1..], ByEndDescending);
        FirstBaselineLatest(pages[1..], c, at);
      }
    }
  }

  /** The replay starts from the latest patch page that ended by the time and mentions the container, if there is one. */
  lemma BaselineIsLatest(tw: Tower, c: string, at: Time)
    ensures Baseline(tw, c, at).None? <==> forall p :: p in Gathered(tw.tiers, at) ==> !IsBaseline(p, c, at)
    ensures Baseline(tw, c, at).Some? ==>
      && Baseline(tw, c, at).value in Gathered(tw.tiers, at) && IsBaseline(Baseline(tw, c, at).value, c, at)
      && forall q :: q in Gathered(tw.tiers, at) && IsBaseline(q, c, at) ==> q.end <= Baseline(tw, c, at).value.end
  {
    hide SortBy, Gathered, FirstBaseline, IsBaseline, SortedBy;
    var pages := Gathered(tw.tiers, at);
    var sorted := SortBy(pages, ByEndDescending);
    SortBySorts(pages, ByEndDescending);
    FirstBaselineIs(sorted, c, at);
    FirstBaselineLatest(sorted, c, at);
    assert forall p :: p in sorted <==> p in multiset(sorted);
    assert forall p :: p in pages <==> p in multiset(pages);
  }

  lemma {:induction false} ReplayFrom(state: Fields, leaves: seq<Leaf>, k: string, v: Json)
    ensures (k in Replay(state, leaves) && Replay(state, leaves)[k] == v) <==>
      if exists i: nat :: LastSets(leaves, k, i) then v != Null && exists i: nat :: LastSets(leaves, k, i) && leaves[i].payload.fields[k] == v
      else k in state && state[k] == v
  {
    if leaves != [] {
      var front, last, n := DropLast(leaves), Last(leaves), |leaves| - 1;
      ReplayFrom(state, front, k, v);
      if Sets(last, k) {
        assert LastSets(leaves, k, n);
        assert forall i: nat :: LastSets(leaves, k, i) ==> i == n;
      } else {
        SetsInFront(leaves, k);
      }
    }
  }

  lemma SetsInFront(leaves: seq<Leaf>, k: string)
    requires leaves != [] && !Sets(Last(leaves), k)
    ensures forall i: nat :: LastSets(DropLast(leaves), k, i) <==> LastSets(leaves, k, i)
    ensures forall i :: 0 <= i < |leaves| - 1 ==> DropLast(leaves)[i] == leaves[i]
  {
    hide Sets;
    var front, n := DropLast(leaves), |leaves| - 1;
    assert forall i :: 0 <= i < n ==> front[i] == leaves[i];
    forall i: nat ensures LastSets(front, k, i) <==> LastSets(leaves, k, i) {
      assert i == n ==> !LastSets(leaves, k, i);
    }
  }

  /** What a snapshot holds of a container, field by field.  The last of the leaves it replays that mentions the field decides;
      with a patch page to start from, those are the leaves after its end, and where none mentions the field, the page's
      own patch decides.  Null removes a field either way. */
  lemma SnapshotFieldsMean(tw: Tower, c: string, at: Time, k: string, v: Json)
    ensures var base, all := Baseline(tw, c, at), SnapshotLeaves(tw, c, at);
      var replayed := if base.Some? then Filter(all, After(base.value.end)) else all;
      && (base.Some? ==> base.value.content.NetPatches? && c in base.value.content.patches)
      && (forall l :: l in replayed <==> l in all && (base.Some? ==> base.value.end < l.at))
      && var decided := if exists i: nat :: LastSets(replayed, k, i)
           then exists i: nat :: LastSets(replayed, k, i) && replayed[i].payload.fields[k] == v
           else base.Some? && k in base.value.content.patches[c] && base.value.content.patches[c][k] == v;
      ((k in SnapshotFields(tw, c, at) && SnapshotFields(tw, c, at)[k] == v) <==> v != Null && decided)
  {
    hide Replay, LastSets, SnapshotLeaves, Baseline, Gathered, SortBy, Filter;
    BaselineIsLatest(tw, c, at);
    var base, all := Baseline(tw, c, at), SnapshotLeaves(tw, c, at);
    if base.Some? {
      FilterMembers(all, After(base.value.end));
      ReplayFrom(NonNull(base.value.content.patches[c]), Filter(all, After(base.value.end)), k, v);
    } else {
      ReplayFrom(map[], all, k, v);
    }
  }

  lemma NothingAfter(tw: Tower, c: string, at: Time)
    ensures Filter(SnapshotLeaves(tw, c, at), After(at)) == []
  {
    hide SortLeaves, LeavesIn, Gathered, ActiveUpTo;
    var low, high := Filter(LeavesIn(Gathered(tw.tiers, at)), OfUpTo(c, at)), Filter(ActiveUpTo(tw, at), OfUpTo(c, at));
    FilterMembers(LeavesIn(Gathered(tw.tiers, at)), OfUpTo(c, at));
    FilterMembers(ActiveUpTo(tw, at), OfUpTo(c, at));
    SortLeavesSorts(low + high);
    forall l | l in SortLeaves(low + high) ensures !After(at)(l) {
      assert l in multiset(SortLeaves(low + high));
      assert l in low + high;
    }
    NoneLeft(SnapshotLeaves(tw, c, at), After(at));
  }
}
