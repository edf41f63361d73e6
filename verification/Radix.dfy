/** Inside one window the tower counts: level k is digit k of the number of leaves in mixed radix. */
module Radix {
  import opened Prelude
  import opened Hashing
  import opened Config
  import opened Pages
  import opened Towers
  import opened Safety
  import opened Conservation
  import opened Timeline
  import opened Links
  import opened Cascade
  import opened Relations

  // ---------------------------------------------------------------- full pages only

  ghost predicate TierFull(l: Level, t: Tier, now: Time)
    requires ValidLevel(l)
  {
    && (forall i :: 0 <= i < |t.stored| ==> t.stored[i].start == WindowStart(l, now) && t.stored[i].Length() == l.maxItems)
    && (t.active.Some? ==> t.active.value.start == WindowStart(l, now) && !t.active.value.IsEmpty())
  }

  /** All pages belong to the window of `now`, and only full ones are stored. */
  ghost predicate OnlyFull(cfg: Settings, tw: Tower, now: Time)
    requires ValidSettings(cfg)
  {
    |tw.tiers| == |cfg.levels| && forall k :: 0 <= k < |tw.tiers| ==> TierFull(cfg.levels[k], tw.tiers[k], now)
  }

  lemma NothingStale(cfg: Settings, tw: Tower, p: nat, now: Time)
    requires ValidSettings(cfg) && Sound(cfg, tw) && Timely(cfg, tw, now) && p < |cfg.levels| && OnlyFull(cfg, tw, now)
    ensures !Stale(tw.tiers[p], now)
    ensures tw.tiers[p].active.Some? ==> Reusable(cfg.levels[p], tw.tiers[p].active.value, now)
  {
    assert TierOk(cfg, p, tw.tiers[p]) && TierFull(cfg.levels[p], tw.tiers[p], now);
    WindowBounds(cfg.levels[p], now);
  }

  /** Inside the window a page is finalized exactly when it has become full. */
  lemma AbsorbedFull(cfg: Settings, tw: Tower, p: nat, child: Page, now: Time)
    requires ValidSettings(cfg) && Sound(cfg, tw) && Timely(cfg, tw, now) && 0 < p < |cfg.levels| && OnlyFull(cfg, tw, now)
    requires cfg.levels[p].CarriesHashes() && NeverReopens(cfg.levels[p])
    ensures var full := Absorbed(cfg, tw, p, child, now);
      && full.start == WindowStart(cfg.levels[p], now) && !full.IsEmpty()
      && full.Length() <= cfg.levels[p].maxItems
      && (Due(cfg.levels[p], full, now) <==> full.Length() == cfg.levels[p].maxItems)
      && (tw.tiers[p].stored != [] ==> full.id != Last(tw.tiers[p].stored).id)
  {
    NothingStale(cfg, tw, p, now);
    assert TierOk(cfg, p, tw.tiers[p]) && TierFull(cfg.levels[p], tw.tiers[p], now);
    NoReopening(cfg, tw, p, now);
    OpenParentFrom(cfg, tw, p, now);
    AbsorbedList(cfg, tw, p, child, now);
    AbsorbedExtends(cfg, tw, p, child, now);
    hide TierOk, IdsSafe, TierTyped, TierTimely, RootOf, Absorbed, Extends, OpensFrom;
    var page, full := OpenParent(cfg, tw, p, now).0, Absorbed(cfg, tw, p, child, now);
    assert full.start == page.start == WindowStart(cfg.levels[p], now);
    WindowBounds(cfg.levels[p], now);
    hide WindowStart;
  }

  lemma OnlyFullAt(cfg: Settings, tw: Tower, ux: Tower, k: nat, now: Time)
    requires ValidSettings(cfg) && OnlyFull(cfg, tw, now) && k < |tw.tiers| == |ux.tiers|
    requires forall j :: 0 <= j < |tw.tiers| && j != k ==> ux.tiers[j] == tw.tiers[j]
    requires TierFull(cfg.levels[k], ux.tiers[k], now)
    ensures OnlyFull(cfg, ux, now)
  {
  }

  lemma StoreFull(l: Level, t: Tier, p: Page, now: Time)
    requires ValidLevel(l) && TierFull(l, t, now) && p.start == WindowStart(l, now) && p.Length() == l.maxItems
    ensures TierFull(l, t.Store(p), now)
  {
  }

  lemma {:induction false} FinalizeAndRollupFull(cfg: Settings, tw: Tower, k: nat, p: Page, now: Time)
    requires ValidSettings(cfg) && Sound(cfg, tw) && Timely(cfg, tw, now) && k < |cfg.levels| && ClosedAbove(cfg, k)
    requires Fits(cfg, tw, k, p) && StoredOk(cfg, k, p) && Continues(cfg.levels[k], tw.tiers[k], p, now)
    requires k > 0 ==> Closed(cfg.levels[k], p, now)
    requires OnlyFull(cfg, tw, now) && p.start == WindowStart(cfg.levels[k], now) && p.Length() == cfg.levels[k].maxItems
    ensures PageTyped(cfg, k, p) && OnlyFull(cfg, FinalizeAndRollup(cfg, tw, k, p, now), now)
    decreases |cfg.levels| - k, 1
  {
    hide TierTimely, TierOk, IdsSafe, TierTyped, Fits, StoredOk, Continues, Closed, Rollup, NeverReopens, TierFull, WindowStart;
    FinalizeKeepsTimely(cfg, tw, k, p, now);
    StoreFull(cfg.levels[k], tw.tiers[k], p, now);
    OnlyFullAt(cfg, tw, tw.Finalize(k, p), k, now);
    RollupFull(cfg, tw.Finalize(k, p), k, p, now);
  }

  lemma {:induction false} RollupFull(cfg: Settings, tw: Tower, level: nat, child: Page, now: Time)
    requires ValidSettings(cfg) && Sound(cfg, tw) && Timely(cfg, tw, now) && level < |cfg.levels| && ClosedAbove(cfg, level)
    requires OnlyFull(cfg, tw, now)
    ensures OnlyFull(cfg, Rollup(cfg, tw, level, child, now), now)
    decreases |cfg.levels| - level, 0
  {
    hide TierTimely, TierOk, IdsSafe, TierTyped, Fits, Continues, FinalizeAndRollup, Absorbed, NeverReopens, WindowStart, OverAge;
    var p := level + 1;
    if p < |cfg.levels| {
      NothingStale(cfg, tw, p, now);
      AbsorbedFull(cfg, tw, p, child, now);
      AbsorbedFits(cfg, tw, p, child, now);
      AbsorbedContinues(cfg, tw, p, child, now);
      var full := Absorbed(cfg, tw, p, child, now);
      var ready := tw.(next := OpenParent(cfg, tw, p, now).1);
      assert Rollup(cfg, tw, level, child, now) == AbsorbAndSettle(cfg, tw, p, child, now) == Settle(cfg, ready, p, full, now);
      if Due(cfg.levels[p], full, now) {
        FinalizeAndRollupFull(cfg, ready, p, full, now);
      } else {
        OnlyFullAt(cfg, ready, ready.Activate(p, full), p, now);
      }
    }
  }

  // ---------------------------------------------------------------- adding leaves

  predicate SameWindows(cfg: Settings, a: Time, b: Time)
    requires ValidSettings(cfg)
  {
    forall k :: 0 <= k < |cfg.levels| ==> WindowStart(cfg.levels[k], a) == WindowStart(cfg.levels[k], b)
  }

  /** Count-driven settings: no age limit at level 0, hash-carrying parents that stay closed. */
  predicate CountDriven(cfg: Settings) {
    |cfg.levels| > 0 && cfg.levels[0].maxAge == 0 && ClosedAbove(cfg, 0)
  }

  /** Inside the window a leaf goes into the active page, or a fresh one, and nothing is finalized first. */
  lemma LeafPageInWindow(cfg: Settings, tw: Tower, at: Time, now: Time)
    requires ValidSettings(cfg) && RunOk(cfg, tw) && Timely(cfg, tw, at) && CountDriven(cfg) && OnlyFull(cfg, tw, at)
    ensures var (p, ready) := LeafPage(cfg, tw, at, now);
      && ready.tiers == tw.tiers && p.start == WindowStart(cfg.levels[0], at) && p.Length() < cfg.levels[0].maxItems
  {
    var t := tw.tiers[0];
    NothingStale(cfg, tw, 0, at);
    assert TierOk(cfg, 0, t) && TierFull(cfg.levels[0], t, at);
  }

  lemma AddLeafFull(cfg: Settings, tw: Tower, leaf: Leaf, now: Time, before: Time)
    requires ValidSettings(cfg) && RunOk(cfg, tw) && Timely(cfg, tw, before) && CountDriven(cfg)
    requires before <= leaf.at && InRange(leaf.at) && OnlyFull(cfg, tw, leaf.at)
    ensures Typed(cfg, tw) && OnlyFull(cfg, AddLeaf(cfg, tw, leaf, now), leaf.at)
  {
    hide TierTimely, TierOk, IdsSafe, TierTyped, LeafTierOk, Fits, Continues, FinalizeAndRollup, NeverReopens, WindowStart, LeafPage, RootOf, Extends, LeavesIn;
    TimelyLater(cfg, tw, before, leaf.at);
    LeafPageOpens(cfg, tw, leaf.at, now);
    LeafPageTimely(cfg, tw, leaf.at, now);
    LeafPageInWindow(cfg, tw, leaf.at, now);
    var (p, ready) := LeafPage(cfg, tw, leaf.at, now);
    FilledFits(cfg, ready, p, leaf);
    WindowBounds(cfg.levels[0], leaf.at);
    var filled := p.AddLeaf(leaf);
    assert PageFormed(cfg, 0, filled) by { assert Fits(cfg, ready, 0, filled); FitsFormed(cfg, ready, filled); }
    if DueLeafPage(cfg.levels[0], filled, leaf.at, now) {
      RehashFits(cfg, ready, filled);
      RehashContinues(cfg.levels[0], ready.tiers[0], p, filled.Rehash(), leaf.at);
      FinalizeAndRollupFull(cfg, ready, 0, filled.Rehash(), leaf.at);
    } else {
      OnlyFullAt(cfg, ready, ready.Activate(0, filled), 0, leaf.at);
    }
  }

  lemma FitsFormed(cfg: Settings, tw: Tower, p: Page)
    requires |cfg.levels| == |tw.tiers| > 0 && Fits(cfg, tw, 0, p)
    ensures PageFormed(cfg, 0, p)
  {
  }

  lemma RehashContinues(l: Level, t: Tier, p: Page, q: Page, now: Time)
    requires ValidLevel(l) && Continues(l, t, p, now) && q.id == p.id && q.prev == p.prev && q.start == p.start
    ensures Continues(l, t, q, now)
  {
  }

  // ---------------------------------------------------------------- runs

  ghost predicate OneWindowRun(cfg: Settings, steps: seq<Step>)
    requires ValidSettings(cfg)
  {
    forall i, j :: 0 <= i < |steps| && 0 <= j < |steps| ==> SameWindows(cfg, steps[i].leaf.at, steps[j].leaf.at)
  }

  /** What is full stays full within the same windows. */
  lemma SameWindowsFull(cfg: Settings, tw: Tower, a: Time, b: Time)
    requires ValidSettings(cfg) && OnlyFull(cfg, tw, a) && SameWindows(cfg, a, b)
    ensures OnlyFull(cfg, tw, b)
  {
    hide WindowStart;
  }

  lemma EmptyTowerFull(cfg: Settings, now: Time)
    requires ValidSettings(cfg)
    ensures OnlyFull(cfg, EmptyTower(cfg), now)
  {
    hide WindowStart;
  }

  lemma OneWindowFront(cfg: Settings, steps: seq<Step>)
    requires ValidSettings(cfg) && OneWindowRun(cfg, steps) && steps != []
    ensures OneWindowRun(cfg, DropLast(steps))
    ensures DropLast(steps) != [] ==> SameWindows(cfg, Clock(DropLast(steps)), Last(steps).leaf.at)
  {
    hide SameWindows;
    var n := |steps| - 1;
    if n > 0 {
      assert SameWindows(cfg, steps[n - 1].leaf.at, steps[n].leaf.at);
    }
    assert forall i :: 0 <= i < n ==> DropLast(steps)[i] == steps[i];
  }

  lemma {:induction false} RunOnlyFull(cfg: Settings, steps: seq<Step>)
    requires ValidSettings(cfg) && Monotone(steps) && CountDriven(cfg) && OneWindowRun(cfg, steps)
    ensures OnlyFull(cfg, Run(cfg, steps), Clock(steps))
  {
    hide RunOk, LeafChained, AllLeaves, AddLeaf, Timely, Monotone, CountDriven, OneWindowRun, SameWindows, OnlyFull;
    if steps == [] {
      EmptyTowerFull(cfg, 0);
    } else {
      var front, at := DropLast(steps), Last(steps).leaf.at;
      MonotonePrefix(steps);
      OneWindowFront(cfg, steps);
      RunOnlyFull(cfg, front);
      RunConserves(cfg, front);
      RunTimely(cfg, front);
      if front == [] {
        EmptyTowerFull(cfg, at);
      } else {
        SameWindowsFull(cfg, Run(cfg, front), Clock(front), at);
      }
      AddLeafFull(cfg, Run(cfg, front), Last(steps).leaf, Last(steps).now, Clock(front));
    }
  }

  // ---------------------------------------------------------------- counting

  /** How many leaves one item of level k stands for. */
  function Weight(cfg: Settings, k: nat): nat
    requires k <= |cfg.levels|
  {
    if k == 0 then 1 else Weight(cfg, k - 1) * cfg.levels[k - 1].maxItems
  }

  function OpenItems(t: Tier): nat {
    if t.active.Some? then t.active.value.Length() else 0
  }

  lemma MulNext(n: nat, m: nat)
    ensures (n + 1) * m == n * m + m
  {
  }

  lemma Regroup(s: nat, b: nat, u: nat, a: nat)
    ensures (s * b + u) * a == s * (a * b) + u * a
  {
    assert (s * b + u) * a == (s * b) * a + u * a;
    assert (s * b) * a == s * (b * a);
  }

  lemma BelowProduct(u: nat, b: nat, r: nat, a: nat)
    requires u < b && r < a
    ensures u * a + r < a * b
  {
    MulGap(u, b, a);
  }

  lemma {:induction false} CarriedCount(pages: seq<Page>, m: nat)
    requires forall i :: 0 <= i < |pages| ==> pages[i].content.HasHashes() && pages[i].Length() == m
    ensures |CarriedIn(pages)| == |pages| * m
  {
    if pages != [] {
      CarriedCount(DropLast(pages), m);
      MulNext(|pages| - 1, m);
    }
  }

  lemma {:induction false} LeafCount(pages: seq<Page>, m: nat)
    requires forall i :: 0 <= i < |pages| ==> pages[i].content.Leaves? && pages[i].Length() == m
    ensures |LeavesIn(pages)| == |pages| * m
  {
    if pages != [] {
      LeafCount(DropLast(pages), m);
      MulNext(|pages| - 1, m);
    }
  }

  lemma DivisionUnique(n: nat, d: nat, q: nat, r: nat)
    requires n == q * d + r && r < d
    ensures n / d == q && n % d == r
  {
    FloorBounds(n, d);
    var s := n / d;
    if s < q {
      MulGap(s, q, d);
    } else if q < s {
      MulGap(q, s, d);
    }
  }

  lemma DivideTwice(n: nat, a: nat, b: nat)
    requires a > 0 && b > 0
    ensures a * b > 0 && n / (a * b) == (n / a) / b
  {
    FloorBounds(n, a);
    var q := n / a;
    var r := n - q * a;
    FloorBounds(q, b);
    var s := q / b;
    var u := q - s * b;
    Regroup(s, b, u, a);
    BelowProduct(u, b, r, a);
    DivisionUnique(n, a * b, s, u * a + r);
  }

  lemma {:induction false} WeightPositive(cfg: Settings, k: nat)
    requires ValidSettings(cfg) && k <= |cfg.levels|
    ensures Weight(cfg, k) > 0
  {
    if k > 0 {
      WeightPositive(cfg, k - 1);
      assert ValidLevel(cfg.levels[k - 1]);
    }
  }

  /** A tier that has received c items holds c / m full pages and c % m open items. */
  lemma TierDigits(cfg: Settings, tw: Tower, k: nat, now: Time, c: nat)
    requires ValidSettings(cfg) && Sound(cfg, tw) && OnlyFull(cfg, tw, now) && k < |cfg.levels|
    requires k > 0 ==> cfg.levels[k].CarriesHashes() && |Carried(tw.tiers[k])| == c
    requires k == 0 ==> |AllLeaves(tw)| == c
    ensures var t, m := tw.tiers[k], cfg.levels[k].maxItems;
      && |t.stored| == c / m && OpenItems(t) == c % m && (t.active.None? <==> c % m == 0)
  {
    hide IdsSafe, WindowStart, RootOf, Extends;
    var t, m := tw.tiers[k], cfg.levels[k].maxItems;
    assert TierOk(cfg, k, t) && TierFull(cfg.levels[k], t, now);
    if k == 0 {
      LeafCount(t.stored, m);
    } else {
      CarriedCount(t.stored, m);
    }
    assert OpenItems(t) < m;
    DivisionUnique(c, m, |t.stored|, OpenItems(t));
  }

  /**
   The mixed-radix counter: after n leaves in one window, level k has stored
   n / (m0 * ... * mk) pages and its active page holds digit k of n.
   */
  lemma {:induction false} RunCounts(cfg: Settings, steps: seq<Step>, k: nat)
    requires ValidSettings(cfg) && Monotone(steps) && CountDriven(cfg) && OneWindowRun(cfg, steps) && k < |cfg.levels|
    ensures Weight(cfg, k) > 0 && Weight(cfg, k + 1) > 0
    ensures var n, t, digit := |steps|, Run(cfg, steps).tiers[k], |steps| / Weight(cfg, k) % cfg.levels[k].maxItems;
      && |t.stored| == n / Weight(cfg, k + 1)
      && OpenItems(t) == digit && (t.active.None? <==> digit == 0)
  {
    hide TierOk, IdsSafe, TierTyped, LeafTierOk, TierTimely, Monotone, WindowStart, Run, AllLeaves, Carried, TierFull, NeverReopens;
    WeightPositive(cfg, k);
    WeightPositive(cfg, k + 1);
    RunConserves(cfg, steps);
    RunOnlyFull(cfg, steps);
    if k == 0 {
      TierDigits(cfg, Run(cfg, steps), 0, Clock(steps), |steps|);
      DivideTwice(|steps|, 1, cfg.levels[0].maxItems);
    } else {
      RunCounts(cfg, steps, k - 1);
      RunHolds(Exact, cfg, steps, k - 1, 0);
      var c := |steps| / Weight(cfg, k);
      assert |Carried(Run(cfg, steps).tiers[k])| == c;
      TierDigits(cfg, Run(cfg, steps), k, Clock(steps), c);
      DivideTwice(|steps|, Weight(cfg, k), cfg.levels[k].maxItems);
    }
  }
}
