/** The tower theorems: exact recording, when it fails, and net-patch telescoping. */
module Exactness {
  import opened Prelude
  import opened Hashing
  import opened Config
  import opened Patches
  import opened Pages
  import opened Towers
  import opened Safety
  import opened Conservation
  import opened Timeline
  import opened Links
  import opened Relations
  import opened Radix

  // ---------------------------------------------------------------- exactly once, in order

  /** After every step of every monotone run, a closed level is listed by its parent exactly once and in order. */
  lemma RunRecordsExactly(cfg: Settings, steps: seq<Step>, k: nat)
    requires ValidSettings(cfg) && Monotone(steps) && k + 1 < |cfg.levels| && cfg.levels[k + 1].CarriesHashes()
    requires k == 0 || NeverReopens(cfg.levels[k])
    ensures Carried(Run(cfg, steps).tiers[k + 1]) == PageHashes(Run(cfg, steps).tiers[k].stored)
  {
    RunHolds(Exact, cfg, steps, k, 0);
  }

  // ---------------------------------------------------------------- net patches

  lemma {:induction false} LeavesPatchConcat(a: seq<Leaf>, b: seq<Leaf>)
    ensures LeavesPatch(a + b) == Merge(LeavesPatch(a), LeavesPatch(b))
  {
    hide Merge, LeafPatch;
    if b == [] {
      assert a + b == a;
      MergeEmpty(LeavesPatch(a));
    } else {
      assert DropLast(a + b) == a + DropLast(b);
      LeavesPatchConcat(a, DropLast(b));
      MergeAssociative(LeavesPatch(a), LeavesPatch(DropLast(b)), LeafPatch(Last(b)));
    }
  }

  /** At level 0 the overlay is the last-write-wins fold of the stored leaves. */
  lemma {:induction false} LeafOverlay(pages: seq<Page>)
    requires forall i :: 0 <= i < |pages| ==> pages[i].content.Leaves?
    ensures NetIn(pages) == LeavesPatch(LeavesIn(pages))
  {
    hide Merge;
    if pages != [] {
      LeafOverlay(DropLast(pages));
      LeavesPatchConcat(LeavesIn(DropLast(pages)), Last(pages).content.leaves);
    }
  }

  lemma LevelZeroHoldsLeaves(cfg: Settings, tw: Tower)
    requires ValidSettings(cfg) && Typed(cfg, tw)
    ensures forall i :: 0 <= i < |tw.tiers[0].stored| ==> tw.tiers[0].stored[i].content.Leaves?
  {
    assert TierTyped(cfg, 0, tw.tiers[0]);
    forall i | 0 <= i < |tw.tiers[0].stored| ensures tw.tiers[0].stored[i].content.Leaves? {
      assert PageTyped(cfg, 0, tw.tiers[0].stored[i]);
    }
  }

  /** Net-patch telescoping, reopened pages included: each patch-carrying level overlays to the level below. */
  lemma RunTelescopes(cfg: Settings, steps: seq<Step>, k: nat)
    requires ValidSettings(cfg) && Monotone(steps) && k + 1 < |cfg.levels| && cfg.levels[k + 1].CarriesPatches()
    ensures var tw := Run(cfg, steps);
      && Net(tw.tiers[k + 1]) == NetIn(tw.tiers[k].stored)
      && NetIn(tw.tiers[0].stored) == LeavesPatch(LeavesIn(tw.tiers[0].stored))
  {
    RunHolds(Overlay, cfg, steps, k, 0);
    LevelZeroHoldsLeaves(cfg, Run(cfg, steps));
    LeafOverlay(Run(cfg, steps).tiers[0].stored);
  }

  // ---------------------------------------------------------------- when recording is not exact

  lemma {:induction false} CarriedAtMost(pages: seq<Page>, m: nat)
    requires forall i :: 0 <= i < |pages| ==> pages[i].content.HasHashes() && pages[i].Length() <= m
    ensures |CarriedIn(pages)| <= |pages| * m
  {
    if pages != [] {
      CarriedAtMost(DropLast(pages), m);
      MulNext(|pages| - 1, m);
    }
  }

  lemma {:induction false} LeavesAtMost(pages: seq<Page>, m: nat)
    requires forall i :: 0 <= i < |pages| ==> pages[i].content.Leaves? && pages[i].Length() <= m
    ensures |LeavesIn(pages)| <= |pages| * m
  {
    if pages != [] {
      LeavesAtMost(DropLast(pages), m);
      MulNext(|pages| - 1, m);
    }
  }

  /** A tier that has received c * m items has stored at least c pages. */
  lemma TierStoresEnough(cfg: Settings, tw: Tower, k: nat, c: nat)
    requires ValidSettings(cfg) && RunOk(cfg, tw) && k < |cfg.levels|
    requires k > 0 ==> cfg.levels[k].CarriesHashes() && |Carried(tw.tiers[k])| >= c * cfg.levels[k].maxItems
    requires k == 0 ==> |AllLeaves(tw)| >= c * cfg.levels[k].maxItems
    ensures |tw.tiers[k].stored| >= c
  {
    hide IdsSafe, RootOf, Extends, LeafTierOk;
    var t, m := tw.tiers[k], cfg.levels[k].maxItems;
    assert TierOk(cfg, k, t);
    assert ValidLevel(cfg.levels[k]);
    if k == 0 {
      LeavesAtMost(t.stored, m);
    } else {
      CarriedAtMost(t.stored, m);
    }
    assert OpenItems(t) < m;
    if |t.stored| < c {
      MulGap(|t.stored|, c, m);
    }
  }

  /** c * m0 * ... * mk leaves are enough to store c pages at level k. */
  lemma {:induction false} EnoughLeaves(cfg: Settings, steps: seq<Step>, k: nat, c: nat)
    requires ValidSettings(cfg) && Monotone(steps) && k < |cfg.levels|
    requires forall j :: 0 < j <= k ==> cfg.levels[j].CarriesHashes()
    requires |steps| >= c * Weight(cfg, k + 1)
    ensures |Run(cfg, steps).tiers[k].stored| >= c
  {
    hide Run, AllLeaves, Carried, TierOk, IdsSafe, TierTyped, LeafTierOk, Monotone;
    RunConserves(cfg, steps);
    var m := cfg.levels[k].maxItems;
    if k > 0 {
      Regroup(c, m, 0, Weight(cfg, k));
      assert c * Weight(cfg, k + 1) == (c * m) * Weight(cfg, k) by { Commute(Weight(cfg, k), m); }
      EnoughLeaves(cfg, steps, k - 1, c * m);
      RunHolds(AtLeast, cfg, steps, k - 1, 0);
    }
    TierStoresEnough(cfg, Run(cfg, steps), k, c);
  }

  lemma Commute(a: nat, b: nat)
    ensures a * b == b * a
  {
  }

  /** n leaves with ascending ids, all at the same time. */
  function Simultaneous(at: Time, n: nat): seq<Step> {
    seq(n, i requires 0 <= i < n => Step(NewLeaf(i, at, None, "", Null), at))
  }

  /** On a level that is always over age, two rollups leave one stored page but two recorded hashes. */
  lemma ReclosedIsNotLinked(l: Level, tw: Tower, k: nat, now: Time)
    requires ValidLevel(l) && k + 1 < |tw.tiers| && l.maxItems > 1
    requires Reclosed(l, tw.tiers[k], tw.tiers[k + 1], now) && |Carried(tw.tiers[k])| >= 2
    requires forall i :: 0 <= i < |tw.tiers[k].stored| ==> tw.tiers[k].stored[i].content.HasHashes() && tw.tiers[k].stored[i].Length() > 0
    ensures !Linked(tw, k)
  {
    var pages, m := tw.tiers[k].stored, l.maxItems;
    assert pages != [];
    var front := DropLast(pages);
    CarriedCount(front, m);
    assert |Carried(tw.tiers[k])| == |front| * m + Last(pages).Length();
    if front != [] {
      MulGap(1, m, |front|);
      Commute(|front|, m);
    }
  }

  /**
   The condition is exact: a hash-carrying level with a parent is recorded exactly in all
   monotone runs if and only if it is level 0 or can never be reopened.
   */
  lemma RecordsExactlyIff(cfg: Settings, k: nat)
    requires ValidSettings(cfg) && k + 1 < |cfg.levels| && HashCarryingParents(cfg)
    ensures (k == 0 || NeverReopens(cfg.levels[k]))
       <==> forall steps | Monotone(steps) :: Linked(Run(cfg, steps), k)
  {
    if k == 0 || NeverReopens(cfg.levels[k]) {
      forall steps | Monotone(steps) ensures Linked(Run(cfg, steps), k) {
        RunRecordsExactly(cfg, steps, k);
      }
    } else {
      ReopeningBreaks(cfg, k);
    }
  }

  predicate HashCarryingParents(cfg: Settings) {
    forall j :: 0 < j < |cfg.levels| ==> cfg.levels[j].CarriesHashes()
  }

  lemma ReopeningBreaks(cfg: Settings, k: nat)
    requires ValidSettings(cfg) && 0 < k && k + 1 < |cfg.levels| && HashCarryingParents(cfg) && !NeverReopens(cfg.levels[k])
    ensures exists steps :: Monotone(steps) && !Linked(Run(cfg, steps), k)
  {
    hide Run, TierTyped, IdsSafe, LeafTierOk, Carried;
    var l := cfg.levels[k];
    assert ValidLevel(l);
    var at := l.maxAge * NANOS_PER_SECOND;
    var steps := Simultaneous(at, 2 * Weight(cfg, k));
    assert Monotone(steps);
    assert Applies(Reclosing, cfg, k, at) by {
      WindowBounds(l, at);
      WindowMonotone(l, 0, at);
      assert WindowStart(l, 0) == 0;
    }
    RunConserves(cfg, steps);
    RunHolds(Reclosing, cfg, steps, k, at);
    EnoughLeaves(cfg, steps, k - 1, 2);
    RunHolds(AtLeast, cfg, steps, k - 1, 0);
    var t := Run(cfg, steps).tiers[k];
    assert TierOk(cfg, k, t);
    ReclosedIsNotLinked(l, Run(cfg, steps), k, at);
  }
}
