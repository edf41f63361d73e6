/** How far one rollup reaches: a cascade finalizes at most one page per level. */
module Cascade {
  import opened Hashing
  import opened Config
  import opened Pages
  import opened Towers
  import opened Safety
  import opened Timeline
  import opened Links

  /** Every level above the given one carries hashes and is never reopened. */
  predicate ClosedAbove(cfg: Settings, level: nat) {
    forall k :: level < k < |cfg.levels| ==> cfg.levels[k].CarriesHashes() && NeverReopens(cfg.levels[k])
  }

  ghost predicate AtMostOneMore(tw: Tower, ux: Tower, level: nat) {
    |tw.tiers| == |ux.tiers| && forall k :: level < k < |tw.tiers| ==> |ux.tiers[k].stored| <= |tw.tiers[k].stored| + 1
  }

  /** A page opened right after a stale one was retired has room and is not over age. */
  lemma AfterRetirementStaysOpen(cfg: Settings, tw: Tower, p: nat, child: Page, now: Time)
    requires ValidSettings(cfg) && Sound(cfg, tw) && Timely(cfg, tw, now) && 0 < p < |cfg.levels|
    requires Stale(tw.tiers[p], now) && !tw.tiers[p].active.value.IsEmpty()
    requires cfg.levels[p].CarriesHashes() && NeverReopens(cfg.levels[p])
    ensures !Due(cfg.levels[p], Absorbed(cfg, RetireStale(cfg, tw, p, now), p, child, now), now)
  {
    var l, t := cfg.levels[p], tw.tiers[p];
    assert TierOk(cfg, p, t);
    RetireStaleSound(cfg, tw, p, now);
    RetireStaleTimely(cfg, tw, p, now);
    var retired := RetireStale(cfg, tw, p, now);
    NoReopening(cfg, retired, p, now);
    AbsorbedList(cfg, retired, p, child, now);
    AbsorbedExtends(cfg, retired, p, child, now);
    hide TierOk, IdsSafe, TierTyped, TierTimely, Rollup, RootOf, Absorbed;
    WindowBounds(l, now);
    hide WindowStart;
  }

  lemma {:induction false} FinalizeAndRollupReach(cfg: Settings, tw: Tower, k: nat, p: Page, now: Time)
    requires ValidSettings(cfg) && Sound(cfg, tw) && Timely(cfg, tw, now) && 0 < k < |cfg.levels| && ClosedAbove(cfg, k)
    requires Fits(cfg, tw, k, p) && StoredOk(cfg, k, p) && Continues(cfg.levels[k], tw.tiers[k], p, now)
    requires Closed(cfg.levels[k], p, now)
    ensures PageTyped(cfg, k, p) && AtMostOneMore(tw, FinalizeAndRollup(cfg, tw, k, p, now), k - 1)
    decreases |cfg.levels| - k, 1
  {
    hide TierTimely, TierOk, IdsSafe, TierTyped, Fits, StoredOk, Continues, Closed, Rollup, NeverReopens;
    FinalizeKeepsTimely(cfg, tw, k, p, now);
    RollupReach(cfg, tw.Finalize(k, p), k, p, now);
  }

  lemma {:induction false} RetireStaleReach(cfg: Settings, tw: Tower, p: nat, now: Time)
    requires ValidSettings(cfg) && Sound(cfg, tw) && Timely(cfg, tw, now) && 0 < p < |cfg.levels| && ClosedAbove(cfg, p)
    ensures AtMostOneMore(tw, RetireStale(cfg, tw, p, now), p - 1)
    decreases |cfg.levels| - p, 2
  {
    hide TierOk, IdsSafe, TierTyped, TierTimely, FinalizeAndRollup, Fits, StoredOk, Continues, Closed, NeverReopens;
    if Stale(tw.tiers[p], now) && !tw.tiers[p].active.value.IsEmpty() {
      StaleReady(cfg, tw, p, now);
      FinalizeAndRollupReach(cfg, tw, p, tw.tiers[p].active.value.Rehash(), now);
    }
  }

  lemma {:induction false} AbsorbAndSettleReach(cfg: Settings, tw: Tower, p: nat, child: Page, now: Time)
    requires ValidSettings(cfg) && Sound(cfg, tw) && Timely(cfg, tw, now) && 0 < p < |cfg.levels| && ClosedAbove(cfg, p)
    requires !Stale(tw.tiers[p], now)
    ensures AtMostOneMore(tw, AbsorbAndSettle(cfg, tw, p, child, now), p - 1)
    decreases |cfg.levels| - p, 3
  {
    hide TierOk, IdsSafe, TierTyped, TierTimely, FinalizeAndRollup, Continues, RootOf, OverAge, Extends, NeverReopens;
    var full := Absorbed(cfg, tw, p, child, now);
    AbsorbedFits(cfg, tw, p, child, now);
    AbsorbedContinues(cfg, tw, p, child, now);
    if !full.IsEmpty() && Due(cfg.levels[p], full, now) {
      FinalizeAndRollupReach(cfg, tw.(next := OpenParent(cfg, tw, p, now).1), p, full, now);
    }
  }

  lemma SettledOpen(cfg: Settings, tw: Tower, p: nat, child: Page, now: Time)
    requires ValidSettings(cfg) && Typed(cfg, tw) && 0 < p < |cfg.levels|
    requires !Due(cfg.levels[p], Absorbed(cfg, tw, p, child, now), now)
    ensures forall k :: 0 <= k < |tw.tiers| ==> AbsorbAndSettle(cfg, tw, p, child, now).tiers[k].stored == tw.tiers[k].stored
  {
    hide TierTyped, Due, Absorbed, FinalizeAndRollup;
  }

  /** Despite two recursive calls, one rollup stores at most one new page per level. */
  lemma {:induction false} RollupReach(cfg: Settings, tw: Tower, level: nat, child: Page, now: Time)
    requires ValidSettings(cfg) && Sound(cfg, tw) && Timely(cfg, tw, now) && level < |cfg.levels| && ClosedAbove(cfg, level)
    ensures AtMostOneMore(tw, Rollup(cfg, tw, level, child, now), level)
    decreases |cfg.levels| - level, 0
  {
    hide TierOk, IdsSafe, TierTyped, TierTimely, FinalizeAndRollup, NeverReopens, Absorbed, Due;
    var p := level + 1;
    if p < |cfg.levels| {
      var retired := RetireStale(cfg, tw, p, now);
      RetireStaleSound(cfg, tw, p, now);
      RetireStaleTimely(cfg, tw, p, now);
      RetireStaleReach(cfg, tw, p, now);
      if Stale(tw.tiers[p], now) && !tw.tiers[p].active.value.IsEmpty() {
        AfterRetirementStaysOpen(cfg, tw, p, child, now);
        SettledOpen(cfg, retired, p, child, now);
      } else {
        assert forall k :: 0 <= k < |tw.tiers| ==> retired.tiers[k].stored == tw.tiers[k].stored;
        AbsorbAndSettleReach(cfg, retired, p, child, now);
      }
    }
  }

  // ---------------------------------------------------------------- the number of calls

  /** How many calls of `perform_rollup` one call makes, itself included. */
  ghost function RollupCalls(cfg: Settings, tw: Tower, level: nat, child: Page, trigger: Time): (n: nat)
    requires ValidSettings(cfg) && Typed(cfg, tw) && level < |cfg.levels|
    decreases |cfg.levels| - level, 0
  {
    if level + 1 == |cfg.levels| then 1
    else
      1 + RetireCalls(cfg, tw, level + 1, trigger)
      + SettleCalls(cfg, RetireStale(cfg, tw, level + 1, trigger), level + 1, child, trigger)
  }

  ghost function RetireCalls(cfg: Settings, tw: Tower, p: nat, trigger: Time): nat
    requires ValidSettings(cfg) && Typed(cfg, tw) && p < |cfg.levels|
    decreases |cfg.levels| - p, 1
  {
    if !Stale(tw.tiers[p], trigger) || tw.tiers[p].active.value.IsEmpty() then 0
    else
      var a := tw.tiers[p].active.value.Rehash();
      assert TierTyped(cfg, p, tw.tiers[p]);
      RollupCalls(cfg, tw.Finalize(p, a), p, a, trigger)
  }

  ghost function SettleCalls(cfg: Settings, tw: Tower, p: nat, child: Page, trigger: Time): nat
    requires ValidSettings(cfg) && Typed(cfg, tw) && 0 < p < |cfg.levels|
    decreases |cfg.levels| - p, 1
  {
    var full := Absorbed(cfg, tw, p, child, trigger);
    if full.IsEmpty() || !Due(cfg.levels[p], full, trigger) then 0
    else RollupCalls(cfg, tw.(next := OpenParent(cfg, tw, p, trigger).1).Finalize(p, full), p, full, trigger)
  }

  lemma {:induction false} FinalizedCalls(cfg: Settings, tw: Tower, k: nat, p: Page, now: Time)
    requires ValidSettings(cfg) && Sound(cfg, tw) && Timely(cfg, tw, now) && 0 < k < |cfg.levels| && ClosedAbove(cfg, k)
    requires Fits(cfg, tw, k, p) && StoredOk(cfg, k, p) && Continues(cfg.levels[k], tw.tiers[k], p, now) && Closed(cfg.levels[k], p, now)
    ensures Typed(cfg, tw.Finalize(k, p)) && RollupCalls(cfg, tw.Finalize(k, p), k, p, now) <= |cfg.levels| - k
    decreases |cfg.levels| - k, 1
  {
    hide TierTimely, TierOk, IdsSafe, TierTyped, Fits, StoredOk, Continues, Closed, RollupCalls;
    FinalizeKeepsTimely(cfg, tw, k, p, now);
    RollupCallsLinear(cfg, tw.Finalize(k, p), k, p, now);
  }

  lemma {:induction false} RetireCallsLinear(cfg: Settings, tw: Tower, p: nat, now: Time)
    requires ValidSettings(cfg) && Sound(cfg, tw) && Timely(cfg, tw, now) && 0 < p < |cfg.levels| && ClosedAbove(cfg, p - 1)
    ensures RetireCalls(cfg, tw, p, now) <= |cfg.levels| - p
    decreases |cfg.levels| - p, 2
  {
    hide TierTimely, TierOk, IdsSafe, TierTyped, Fits, StoredOk, Continues, Closed, RollupCalls, NeverReopens;
    if Stale(tw.tiers[p], now) && !tw.tiers[p].active.value.IsEmpty() {
      StaleReady(cfg, tw, p, now);
      FinalizedCalls(cfg, tw, p, tw.tiers[p].active.value.Rehash(), now);
    }
  }

  lemma {:induction false} SettleCallsLinear(cfg: Settings, tw: Tower, p: nat, child: Page, now: Time)
    requires ValidSettings(cfg) && Sound(cfg, tw) && Timely(cfg, tw, now) && 0 < p < |cfg.levels| && ClosedAbove(cfg, p - 1)
    requires !Stale(tw.tiers[p], now)
    ensures SettleCalls(cfg, tw, p, child, now) <= |cfg.levels| - p
    decreases |cfg.levels| - p, 2
  {
    hide TierOk, IdsSafe, TierTyped, TierTimely, Fits, StoredOk, Continues, RootOf, OverAge, Grows, NeverReopens, RollupCalls, Absorbed, OpenParent;
    var full := Absorbed(cfg, tw, p, child, now);
    var ready := tw.(next := OpenParent(cfg, tw, p, now).1);
    AbsorbedFits(cfg, tw, p, child, now);
    AbsorbedContinues(cfg, tw, p, child, now);
    if !full.IsEmpty() && Due(cfg.levels[p], full, now) {
      FitsStoredOk(cfg, ready, p, full);
      FinalizedCalls(cfg, ready, p, full, now);
    }
  }

  /** Despite two recursive calls per level, one rollup makes at most one call per level: the cascade is linear. */
  lemma {:induction false} RollupCallsLinear(cfg: Settings, tw: Tower, level: nat, child: Page, now: Time)
    requires ValidSettings(cfg) && Sound(cfg, tw) && Timely(cfg, tw, now) && level < |cfg.levels| && ClosedAbove(cfg, level)
    ensures RollupCalls(cfg, tw, level, child, now) <= |cfg.levels| - level
    decreases |cfg.levels| - level, 0
  {
    hide TierOk, IdsSafe, TierTyped, TierTimely, RetireStale, NeverReopens, Absorbed, Due, RetireCalls, SettleCalls;
    var p := level + 1;
    if p < |cfg.levels| {
      RetireStaleSound(cfg, tw, p, now);
      RetireStaleTimely(cfg, tw, p, now);
      var retired := RetireStale(cfg, tw, p, now);
      RetireCallsLinear(cfg, tw, p, now);
      SettleCallsLinear(cfg, retired, p, child, now);
      OneBranchCalls(cfg, tw, p, child, now);
    }
  }

  /** Either nothing is retired or the new parent page stays open. */
  lemma OneBranchCalls(cfg: Settings, tw: Tower, p: nat, child: Page, now: Time)
    requires ValidSettings(cfg) && Sound(cfg, tw) && Timely(cfg, tw, now) && 0 < p < |cfg.levels| && ClosedAbove(cfg, p - 1)
    ensures RetireCalls(cfg, tw, p, now) == 0 || SettleCalls(cfg, RetireStale(cfg, tw, p, now), p, child, now) == 0
  {
    hide TierOk, IdsSafe, TierTyped, TierTimely, RetireStale, NeverReopens, Absorbed, Due, RollupCalls;
    if Stale(tw.tiers[p], now) && !tw.tiers[p].active.value.IsEmpty() {
      AfterRetirementStaysOpen(cfg, tw, p, child, now);
    }
  }
}
