/** When a snapshot loses fields: patches that reach a level of net patches alone. */
module SnapshotLoss {
  import opened Prelude
  import opened Hashing
  import opened Config
  import opened Patches
  import opened Pages
  import opened Towers
  import opened Safety
  import opened Conservation
  import opened Timeline
  import opened Links
  import opened Relations
  import opened Radix
  import opened Exactness
  import opened Retention
  import opened Rules
  import opened Storage
  import opened QuerySpec
  import opened Snapshots

  // ---------------------------------------------------------------- the lowest unblocked level

  /** Level k keeps net patches alone, and every level between it and level 0 keeps both. */
  predicate Reached(cfg: Settings, k: nat) {
    && 0 < k < |cfg.levels| && cfg.levels[k].kind == NetPatchesOnly
    && forall j :: 0 < j < k ==> cfg.levels[j].kind == ChildHashesAndNetPatches
  }

  lemma {:induction false} ReachedBelow(cfg: Settings, k: nat) returns (low: nat)
    requires 0 < k < |cfg.levels| && cfg.levels[k].kind == NetPatchesOnly
    requires forall j :: 0 < j < k ==> cfg.levels[j].kind != ChildHashes
    ensures Reached(cfg, low)
  {
    if j: nat :| 0 < j < k && cfg.levels[j].kind == NetPatchesOnly {
      low := ReachedBelow(cfg, j);
    } else {
      low := k;
    }
  }

  // ---------------------------------------------------------------- two phases

  function FieldLeaf(id: nat, at: Time, field: string): Leaf {
    NewLeaf(id, at, None, "c", Object(map[field := Bool(true)]))
  }

  /** n leaves of one container, all at one time and all setting one field. */
  function Phase(first: nat, n: nat, at: Time, field: string): seq<Step> {
    seq(n, i requires 0 <= i < n => Step(FieldLeaf(first + i, at, field), at))
  }

  /** Field a at the epoch, then field b at the moment the first window of the level ends. */
  function LosingRun(n: nat, m: nat, at: Time): seq<Step> {
    Phase(0, n, 0, "a") + Phase(n, m, at, "b")
  }

  lemma PhaseLeaves(first: nat, n: nat, at: Time, field: string)
    ensures |Phase(first, n, at, field)| == n
    ensures forall i :: 0 <= i < n ==> Phase(first, n, at, field)[i].leaf == FieldLeaf(first + i, at, field)
    ensures forall i :: 0 <= i < n ==> Phase(first, n, at, field)[i].leaf.at == at
  {
  }

  lemma LosingRunMonotone(n: nat, m: nat, at: Time)
    requires InRange(at)
    ensures Monotone(LosingRun(n, m, at)) && Monotone(Phase(0, n, 0, "a")) && Clock(Phase(0, n, 0, "a")) == 0
  {
    PhaseLeaves(0, n, 0, "a");
    PhaseLeaves(n, m, at, "b");
    hide Phase;
    var steps := LosingRun(n, m, at);
    forall i | 0 <= i < |steps| ensures steps[i].leaf.at == if i < n then 0 else at {
    }
  }

  // ---------------------------------------------------------------- after the first phase

  lemma NetMentions(t: Tier, owner: string)
    requires owner in Net(t)
    ensures (t.active.Some? && owner in NetPatch(t.active.value.content))
      || exists i :: 0 <= i < |t.stored| && owner in NetPatch(t.stored[i].content)
  {
    hide Merge, NetPatch;
    if t.active.Some? {
      MergeMentions(NetIn(t.stored), NetPatch(t.active.value.content), owner, None);
    }
    if owner in NetIn(t.stored) {
      NetInMentions(t.stored, owner);
    }
  }

  lemma {:induction false} NetInMentions(pages: seq<Page>, owner: string)
    requires owner in NetIn(pages)
    ensures exists i :: 0 <= i < |pages| && owner in NetPatch(pages[i].content)
  {
    hide Merge, NetPatch;
    var front, last := DropLast(pages), Last(pages);
    MergeMentions(NetIn(front), NetPatch(last.content), owner, None);
    if owner in NetPatch(last.content) {
      assert owner in NetPatch(pages[|pages| - 1].content);
    } else {
      NetInMentions(front, owner);
      var i :| 0 <= i < |front| && owner in NetPatch(front[i].content);
      assert owner in NetPatch(pages[i].content);
    }
  }

  /** The stored pages of the level below mention the container. */
  lemma BelowMentions(cfg: Settings, tw: Tower, k: nat)
    requires ValidSettings(cfg) && Sound(cfg, tw) && Obeys(Named("c", k), tw) && 0 < k < |cfg.levels| && |tw.tiers[k - 1].stored| > 0
    ensures "c" in NetIn(tw.tiers[k - 1].stored)
  {
    hide IdsSafe, Extends, RootOf, ActiveOk, Merge, NetPatch;
    var t := tw.tiers[k - 1];
    var n := |t.stored| - 1;
    assert TierOk(cfg, k - 1, t) && TierObeys(Named("c", k), k - 1, t);
    assert StoredOk(cfg, k - 1, t.stored[n]) && Marked(Named("c", k), k - 1, t.stored[n]);
    MergeMentions(NetIn(DropLast(t.stored)), NetPatch(Last(t.stored).content), "c", None);
  }

  /** Every page of a level, at clock 0, belongs to the window that starts at the epoch. */
  lemma FirstWindow(cfg: Settings, tw: Tower, k: nat)
    requires ValidSettings(cfg) && Sound(cfg, tw) && Timely(cfg, tw, 0) && Obeys(Dated, tw) && k < |cfg.levels|
    ensures tw.tiers[k].active.Some? ==> tw.tiers[k].active.value.end == cfg.levels[k].DurationNanos()
    ensures forall i :: 0 <= i < |tw.tiers[k].stored| ==> tw.tiers[k].stored[i].end == cfg.levels[k].DurationNanos()
  {
    hide IdsSafe, Extends, RootOf, Chained, Closed;
    var l, t := cfg.levels[k], tw.tiers[k];
    WindowBounds(l, 0);
    hide WindowStart;
    assert TierOk(cfg, k, t) && TierTimely(l, k, t, 0) && TierObeys(Dated, k, t);
    forall i | 0 <= i < |t.stored| ensures t.stored[i].end == l.DurationNanos() {
      assert StoredOk(cfg, k, t.stored[i]) && Marked(Dated, k, t.stored[i]);
    }
  }

  lemma FieldLeafObeys(cfg: Settings, id: nat, at: Time, field: string, k: nat)
    requires ValidSettings(cfg) && Reached(cfg, k) && InRange(at)
    ensures var leaf := FieldLeaf(id, at, field);
      && Governs(Named("c", k), cfg, at) && LeafObeys(Named("c", k), leaf) && Governs(Dated, cfg, at)
      && (field != "b" ==> LeafObeys(Silent("c", Some("b")), leaf))
  {
  }

  lemma PhaseObeys(cfg: Settings, first: nat, n: nat, at: Time, field: string, k: nat)
    requires ValidSettings(cfg) && Reached(cfg, k) && InRange(at)
    ensures StepsObey(Named("c", k), cfg, Phase(first, n, at, field)) && StepsObey(Dated, cfg, Phase(first, n, at, field))
    ensures field != "b" ==> StepsObey(Silent("c", Some("b")), cfg, Phase(first, n, at, field))
    ensures StepsObey(Hushed("c", Some("b"), at), cfg, Phase(first, n, at, field))
  {
    PhaseLeaves(first, n, at, field);
    var steps := Phase(first, n, at, field);
    hide Phase, Reached, FieldLeaf;
    forall i | 0 <= i < n ensures Governs(Named("c", k), cfg, at) && LeafObeys(Named("c", k), steps[i].leaf) && Governs(Dated, cfg, at)
      && (field != "b" ==> LeafObeys(Silent("c", Some("b")), steps[i].leaf)) {
      FieldLeafObeys(cfg, first + i, at, field, k);
    }
  }

  /** The container has reached the level: it is on a page there, stored or active, of the first window. */
  lemma AfterFirstPhase(cfg: Settings, k: nat) returns (n: nat)
    requires ValidSettings(cfg) && Reached(cfg, k)
    ensures var tw, end := Run(cfg, Phase(0, n, 0, "a")), cfg.levels[k].DurationNanos();
      && RunOk(cfg, tw) && Obeys(Silent("c", Some("b")), tw)
      && Holds(Flushed(|tw.tiers[k - 1].stored|, "c", end), cfg, tw, k - 1, end)
  {
    hide Run, TierOk, IdsSafe, TierTyped, LeafTierOk, LeafChained, Timely, Obeys, Net, NetIn, NetPatch, Monotone, StepsObey, Phase;
    n := Weight(cfg, k);
    var steps := Phase(0, n, 0, "a");
    PhaseLeaves(0, n, 0, "a");
    var tw := Run(cfg, steps);
    LosingRunMonotone(n, 0, 0);
    RunConserves(cfg, steps);
    RunTimely(cfg, steps);
    PhaseObeys(cfg, 0, n, 0, "a", k);
    RunObeys(Named("c", k), cfg, steps);
    RunObeys(Dated, cfg, steps);
    RunObeys(Silent("c", Some("b")), cfg, steps);
    EnoughLeaves(cfg, steps, k - 1, 1);
    RunHolds(Overlay, cfg, steps, k - 1, 0);
    BelowMentions(cfg, tw, k);
    FirstWindow(cfg, tw, k);
    NetMentions(tw.tiers[k], "c");
  }

  // ---------------------------------------------------------------- after the second phase

  /** The page of the first window is stored, and no page that has ended mentions field b. */
  lemma AfterSecondPhase(cfg: Settings, k: nat) returns (n: nat, m: nat)
    requires ValidSettings(cfg) && Reached(cfg, k)
    ensures m > 0
    ensures var end := cfg.levels[k].DurationNanos();
      var tw := Run(cfg, LosingRun(n, m, end));
      RunOk(cfg, tw) && Kept(tw.tiers[k], "c", end) && Obeys(Hushed("c", Some("b"), end), tw)
  {
    hide Run, TierOk, IdsSafe, TierTyped, LeafTierOk, LeafChained, Timely, Obeys, Kept, Open, Monotone, StepsObey, Phase;
    n := AfterFirstPhase(cfg, k);
    assert ValidLevel(cfg.levels[k]);
    var end := cfg.levels[k].DurationNanos();
    var first := Run(cfg, Phase(0, n, 0, "a"));
    var seen := |first.tiers[k - 1].stored|;
    WeightPositive(cfg, k);
    m := (seen + 1) * Weight(cfg, k);
    ProductPositive(seen + 1, Weight(cfg, k));
    var more := Phase(n, m, end, "b");
    PhaseLeaves(0, n, 0, "a");
    PhaseLeaves(n, m, end, "b");
    LosingRunMonotone(n, m, end);
    RunConserves(cfg, LosingRun(n, m, end));
    SilentIsHushed(first, "c", Some("b"), end);
    PhaseObeys(cfg, n, m, end, "b", k);
    RunObeysFrom(Hushed("c", Some("b"), end), cfg, Phase(0, n, 0, "a"), more);
    RunHoldsFrom(Flushed(seen, "c", end), cfg, Phase(0, n, 0, "a"), more, k - 1, end);
    EnoughLeaves(cfg, LosingRun(n, m, end), k - 1, seen + 1);
  }

  lemma ProductPositive(a: nat, b: nat)
    requires a > 0 && b > 0
    ensures a * b > 0
  {
  }

  // ---------------------------------------------------------------- what the snapshot makes of it

  lemma KeptIsGathered(cfg: Settings, tw: Tower, k: nat, end: Time) returns (p: Page)
    requires ValidSettings(cfg) && Sound(cfg, tw) && Reached(cfg, k) && Kept(tw.tiers[k], "c", end)
    ensures p in Gathered(tw.tiers, end) && p.end == end && IsBaseline(p, "c", end)
  {
    hide IdsSafe, Extends, RootOf, ActiveOk, Gathered;
    var t := tw.tiers[k];
    assert TierOk(cfg, k, t);
    var i :| 0 <= i < |t.stored| && t.stored[i].end == end && "c" in NetPatch(t.stored[i].content);
    p := t.stored[i];
    assert StoredOk(cfg, k, p) && ValidLevel(cfg.levels[k]);
    hide TierOk, StoredOk, Kept;
    GatheredMembers(tw.tiers, end, p);
  }

  lemma KeptIsBaseline(cfg: Settings, tw: Tower, k: nat)
    requires ValidSettings(cfg) && RunOk(cfg, tw) && Reached(cfg, k) && Kept(tw.tiers[k], "c", cfg.levels[k].DurationNanos())
    ensures var end := cfg.levels[k].DurationNanos();
      Baseline(tw, "c", end).Some? && Baseline(tw, "c", end).value.end == end
  {
    hide Sound, Baseline, Gathered, LeafTierOk, Kept;
    var end := cfg.levels[k].DurationNanos();
    var p := KeptIsGathered(cfg, tw, k, end);
    BaselineIsLatest(tw, "c", end);
  }

  lemma BaselineIsHushed(cfg: Settings, tw: Tower, end: Time)
    requires ValidSettings(cfg) && RunOk(cfg, tw) && Obeys(Hushed("c", Some("b"), end), tw)
    ensures var base := Baseline(tw, "c", end); base.Some? ==>
      base.value.content.NetPatches? && "c" in base.value.content.patches && "b" !in base.value.content.patches["c"]
  {
    hide IdsSafe, TierOk, Baseline, Gathered, LeafTierOk;
    BaselineIsLatest(tw, "c", end);
    var base := Baseline(tw, "c", end);
    if base.Some? {
      var p := base.value;
      GatheredMembers(tw.tiers, end, p);
      TypedBelow(cfg, tw.tiers[0]);
      var k :| 0 <= k < |tw.tiers| && p in tw.tiers[k].stored;
      var i :| 0 <= i < |tw.tiers[k].stored| && tw.tiers[k].stored[i] == p;
      assert TierObeys(Hushed("c", Some("b"), end), k, tw.tiers[k]);
      assert Marked(Hushed("c", Some("b"), end), k, tw.tiers[k].stored[i]);
    }
  }

  lemma TypedBelow(cfg: Settings, t: Tier)
    requires TierTyped(cfg, 0, t)
    ensures forall p :: p in t.stored ==> p.content.Leaves?
  {
    forall p | p in t.stored ensures p.content.Leaves? {
      var i :| 0 <= i < |t.stored| && t.stored[i] == p;
      assert PageTyped(cfg, 0, t.stored[i]);
    }
  }

  /** The leaf at the moment the window ends counts for the state but is skipped after the baseline. */
  lemma SnapshotSkipsB(cfg: Settings, tw: Tower, k: nat)
    requires ValidSettings(cfg) && RunOk(cfg, tw) && Reached(cfg, k) && Kept(tw.tiers[k], "c", cfg.levels[k].DurationNanos())
    requires Obeys(Hushed("c", Some("b"), cfg.levels[k].DurationNanos()), tw)
    ensures "b" !in SnapshotFields(tw, "c", cfg.levels[k].DurationNanos())
  {
    hide RunOk, Kept, Obeys, Baseline, SnapshotLeaves;
    var end := cfg.levels[k].DurationNanos();
    KeptIsBaseline(cfg, tw, k);
    BaselineIsHushed(cfg, tw, end);
    NothingAfter(tw, "c", end);
  }

  lemma ExactHasB(tw: Tower, n: nat, m: nat, end: Time)
    requires AllLeaves(tw) == LeavesOf(LosingRun(n, m, end)) && m > 0 && end >= 0
    ensures "b" in ExactFields(tw, "c", end)
  {
    hide AllLeaves, Replay, SortLeaves, LastSets, Filter;
    var log := LeavesOf(LosingRun(n, m, end));
    assert forall i :: 0 <= i < |log| ==> log[i] == if i < n then FieldLeaf(i, 0, "a") else FieldLeaf(i, end, "b");
    FilterAll(log, OfUpTo("c", end));
    assert SortedBy(log, ById) && SortedBy(log, ByTime);
    SortLeavesSorted(log);
    LastSetsLast(log, "b");
    assert log[|log| - 1].payload.fields["b"] == Bool(true);
    ExactFieldsMean(tw, "c", end, "b", Bool(true));
  }

  lemma LastSetsLast(leaves: seq<Leaf>, k: string)
    requires leaves != [] && Sets(leaves[|leaves| - 1], k)
    ensures LastSets(leaves, k, |leaves| - 1)
  {
  }

  /** Where patches reach a level of net patches alone, some monotone run makes a snapshot lose a field. */
  lemma ReachedLevelLosesFields(cfg: Settings, k: nat) returns (steps: seq<Step>, at: Time)
    requires ValidSettings(cfg) && Reached(cfg, k)
    ensures Monotone(steps) && "b" in ExactFields(Run(cfg, steps), "c", at) && "b" !in SnapshotFields(Run(cfg, steps), "c", at)
  {
    hide Run, RunOk, Kept, Obeys, LosingRun, Monotone, SnapshotFields, ExactFields, AllLeaves, LeafChained;
    var n, m := AfterSecondPhase(cfg, k);
    assert ValidLevel(cfg.levels[k]);
    at := cfg.levels[k].DurationNanos();
    steps := LosingRun(n, m, at);
    LosingRunMonotone(n, m, at);
    RunConserves(cfg, steps);
    SnapshotSkipsB(cfg, Run(cfg, steps), k);
    ExactHasB(Run(cfg, steps), n, m, at);
  }

  /**
   Snapshots are exact in every monotone run, for every container and time, if and only if
   every level of net patches alone has a level of hashes alone between it and level 0.
   */
  lemma SnapshotsExactIff(cfg: Settings)
    requires ValidSettings(cfg)
    ensures PatchesBlocked(cfg) <==>
      forall steps, c, at | Monotone(steps) :: SnapshotFields(Run(cfg, steps), c, at) == ExactFields(Run(cfg, steps), c, at)
  {
    hide Run, SnapshotFields, ExactFields, Monotone;
    if PatchesBlocked(cfg) {
      forall steps, c, at | Monotone(steps) ensures SnapshotFields(Run(cfg, steps), c, at) == ExactFields(Run(cfg, steps), c, at) {
        MonotoneInRange(steps);
        BlockedRunIsExact(cfg, steps, c, at);
      }
    } else {
      var k :| 0 < k < |cfg.levels| && cfg.levels[k].kind == NetPatchesOnly && forall j :: 0 < j < k ==> cfg.levels[j].kind != ChildHashes;
      var low := ReachedBelow(cfg, k);
      var steps, at := ReachedLevelLosesFields(cfg, low);
      assert SnapshotFields(Run(cfg, steps), "c", at) != ExactFields(Run(cfg, steps), "c", at);
    }
  }

  lemma MonotoneInRange(steps: seq<Step>)
    requires Monotone(steps)
    ensures forall i :: 0 <= i < |steps| ==> InRange(steps[i].leaf.at)
  {
  }

  lemma BlockedRunIsExact(cfg: Settings, steps: seq<Step>, c: string, at: Time)
    requires ValidSettings(cfg) && PatchesBlocked(cfg) && forall i :: 0 <= i < |steps| ==> InRange(steps[i].leaf.at)
    ensures SnapshotFields(Run(cfg, steps), c, at) == ExactFields(Run(cfg, steps), c, at)
  {
    hide Run, SnapshotFields, ExactFields, PatchesBlocked, AllLeaves, RunOk, LeafChained, NoPatchPages;
    RunConserves(cfg, steps);
    RunHasNoPatchPages(cfg, steps);
    SnapshotIsExact(cfg, Run(cfg, steps), c, at);
  }
}
