/** What one `add_leaf` does to level 0, over leaves and times alone. */
module LeafSteps {
  import opened Prelude
  import opened Hashing
  import opened Config
  import opened Pages
  import opened Towers
  import opened Safety
  import opened Conservation
  import opened Rules
  import opened QuerySpec
  import opened Journals

  // ---------------------------------------------------------------- when a page is due

  /** There is an age limit and some leaf on the page has reached it. */
  predicate Aged(l: Level, ls: seq<Leaf>, now: Time) {
    l.maxAge > 0 && exists i :: 0 <= i < |ls| && now - ls[i].at >= l.maxAge * 1_000_000_000
  }

  function LeavesOn(p: Page): seq<Leaf> {
    if p.content.Leaves? then p.content.leaves else []
  }

  /** A page of leaves is due by count, or by the age of its earliest leaf, and past its window from its end on. */
  lemma DueIff(l: Level, p: Page, at: Time, now: Time)
    requires Stamps(p) && p.content.Leaves? && !p.IsEmpty()
    ensures p.ShouldFinalize(at, now, l.maxItems, AgeLimit(l))
      == (|p.content.leaves| >= l.maxItems || Aged(l, p.content.leaves, now), at >= p.end)
  {
    var ls := p.content.leaves;
    assert LeafTimes(ls) != [];
    var k :| 0 <= k < |LeafTimes(ls)| && LeafTimes(ls)[k] == p.firstChild.value;
    assert ls[k].at == p.firstChild.value;
    assert forall i :: 0 <= i < |ls| ==> LeafTimes(ls)[i] == ls[i].at;
  }

  // ---------------------------------------------------------------- which page takes the leaf

  /** The active page takes the leaf: it is in the page's window, there is room, and the page is not finalized early,
      which happens to a page with an aged leaf when the call is made after the leaf's own time. */
  predicate Joins(l: Level, active: Option<Page>, at: Time, now: Time) {
    && active.Some? && active.value.start <= at < active.value.end && |LeavesOn(active.value)| < l.maxItems
    && !(now > at && Aged(l, LeavesOn(active.value), now))
  }

  /** A new page, behind the active page, which is stored, or else behind the page stored last. */
  ghost predicate NewBehind(l: Level, t: Tier, stored: seq<Page>, p: Page, at: Time)
    requires ValidLevel(l)
  {
    && stored == t.stored + (if t.active.Some? then [t.active.value.Rehash()] else [])
    && p.content == Leaves([]) && p.level == 0 && p.end == p.start + l.duration * 1_000_000_000
    && p.start == WindowStart(l, at)
    && p.prev == (if t.active.Some? then Some(t.active.value.Rehash().hash)
                  else if t.LastStored().Some? then Some(t.LastStored().value.hash) else None)
  }

  /** The page that takes the leaf. */
  ghost predicate Takes(l: Level, t: Tier, stored: seq<Page>, p: Page, at: Time, now: Time)
    requires ValidLevel(l)
  {
    if Joins(l, t.active, at, now) then p == t.active.value && stored == t.stored else NewBehind(l, t, stored, p, at)
  }

  lemma FreshTakes(cfg: Settings, tw: Tower, at: Time)
    requires ValidSettings(cfg) && |cfg.levels| == |tw.tiers|
    ensures var p := FreshLeafPage(cfg, tw, at);
      && p.content == Leaves([]) && p.level == 0 && p.end == p.start + cfg.levels[0].duration * 1_000_000_000
      && p.start == WindowStart(cfg.levels[0], at)
      && p.prev == (if tw.tiers[0].LastStored().Some? then Some(tw.tiers[0].LastStored().value.hash) else None)
  {
    hide WindowStart;
  }

  lemma ActiveLeaves0(cfg: Settings, tw: Tower)
    requires ValidSettings(cfg) && RunOk(cfg, tw) && tw.tiers[0].active.Some?
    ensures tw.tiers[0].active.value.content.Leaves? && !tw.tiers[0].active.value.IsEmpty()
  {
    hide TierOk, IdsSafe, TierTyped;
  }

  /** Finalizing the active page puts it behind the stored ones, and leaves none active. */
  lemma ActiveStored(cfg: Settings, tw: Tower, at: Time)
    requires ValidSettings(cfg) && RunOk(cfg, tw) && tw.tiers[0].active.Some?
    ensures var a := tw.tiers[0].active.value.Rehash();
      && Typed(cfg, tw) && PageTyped(cfg, 0, a)
      && var r := FinalizeAndRollup(cfg, tw, 0, a, at);
      RunOk(cfg, r) && r.tiers[0].stored == tw.tiers[0].stored + [a] && r.tiers[0].active.None? && r.tiers[0].LastStored() == Some(a)
  {
    hide TierOk, IdsSafe, TierTyped, LeafTierOk, Fits, Grows, FinalizeAndRollup, LeavesPlaced, Follows, RootOf, LeavesIn;
    ActiveLeafPageFits(cfg, tw);
    FinalizeLeafPage(cfg, tw, tw.tiers[0].active.value, at);
    RehashFits(cfg, tw, tw.tiers[0].active.value);
    StoreAppends(cfg, tw, tw.tiers[0].active.value.Rehash());
  }

  /** The active page suits the leaf. */
  predicate Suits(l: Level, active: Option<Page>, at: Time) {
    active.Some? && active.value.start <= at < active.value.end && |LeavesOn(active.value)| < l.maxItems
  }

  lemma OpenTakes(cfg: Settings, tw: Tower, at: Time)
    requires ValidSettings(cfg) && RunOk(cfg, tw)
    ensures Typed(cfg, tw)
    ensures var t, r, l := tw.tiers[0], OpenLeafPage(cfg, tw, at), cfg.levels[0];
      && (Suits(l, t.active, at) ==> r == (t.active.value, tw))
      && (!Suits(l, t.active, at) ==> r.0.IsEmpty() && NewBehind(l, t, r.1.tiers[0].stored, r.0, at))
  {
    hide TierOk, IdsSafe, TierTyped, LeafTierOk, FinalizeAndRollup, FreshLeafPage, RootOf, WindowStart;
    if tw.tiers[0].active.Some? {
      ActiveLeaves0(cfg, tw);
      ActiveStored(cfg, tw, at);
      FreshTakes(cfg, FinalizeHelper(cfg, tw, tw.tiers[0].active.value, at), at);
    } else {
      FreshTakes(cfg, tw, at);
    }
  }

  /** A tier whose active page was stored. */
  lemma BehindStored(l: Level, t: Tier, u: Tier, stored: seq<Page>, p: Page, at: Time)
    requires ValidLevel(l) && t.active.Some? && NewBehind(l, u, stored, p, at)
    requires u.active.None? && u.stored == t.stored + [t.active.value.Rehash()] && u.LastStored() == Some(t.active.value.Rehash())
    ensures NewBehind(l, t, stored, p, at)
  {
    hide RootOf, WindowStart;
  }

  lemma PageTakes(cfg: Settings, tw: Tower, at: Time, now: Time)
    requires ValidSettings(cfg) && RunOk(cfg, tw) && TierObeys(Stamped, 0, tw.tiers[0])
    ensures Typed(cfg, tw)
    ensures var r := LeafPage(cfg, tw, at, now); Takes(cfg.levels[0], tw.tiers[0], r.1.tiers[0].stored, r.0, at, now)
  {
    assert |tw.tiers| > 0;
    hide RunOk, FinalizeAndRollup, OpenLeafPage, NewBehind, Stamps;
    var l, t := cfg.levels[0], tw.tiers[0];
    OpenTakes(cfg, tw, at);
    if Suits(l, t.active, at) {
      ActiveLeaves0(cfg, tw);
      DueIff(l, t.active.value, at, now);
      if PreFinalizes(l, t.active.value, at, now) {
        ActiveStored(cfg, tw, at);
        var after := FinalizeAndRollup(cfg, tw, 0, t.active.value.Rehash(), at);
        OpenTakes(cfg, after, at);
        BehindStored(l, t, after.tiers[0], OpenLeafPage(cfg, after, at).1.tiers[0].stored, OpenLeafPage(cfg, after, at).0, at);
      }
    }
  }

  // ---------------------------------------------------------------- the outcome

  /** Page q is page p with the leaf on it. */
  ghost predicate WithLeaf(p: Page, leaf: Leaf, q: Page) {
    && q.content == Leaves(LeavesOn(p) + [leaf])
    && q.id == p.id && q.level == p.level && q.start == p.start && q.end == p.end && q.prev == p.prev
  }

  /** The page that took the leaf is stored if it is due by count, by its window or by age, and active otherwise. */
  ghost predicate Settles(l: Level, stored: seq<Page>, p: Page, leaf: Leaf, now: Time, u: Tier) {
    var on := LeavesOn(p) + [leaf];
    if |on| >= l.maxItems || leaf.at >= p.end || Aged(l, on, now)
    then u.active.None? && |u.stored| == |stored| + 1 && u.stored[..|stored|] == stored && WithLeaf(p, leaf, Last(u.stored))
    else u.active.Some? && u.stored == stored && WithLeaf(p, leaf, u.active.value)
  }

  /** Level 0 before and after a leaf is added. */
  ghost predicate LeafAdded(l: Level, t: Tier, leaf: Leaf, now: Time, u: Tier)
    requires ValidLevel(l)
  {
    exists stored, p :: Takes(l, t, stored, p, leaf.at, now) && Settles(l, stored, p, leaf, now, u)
  }

  lemma FilledStamps(cfg: Settings, tw: Tower, leaf: Leaf, now: Time)
    requires ValidSettings(cfg) && RunOk(cfg, tw) && Obeys(Stamped, tw)
    ensures Typed(cfg, tw)
    ensures var p := LeafPage(cfg, tw, leaf.at, now).0; p.content.Leaves? && p.level == 0 && Stamps(p.AddLeaf(leaf))
  {
    hide RunOk, LeafPage, Stamps, Obeys;
    LeafPageObeys(Stamped, cfg, tw, leaf.at, now);
    FilledMarked(Stamped, LeafPage(cfg, tw, leaf.at, now).0, leaf);
  }

  lemma SettledAs(l: Level, stored: seq<Page>, p: Page, leaf: Leaf, now: Time, u: Tier)
    requires p.content.Leaves? && p.level == 0 && Stamps(p.AddLeaf(leaf))
    requires if DueLeafPage(l, p.AddLeaf(leaf), leaf.at, now) then u.active.None? && u.stored == stored + [p.AddLeaf(leaf).Rehash()]
             else u.stored == stored && u.active == Some(p.AddLeaf(leaf))
    ensures Settles(l, stored, p, leaf, now, u)
  {
    hide Stamps, RootOf, Aged;
    DueIff(l, p.AddLeaf(leaf), leaf.at, now);
  }

  lemma LeafSettles(cfg: Settings, tw: Tower, ready: Tower, p: Page, leaf: Leaf, now: Time)
    requires ValidSettings(cfg) && OpenedFor(cfg, tw, ready, p, leaf.at)
    requires p.content.Leaves? && p.level == 0 && Stamps(p.AddLeaf(leaf))
    ensures Typed(cfg, ready) && ready.tiers != [] && PageTyped(cfg, 0, p.AddLeaf(leaf).Rehash())
    ensures var filled := p.AddLeaf(leaf);
      var r := if DueLeafPage(cfg.levels[0], filled, leaf.at, now) then FinalizeAndRollup(cfg, ready, 0, filled.Rehash(), leaf.at)
               else ready.Activate(0, filled);
      r.tiers != [] && Settles(cfg.levels[0], ready.tiers[0].stored, p, leaf, now, r.tiers[0])
  {
    FilledFits(cfg, ready, p, leaf);
    assert |ready.tiers| > 0;
    hide RunOk, Stamps, FinalizeAndRollup, Fits, LeavesPlaced, Follows, Grows, LeafChained, LeavesIn, RootOf, Settles, DueLeafPage;
    var filled := p.AddLeaf(leaf);
    if DueLeafPage(cfg.levels[0], filled, leaf.at, now) {
      RehashFits(cfg, ready, filled);
      StoreAppends(cfg, ready, filled.Rehash());
      SettledAs(cfg.levels[0], ready.tiers[0].stored, p, leaf, now, FinalizeAndRollup(cfg, ready, 0, filled.Rehash(), leaf.at).tiers[0]);
    } else {
      SettledAs(cfg.levels[0], ready.tiers[0].stored, p, leaf, now, ready.Activate(0, filled).tiers[0]);
    }
  }

  /** One `add_leaf`: the leaf joins the active page or opens a new one, and the page is stored exactly when it is due. */
  lemma AddLeafOutcome(cfg: Settings, tw: Tower, leaf: Leaf, now: Time)
    requires ValidSettings(cfg) && RunOk(cfg, tw) && Obeys(Stamped, tw)
    ensures Typed(cfg, tw) && tw.tiers != []
    ensures LeafAdded(cfg.levels[0], tw.tiers[0], leaf, now, AddLeaf(cfg, tw, leaf, now).tiers[0])
  {
    assert |tw.tiers| > 0;
    assert TierObeys(Stamped, 0, tw.tiers[0]);
    hide RunOk, LeafPage, Stamps, Obeys, TierObeys, Takes, FinalizeAndRollup, OpenedFor, RootOf, Settles, DueLeafPage;
    LeafPageOpens(cfg, tw, leaf.at, now);
    PageTakes(cfg, tw, leaf.at, now);
    FilledStamps(cfg, tw, leaf, now);
    var (p, ready) := LeafPage(cfg, tw, leaf.at, now);
    LeafSettles(cfg, tw, ready, p, leaf, now);
    assert Settles(cfg.levels[0], ready.tiers[0].stored, p, leaf, now, AddLeaf(cfg, tw, leaf, now).tiers[0]);
  }

  /** So it is at every step of every run, whatever the timestamps and operation times. */
  lemma RunAddsLeaf(cfg: Settings, steps: seq<Step>, step: Step)
    requires ValidSettings(cfg)
    ensures LeafAdded(cfg.levels[0], Run(cfg, steps).tiers[0], step.leaf, step.now, Run(cfg, steps + [step]).tiers[0])
  {
    hide RunOk, LeafChained, AddLeaf, LeafAdded, Obeys, AllLeaves;
    RunConserves(cfg, steps);
    RunObeys(Stamped, cfg, steps);
    AddLeafOutcome(cfg, Run(cfg, steps), step.leaf, step.now);
    assert DropLast(steps + [step]) == steps;
  }

  // ---------------------------------------------------------------- child times

  /** In every run a page of leaves carries the times of its earliest and latest leaf and of the leaf added last; a page
      with child hashes the end of its first child and the latest end among its children. */
  lemma RunStamps(cfg: Settings, steps: seq<Step>, k: nat)
    requires ValidSettings(cfg) && k < |cfg.levels|
    ensures var t := Run(cfg, steps).tiers[k];
      && (forall i :: 0 <= i < |t.stored| ==> Stamps(t.stored[i]))
      && (t.active.Some? ==> Stamps(t.active.value))
  {
    hide Run, Stamps;
    RunObeys(Stamped, cfg, steps);
    assert TierObeys(Stamped, k, Run(cfg, steps).tiers[k]);
    forall i | 0 <= i < |Run(cfg, steps).tiers[k].stored| ensures Stamps(Run(cfg, steps).tiers[k].stored[i]) {
      assert Marked(Stamped, k, Run(cfg, steps).tiers[k].stored[i]);
    }
  }

  /** An empty page that is finalized is dropped, and its id is free again if it was issued last. */
  lemma EmptyPageDropped(cfg: Settings, tw: Tower, p: Page, at: Time)
    requires ValidSettings(cfg) && Typed(cfg, tw) && PageTyped(cfg, 0, p) && p.content == Leaves([])
    ensures tw.tiers != []
    ensures FinalizeHelper(cfg, tw, p, at) == Tower(tw.tiers[0 := tw.tiers[0].(active := None)], if p.id + 1 == tw.next then p.id else tw.next)
  {
  }

  // ---------------------------------------------------------------- the returned page id

  /** A page is finalized early exactly when it suits the leaf, the call is made after the leaf's time, and some leaf on it
      has reached the age limit; and exactly then `add_leaf` returns the id of another page than the leaf's. */
  lemma WrongIdIff(cfg: Settings, steps: seq<Step>, leaf: Leaf, now: Time)
    requires ValidSettings(cfg)
    ensures var tw := Run(cfg, steps);
      var active, pages := tw.tiers[0].active, TierPages(AddLeaf(cfg, tw, leaf, now).tiers[0]);
      && pages != []
      && (OpenLeafPage(cfg, tw, leaf.at).0.id != Last(pages).id
          <==> Suits(cfg.levels[0], active, leaf.at) && now > leaf.at && Aged(cfg.levels[0], LeavesOn(active.value), now))
  {
    hide Run, RunOk, LeafChained, AddLeaf, OpenLeafPage, TierPages, Obeys, AllLeaves, NewBehind, Stamps, FreshLeafPage;
    var tw := Run(cfg, steps);
    RunConserves(cfg, steps);
    RunStamps(cfg, steps, 0);
    ReturnedIdIsRightIff(cfg, tw, leaf, now);
    OpenTakes(cfg, tw, leaf.at);
    if Suits(cfg.levels[0], tw.tiers[0].active, leaf.at) {
      ActiveLeaves0(cfg, tw);
      DueIff(cfg.levels[0], tw.tiers[0].active.value, leaf.at, now);
    }
  }
}
