/**
 The rollup state machine on values.  A tower has one tier per level: the stored
 pages in id order, the active page, and the last finalized id and hash.  `AddLeaf`
 and `Rollup` are the specification that the time hierarchy manager is proved against.
 */
module Towers {
  import opened Prelude
  import opened Hashing
  import opened Config
  import opened Pages

  datatype Finalized = Finalized(id: nat, hash: Hash)

  datatype Tier = Tier(stored: seq<Page>, active: Option<Page>, last: Option<Finalized>) {
    /** The stored page that the last finalized id still denotes, if it was not deleted. */
    function LastStored(): Option<Page> {
      if stored != [] && last.Some? && Last(stored).id == last.value.id then Some(Last(stored)) else None
    }

    /** Storing a page replaces the last stored page of the same id and otherwise appends. */
    function Store(p: Page): Tier {
      Tier((if stored != [] && Last(stored).id == p.id then DropLast(stored) else stored) + [p],
           None, Some(Finalized(p.id, p.hash)))
    }

    function Ids(): set<nat> {
      (set i | 0 <= i < |stored| :: stored[i].id)
      + (if active.Some? then {active.value.id} else {})
      + (if last.Some? then {last.value.id} else {})
    }
  }

  datatype Tower = Tower(tiers: seq<Tier>, next: nat) {
    function Finalize(k: nat, p: Page): Tower
      requires k < |tiers|
    {
      this.(tiers := tiers[k := tiers[k].Store(p)])
    }

    function Activate(k: nat, p: Page): Tower
      requires k < |tiers|
    {
      this.(tiers := tiers[k := tiers[k].(active := Some(p))])
    }

    function Vacate(k: nat): Tower
      requires k < |tiers|
    {
      this.(tiers := tiers[k := tiers[k].(active := None)])
    }

    function Revert(id: nat): Tower {
      if id + 1 == next then this.(next := id) else this
    }
  }

  function EmptyTower(cfg: Settings): Tower {
    Tower(seq(|cfg.levels|, _ => Tier([], None, None)), 0)
  }

  // ---------------------------------------------------------------- shapes

  ghost predicate PageTyped(cfg: Settings, k: nat, p: Page) {
    p.level == k && SameShape(p.content, EmptyContent(cfg, k))
  }

  ghost predicate TierTyped(cfg: Settings, k: nat, t: Tier) {
    && (forall i :: 0 <= i < |t.stored| ==> PageTyped(cfg, k, t.stored[i]))
    && (t.active.Some? ==> PageTyped(cfg, k, t.active.value))
  }

  /** Every page sits at its own level and has the content its level is configured for. */
  ghost predicate Typed(cfg: Settings, tw: Tower) {
    && |tw.tiers| == |cfg.levels|
    && forall k :: 0 <= k < |tw.tiers| ==> TierTyped(cfg, k, tw.tiers[k])
  }

  // ---------------------------------------------------------------- rollup

  /** Age in whole seconds, truncated toward zero, against the level's limit; 0 means always. */
  predicate OverAge(l: Level, p: Page, trigger: Time) {
    TruncDiv(trigger - p.start, NANOS_PER_SECOND) >= l.maxAge
  }

  predicate Due(l: Level, p: Page, trigger: Time) {
    p.Length() >= l.maxItems || OverAge(l, p, trigger)
  }

  predicate Reusable(l: Level, p: Page, trigger: Time) {
    p.InWindow(trigger) && p.Length() < l.maxItems
  }

  /** The last stored page may be reopened when it covers the trigger's window and has room. */
  predicate Reopens(l: Level, t: Tier, trigger: Time)
    requires ValidLevel(l)
  {
    && t.LastStored().Some?
    && var p := t.LastStored().value;
    && p.start == WindowStart(l, trigger)
    && p.end == WindowStart(l, trigger) + l.DurationNanos()
    && p.Length() < l.maxItems
  }

  /** `get_or_create_active_parent_page` */
  function OpenParent(cfg: Settings, tw: Tower, p: nat, trigger: Time): (Page, nat)
    requires ValidSettings(cfg) && p < |cfg.levels| == |tw.tiers|
  {
    var l, t := cfg.levels[p], tw.tiers[p];
    if t.active.Some? && Reusable(l, t.active.value, trigger) then (t.active.value, tw.next)
    else if Reopens(l, t, trigger) then (t.LastStored().value, tw.next)
    else
      var prev := if t.LastStored().Some? then Some(t.LastStored().value.hash)
                  else if t.last.Some? then Some(t.last.value.hash) else None;
      (NewPage(tw.next, p, prev, WindowStart(l, trigger), cfg), tw.next + 1)
  }

  predicate Stale(t: Tier, trigger: Time) {
    t.active.Some? && trigger >= t.active.value.end
  }

  /** Storing a finalized page at level k and rolling it up. */
  ghost function FinalizeAndRollup(cfg: Settings, tw: Tower, k: nat, p: Page, trigger: Time): (r: Tower)
    requires ValidSettings(cfg) && Typed(cfg, tw) && k < |cfg.levels| && PageTyped(cfg, k, p)
    ensures Typed(cfg, r)
    ensures forall j :: 0 <= j < k ==> r.tiers[j] == tw.tiers[j]
    ensures r.tiers[k] == tw.tiers[k].Store(p)
    decreases |cfg.levels| - k, 1
  {
    Rollup(cfg, tw.Finalize(k, p), k, p, trigger)
  }

  /** The first step of a rollup into level p: a page whose window the trigger has passed is retired. */
  ghost function RetireStale(cfg: Settings, tw: Tower, p: nat, trigger: Time): (r: Tower)
    requires ValidSettings(cfg) && Typed(cfg, tw) && p < |cfg.levels|
    ensures Typed(cfg, r)
    ensures forall j :: 0 <= j < p ==> r.tiers[j] == tw.tiers[j]
    decreases |cfg.levels| - p, 2
  {
    if !Stale(tw.tiers[p], trigger) then tw
    else if tw.tiers[p].active.value.IsEmpty() then tw.Vacate(p)
    else FinalizeAndRollup(cfg, tw, p, tw.tiers[p].active.value.Rehash(), trigger)
  }

  /** The last step: the parent is discarded, kept active, or finalized and rolled up in turn. */
  ghost function Settle(cfg: Settings, tw: Tower, p: nat, page: Page, trigger: Time): (r: Tower)
    requires ValidSettings(cfg) && Typed(cfg, tw) && p < |cfg.levels| && PageTyped(cfg, p, page)
    ensures Typed(cfg, r)
    ensures forall j :: 0 <= j < p ==> r.tiers[j] == tw.tiers[j]
    decreases |cfg.levels| - p, 2
  {
    if page.IsEmpty() then
      if OverAge(cfg.levels[p], page, trigger) then tw.Vacate(p).Revert(page.id) else tw.Activate(p, page)
    else if Due(cfg.levels[p], page, trigger) then FinalizeAndRollup(cfg, tw, p, page, trigger)
    else tw.Activate(p, page)
  }

  /** The parent page after opening it and absorbing the child. */
  ghost function Absorbed(cfg: Settings, tw: Tower, p: nat, child: Page, trigger: Time): (page: Page)
    requires ValidSettings(cfg) && Typed(cfg, tw) && 0 < p < |cfg.levels|
    ensures PageTyped(cfg, p, page)
  {
    var parent := OpenParent(cfg, tw, p, trigger).0;
    assert PageTyped(cfg, p, parent);
    Absorb(cfg.levels[p].kind, parent, child).Rehash()
  }

  ghost function AbsorbAndSettle(cfg: Settings, tw: Tower, p: nat, child: Page, trigger: Time): (r: Tower)
    requires ValidSettings(cfg) && Typed(cfg, tw) && 0 < p < |cfg.levels|
    ensures Typed(cfg, r)
    ensures forall j :: 0 <= j < p ==> r.tiers[j] == tw.tiers[j]
    decreases |cfg.levels| - p, 3
  {
    var ready := tw.(next := OpenParent(cfg, tw, p, trigger).1);
    Settle(cfg, ready, p, Absorbed(cfg, tw, p, child, trigger), trigger)
  }

  /** `perform_rollup` of a stored child at the given level. */
  ghost function Rollup(cfg: Settings, tw: Tower, level: nat, child: Page, trigger: Time): (r: Tower)
    requires ValidSettings(cfg) && Typed(cfg, tw) && level < |cfg.levels|
    ensures Typed(cfg, r)
    ensures forall j :: 0 <= j <= level ==> r.tiers[j] == tw.tiers[j]
    decreases |cfg.levels| - level, 0
  {
    if level + 1 == |cfg.levels| then tw
    else AbsorbAndSettle(cfg, RetireStale(cfg, tw, level + 1, trigger), level + 1, child, trigger)
  }

  // ---------------------------------------------------------------- adding a leaf

  function AgeLimit(l: Level): Option<Time> {
    if l.maxAge > 0 then Some(l.maxAge * NANOS_PER_SECOND) else None
  }

  function FreshLeafPage(cfg: Settings, tw: Tower, at: Time): (p: Page)
    requires ValidSettings(cfg) && |cfg.levels| == |tw.tiers|
    ensures PageTyped(cfg, 0, p)
  {
    var t := tw.tiers[0];
    NewPage(tw.next, 0, if t.LastStored().Some? then Some(t.LastStored().value.hash) else None,
            WindowStart(cfg.levels[0], at), cfg)
  }

  ghost function FinalizeHelper(cfg: Settings, tw: Tower, p: Page, trigger: Time): (r: Tower)
    requires ValidSettings(cfg) && Typed(cfg, tw) && PageTyped(cfg, 0, p)
    ensures Typed(cfg, r)
  {
    if p.IsEmpty() then tw.Vacate(0).Revert(p.id) else FinalizeAndRollup(cfg, tw, 0, p.Rehash(), trigger)
  }

  /** `get_or_create_active_page_for_leaf`: the page for a leaf, and the tower it leaves behind. */
  ghost function OpenLeafPage(cfg: Settings, tw: Tower, at: Time): (r: (Page, Tower))
    requires ValidSettings(cfg) && Typed(cfg, tw)
    ensures PageTyped(cfg, 0, r.0) && Typed(cfg, r.1)
  {
    var t := tw.tiers[0];
    if t.active.Some? && Reusable(cfg.levels[0], t.active.value, at) then (t.active.value, tw)
    else
      var ready := if t.active.Some? then FinalizeHelper(cfg, tw, t.active.value, at) else tw;
      (FreshLeafPage(cfg, ready, at), ready.(next := ready.next + 1))
  }

  predicate DueLeafPage(l: Level, p: Page, at: Time, now: Time) {
    var due := p.ShouldFinalize(at, now, l.maxItems, AgeLimit(l));
    due.0 || due.1
  }

  predicate PreFinalizes(l: Level, p: Page, at: Time, now: Time) {
    p.ShouldFinalize(at, now, l.maxItems, AgeLimit(l)).0 && now > at && !p.IsEmpty()
  }

  /** The page that receives the leaf, and the tower just before it does. */
  ghost function LeafPage(cfg: Settings, tw: Tower, at: Time, now: Time): (r: (Page, Tower))
    requires ValidSettings(cfg) && Typed(cfg, tw)
    ensures PageTyped(cfg, 0, r.0) && Typed(cfg, r.1)
  {
    var r := OpenLeafPage(cfg, tw, at);
    if PreFinalizes(cfg.levels[0], r.0, at, now)
    then OpenLeafPage(cfg, FinalizeAndRollup(cfg, r.1, 0, r.0.Rehash(), at), at)
    else r
  }

  ghost function AddLeaf(cfg: Settings, tw: Tower, leaf: Leaf, now: Time): (r: Tower)
    requires ValidSettings(cfg) && Typed(cfg, tw)
    ensures Typed(cfg, r)
  {
    var (page, ready) := LeafPage(cfg, tw, leaf.at, now);
    var filled := page.AddLeaf(leaf);
    if DueLeafPage(cfg.levels[0], filled, leaf.at, now)
    then FinalizeAndRollup(cfg, ready, 0, filled.Rehash(), leaf.at)
    else ready.Activate(0, filled)
  }

  // ---------------------------------------------------------------- runs

  /** One call of `add_leaf`: the leaf and the operation time. */
  datatype Step = Step(leaf: Leaf, now: Time)

  ghost function Run(cfg: Settings, steps: seq<Step>): (tw: Tower)
    requires ValidSettings(cfg)
    ensures Typed(cfg, tw)
    decreases |steps|
  {
    if steps == [] then EmptyTower(cfg)
    else AddLeaf(cfg, Run(cfg, DropLast(steps)), Last(steps).leaf, Last(steps).now)
  }
}
