/** What rolling up one child does to the level above it, step by step, over page contents, windows and times alone. */
module ParentSteps {
  import opened Prelude
  import opened Hashing
  import opened Config
  import opened Patches
  import opened Pages
  import opened Towers
  import opened Safety
  import opened Integrity
  import opened Audits

  /** Child hashes count where they are kept, patched objects elsewhere. */
  function ItemsOn(p: Page): nat {
    match p.content
    case Leaves(ls) => |ls|
    case ThrallHashes(hs) => |hs|
    case ThrallHashesWithNetPatches(hs, _) => |hs|
    case NetPatches(ps) => |ps.Keys|
  }

  predicate HoldsNothing(p: Page) {
    match p.content
    case Leaves(ls) => ls == []
    case ThrallHashes(hs) => hs == []
    case ThrallHashesWithNetPatches(hs, ps) => hs == [] && ps == map[]
    case NetPatches(ps) => ps == map[]
  }

  /** The page goes behind the stored ones, or in place of the last one if it is that page again. */
  ghost predicate StoredInto(t: Tier, p: Page, u: Tier) {
    && u.stored == (if t.stored != [] && Last(t.stored).id == p.id then DropLast(t.stored) else t.stored) + [p]
    && u.active.None? && u.last == Some(Finalized(p.id, p.hash))
  }

  // ---------------------------------------------------------------- the four stages

  /** An active page whose end the trigger has reached is stored, with its hashes recomputed, or dropped if it is empty. */
  ghost predicate Retires(t: Tier, trigger: Time, u: Tier) {
    if t.active.Some? && trigger >= t.active.value.end then
      if HoldsNothing(t.active.value) then u == t.(active := None)
      else exists a :: SelfHashed(a) && a == t.active.value.(root := a.root, hash := a.hash) && StoredInto(t, a, u)
    else u == t
  }

  /** The active page if the trigger is in its window and there is room; else the page finalized last, if it is still stored,
      covers the same window and has room; else a new page that names the page finalized last, stored or not. */
  ghost predicate Opens(l: Level, t: Tier, trigger: Time, next: nat, p: Page)
    requires ValidLevel(l)
  {
    var start := WindowStart(l, trigger);
    if t.active.Some? && t.active.value.start <= trigger < t.active.value.end && ItemsOn(t.active.value) < l.maxItems then
      p == t.active.value
    else if t.stored != [] && t.last.Some? && Last(t.stored).id == t.last.value.id && Last(t.stored).start == start
            && Last(t.stored).end == start + l.duration * 1_000_000_000 && ItemsOn(Last(t.stored)) < l.maxItems then
      p == Last(t.stored)
    else
      && p.id == next && HoldsNothing(p) && p.start == start && p.end == start + l.duration * 1_000_000_000
      && p.prev == (if t.last.Some? then Some(t.last.value.hash) else None) && p.firstChild.None? && p.lastChild.None?
  }

  /** The child's hash is appended where hashes are kept, its net patch laid over the page's where patches are kept, and the
      child's end noted unless it brought nothing. */
  ghost predicate Absorbs(l: Level, p: Page, child: Page, q: Page) {
    var ps := NetPatch(child.content);
    && q.id == p.id && q.level == p.level && q.start == p.start && q.end == p.end && q.prev == p.prev && SelfHashed(q)
    && ThrallList(q.content) == ThrallList(p.content) + (if l.kind == NetPatchesOnly then [] else [child.hash])
    && (forall o :: o in NetPatch(q.content) <==> l.kind != ChildHashes && (o in NetPatch(p.content) || o in ps))
    && (forall o :: o in NetPatch(q.content) ==>
          FieldsOf(NetPatch(q.content), o) == FieldsOf(NetPatch(p.content), o) + FieldsOf(ps, o))
    && (if l.kind == NetPatchesOnly && ps == map[] then q.firstChild == p.firstChild && q.lastChild == p.lastChild
        else
          && q.firstChild == (if p.firstChild.Some? then p.firstChild else Some(child.end))
          && q.lastChild == (if p.lastChild.Some? && p.lastChild.value >= child.end then p.lastChild else Some(child.end)))
  }

  /** The age limit is reached; a limit of zero already is a little before the window starts. */
  predicate AgeReached(l: Level, p: Page, trigger: Time) {
    trigger - p.start >= l.maxAge * 1_000_000_000 || (l.maxAge == 0 && trigger - p.start > -1_000_000_000)
  }

  /** A page with something on it is stored if it is full or over age; one without is dropped if it is over age; otherwise
      the page stays active. */
  ghost predicate Settles(l: Level, t: Tier, q: Page, trigger: Time, u: Tier) {
    if HoldsNothing(q) then
      u == t.(active := if AgeReached(l, q, trigger) then None else Some(q))
    else if ItemsOn(q) >= l.maxItems || AgeReached(l, q, trigger) then StoredInto(t, q, u)
    else u == t.(active := Some(q))
  }

  /** The level above, before and after a child was rolled up into it. */
  ghost predicate RolledUp(l: Level, t: Tier, child: Page, trigger: Time, next: nat, u: Tier)
    requires ValidLevel(l)
  {
    exists mid, p, q :: Retires(t, trigger, mid) && Opens(l, mid, trigger, next, p) && Absorbs(l, p, child, q) && Settles(l, mid, q, trigger, u)
  }

  // ---------------------------------------------------------------- the program does that

  lemma RehashedIsSelfHashed(p: Page)
    ensures SelfHashed(p.Rehash()) && p.Rehash() == p.(root := p.Rehash().root, hash := p.Rehash().hash)
  {
    hide SelfHashed, RootOf;
    SelfHashedIff(p.Rehash());
  }

  lemma RetireRetires(cfg: Settings, tw: Tower, p: nat, trigger: Time)
    requires ValidSettings(cfg) && Typed(cfg, tw) && p < |cfg.levels|
    ensures Retires(tw.tiers[p], trigger, RetireStale(cfg, tw, p, trigger).tiers[p])
  {
    hide SelfHashed, RootOf, FinalizeAndRollup;
    assert TierTyped(cfg, p, tw.tiers[p]);
    if tw.tiers[p].active.Some? {
      RehashedIsSelfHashed(tw.tiers[p].active.value);
    }
  }

  lemma OpenOpens(cfg: Settings, tw: Tower, p: nat, trigger: Time)
    requires ValidSettings(cfg) && Sound(cfg, tw) && 0 < p < |cfg.levels|
    ensures Opens(cfg.levels[p], tw.tiers[p], trigger, tw.next, OpenParent(cfg, tw, p, trigger).0)
  {
    hide WindowStart, StoredOk, Extends, RootOf, IdsSafe;
    assert TierOk(cfg, p, tw.tiers[p]);
  }

  lemma AbsorbAbsorbs(cfg: Settings, k: nat, p: Page, child: Page)
    requires 0 < k < |cfg.levels| && PageTyped(cfg, k, p)
    ensures Absorbs(cfg.levels[k], p, child, Absorb(cfg.levels[k].kind, p, child).Rehash())
  {
    hide SelfHashed, RootOf, Merge;
    var kind := cfg.levels[k].kind;
    RehashedIsSelfHashed(Absorb(kind, p, child));
    AbsorbContent(kind, p, child);
    forall o ensures FieldsOf(Merge(NetPatch(p.content), NetPatch(child.content)), o) == FieldsOf(NetPatch(p.content), o) + FieldsOf(NetPatch(child.content), o)
      && (o in Merge(NetPatch(p.content), NetPatch(child.content)) <==> o in NetPatch(p.content) || o in NetPatch(child.content))
    {
      MergeFields(NetPatch(p.content), NetPatch(child.content), o);
    }
  }

  lemma OverAgeIff(l: Level, p: Page, trigger: Time)
    ensures OverAge(l, p, trigger) <==> AgeReached(l, p, trigger)
  {
    var d := trigger - p.start;
    if d >= 0 {
      FloorBounds(d, NANOS_PER_SECOND);
    } else {
      FloorBounds(-d, NANOS_PER_SECOND);
    }
  }

  lemma SettleSettles(cfg: Settings, tw: Tower, p: nat, q: Page, trigger: Time)
    requires ValidSettings(cfg) && Typed(cfg, tw) && p < |cfg.levels| && PageTyped(cfg, p, q)
    ensures Settles(cfg.levels[p], tw.tiers[p], q, trigger, Settle(cfg, tw, p, q, trigger).tiers[p])
  {
    hide FinalizeAndRollup, OverAge, AgeReached;
    OverAgeIff(cfg.levels[p], q, trigger);
  }

  /** Any rollup, whatever its trigger, does to the level above exactly this. */
  lemma RollupOutcome(cfg: Settings, tw: Tower, level: nat, child: Page, trigger: Time)
    requires ValidSettings(cfg) && Sound(cfg, tw) && level + 1 < |cfg.levels|
    ensures RolledUp(cfg.levels[level + 1], tw.tiers[level + 1], child, trigger, RetireStale(cfg, tw, level + 1, trigger).next,
                     Rollup(cfg, tw, level, child, trigger).tiers[level + 1])
  {
    hide TierOk, IdsSafe, TierTyped, RetireStale, OpenParent, Settle, Absorb, RootOf, Retires, Opens, Absorbs, Settles, TierGrows;
    var p := level + 1;
    RetireRetires(cfg, tw, p, trigger);
    RetireStaleSound(cfg, tw, p, trigger);
    var retired := RetireStale(cfg, tw, p, trigger);
    OpenOpens(cfg, retired, p, trigger);
    OpenParentFits(cfg, retired, p, trigger);
    var page := OpenParent(cfg, retired, p, trigger).0;
    AbsorbAbsorbs(cfg, p, page, child);
    SettleSettles(cfg, retired.(next := OpenParent(cfg, retired, p, trigger).1), p, Absorbed(cfg, retired, p, child, trigger), trigger);
  }

  /** A parent page that is dropped gives its id back if it was the last one issued; so a page opened for nothing leaves the
      counter where it was. */
  lemma DroppedGivesIdBack(cfg: Settings, tw: Tower, p: nat, child: Page, trigger: Time)
    requires ValidSettings(cfg) && Sound(cfg, tw) && 0 < p < |cfg.levels|
    requires HoldsNothing(Absorbed(cfg, tw, p, child, trigger)) && AgeReached(cfg.levels[p], Absorbed(cfg, tw, p, child, trigger), trigger)
    ensures var r, page := AbsorbAndSettle(cfg, tw, p, child, trigger), Absorbed(cfg, tw, p, child, trigger);
      && r.tiers == tw.tiers[p := tw.tiers[p].(active := None)]
      && r.next == (if page.id + 1 >= tw.next then page.id else tw.next)
  {
    hide RootOf, TierOk, IdsSafe, TierTyped, Absorb, OverAge, AgeReached;
    OverAgeIff(cfg.levels[p], Absorbed(cfg, tw, p, child, trigger), trigger);
    OpenedId(cfg, tw, p, trigger);
    OpenParentFits(cfg, tw, p, trigger);
    AbsorbAbsorbs(cfg, p, OpenParent(cfg, tw, p, trigger).0, child);
  }

  lemma OpenedId(cfg: Settings, tw: Tower, p: nat, trigger: Time)
    requires ValidSettings(cfg) && Sound(cfg, tw) && 0 < p < |cfg.levels|
    ensures var r := OpenParent(cfg, tw, p, trigger);
      (r.0.id < tw.next && r.1 == tw.next) || (r.0.id == tw.next && r.1 == tw.next + 1)
  {
    hide WindowStart, StoredOk, Extends, RootOf;
    var t := tw.tiers[p];
    assert TierOk(cfg, p, t);
    if t.active.Some? {
      assert t.active.value.id in t.Ids();
    }
    if t.stored != [] {
      assert t.stored[|t.stored| - 1].id in t.Ids();
    }
  }
}
