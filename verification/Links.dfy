/**
 What a parent level records about the level below in monotone runs: child hashes
 exactly once and in order when the child level is never reopened, and always the same
 overlay of net patches.
 */
module Links {
  import opened Prelude
  import opened Hashing
  import opened Config
  import opened Pages
  import opened Towers
  import opened Safety
  import opened Conservation
  import opened Timeline
  import opened Patches

  /** The child hashes recorded by pages, in order. */
  function CarriedIn(pages: seq<Page>): seq<Hash> {
    if pages == [] then [] else CarriedIn(DropLast(pages)) + ThrallList(Last(pages).content)
  }

  function Carried(t: Tier): seq<Hash> {
    CarriedIn(t.stored) + if t.active.Some? then ThrallList(t.active.value.content) else []
  }

  /** The net patches of pages laid over one another, later pages on top. */
  function NetIn(pages: seq<Page>): PatchMap {
    if pages == [] then map[] else Merge(NetIn(DropLast(pages)), NetPatch(Last(pages).content))
  }

  function Net(t: Tier): PatchMap {
    if t.active.Some? then Merge(NetIn(t.stored), NetPatch(t.active.value.content)) else NetIn(t.stored)
  }

  function PageHashes(pages: seq<Page>): seq<Hash> {
    seq(|pages|, i requires 0 <= i < |pages| => pages[i].hash)
  }

  /** The parent level records exactly the hashes of this level's stored pages, in id order. */
  ghost predicate Linked(tw: Tower, k: nat)
    requires k + 1 < |tw.tiers|
  {
    Carried(tw.tiers[k + 1]) == PageHashes(tw.tiers[k].stored)
  }

  /** A level whose closed pages can never be extended again. */
  predicate NeverReopens(l: Level) {
    l.maxAge >= l.duration || l.maxItems == 1
  }

  lemma NoReopening(cfg: Settings, tw: Tower, p: nat, now: Time)
    requires ValidSettings(cfg) && Sound(cfg, tw) && Timely(cfg, tw, now) && 0 < p < |cfg.levels|
    requires NeverReopens(cfg.levels[p])
    ensures !Reopens(cfg.levels[p], tw.tiers[p], now)
  {
    var l, t := cfg.levels[p], tw.tiers[p];
    assert TierOk(cfg, p, t) && TierTimely(l, p, t, now);
    hide Chained, Extends, RootOf, StoredTimely, Continues;
    if t.LastStored().Some? {
      var q := t.LastStored().value;
      WindowBounds(l, now);
      hide WindowStart;
      assert q.Length() > 0;
    }
  }

  // ---------------------------------------------------------------- one tier

  /** The page handed out for a tier: its active page, its reopened last page, or an empty one. */
  ghost predicate OpensFrom(t: Tier, page: Page) {
    if t.active.Some? then page == t.active.value && (t.stored != [] ==> page.id != Last(t.stored).id)
    else if t.stored != [] && page.id == Last(t.stored).id then page == Last(t.stored)
    else ThrallList(page.content) == [] && NetPatch(page.content) == map[]
  }

  lemma OpenParentFrom(cfg: Settings, tw: Tower, p: nat, now: Time)
    requires ValidSettings(cfg) && Sound(cfg, tw) && Timely(cfg, tw, now) && 0 < p < |cfg.levels|
    requires !Stale(tw.tiers[p], now)
    ensures OpensFrom(tw.tiers[p], OpenParent(cfg, tw, p, now).0)
    ensures NeverReopens(cfg.levels[p]) && tw.tiers[p].stored != [] ==> OpenParent(cfg, tw, p, now).0.id != Last(tw.tiers[p].stored).id
  {
    OpenParentContinues(cfg, tw, p, now);
    var t := tw.tiers[p];
    assert TierTimely(cfg.levels[p], p, t, now) && TierOk(cfg, p, t);
    if NeverReopens(cfg.levels[p]) {
      NoReopening(cfg, tw, p, now);
    }
    hide Chained, Extends, RootOf, StoredTimely, Continues, Closed, WindowStart, OverAge;
    if t.stored != [] {
      assert Last(t.stored).id in t.Ids();
    }
  }

  lemma CarriedSnoc(pages: seq<Page>, p: Page)
    ensures CarriedIn(pages + [p]) == CarriedIn(pages) + ThrallList(p.content)
    ensures PageHashes(pages + [p]) == PageHashes(pages) + [p.hash]
  {
    assert DropLast(pages + [p]) == pages;
  }

  lemma PutBackCarries(t: Tier, page: Page, full: Page, h: Hash)
    requires OpensFrom(t, page) && full.id == page.id
    requires ThrallList(full.content) == ThrallList(page.content) + [h]
    ensures Carried(t.Store(full)) == Carried(t) + [h]
    ensures (t.stored != [] ==> full.id != Last(t.stored).id) ==> Carried(t.(active := Some(full))) == Carried(t) + [h]
  {
    hide ThrallList;
    if t.stored != [] && page.id == Last(t.stored).id {
      CarriedSnoc(DropLast(t.stored), full);
    } else {
      CarriedSnoc(t.stored, full);
    }
  }

  lemma NetSnoc(pages: seq<Page>, p: Page)
    ensures NetIn(pages + [p]) == Merge(NetIn(pages), NetPatch(p.content))
  {
    assert DropLast(pages + [p]) == pages;
  }

  lemma PutBackNets(t: Tier, page: Page, full: Page, ps: PatchMap)
    requires OpensFrom(t, page) && full.id == page.id
    requires NetPatch(full.content) == Merge(NetPatch(page.content), ps)
    ensures Net(t.Store(full)) == Merge(Net(t), ps)
    ensures (t.stored != [] ==> full.id != Last(t.stored).id) ==> Net(t.(active := Some(full))) == Merge(Net(t), ps)
  {
    hide NetPatch, Merge;
    var base := if t.stored != [] && page.id == Last(t.stored).id then DropLast(t.stored) else t.stored;
    NetSnoc(base, full);
    MergeAssociative(NetIn(base), NetPatch(page.content), ps);
    MergeEmpty(ps);
    MergeEmpty(NetIn(base));
  }

  // ---------------------------------------------------------------- one rollup

  lemma RetireStaleCarries(cfg: Settings, tw: Tower, p: nat, now: Time)
    requires ValidSettings(cfg) && Sound(cfg, tw) && Timely(cfg, tw, now) && 0 < p < |cfg.levels|
    ensures Carried(RetireStale(cfg, tw, p, now).tiers[p]) == Carried(tw.tiers[p])
    ensures Net(RetireStale(cfg, tw, p, now).tiers[p]) == Net(tw.tiers[p])
  {
    var t := tw.tiers[p];
    assert TierTimely(cfg.levels[p], p, t, now);
    hide Chained, RootOf, StoredTimely, Closed, TierOk, IdsSafe, TierTyped, Rollup, Merge;
    if Stale(t, now) {
      CarriedSnoc(t.stored, t.active.value.Rehash());
      NetSnoc(t.stored, t.active.value.Rehash());
      MergeEmpty(NetIn(t.stored));
    }
  }

  /** Rolling up a child adds its hash, once and at the end, to what the parent level carries. */
  lemma RollupCarries(cfg: Settings, tw: Tower, level: nat, child: Page, now: Time)
    requires ValidSettings(cfg) && Sound(cfg, tw) && Timely(cfg, tw, now) && level + 1 < |cfg.levels|
    requires cfg.levels[level + 1].CarriesHashes()
    ensures Carried(Rollup(cfg, tw, level, child, now).tiers[level + 1]) == Carried(tw.tiers[level + 1]) + [child.hash]
  {
    hide TierOk, IdsSafe, TierTyped, TierTimely, RetireStale, AbsorbAndSettle;
    var p := level + 1;
    RetireStaleSound(cfg, tw, p, now);
    RetireStaleTimely(cfg, tw, p, now);
    RetireStaleCarries(cfg, tw, p, now);
    AbsorbCarries(cfg, RetireStale(cfg, tw, p, now), p, child, now);
  }

  lemma AbsorbedList(cfg: Settings, tw: Tower, p: nat, child: Page, now: Time)
    requires ValidSettings(cfg) && Sound(cfg, tw) && 0 < p < |cfg.levels| && cfg.levels[p].CarriesHashes()
    ensures var page, full := OpenParent(cfg, tw, p, now).0, Absorbed(cfg, tw, p, child, now);
      full.id == page.id && !full.IsEmpty() && full.Length() == page.Length() + 1
      && ThrallList(full.content) == ThrallList(page.content) + [child.hash]
  {
    hide TierOk, IdsSafe, TierTyped, RootOf;
    OpenParentFits(cfg, tw, p, now);
    AbsorbContent(cfg.levels[p].kind, OpenParent(cfg, tw, p, now).0, child);
    AbsorbLength(cfg.levels[p].kind, OpenParent(cfg, tw, p, now).0, child);
  }

  lemma AbsorbCarries(cfg: Settings, tw: Tower, p: nat, child: Page, now: Time)
    requires ValidSettings(cfg) && Sound(cfg, tw) && Timely(cfg, tw, now) && 0 < p < |cfg.levels|
    requires !Stale(tw.tiers[p], now) && cfg.levels[p].CarriesHashes()
    ensures Carried(AbsorbAndSettle(cfg, tw, p, child, now).tiers[p]) == Carried(tw.tiers[p]) + [child.hash]
  {
    hide TierOk, IdsSafe, TierTyped, TierTimely, Rollup, OpensFrom, Continues, RootOf, Carried, CarriedIn;
    var page, full := OpenParent(cfg, tw, p, now).0, Absorbed(cfg, tw, p, child, now);
    OpenParentContinues(cfg, tw, p, now);
    OpenParentFrom(cfg, tw, p, now);
    AbsorbedList(cfg, tw, p, child, now);
    AbsorbedExtends(cfg, tw, p, child, now);
    PutBackCarries(tw.tiers[p], page, full, child.hash);
  }

  /** Rolling up a child lays its net patch over what a patch-carrying parent level holds. */
  lemma RollupNets(cfg: Settings, tw: Tower, level: nat, child: Page, now: Time)
    requires ValidSettings(cfg) && Sound(cfg, tw) && Timely(cfg, tw, now) && level + 1 < |cfg.levels|
    requires cfg.levels[level + 1].CarriesPatches()
    ensures Net(Rollup(cfg, tw, level, child, now).tiers[level + 1]) == Merge(Net(tw.tiers[level + 1]), NetPatch(child.content))
  {
    hide TierOk, IdsSafe, TierTyped, TierTimely, RetireStale, AbsorbAndSettle, Net, Merge;
    var p := level + 1;
    RetireStaleSound(cfg, tw, p, now);
    RetireStaleTimely(cfg, tw, p, now);
    RetireStaleCarries(cfg, tw, p, now);
    AbsorbNets(cfg, RetireStale(cfg, tw, p, now), p, child, now);
  }

  lemma AbsorbedPatch(cfg: Settings, tw: Tower, p: nat, child: Page, now: Time)
    requires ValidSettings(cfg) && Sound(cfg, tw) && 0 < p < |cfg.levels| && cfg.levels[p].CarriesPatches()
    ensures var page, full := OpenParent(cfg, tw, p, now).0, Absorbed(cfg, tw, p, child, now);
      && full.id == page.id && NetPatch(full.content) == Merge(NetPatch(page.content), NetPatch(child.content))
      && (full.IsEmpty() ==> page.IsEmpty() && NetPatch(full.content) == map[])
  {
    hide TierOk, IdsSafe, TierTyped, RootOf;
    OpenParentFits(cfg, tw, p, now);
    AbsorbContent(cfg.levels[p].kind, OpenParent(cfg, tw, p, now).0, child);
    AbsorbLength(cfg.levels[p].kind, OpenParent(cfg, tw, p, now).0, child);
  }

  lemma MergeOfNothing(p: PatchMap, q: PatchMap)
    requires Merge(p, q) == map[]
    ensures p == map[] && q == map[]
  {
    MergeKeys(p, q);
    assert p.Keys == {} && q.Keys == {};
  }

  lemma AbsorbNets(cfg: Settings, tw: Tower, p: nat, child: Page, now: Time)
    requires ValidSettings(cfg) && Sound(cfg, tw) && Timely(cfg, tw, now) && 0 < p < |cfg.levels|
    requires !Stale(tw.tiers[p], now) && cfg.levels[p].CarriesPatches()
    ensures Net(AbsorbAndSettle(cfg, tw, p, child, now).tiers[p]) == Merge(Net(tw.tiers[p]), NetPatch(child.content))
  {
    hide TierOk, IdsSafe, TierTyped, TierTimely, Rollup, OpensFrom, Continues, RootOf, Net, NetIn, Merge, NetPatch;
    var t, page, full := tw.tiers[p], OpenParent(cfg, tw, p, now).0, Absorbed(cfg, tw, p, child, now);
    OpenParentContinues(cfg, tw, p, now);
    OpenParentFrom(cfg, tw, p, now);
    AbsorbedPatch(cfg, tw, p, child, now);
    AbsorbedExtends(cfg, tw, p, child, now);
    PutBackNets(t, page, full, NetPatch(child.content));
    if full.IsEmpty() {
      MergeOfNothing(NetPatch(page.content), NetPatch(child.content));
      EmptyActiveAddsNothing(t);
      MergeEmpty(Net(t));
    }
  }

  lemma EmptyActiveAddsNothing(t: Tier)
    ensures t.active.Some? && t.active.value.IsEmpty() ==> Net(t.(active := None)) == Net(t)
    ensures t.active.None? ==> t.(active := None) == t
  {
    MergeEmpty(NetIn(t.stored));
  }
}
