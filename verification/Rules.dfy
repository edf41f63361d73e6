/**
 Rules about single tiers that every rollup keeps, whatever the timestamps.  One induction
 over the cascade serves all of them; each rule only says what it asks of a page.
 */
module Rules {
  import opened Prelude
  import opened Hashing
  import opened Config
  import opened Patches
  import opened Pages
  import opened Towers
  import opened Safety
  import opened Conservation

  datatype Rule =
    | Chain                                              // each page names the hash of the page stored before it
    | Dry(from: nat)                                     // above a level of hashes alone no page holds patches
    | Silent(owner: string, field: Option<string>)       // no page mentions the field, or the owner at all
    | Hushed(owner: string, field: Option<string>, since: Time)  // no parent page that ended by then mentions it
    | Named(owner: string, top: nat)                     // up to a level every page with content mentions the owner
    | Dated                                              // no window starts before the epoch
    | Stamped                                            // child times are those of the leaves or child pages

  /** The patch has the field of the owner, or anything of the owner when no field is named. */
  predicate Names(patch: PatchMap, owner: string, field: Option<string>) {
    if field.Some? then field.value in FieldsOf(patch, owner) else owner in patch
  }

  ghost predicate Mentions(p: Page, owner: string, field: Option<string>) {
    Names(NetPatch(p.content), owner, field)
  }

  /** The time is one of these and none of them is earlier. */
  ghost predicate Earliest(t: Option<Time>, times: seq<Time>) {
    if times == [] then t.None? else t.Some? && t.value in times && forall i :: 0 <= i < |times| ==> t.value <= times[i]
  }

  ghost predicate Latest(t: Option<Time>, times: seq<Time>) {
    if times == [] then t.None? else t.Some? && t.value in times && forall i :: 0 <= i < |times| ==> times[i] <= t.value
  }

  ghost function LeafTimes(ls: seq<Leaf>): seq<Time> {
    seq(|ls|, i requires 0 <= i < |ls| => ls[i].at)
  }

  ghost predicate PageHashes(hs: seq<Hash>) {
    forall i :: 0 <= i < |hs| ==> hs[i].PageDigest?
  }

  /** The ends of the pages that were hashed. */
  ghost function EndTimes(hs: seq<Hash>): seq<Time>
    requires PageHashes(hs)
  {
    seq(|hs|, i requires 0 <= i < |hs| => hs[i].end)
  }

  /** The earliest and the latest leaf of a page of leaves, and the last one added; the end of the first child page and
      the latest end among all of them where child hashes are kept. */
  ghost predicate Stamps(p: Page) {
    && p.hash.PageDigest? && p.hash.end == p.end
    && match p.content
       case Leaves(ls) =>
         && Earliest(p.firstChild, LeafTimes(ls)) && Latest(p.lastChild, LeafTimes(ls))
         && p.lastLeafAt == if ls == [] then None else Some(Last(ls).at)
       case NetPatches(ps) =>
         && (p.firstChild.None? <==> ps == map[]) && (p.lastChild.None? <==> ps == map[])
         && (ps != map[] ==> p.firstChild.value <= p.lastChild.value)
       case _ => StampsChildren(p)
  }

  ghost predicate StampsChildren(p: Page)
    requires p.content.HasHashes()
  {
    var hs := p.content.hashes;
    && PageHashes(hs)
    && p.firstChild == (if hs == [] then None else Some(hs[0].end)) && Latest(p.lastChild, EndTimes(hs))
  }

  /** Page p is, or may be put, behind the pages of tier t, or in place of the last of them. */
  ghost predicate Placed(t: Tier, p: Page) {
    t.stored != [] ==> p.prev == if p.id == Last(t.stored).id then Last(t.stored).prev else Some(Last(t.stored).hash)
  }

  ghost predicate Marked(rule: Rule, k: nat, p: Page) {
    match rule
    case Chain => true
    case Dry(from) => k > from ==> NetPatch(p.content) == map[]
    case Silent(owner, field) => !Mentions(p, owner, field)
    case Hushed(owner, field, since) => k > 0 && p.end <= since ==> !Mentions(p, owner, field)
    case Named(owner, top) => k <= top && !p.IsEmpty() ==> owner in NetPatch(p.content)
    case Dated => p.start >= 0
    case Stamped => Stamps(p)
  }

  ghost predicate PageObeys(rule: Rule, k: nat, t: Tier, p: Page) {
    Marked(rule, k, p) && (rule.Chain? ==> Placed(t, p))
  }

  ghost predicate TierObeys(rule: Rule, k: nat, t: Tier) {
    && (t.active.Some? ==> PageObeys(rule, k, t, t.active.value))
    && (forall i :: 0 <= i < |t.stored| ==> Marked(rule, k, t.stored[i]))
    && (rule.Chain? ==> Chained(t.stored) && Anchored(t))
  }

  ghost predicate Obeys(rule: Rule, tw: Tower) {
    forall k :: 0 <= k < |tw.tiers| ==> TierObeys(rule, k, tw.tiers[k])
  }

  /** Which settings and trigger times a rule is about. */
  predicate Governs(rule: Rule, cfg: Settings, trigger: Time) {
    match rule
    case Chain => true
    case Dry(from) => 0 < from < |cfg.levels| && cfg.levels[from].kind == ChildHashes
    case Silent(_, _) => true
    case Hushed(_, _, since) => since <= trigger && InRange(trigger)
    case Named(_, top) => top < |cfg.levels| && forall j :: 0 < j <= top ==> cfg.levels[j].CarriesPatches()
    case Dated => InRange(trigger)
    case Stamped => true
  }

  /** What a rule asks of a leaf. */
  ghost predicate LeafObeys(rule: Rule, leaf: Leaf) {
    match rule
    case Silent(owner, field) => !Names(LeafPatch(leaf), owner, field)
    case Named(owner, _) => leaf.container == owner && leaf.payload.Object?
    case _ => true
  }

  // ---------------------------------------------------------------- single updates

  lemma StoreObeys(rule: Rule, k: nat, t: Tier, p: Page)
    requires TierObeys(rule, k, t) && PageObeys(rule, k, t, p)
    ensures TierObeys(rule, k, t.Store(p))
  {
    hide Marked;
    var u := t.Store(p);
    var n := |u.stored| - 1;
    forall i | 0 <= i < n ensures u.stored[i] == t.stored[i] {
    }
    if rule.Chain? {
      forall i | 0 < i <= n ensures u.stored[i].prev == Some(u.stored[i - 1].hash) {
        assert u.stored[i - 1] == t.stored[i - 1];
      }
    }
  }

  lemma TierObeysAt(rule: Rule, tw: Tower, ux: Tower, k: nat)
    requires Obeys(rule, tw) && k < |tw.tiers| == |ux.tiers| && TierObeys(rule, k, ux.tiers[k])
    requires forall j :: 0 <= j < |tw.tiers| && j != k ==> ux.tiers[j] == tw.tiers[j]
    ensures Obeys(rule, ux)
  {
  }

  lemma FinalizeObeys(rule: Rule, tw: Tower, k: nat, p: Page)
    requires Obeys(rule, tw) && k < |tw.tiers| && PageObeys(rule, k, tw.tiers[k], p)
    ensures Obeys(rule, tw.Finalize(k, p))
  {
    hide TierObeys, PageObeys;
    StoreObeys(rule, k, tw.tiers[k], p);
    TierObeysAt(rule, tw, tw.Finalize(k, p), k);
  }

  lemma ActivateObeys(rule: Rule, tw: Tower, k: nat, p: Page)
    requires Obeys(rule, tw) && k < |tw.tiers| && PageObeys(rule, k, tw.tiers[k], p)
    ensures Obeys(rule, tw.Activate(k, p)) && Obeys(rule, tw.Vacate(k))
  {
    hide Marked;
    assert TierObeys(rule, k, tw.tiers[k]);
    TierObeysAt(rule, tw, tw.Activate(k, p), k);
    TierObeysAt(rule, tw, tw.Vacate(k), k);
  }

  lemma VacateObeys(rule: Rule, tw: Tower, k: nat)
    requires Obeys(rule, tw) && k < |tw.tiers|
    ensures Obeys(rule, tw.Vacate(k))
  {
    hide Marked;
    assert TierObeys(rule, k, tw.tiers[k]);
    TierObeysAt(rule, tw, tw.Vacate(k), k);
  }

  lemma SameTiersObey(rule: Rule, tw: Tower, ux: Tower)
    requires Obeys(rule, tw) && ux.tiers == tw.tiers
    ensures Obeys(rule, ux)
  {
  }

  lemma RehashObeys(rule: Rule, k: nat, t: Tier, p: Page)
    requires PageObeys(rule, k, t, p)
    ensures PageObeys(rule, k, t, p.Rehash())
  {
    hide RootOf;
  }

  // ---------------------------------------------------------------- the parent page

  /** A reopened page stands in place of the last stored page; a new page goes behind it. */
  lemma OpenedPlaced(cfg: Settings, tw: Tower, p: nat, trigger: Time)
    requires ValidSettings(cfg) && Sound(cfg, tw) && 0 < p < |cfg.levels| && TierObeys(Chain, p, tw.tiers[p])
    ensures Placed(tw.tiers[p], OpenParent(cfg, tw, p, trigger).0)
  {
    hide WindowStart, Extends, RootOf, StoredOk;
    var t := tw.tiers[p];
    if t.stored != [] {
      assert t.stored[|t.stored| - 1].id in t.Ids();
    }
  }

  lemma NewPageMarked(rule: Rule, cfg: Settings, k: nat, id: nat, prev: Option<Hash>, trigger: Time)
    requires ValidSettings(cfg) && k < |cfg.levels| && Governs(rule, cfg, trigger)
    ensures Marked(rule, k, NewPage(id, k, prev, WindowStart(cfg.levels[k], trigger), cfg))
    ensures rule.Hushed? ==> NewPage(id, k, prev, WindowStart(cfg.levels[k], trigger), cfg).end > trigger
  {
    if InRange(trigger) {
      WindowBounds(cfg.levels[k], trigger);
    }
    hide WindowStart;
  }

  lemma OpenedMarked(rule: Rule, cfg: Settings, tw: Tower, p: nat, trigger: Time)
    requires ValidSettings(cfg) && Sound(cfg, tw) && Obeys(rule, tw) && 0 < p < |cfg.levels| && Governs(rule, cfg, trigger)
    ensures Marked(rule, p, OpenParent(cfg, tw, p, trigger).0)
    ensures rule.Hushed? ==> OpenParent(cfg, tw, p, trigger).0.end > trigger
  {
    if InRange(trigger) {
      WindowBounds(cfg.levels[p], trigger);
    }
    hide WindowStart, TierOk, IdsSafe, Marked, NewPage;
    var t := tw.tiers[p];
    assert TierObeys(rule, p, t);
    if !(t.active.Some? && Reusable(cfg.levels[p], t.active.value, trigger)) && !Reopens(cfg.levels[p], t, trigger) {
      NewPageMarked(rule, cfg, p, tw.next, OpenParent(cfg, tw, p, trigger).0.prev, trigger);
    }
  }

  /** Merging two patches mentions what either mentions. */
  lemma MergeMentions(a: PatchMap, b: PatchMap, owner: string, field: Option<string>)
    ensures Names(Merge(a, b), owner, field) <==> Names(a, owner, field) || Names(b, owner, field)
    ensures a == map[] && b == map[] ==> Merge(a, b) == map[]
  {
    MergeFields(a, b, owner);
    MergeEmpty(a);
  }

  lemma LatestSnoc(t: Option<Time>, times: seq<Time>, x: Time)
    requires Latest(t, times)
    ensures Latest(if t.None? || x > t.value then Some(x) else t, times + [x])
  {
    var more := times + [x];
    assert more[|times|] == x;
    forall i | 0 <= i < |times| ensures more[i] == times[i] {
    }
  }

  lemma EarliestSnoc(t: Option<Time>, times: seq<Time>, x: Time)
    requires Earliest(t, times)
    ensures Earliest(if t.None? || x < t.value then Some(x) else t, times + [x])
  {
    var more := times + [x];
    assert more[|times|] == x;
    forall i | 0 <= i < |times| ensures more[i] == times[i] {
    }
  }

  lemma AddedHashStamps(p: Page, child: Page)
    requires p.level != 0 && p.content.HasHashes() && StampsChildren(p) && child.hash.PageDigest? && child.hash.end == child.end
    ensures StampsChildren(p.AddThrallHash(child.hash, child.end))
  {
    var hs, q := p.content.hashes, p.AddThrallHash(child.hash, child.end);
    LatestSnoc(p.lastChild, EndTimes(hs), child.end);
    assert q.content.hashes == hs + [child.hash];
    assert EndTimes(q.content.hashes) == EndTimes(hs) + [child.end];
  }

  /** Where hashes are kept, patches that come along stamp the page with the same child once more. */
  lemma AddedPatchStamps(p: Page, ps: PatchMap, at: Time)
    requires p.level != 0 && p.content.ThrallHashesWithNetPatches? && StampsChildren(p)
    requires p.content.hashes != [] && Last(p.content.hashes).end == at
    ensures StampsChildren(p.MergeNetPatches(ps, at))
  {
    var hs := p.content.hashes;
    assert EndTimes(hs)[|hs| - 1] == at;
    assert p.MergeNetPatches(ps, at).content.hashes == hs;
  }

  lemma AbsorbStamps(cfg: Settings, k: nat, p: Page, child: Page)
    requires 0 < k < |cfg.levels| && PageFormed(cfg, k, p) && Stamps(p) && Stamps(child)
    ensures Stamps(Absorb(cfg.levels[k].kind, p, child).Rehash())
  {
    hide RootOf, Merge, EndTimes, Latest, PageHashes;
    match cfg.levels[k].kind
    case NetPatchesOnly =>
      if NetPatch(child.content) != map[] {
        MergeNonEmpty(p.content.patches, NetPatch(child.content));
      }
    case ChildHashes =>
      AddedHashStamps(p, child);
    case ChildHashesAndNetPatches =>
      AddedHashStamps(p, child);
      if NetPatch(child.content) != map[] {
        AddedPatchStamps(p.AddThrallHash(child.hash, child.end), NetPatch(child.content), child.end);
      }
  }

  lemma MergeNonEmpty(a: PatchMap, b: PatchMap)
    requires b != map[]
    ensures Merge(a, b) != map[]
  {
    var o :| o in b;
    assert o in Merge(a, b);
  }

  /** Absorbing a child keeps to the rule. */
  lemma AbsorbMarked(rule: Rule, cfg: Settings, k: nat, p: Page, child: Page, trigger: Time)
    requires ValidSettings(cfg) && 0 < k < |cfg.levels| && PageFormed(cfg, k, p) && Governs(rule, cfg, trigger)
    requires PageTyped(cfg, k - 1, child) && !child.IsEmpty() && Marked(rule, k - 1, child)
    requires Marked(rule, k, p) && (rule.Hushed? ==> p.end > trigger)
    ensures Marked(rule, k, Absorb(cfg.levels[k].kind, p, child).Rehash())
  {
    hide RootOf, Merge;
    var kind := cfg.levels[k].kind;
    AbsorbContent(kind, p, child);
    AbsorbExtends(cfg, k, p, child);
    hide Extends, Absorb;
    match rule
    case Silent(owner, field) => MergeMentions(NetPatch(p.content), NetPatch(child.content), owner, field);
    case Named(owner, top) => MergeMentions(NetPatch(p.content), NetPatch(child.content), owner, None);
    case Dry(from) => MergeMentions(NetPatch(p.content), NetPatch(child.content), "", None);
    case Stamped => AbsorbStamps(cfg, k, p, child);
    case _ =>
  }

  lemma AbsorbedObeys(rule: Rule, cfg: Settings, tw: Tower, p: nat, child: Page, trigger: Time)
    requires ValidSettings(cfg) && Sound(cfg, tw) && Obeys(rule, tw) && 0 < p < |cfg.levels| && Governs(rule, cfg, trigger)
    requires PageTyped(cfg, p - 1, child) && !child.IsEmpty() && Marked(rule, p - 1, child)
    ensures PageObeys(rule, p, tw.tiers[p], Absorbed(cfg, tw, p, child, trigger))
  {
    hide TierOk, IdsSafe, TierTyped, Marked, OpenParent, Absorb, RootOf;
    var page := OpenParent(cfg, tw, p, trigger).0;
    OpenParentFits(cfg, tw, p, trigger);
    OpenedMarked(rule, cfg, tw, p, trigger);
    AbsorbMarked(rule, cfg, p, page, child, trigger);
    if rule.Chain? {
      assert TierObeys(Chain, p, tw.tiers[p]);
      OpenedPlaced(cfg, tw, p, trigger);
      AbsorbExtends(cfg, p, page, child);
    }
  }

  // ---------------------------------------------------------------- the cascade

  lemma {:induction false} FinalizeAndRollupObeys(rule: Rule, cfg: Settings, tw: Tower, k: nat, p: Page, trigger: Time)
    requires ValidSettings(cfg) && Sound(cfg, tw) && Obeys(rule, tw) && k < |cfg.levels| && Governs(rule, cfg, trigger)
    requires Fits(cfg, tw, k, p) && StoredOk(cfg, k, p) && PageObeys(rule, k, tw.tiers[k], p)
    ensures PageTyped(cfg, k, p) && Obeys(rule, FinalizeAndRollup(cfg, tw, k, p, trigger))
    decreases |cfg.levels| - k, 1
  {
    assert PageTyped(cfg, k, p) && !p.IsEmpty();
    hide TierOk, IdsSafe, TierTyped, TierGrows, Fits, StoredOk, Obeys, Marked, Placed, Rollup, PageTyped;
    FinalizeSound(cfg, tw, k, p);
    FinalizeObeys(rule, tw, k, p);
    RollupObeys(rule, cfg, tw.Finalize(k, p), k, p, trigger);
  }

  lemma ActiveObeys(rule: Rule, tw: Tower, k: nat)
    requires Obeys(rule, tw) && k < |tw.tiers| && tw.tiers[k].active.Some?
    ensures PageObeys(rule, k, tw.tiers[k], tw.tiers[k].active.value.Rehash())
  {
    hide Marked, RootOf;
    assert TierObeys(rule, k, tw.tiers[k]);
    RehashObeys(rule, k, tw.tiers[k], tw.tiers[k].active.value);
  }

  lemma {:induction false} RetireStaleObeys(rule: Rule, cfg: Settings, tw: Tower, p: nat, trigger: Time)
    requires ValidSettings(cfg) && Sound(cfg, tw) && Obeys(rule, tw) && 0 < p < |cfg.levels| && Governs(rule, cfg, trigger)
    ensures Obeys(rule, RetireStale(cfg, tw, p, trigger))
    decreases |cfg.levels| - p, 2
  {
    hide TierOk, IdsSafe, TierTyped, Obeys, PageObeys, FinalizeAndRollup, Fits, StoredOk;
    if Stale(tw.tiers[p], trigger) {
      VacateObeys(rule, tw, p);
      if !tw.tiers[p].active.value.IsEmpty() {
        ActiveReady(cfg, tw, p);
        ActiveObeys(rule, tw, p);
        FinalizeAndRollupObeys(rule, cfg, tw, p, tw.tiers[p].active.value.Rehash(), trigger);
      }
    }
  }

  lemma {:induction false} SettleObeys(rule: Rule, cfg: Settings, tw: Tower, p: nat, page: Page, trigger: Time)
    requires ValidSettings(cfg) && Sound(cfg, tw) && Obeys(rule, tw) && 0 < p < |cfg.levels| && Governs(rule, cfg, trigger)
    requires Fits(cfg, tw, p, page) && page == page.Rehash() && PageObeys(rule, p, tw.tiers[p], page)
    requires !page.content.NetPatches? ==> page.Length() <= cfg.levels[p].maxItems
    ensures PageTyped(cfg, p, page) && Obeys(rule, Settle(cfg, tw, p, page, trigger))
    decreases |cfg.levels| - p, 2
  {
    assert PageTyped(cfg, p, page);
    assert !page.IsEmpty() ==> StoredOk(cfg, p, page);
    hide TierOk, IdsSafe, TierTyped, Obeys, PageObeys, FinalizeAndRollup, Fits, StoredOk, PageTyped, Due, OverAge;
    ActivateObeys(rule, tw, p, page);
    SameTiersObey(rule, tw.Vacate(p), tw.Vacate(p).Revert(page.id));
    if !page.IsEmpty() && Due(cfg.levels[p], page, trigger) {
      FinalizeAndRollupObeys(rule, cfg, tw, p, page, trigger);
    }
  }

  lemma {:induction false} AbsorbAndSettleObeys(rule: Rule, cfg: Settings, tw: Tower, p: nat, child: Page, trigger: Time)
    requires ValidSettings(cfg) && Sound(cfg, tw) && Obeys(rule, tw) && 0 < p < |cfg.levels| && Governs(rule, cfg, trigger)
    requires PageTyped(cfg, p - 1, child) && !child.IsEmpty() && Marked(rule, p - 1, child)
    ensures Obeys(rule, AbsorbAndSettle(cfg, tw, p, child, trigger))
    decreases |cfg.levels| - p, 3
  {
    hide TierOk, IdsSafe, TierTyped, TierGrows, Obeys, Marked, PageObeys, Fits, OpenParent, Absorbed, Settle;
    var ready := tw.(next := OpenParent(cfg, tw, p, trigger).1);
    AbsorbedFits(cfg, tw, p, child, trigger);
    AbsorbedObeys(rule, cfg, tw, p, child, trigger);
    SameTiersObey(rule, tw, ready);
    SettleObeys(rule, cfg, ready, p, Absorbed(cfg, tw, p, child, trigger), trigger);
  }

  /** Rolling up a child keeps every level to the rule. */
  lemma {:induction false} RollupObeys(rule: Rule, cfg: Settings, tw: Tower, level: nat, child: Page, trigger: Time)
    requires ValidSettings(cfg) && Sound(cfg, tw) && Obeys(rule, tw) && level < |cfg.levels| && Governs(rule, cfg, trigger)
    requires PageTyped(cfg, level, child) && !child.IsEmpty() && Marked(rule, level, child)
    ensures Obeys(rule, Rollup(cfg, tw, level, child, trigger))
    decreases |cfg.levels| - level, 0
  {
    hide TierOk, IdsSafe, TierTyped, TierGrows, Obeys, Marked, RetireStale, AbsorbAndSettle, PageTyped;
    var p := level + 1;
    if p < |cfg.levels| {
      RetireStaleSound(cfg, tw, p, trigger);
      RetireStaleObeys(rule, cfg, tw, p, trigger);
      AbsorbAndSettleObeys(rule, cfg, RetireStale(cfg, tw, p, trigger), p, child, trigger);
    }
  }

  // ---------------------------------------------------------------- adding leaves

  lemma FinalizeLeafPageObeys(rule: Rule, cfg: Settings, tw: Tower, p: Page, trigger: Time)
    requires ValidSettings(cfg) && RunOk(cfg, tw) && Obeys(rule, tw) && Governs(rule, cfg, trigger)
    requires Fits(cfg, tw, 0, p) && !p.IsEmpty() && p.Length() <= cfg.levels[0].maxItems && PageObeys(rule, 0, tw.tiers[0], p)
    ensures PageTyped(cfg, 0, p.Rehash()) && Obeys(rule, FinalizeAndRollup(cfg, tw, 0, p.Rehash(), trigger))
  {
    hide TierOk, IdsSafe, TierTyped, LeafTierOk, RootOf, Extends, Obeys, PageObeys, FinalizeAndRollup;
    RehashFits(cfg, tw, p);
    RehashObeys(rule, 0, tw.tiers[0], p);
    FinalizeAndRollupObeys(rule, cfg, tw, 0, p.Rehash(), trigger);
  }

  lemma FreshLeafPageObeys(rule: Rule, cfg: Settings, tw: Tower, at: Time)
    requires ValidSettings(cfg) && RunOk(cfg, tw) && Obeys(rule, tw) && Governs(rule, cfg, at)
    ensures PageObeys(rule, 0, tw.tiers[0], FreshLeafPage(cfg, tw, at))
  {
    hide LeafTierOk, WindowStart, NewPage, TierTyped, Marked, StoredOk, Extends;
    var t := tw.tiers[0];
    assert TierObeys(rule, 0, t);
    NewPageMarked(rule, cfg, 0, tw.next, FreshLeafPage(cfg, tw, at).prev, at);
    FreshFields(cfg, tw, at);
    if t.stored != [] {
      assert t.stored[|t.stored| - 1].id in t.Ids();
    }
  }

  lemma FreshFields(cfg: Settings, tw: Tower, at: Time)
    requires ValidSettings(cfg) && |cfg.levels| == |tw.tiers|
    ensures var p := FreshLeafPage(cfg, tw, at);
      p.id == tw.next && p.prev == (if tw.tiers[0].LastStored().Some? then Some(tw.tiers[0].LastStored().value.hash) else None)
      && p == NewPage(tw.next, 0, p.prev, WindowStart(cfg.levels[0], at), cfg)
  {
  }

  lemma OpenLeafPageObeys(rule: Rule, cfg: Settings, tw: Tower, at: Time)
    requires ValidSettings(cfg) && RunOk(cfg, tw) && Obeys(rule, tw) && Governs(rule, cfg, at)
    ensures Typed(cfg, tw)
    ensures var r := OpenLeafPage(cfg, tw, at); Obeys(rule, r.1) && PageObeys(rule, 0, r.1.tiers[0], r.0)
  {
    var t := tw.tiers[0];
    if t.active.Some? {
      assert TierObeys(rule, 0, t);
    }
    hide TierOk, IdsSafe, TierTyped, LeafTierOk, Fits, FinalizeAndRollup, Follows, LeavesPlaced, Obeys, TierObeys, PageObeys, Grows, LeavesIn, FreshLeafPage;
    if t.active.Some? {
      ActiveLeafPageFits(cfg, tw);
      if !Reusable(cfg.levels[0], t.active.value, at) {
        FinalizeLeafPage(cfg, tw, t.active.value, at);
        FinalizeLeafPageObeys(rule, cfg, tw, t.active.value, at);
        var ready := FinalizeHelper(cfg, tw, t.active.value, at);
        FreshLeafPageObeys(rule, cfg, ready, at);
        SameTiersObey(rule, ready, ready.(next := ready.next + 1));
      }
    } else {
      FreshLeafPageObeys(rule, cfg, tw, at);
      SameTiersObey(rule, tw, tw.(next := tw.next + 1));
    }
  }

  lemma LeafPageObeys(rule: Rule, cfg: Settings, tw: Tower, at: Time, now: Time)
    requires ValidSettings(cfg) && RunOk(cfg, tw) && Obeys(rule, tw) && Governs(rule, cfg, at)
    ensures Typed(cfg, tw)
    ensures var r := LeafPage(cfg, tw, at, now); Obeys(rule, r.1) && PageObeys(rule, 0, r.1.tiers[0], r.0)
  {
    hide TierOk, IdsSafe, TierTyped, LeafTierOk, Fits, Grows, FinalizeAndRollup, LeavesPlaced, Follows, OpenLeafPage, Obeys, PageObeys, LeavesIn;
    OpenLeafPageOpens(cfg, tw, at);
    OpenLeafPageObeys(rule, cfg, tw, at);
    var (p, ready) := OpenLeafPage(cfg, tw, at);
    if PreFinalizes(cfg.levels[0], p, at, now) {
      FinalizeLeafPage(cfg, ready, p, at);
      FinalizeLeafPageObeys(rule, cfg, ready, p, at);
      OpenLeafPageObeys(rule, cfg, FinalizeAndRollup(cfg, ready, 0, p.Rehash(), at), at);
    }
  }

  lemma FilledMarked(rule: Rule, p: Page, leaf: Leaf)
    requires Marked(rule, 0, p) && p.level == 0 && p.content.Leaves? && LeafObeys(rule, leaf) && (rule.Dry? ==> rule.from > 0)
    ensures Marked(rule, 0, p.AddLeaf(leaf))
  {
    hide Merge;
    var ls := p.content.leaves;
    assert DropLast(ls + [leaf]) == ls;
    assert NetPatch(p.AddLeaf(leaf).content) == Merge(LeavesPatch(ls), LeafPatch(leaf));
    match rule
    case Silent(owner, field) => MergeMentions(LeavesPatch(ls), LeafPatch(leaf), owner, field);
    case Named(owner, top) => MergeMentions(LeavesPatch(ls), LeafPatch(leaf), owner, None);
    case Stamped =>
      EarliestSnoc(p.firstChild, LeafTimes(ls), leaf.at);
      LatestSnoc(p.lastChild, LeafTimes(ls), leaf.at);
      assert LeafTimes(ls + [leaf]) == LeafTimes(ls) + [leaf.at];
    case _ =>
  }

  lemma FilledObeys(rule: Rule, t: Tier, p: Page, leaf: Leaf)
    requires PageObeys(rule, 0, t, p) && p.level == 0 && p.content.Leaves? && LeafObeys(rule, leaf) && (rule.Dry? ==> rule.from > 0)
    ensures PageObeys(rule, 0, t, p.AddLeaf(leaf))
  {
    hide Marked;
    FilledMarked(rule, p, leaf);
  }

  /** One `add_leaf` keeps the tower to the rule. */
  lemma AddLeafObeys(rule: Rule, cfg: Settings, tw: Tower, leaf: Leaf, now: Time)
    requires ValidSettings(cfg) && RunOk(cfg, tw) && Obeys(rule, tw) && Governs(rule, cfg, leaf.at) && LeafObeys(rule, leaf)
    ensures Typed(cfg, tw) && Obeys(rule, AddLeaf(cfg, tw, leaf, now))
  {
    hide TierOk, IdsSafe, TierTyped, LeafTierOk, Fits, Grows, FinalizeAndRollup, LeavesPlaced, Follows, LeafPage, LeavesIn, Obeys, PageObeys, LeafObeys, LeafChained;
    LeafPageOpens(cfg, tw, leaf.at, now);
    LeafPageObeys(rule, cfg, tw, leaf.at, now);
    var (p, ready) := LeafPage(cfg, tw, leaf.at, now);
    FilledFits(cfg, ready, p, leaf);
    FilledObeys(rule, ready.tiers[0], p, leaf);
    var filled := p.AddLeaf(leaf);
    if DueLeafPage(cfg.levels[0], filled, leaf.at, now) {
      FinalizeLeafPageObeys(rule, cfg, ready, filled, leaf.at);
    } else {
      ActivateObeys(rule, ready, 0, filled);
    }
  }

  // ---------------------------------------------------------------- runs

  ghost predicate StepsObey(rule: Rule, cfg: Settings, steps: seq<Step>) {
    forall i :: 0 <= i < |steps| ==> Governs(rule, cfg, steps[i].leaf.at) && LeafObeys(rule, steps[i].leaf)
  }

  /** A rule that holds at one point of a run holds as long as the leaves that follow keep to it. */
  lemma {:induction false} RunObeysFrom(rule: Rule, cfg: Settings, steps: seq<Step>, more: seq<Step>)
    requires ValidSettings(cfg) && Obeys(rule, Run(cfg, steps)) && StepsObey(rule, cfg, more)
    ensures Obeys(rule, Run(cfg, steps + more))
  {
    hide TierOk, IdsSafe, TierTyped, LeafTierOk, AddLeaf, Obeys, Governs, LeafObeys, AllLeaves, LeafChained;
    if more == [] {
      assert steps + more == steps;
    } else {
      var front := DropLast(more);
      assert DropLast(steps + more) == steps + front && Last(steps + more) == Last(more);
      RunObeysFrom(rule, cfg, steps, front);
      RunConserves(cfg, steps + front);
      AddLeafObeys(rule, cfg, Run(cfg, steps + front), Last(more).leaf, Last(more).now);
    }
  }

  lemma RunObeys(rule: Rule, cfg: Settings, steps: seq<Step>)
    requires ValidSettings(cfg) && StepsObey(rule, cfg, steps)
    ensures Obeys(rule, Run(cfg, steps))
  {
    hide StepsObey, AddLeaf;
    assert Obeys(rule, Run(cfg, [])) by {
      assert Run(cfg, []) == EmptyTower(cfg);
    }
    RunObeysFrom(rule, cfg, [], steps);
    assert [] + steps == steps;
  }

  /** What no page mentions, no page that has ended mentions. */
  lemma SilentIsHushed(tw: Tower, owner: string, field: Option<string>, since: Time)
    requires Obeys(Silent(owner, field), tw)
    ensures Obeys(Hushed(owner, field, since), tw)
  {
    hide Mentions;
    forall k | 0 <= k < |tw.tiers| ensures TierObeys(Hushed(owner, field, since), k, tw.tiers[k]) {
      assert TierObeys(Silent(owner, field), k, tw.tiers[k]);
    }
  }
}
