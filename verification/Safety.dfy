/**
 What every run keeps, whatever the timestamps: ids are never shared and lie below the
 counter, stored pages carry the hash of their own content, tiers ascend, and a stored
 page is only ever replaced by an extension of itself.
 */
module Safety {
  import opened Prelude
  import opened Hashing
  import opened Config
  import opened Patches
  import opened Pages
  import opened Towers

  // ---------------------------------------------------------------- invariant

  /** Page q continues page p: same identity, window and predecessor; nothing recorded is lost. */
  ghost predicate Extends(p: Page, q: Page) {
    && p.id == q.id && p.level == q.level && p.start == q.start && p.end == q.end && p.prev == q.prev
    && ThrallList(p.content) <= ThrallList(q.content)
    && KeysWithin(NetPatch(p.content), NetPatch(q.content))
  }

  ghost predicate PageFormed(cfg: Settings, k: nat, p: Page)
    requires k < |cfg.levels|
  {
    PageTyped(cfg, k, p) && p.end == p.start + cfg.levels[k].DurationNanos() && (p.IsEmpty() <==> p.Length() == 0)
  }

  /** A page as it may appear in the store. */
  ghost predicate StoredOk(cfg: Settings, k: nat, p: Page)
    requires k < |cfg.levels|
  {
    && PageFormed(cfg, k, p) && p == p.Rehash() && !p.IsEmpty()
    && (!p.content.NetPatches? ==> p.Length() <= cfg.levels[k].maxItems)
  }

  ghost predicate ActiveOk(cfg: Settings, k: nat, t: Tier, p: Page)
    requires k < |cfg.levels|
  {
    && PageFormed(cfg, k, p)
    && p.Length() < cfg.levels[k].maxItems
    && (t.last.Some? ==> p.id >= t.last.value.id)
    && (t.last.Some? && p.id == t.last.value.id ==> k > 0 && !p.IsEmpty())
    && (t.LastStored().Some? && t.LastStored().value.id == p.id ==> Extends(t.LastStored().value, p))
  }

  ghost predicate TierOk(cfg: Settings, k: nat, t: Tier)
    requires k < |cfg.levels|
  {
    && (forall i :: 0 <= i < |t.stored| ==> StoredOk(cfg, k, t.stored[i]))
    && Ascending(t.stored)
    && (t.stored != [] ==> t.last.Some? && Last(t.stored).id <= t.last.value.id)
    && (t.LastStored().Some? ==> t.LastStored().value.hash == t.last.value.hash)
    && (t.active.Some? ==> ActiveOk(cfg, k, t, t.active.value))
  }

  ghost predicate IdsSafe(tw: Tower) {
    && (forall k, i :: 0 <= k < |tw.tiers| && i in tw.tiers[k].Ids() ==> i < tw.next)
    && (forall j, k :: 0 <= j < k < |tw.tiers| ==> tw.tiers[j].Ids() !! tw.tiers[k].Ids())
  }

  ghost predicate Sound(cfg: Settings, tw: Tower) {
    && Typed(cfg, tw)
    && (forall k :: 0 <= k < |tw.tiers| ==> TierOk(cfg, k, tw.tiers[k]))
    && IdsSafe(tw)
  }

  /** How a tier may change between two states: only its last stored page may be extended. */
  ghost predicate TierGrows(k: nat, t: Tier, u: Tier) {
    && |t.stored| <= |u.stored|
    && (forall i :: 0 <= i < |t.stored| - 1 ==> u.stored[i] == t.stored[i])
    && (t.stored != [] ==> Extends(Last(t.stored), u.stored[|t.stored| - 1]))
    && (t.stored != [] && k == 0 ==> Last(t.stored) == u.stored[|t.stored| - 1])
  }

  ghost predicate Grows(tw: Tower, ux: Tower) {
    |tw.tiers| == |ux.tiers| && forall k :: 0 <= k < |tw.tiers| ==> TierGrows(k, tw.tiers[k], ux.tiers[k])
  }

  lemma ExtendsReflexive(p: Page)
    ensures Extends(p, p)
  {
  }

  lemma ExtendsTransitive(p: Page, q: Page, r: Page)
    requires Extends(p, q) && Extends(q, r)
    ensures Extends(p, r)
  {
    var a, b, c := NetPatch(p.content), NetPatch(q.content), NetPatch(r.content);
    forall o | o in a ensures a[o].Keys <= FieldsOf(c, o).Keys {
      assert o in b && b[o] == FieldsOf(b, o);
    }
  }

  lemma GrowsReflexive(tw: Tower)
    ensures Grows(tw, tw)
  {
    forall k | 0 <= k < |tw.tiers| ensures TierGrows(k, tw.tiers[k], tw.tiers[k]) {
      if tw.tiers[k].stored != [] {
        ExtendsReflexive(Last(tw.tiers[k].stored));
      }
    }
  }

  lemma TierGrowsTransitive(k: nat, t: Tier, u: Tier, v: Tier)
    requires TierGrows(k, t, u) && TierGrows(k, u, v)
    ensures TierGrows(k, t, v)
  {
    if t.stored != [] {
      var n := |t.stored| - 1;
      if n < |u.stored| - 1 {
        assert v.stored[n] == u.stored[n];
      } else {
        ExtendsTransitive(Last(t.stored), u.stored[n], v.stored[n]);
      }
    }
  }

  lemma GrowsTransitive(tw: Tower, ux: Tower, vy: Tower)
    requires Grows(tw, ux) && Grows(ux, vy)
    ensures Grows(tw, vy)
  {
    forall k | 0 <= k < |tw.tiers| ensures TierGrows(k, tw.tiers[k], vy.tiers[k]) {
      TierGrowsTransitive(k, tw.tiers[k], ux.tiers[k], vy.tiers[k]);
    }
  }

  // ---------------------------------------------------------------- single updates

  /** A page being worked on for level k, not yet put back: its id is free or already that tier's own. */
  ghost predicate Fits(cfg: Settings, tw: Tower, k: nat, p: Page)
    requires k < |cfg.levels| == |tw.tiers|
  {
    var t := tw.tiers[k];
    && PageFormed(cfg, k, p)
    && p.id < tw.next
    && (forall j :: 0 <= j < |tw.tiers| && j != k ==> p.id !in tw.tiers[j].Ids())
    && (t.last.Some? ==> p.id >= t.last.value.id)
    && (t.last.Some? && p.id == t.last.value.id ==> k > 0 && !p.IsEmpty())
    && (t.LastStored().Some? && t.LastStored().value.id == p.id ==> Extends(t.LastStored().value, p))
  }

  ghost predicate Ascending(pages: seq<Page>) {
    forall i, j :: 0 <= i < j < |pages| ==> pages[i].id < pages[j].id
  }

  lemma StoreAscends(t: Tier, p: Page)
    requires Ascending(t.stored) && (t.stored != [] ==> Last(t.stored).id <= p.id)
    ensures Ascending(t.Store(p).stored)
  {
    var u := t.Store(p).stored;
    var n := |u| - 1;
    assert u[..n] <= t.stored;
    forall i, j | 0 <= i < j < |u| ensures u[i].id < u[j].id {
      assert u[i] == t.stored[i];
      if j < n {
        assert u[j] == t.stored[j];
      } else if n < |t.stored| {
        assert t.stored[i].id < t.stored[n].id;
      }
    }
  }

  lemma StorePages(cfg: Settings, t: Tier, k: nat, p: Page)
    requires k < |cfg.levels| && StoredOk(cfg, k, p)
    requires forall i :: 0 <= i < |t.stored| ==> StoredOk(cfg, k, t.stored[i])
    ensures forall i :: 0 <= i < |t.Store(p).stored| ==> StoredOk(cfg, k, t.Store(p).stored[i])
  {
    hide StoredOk;
    var u := t.Store(p).stored;
    forall i | 0 <= i < |u| - 1 ensures u[i] == t.stored[i] {
    }
  }

  lemma StoreGrows(cfg: Settings, tw: Tower, k: nat, p: Page)
    requires Sound(cfg, tw) && k < |cfg.levels| && Fits(cfg, tw, k, p)
    ensures TierGrows(k, tw.tiers[k], tw.tiers[k].Store(p))
  {
    hide Extends, StoredOk, PageFormed, ActiveOk, IdsSafe, TierTyped;
    var t := tw.tiers[k];
    assert TierOk(cfg, k, t);
    if t.stored != [] {
      ExtendsReflexive(Last(t.stored));
      if Last(t.stored).id == p.id {
        assert t.LastStored().Some?;
      }
    }
  }

  lemma StoreIds(t: Tier, p: Page)
    ensures t.Store(p).Ids() <= t.Ids() + {p.id}
  {
    var u := t.Store(p);
    forall i | 0 <= i < |u.stored| ensures u.stored[i].id in t.Ids() + {p.id} {
      if i < |u.stored| - 1 {
        assert u.stored[i] == t.stored[i];
      }
    }
  }

  lemma IdsStep(tw: Tower, ux: Tower, k: nat, id: nat)
    requires IdsSafe(tw) && k < |tw.tiers| == |ux.tiers| && ux.next == tw.next
    requires forall j :: 0 <= j < |tw.tiers| && j != k ==> ux.tiers[j] == tw.tiers[j]
    requires ux.tiers[k].Ids() <= tw.tiers[k].Ids() + {id}
    requires id < tw.next
    requires forall j :: 0 <= j < |tw.tiers| && j != k ==> id !in tw.tiers[j].Ids()
    ensures IdsSafe(ux)
  {
  }

  lemma GrowsElsewhere(tw: Tower, ux: Tower, k: nat)
    requires k < |tw.tiers| == |ux.tiers| && TierGrows(k, tw.tiers[k], ux.tiers[k])
    requires forall j :: 0 <= j < |tw.tiers| && j != k ==> ux.tiers[j] == tw.tiers[j]
    ensures Grows(tw, ux)
  {
    GrowsReflexive(tw);
  }

  lemma FinalizeSound(cfg: Settings, tw: Tower, k: nat, p: Page)
    requires Sound(cfg, tw) && k < |cfg.levels| && Fits(cfg, tw, k, p) && StoredOk(cfg, k, p)
    ensures Sound(cfg, tw.Finalize(k, p)) && Grows(tw, tw.Finalize(k, p))
  {
    hide Extends, RootOf, StoredOk;
    StorePages(cfg, tw.tiers[k], k, p);
    StoreAscends(tw.tiers[k], p);
    StoreGrows(cfg, tw, k, p);
    StoreIds(tw.tiers[k], p);
    var ux := tw.Finalize(k, p);
    assert TierOk(cfg, k, ux.tiers[k]);
    IdsStep(tw, ux, k, p.id);
    assert Sound(cfg, ux) by { hide TierOk, IdsSafe; }
    GrowsElsewhere(tw, ux, k);
  }

  lemma ActivateSound(cfg: Settings, tw: Tower, k: nat, p: Page)
    requires Sound(cfg, tw) && k < |cfg.levels| && Fits(cfg, tw, k, p)
    requires p.Length() < cfg.levels[k].maxItems
    ensures Sound(cfg, tw.Activate(k, p)) && Grows(tw, tw.Activate(k, p))
  {
    hide Extends, RootOf, StoredOk;
    var ux := tw.Activate(k, p);
    IdsStep(tw, ux, k, p.id);
    assert TierOk(cfg, k, ux.tiers[k]);
    assert Sound(cfg, ux) by { hide TierOk, IdsSafe; }
    assert TierGrows(k, tw.tiers[k], ux.tiers[k]) by { GrowsReflexive(tw); }
    GrowsElsewhere(tw, ux, k);
  }

  lemma VacateTier(cfg: Settings, k: nat, t: Tier)
    requires k < |cfg.levels| && TierOk(cfg, k, t)
    ensures TierOk(cfg, k, t.(active := None)) && t.(active := None).Ids() <= t.Ids() && TierGrows(k, t, t.(active := None))
  {
    if t.stored != [] {
      ExtendsReflexive(Last(t.stored));
    }
    hide Extends, StoredOk, ActiveOk;
  }

  lemma FewerIds(tw: Tower, ux: Tower, k: nat)
    requires IdsSafe(tw) && k < |tw.tiers| == |ux.tiers| && ux.next == tw.next && ux.tiers[k].Ids() <= tw.tiers[k].Ids()
    requires forall j :: 0 <= j < |tw.tiers| && j != k ==> ux.tiers[j] == tw.tiers[j]
    ensures IdsSafe(ux)
  {
    forall j | 0 <= j < |ux.tiers| ensures ux.tiers[j].Ids() <= tw.tiers[j].Ids() {
    }
  }

  lemma VacateSound(cfg: Settings, tw: Tower, k: nat)
    requires Sound(cfg, tw) && k < |cfg.levels|
    ensures Sound(cfg, tw.Vacate(k)) && Grows(tw, tw.Vacate(k))
  {
    hide TierOk, IdsSafe, TierGrows;
    var ux := tw.Vacate(k);
    VacateTier(cfg, k, tw.tiers[k]);
    FewerIds(tw, ux, k);
    GrowsElsewhere(tw, ux, k);
  }

  lemma RevertIds(tw: Tower, id: nat)
    requires IdsSafe(tw) && forall k :: 0 <= k < |tw.tiers| ==> id !in tw.tiers[k].Ids()
    ensures IdsSafe(tw.Revert(id))
  {
    var ux := tw.Revert(id);
    assert ux.tiers == tw.tiers;
  }

  /** Taking back an id that no tier holds keeps every live id below the counter. */
  lemma RevertSound(cfg: Settings, tw: Tower, id: nat)
    requires Sound(cfg, tw)
    requires forall k :: 0 <= k < |tw.tiers| ==> id !in tw.tiers[k].Ids()
    ensures Sound(cfg, tw.Revert(id)) && Grows(tw, tw.Revert(id))
  {
    hide TierOk, TierTyped, IdsSafe, TierGrows;
    RevertIds(tw, id);
    GrowsSameTiers(tw, tw.Revert(id));
  }

  lemma GrowsSameTiers(tw: Tower, ux: Tower)
    requires ux.tiers == tw.tiers
    ensures Grows(tw, ux)
  {
    hide TierGrows;
    GrowsReflexive(tw);
  }

  lemma BumpSound(cfg: Settings, tw: Tower)
    requires Sound(cfg, tw)
    ensures Sound(cfg, tw.(next := tw.next + 1))
  {
  }

  // ---------------------------------------------------------------- rollup

  lemma KeysWithinReflexive(p: PatchMap)
    ensures KeysWithin(p, p)
  {
  }

  lemma AbsorbLength(kind: ContentKind, p: Page, child: Page)
    requires p.level != 0 && (p.IsEmpty() <==> p.Length() == 0)
    requires kind != NetPatchesOnly <==> p.content.HasHashes()
    requires kind != ChildHashes <==> p.content.HasPatches()
    ensures var q := Absorb(kind, p, child);
      && (q.IsEmpty() <==> q.Length() == 0) && (q.IsEmpty() ==> p.IsEmpty())
      && (kind != NetPatchesOnly ==> q.Length() == p.Length() + 1)
  {
    if kind == NetPatchesOnly {
      MergeKeys(p.content.patches, NetPatch(child.content));
      assert p.content.patches != map[] ==> p.content.patches.Keys != {};
    }
  }

  lemma AbsorbExtends(cfg: Settings, k: nat, p: Page, child: Page)
    requires 0 < k < |cfg.levels| && PageFormed(cfg, k, p)
    ensures var q := Absorb(cfg.levels[k].kind, p, child).Rehash();
      Extends(p, q) && PageFormed(cfg, k, q) && (!p.IsEmpty() ==> !q.IsEmpty()) && q == q.Rehash()
      && (q.IsEmpty() ==> p.IsEmpty())
  {
    hide RootOf, Merge, KeysWithin;
    var kind := cfg.levels[k].kind;
    AbsorbContent(kind, p, child);
    AbsorbLength(kind, p, child);
    KeysWithinReflexive(NetPatch(p.content));
    if kind != ChildHashes {
      MergeExtendsKeys(NetPatch(p.content), NetPatch(child.content));
    }
  }

  lemma OpenParentFits(cfg: Settings, tw: Tower, p: nat, trigger: Time)
    requires ValidSettings(cfg) && Sound(cfg, tw) && 0 < p < |cfg.levels|
    ensures var (page, next) := OpenParent(cfg, tw, p, trigger);
      var ready := tw.(next := next);
      Fits(cfg, ready, p, page) && Sound(cfg, ready)
  {
    var (page, next) := OpenParent(cfg, tw, p, trigger);
    BumpSound(cfg, tw);
    var t := tw.tiers[p];
    if t.active.Some? && Reusable(cfg.levels[p], t.active.value, trigger) {
      assert page.id in t.Ids();
    } else if Reopens(cfg.levels[p], t, trigger) {
      assert page.id in t.Ids();
      ExtendsReflexive(page);
    } else if t.last.Some? {
      assert t.last.value.id in t.Ids();
    }
  }

  lemma FitsAfterAbsorb(cfg: Settings, tw: Tower, k: nat, p: Page, q: Page)
    requires 0 < k < |cfg.levels| == |tw.tiers| && Fits(cfg, tw, k, p) && Extends(p, q) && PageFormed(cfg, k, q)
    requires !p.IsEmpty() ==> !q.IsEmpty()
    ensures Fits(cfg, tw, k, q)
  {
    var t := tw.tiers[k];
    if t.LastStored().Some? && t.LastStored().value.id == p.id {
      ExtendsTransitive(t.LastStored().value, p, q);
    }
  }

  lemma OpenParentHasRoom(cfg: Settings, tw: Tower, p: nat, trigger: Time)
    requires ValidSettings(cfg) && Sound(cfg, tw) && 0 < p < |cfg.levels|
    ensures OpenParent(cfg, tw, p, trigger).0.Length() < cfg.levels[p].maxItems
  {
    hide TierOk, IdsSafe, TierTyped;
    assert ValidLevel(cfg.levels[p]);
  }

  /** The absorbed parent is ready to be put back. */
  lemma AbsorbedFits(cfg: Settings, tw: Tower, p: nat, child: Page, trigger: Time)
    requires ValidSettings(cfg) && Sound(cfg, tw) && 0 < p < |cfg.levels|
    ensures var ready := tw.(next := OpenParent(cfg, tw, p, trigger).1);
      var full := Absorbed(cfg, tw, p, child, trigger);
      Sound(cfg, ready) && Grows(tw, ready) && Fits(cfg, ready, p, full) && full == full.Rehash()
      && (!full.content.NetPatches? ==> full.Length() <= cfg.levels[p].maxItems)
  {
    var (page, next) := OpenParent(cfg, tw, p, trigger);
    OpenParentFits(cfg, tw, p, trigger);
    OpenParentHasRoom(cfg, tw, p, trigger);
    AbsorbLength(cfg.levels[p].kind, page, child);
    AbsorbExtends(cfg, p, page, child);
    FitsAfterAbsorb(cfg, tw.(next := next), p, page, Absorbed(cfg, tw, p, child, trigger));
    GrowsReflexive(tw);
  }

  lemma FitsStoredOk(cfg: Settings, tw: Tower, k: nat, p: Page)
    requires k < |cfg.levels| == |tw.tiers| && Fits(cfg, tw, k, p) && p == p.Rehash() && !p.IsEmpty()
    requires !p.content.NetPatches? ==> p.Length() <= cfg.levels[k].maxItems
    ensures StoredOk(cfg, k, p)
  {
    hide RootOf, Extends;
  }

  lemma {:induction false} FinalizeAndRollupSound(cfg: Settings, tw: Tower, k: nat, p: Page, trigger: Time)
    requires ValidSettings(cfg) && Sound(cfg, tw) && k < |cfg.levels|
    requires Fits(cfg, tw, k, p) && StoredOk(cfg, k, p)
    ensures var r := FinalizeAndRollup(cfg, tw, k, p, trigger); Sound(cfg, r) && Grows(tw, r)
    decreases |cfg.levels| - k, 1
  {
    FinalizeSound(cfg, tw, k, p);
    RollupSound(cfg, tw.Finalize(k, p), k, p, trigger);
    GrowsTransitive(tw, tw.Finalize(k, p), FinalizeAndRollup(cfg, tw, k, p, trigger));
  }

  /** A non-empty active page is ready to be stored once it is rehashed. */
  lemma ActiveReady(cfg: Settings, tw: Tower, k: nat)
    requires Sound(cfg, tw) && k < |cfg.levels| && tw.tiers[k].active.Some? && !tw.tiers[k].active.value.IsEmpty()
    ensures var q := tw.tiers[k].active.value.Rehash();
      PageTyped(cfg, k, q) && Fits(cfg, tw, k, q) && StoredOk(cfg, k, q)
  {
    hide RootOf;
    assert TierOk(cfg, k, tw.tiers[k]);
    assert tw.tiers[k].active.value.id in tw.tiers[k].Ids();
  }

  lemma {:induction false} RetireStaleSound(cfg: Settings, tw: Tower, p: nat, trigger: Time)
    requires ValidSettings(cfg) && Sound(cfg, tw) && 0 < p < |cfg.levels|
    ensures var r := RetireStale(cfg, tw, p, trigger); Sound(cfg, r) && Grows(tw, r)
    decreases |cfg.levels| - p, 2
  {
    GrowsReflexive(tw);
    if Stale(tw.tiers[p], trigger) {
      var a := tw.tiers[p].active.value;
      VacateSound(cfg, tw, p);
      if !a.IsEmpty() {
        ActiveReady(cfg, tw, p);
        FinalizeAndRollupSound(cfg, tw, p, a.Rehash(), trigger);
      }
    }
  }

  lemma {:induction false} SettleSound(cfg: Settings, tw: Tower, p: nat, page: Page, trigger: Time)
    requires ValidSettings(cfg) && Sound(cfg, tw) && 0 < p < |cfg.levels|
    requires Fits(cfg, tw, p, page) && page == page.Rehash()
    requires !page.content.NetPatches? ==> page.Length() <= cfg.levels[p].maxItems
    ensures var r := Settle(cfg, tw, p, page, trigger); Sound(cfg, r) && Grows(tw, r)
    decreases |cfg.levels| - p, 2
  {
    if page.IsEmpty() {
      if OverAge(cfg.levels[p], page, trigger) {
        DiscardSound(cfg, tw, p, page);
      } else {
        ActivateSound(cfg, tw, p, page);
      }
    } else if Due(cfg.levels[p], page, trigger) {
      FinalizeAndRollupSound(cfg, tw, p, page, trigger);
    } else {
      ActivateSound(cfg, tw, p, page);
    }
  }

  lemma DiscardSound(cfg: Settings, tw: Tower, p: nat, page: Page)
    requires ValidSettings(cfg) && Sound(cfg, tw) && p < |cfg.levels|
    requires Fits(cfg, tw, p, page) && page.IsEmpty()
    ensures var r := tw.Vacate(p).Revert(page.id); Sound(cfg, r) && Grows(tw, r)
  {
    VacateSound(cfg, tw, p);
    var ux := tw.Vacate(p);
    forall k | 0 <= k < |ux.tiers| ensures page.id !in ux.tiers[k].Ids() {
      if k == p {
        var t := tw.tiers[p];
        forall i | 0 <= i < |t.stored| ensures t.stored[i].id != page.id {
          assert t.stored[i].id <= Last(t.stored).id;
        }
      }
    }
    RevertSound(cfg, ux, page.id);
    GrowsTransitive(tw, ux, ux.Revert(page.id));
  }

  lemma {:induction false} AbsorbAndSettleSound(cfg: Settings, tw: Tower, p: nat, child: Page, trigger: Time)
    requires ValidSettings(cfg) && Sound(cfg, tw) && 0 < p < |cfg.levels|
    ensures var r := AbsorbAndSettle(cfg, tw, p, child, trigger); Sound(cfg, r) && Grows(tw, r)
    decreases |cfg.levels| - p, 3
  {
    AbsorbedFits(cfg, tw, p, child, trigger);
    var ready := tw.(next := OpenParent(cfg, tw, p, trigger).1);
    var full := Absorbed(cfg, tw, p, child, trigger);
    SettleSound(cfg, ready, p, full, trigger);
    GrowsTransitive(tw, ready, Settle(cfg, ready, p, full, trigger));
  }

  /** Rolling up any child, at any trigger time, keeps the tower sound and only grows it. */
  lemma {:induction false} RollupSound(cfg: Settings, tw: Tower, level: nat, child: Page, trigger: Time)
    requires ValidSettings(cfg) && Sound(cfg, tw) && level < |cfg.levels|
    ensures var r := Rollup(cfg, tw, level, child, trigger); Sound(cfg, r) && Grows(tw, r)
    decreases |cfg.levels| - level, 0
  {
    hide TierOk, IdsSafe, TierGrows, TierTyped;
    if level + 1 == |cfg.levels| {
      GrowsReflexive(tw);
    } else {
      RetireStaleSound(cfg, tw, level + 1, trigger);
      var retired := RetireStale(cfg, tw, level + 1, trigger);
      AbsorbAndSettleSound(cfg, retired, level + 1, child, trigger);
      GrowsTransitive(tw, retired, Rollup(cfg, tw, level, child, trigger));
    }
  }
}
