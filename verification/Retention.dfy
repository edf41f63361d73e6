/** Retention: what a pass may leave in a level, and what runs with retention passes still keep. */
module Retention {
  import opened Prelude
  import opened Hashing
  import opened Config
  import opened Pages
  import opened Towers
  import opened Safety
  import opened Conservation
  import opened Timeline
  import opened Integrity
  import opened QuerySpec

  // ---------------------------------------------------------------- what a pass does

  /** A level's own policy, or else the global one. */
  function EffectivePolicy(cfg: Settings, k: nat): RetentionPolicy
    requires k < |cfg.levels|
  {
    if cfg.levels[k].retention.Some? then cfg.levels[k].retention.value
    else if cfg.retentionEnabled then DeleteAfterSecs(cfg.retentionPeriod)
    else KeepIndefinitely
  }

  predicate Expired(end: Time, now: Time, seconds: nat) {
    end <= now && now - end > seconds * NANOS_PER_SECOND
  }

  function Unexpired(now: Time, seconds: nat): Page -> bool {
    (p: Page) => !Expired(p.end, now, seconds)
  }

  function IdOutside(gone: set<nat>): Page -> bool {
    (p: Page) => p.id !in gone
  }

  function Without(pages: seq<Page>, gone: set<nat>): seq<Page> {
    Filter(pages, IdOutside(gone))
  }

  /** The pages with the given ids are dropped, and none of them ends after a page that is kept. */
  ghost predicate DropsOldest(before: seq<Page>, after: seq<Page>, gone: set<nat>) {
    && after == Without(before, gone)
    && forall p, q :: p in before && q in after && p.id in gone ==> p.end <= q.end
  }

  /** What a policy may leave of a level's stored pages; pages that end together may go in any order. */
  ghost predicate Retained(policy: RetentionPolicy, now: Time, before: seq<Page>, after: seq<Page>) {
    match policy
    case KeepIndefinitely => after == before
    case DeleteAfterSecs(seconds) => after == if seconds == 0 then before else Filter(before, Unexpired(now, seconds))
    case KeepNPages(n) => |after| == Min(n, |before|) && exists gone :: DropsOldest(before, after, gone)
  }

  /** A whole pass: every level as its policy says; active pages, last finalized pages and the counter stay. */
  ghost predicate RetainedAll(cfg: Settings, now: Time, tw: Tower, ux: Tower) {
    && |tw.tiers| == |ux.tiers| == |cfg.levels| && ux.next == tw.next
    && forall k :: 0 <= k < |tw.tiers| ==> RetainedTier(cfg, now, k, tw.tiers[k], ux.tiers[k])
  }

  ghost predicate RetainedTier(cfg: Settings, now: Time, k: nat, t: Tier, u: Tier)
    requires k < |cfg.levels|
  {
    u.active == t.active && u.last == t.last && Retained(EffectivePolicy(cfg, k), now, t.stored, u.stored)
  }

  // ---------------------------------------------------------------- filtering pages

  lemma {:induction false} FilterAll<T>(s: seq<T>, p: T -> bool)
    ensures |Filter(s, p)| <= |s|
    ensures |Filter(s, p)| == |s| <==> forall x :: x in s ==> p(x)
    ensures |Filter(s, p)| == |s| ==> Filter(s, p) == s
  {
    if s != [] {
      FilterAll(DropLast(s), p);
      assert s == DropLast(s) + [Last(s)];
    }
  }

  lemma {:induction false} FilterAscends(pages: seq<Page>, p: Page -> bool)
    requires Ascending(pages)
    ensures Ascending(Filter(pages, p))
    ensures pages != [] && p(Last(pages)) ==> Filter(pages, p) != [] && Last(Filter(pages, p)) == Last(pages)
    ensures forall q :: q in Filter(pages, p) ==> q in pages && q.id <= Last(pages).id
  {
    if pages != [] {
      FilterAscends(DropLast(pages), p);
      assert pages == DropLast(pages) + [Last(pages)];
      var front := Filter(DropLast(pages), p);
      forall i | 0 <= i < |front| ensures front[i].id < Last(pages).id {
        assert front[i] in front && front[i].id <= Last(DropLast(pages)).id;
      }
    }
  }

  /** Every pass drops the pages of some set of ids. */
  lemma RetainedIsWithout(policy: RetentionPolicy, now: Time, before: seq<Page>, after: seq<Page>) returns (gone: set<nat>)
    requires Ascending(before) && Retained(policy, now, before, after)
    ensures after == Without(before, gone)
  {
    match policy
    case KeepIndefinitely =>
      gone := {};
      FilterAll(before, IdOutside(gone));
    case DeleteAfterSecs(seconds) =>
      gone := if seconds == 0 then {} else set i | 0 <= i < |before| && Expired(before[i].end, now, seconds) :: before[i].id;
      FilterAll(before, IdOutside({}));
      forall p | p in before && seconds > 0 ensures IdOutside(gone)(p) == Unexpired(now, seconds)(p) {
        if p.id in gone {
          var i :| 0 <= i < |before| && Expired(before[i].end, now, seconds) && before[i].id == p.id;
          var j :| 0 <= j < |before| && before[j] == p;
        }
      }
      if seconds > 0 {
        FilterAgrees(before, IdOutside(gone), Unexpired(now, seconds));
      }
    case KeepNPages(n) =>
      gone :| DropsOldest(before, after, gone);
  }

  // ---------------------------------------------------------------- safety

  lemma WithoutTierOk(cfg: Settings, k: nat, t: Tier, gone: set<nat>)
    requires k < |cfg.levels| && TierOk(cfg, k, t)
    ensures TierOk(cfg, k, t.(stored := Without(t.stored, gone)))
    ensures t.(stored := Without(t.stored, gone)).Ids() <= t.Ids()
  {
    hide StoredOk, Extends, PageFormed;
    var u := t.(stored := Without(t.stored, gone));
    FilterAscends(t.stored, IdOutside(gone));
    FilterMembers(t.stored, IdOutside(gone));
    forall i | 0 <= i < |u.stored| ensures StoredOk(cfg, k, u.stored[i]) && u.stored[i].id in t.Ids() && u.stored[i] in t.stored {
      assert u.stored[i] in u.stored;
      var j :| 0 <= j < |t.stored| && t.stored[j] == u.stored[i];
    }
    if u.stored != [] {
      assert Last(u.stored) in u.stored;
      LastSurvives(t, gone);
    }
  }

  /** If the last page left is the last finalized one, it was so before. */
  lemma LastSurvives(t: Tier, gone: set<nat>)
    requires Ascending(t.stored) && (t.stored != [] ==> t.last.Some? && Last(t.stored).id <= t.last.value.id)
    ensures var u := t.(stored := Without(t.stored, gone)); u.LastStored().Some? ==> u.LastStored() == t.LastStored()
  {
    var u := t.(stored := Without(t.stored, gone));
    FilterAscends(t.stored, IdOutside(gone));
    if u.LastStored().Some? {
      assert Last(u.stored) in u.stored;
      var j :| 0 <= j < |t.stored| && t.stored[j] == Last(u.stored);
      assert t.stored[j].id == t.stored[|t.stored| - 1].id;
    }
  }

  lemma WithoutTyped(cfg: Settings, k: nat, t: Tier, gone: set<nat>)
    requires TierTyped(cfg, k, t)
    ensures TierTyped(cfg, k, t.(stored := Without(t.stored, gone)))
  {
    var u := Without(t.stored, gone);
    FilterMembers(t.stored, IdOutside(gone));
    forall i | 0 <= i < |u| ensures PageTyped(cfg, k, u[i]) {
      assert u[i] in u;
    }
  }

  lemma WithoutLeafTierOk(cfg: Settings, t: Tier, gone: set<nat>)
    requires ValidSettings(cfg) && LeafTierOk(cfg, t)
    ensures LeafTierOk(cfg, t.(stored := Without(t.stored, gone)))
  {
    var u := Without(t.stored, gone);
    FilterMembers(t.stored, IdOutside(gone));
    forall i | 0 <= i < |u| ensures LeavesPlaced(u[i]) && 1 <= u[i].Length() <= cfg.levels[0].maxItems {
      assert u[i] in u;
      var j :| 0 <= j < |t.stored| && t.stored[j] == u[i];
    }
  }

  function Pruned(tw: Tower, k: nat, gone: set<nat>): Tower
    requires k < |tw.tiers|
  {
    tw.(tiers := tw.tiers[k := tw.tiers[k].(stored := Without(tw.tiers[k].stored, gone))])
  }

  /** Dropping any stored pages keeps the tower sound. */
  lemma PrunedOk(cfg: Settings, tw: Tower, k: nat, gone: set<nat>)
    requires ValidSettings(cfg) && Sound(cfg, tw) && k < |tw.tiers|
    ensures Sound(cfg, Pruned(tw, k, gone))
    ensures LeafTierOk(cfg, tw.tiers[0]) ==> LeafTierOk(cfg, Pruned(tw, k, gone).tiers[0])
  {
    hide TierOk, TierTyped, LeafTierOk, Without;
    assert TierTyped(cfg, k, tw.tiers[k]) && TierOk(cfg, k, tw.tiers[k]);
    WithoutTyped(cfg, k, tw.tiers[k], gone);
    WithoutTierOk(cfg, k, tw.tiers[k], gone);
    if LeafTierOk(cfg, tw.tiers[0]) {
      WithoutLeafTierOk(cfg, tw.tiers[0], gone);
    }
    FewerIds(tw, Pruned(tw, k, gone), k);
  }

  /** The first m levels as a pass leaves them, the others as they were. */
  function Partly(tw: Tower, ux: Tower, m: nat): Tower
    requires m <= |tw.tiers| == |ux.tiers|
  {
    tw.(tiers := ux.tiers[..m] + tw.tiers[m..])
  }

  lemma {:induction false} PartlyOk(cfg: Settings, now: Time, tw: Tower, ux: Tower, m: nat)
    requires ValidSettings(cfg) && RunOk(cfg, tw) && RetainedAll(cfg, now, tw, ux) && m <= |tw.tiers|
    ensures RunOk(cfg, Partly(tw, ux, m))
  {
    hide TierOk, IdsSafe, TierTyped, LeafTierOk, Retained;
    if m == 0 {
      assert Partly(tw, ux, 0) == tw;
    } else {
      PartlyOk(cfg, now, tw, ux, m - 1);
      var k := m - 1;
      assert RetainedTier(cfg, now, k, tw.tiers[k], ux.tiers[k]);
      TierAscends(cfg, tw, k);
      var gone := RetainedIsWithout(EffectivePolicy(cfg, k), now, tw.tiers[k].stored, ux.tiers[k].stored);
      PrunedOk(cfg, Partly(tw, ux, k), k, gone);
      assert Partly(tw, ux, m) == Pruned(Partly(tw, ux, k), k, gone);
    }
  }

  lemma TierAscends(cfg: Settings, tw: Tower, k: nat)
    requires Sound(cfg, tw) && k < |tw.tiers|
    ensures Ascending(tw.tiers[k].stored)
  {
    assert TierOk(cfg, k, tw.tiers[k]);
  }

  /** A retention pass, under any policies and at any time, keeps the invariant of every run. */
  lemma RetentionKeepsRunOk(cfg: Settings, now: Time, tw: Tower, ux: Tower)
    requires ValidSettings(cfg) && RunOk(cfg, tw) && RetainedAll(cfg, now, tw, ux)
    ensures RunOk(cfg, ux)
  {
    hide RunOk, RetainedTier;
    PartlyOk(cfg, now, tw, ux, |tw.tiers|);
    assert Partly(tw, ux, |tw.tiers|) == ux;
  }

  // ---------------------------------------------------------------- which pages remain

  /** Exactly the pages remain that ended at most s seconds ago, or all of them for s = 0. */
  ghost predicate KeepsYoung(s: nat, now: Time, before: seq<Page>, after: seq<Page>) {
    forall p :: p in after <==> p in before && (s == 0 || now <= p.end + s * 1_000_000_000)
  }

  /** At most n pages remain, and none that went ended after one that stayed. */
  ghost predicate KeepsLatest(n: nat, before: seq<Page>, after: seq<Page>) {
    && |after| == (if n < |before| then n else |before|) && (forall p :: p in after ==> p in before)
    && forall p, q :: p in before && p !in after && q in after ==> p.end <= q.end
  }

  /** A level's own policy decides, else the global age limit if it is on, else nothing goes. */
  ghost predicate LevelPassed(cfg: Settings, k: nat, now: Time, before: seq<Page>, after: seq<Page>)
    requires k < |cfg.levels|
  {
    match cfg.levels[k].retention
    case None => if cfg.retentionEnabled then KeepsYoung(cfg.retentionPeriod, now, before, after) else after == before
    case Some(KeepIndefinitely) => after == before
    case Some(DeleteAfterSecs(s)) => KeepsYoung(s, now, before, after)
    case Some(KeepNPages(n)) => KeepsLatest(n, before, after)
  }

  /** Active pages, last finalized pages and the counter stay; on every level the pages left are those its policy names,
      in id order. */
  ghost predicate Passed(cfg: Settings, now: Time, tw: Tower, ux: Tower) {
    && |ux.tiers| == |tw.tiers| == |cfg.levels| && ux.next == tw.next
    && forall k :: 0 <= k < |tw.tiers| ==>
         && ux.tiers[k].active == tw.tiers[k].active && ux.tiers[k].last == tw.tiers[k].last
         && Ascending(ux.tiers[k].stored) && LevelPassed(cfg, k, now, tw.tiers[k].stored, ux.tiers[k].stored)
  }

  lemma YoungRemain(s: nat, now: Time, before: seq<Page>, after: seq<Page>)
    requires Retained(DeleteAfterSecs(s), now, before, after)
    ensures KeepsYoung(s, now, before, after)
  {
    FilterMembers(before, Unexpired(now, s));
  }

  lemma LatestRemain(n: nat, now: Time, before: seq<Page>, after: seq<Page>)
    requires Retained(KeepNPages(n), now, before, after)
    ensures KeepsLatest(n, before, after)
  {
    var gone :| DropsOldest(before, after, gone);
    FilterMembers(before, IdOutside(gone));
  }

  lemma LevelPasses(cfg: Settings, k: nat, now: Time, t: Tier, u: Tier)
    requires k < |cfg.levels| && Ascending(t.stored) && RetainedTier(cfg, now, k, t, u)
    ensures LevelPassed(cfg, k, now, t.stored, u.stored) && Ascending(u.stored)
  {
    var policy := EffectivePolicy(cfg, k);
    var gone := RetainedIsWithout(policy, now, t.stored, u.stored);
    FilterAscends(t.stored, IdOutside(gone));
    if policy.DeleteAfterSecs? {
      YoungRemain(policy.seconds, now, t.stored, u.stored);
    } else if policy.KeepNPages? {
      LatestRemain(policy.count, now, t.stored, u.stored);
    }
  }

  /** What a pass leaves, in terms of the configuration, page ends and the time alone. */
  lemma RetainedPasses(cfg: Settings, now: Time, tw: Tower, ux: Tower)
    requires Sound(cfg, tw) && RetainedAll(cfg, now, tw, ux)
    ensures Passed(cfg, now, tw, ux)
  {
    hide LevelPassed, Ascending;
    forall k | 0 <= k < |tw.tiers|
      ensures Ascending(ux.tiers[k].stored) && LevelPassed(cfg, k, now, tw.tiers[k].stored, ux.tiers[k].stored)
    {
      TierAscends(cfg, tw, k);
      LevelPasses(cfg, k, now, tw.tiers[k], ux.tiers[k]);
    }
  }

  // ---------------------------------------------------------------- idempotence

  lemma RetainedAgain(policy: RetentionPolicy, now: Time, before: seq<Page>, after: seq<Page>, again: seq<Page>)
    requires Retained(policy, now, before, after) && Retained(policy, now, after, again)
    ensures again == after
  {
    match policy
    case KeepIndefinitely =>
    case DeleteAfterSecs(seconds) =>
      if seconds > 0 {
        FilterMembers(before, Unexpired(now, seconds));
        FilterAll(after, Unexpired(now, seconds));
      }
    case KeepNPages(n) =>
      var gone :| DropsOldest(after, again, gone);
      FilterAll(after, IdOutside(gone));
  }

  /** Repeating a pass at the same time changes nothing. */
  lemma RetentionIsIdempotent(cfg: Settings, now: Time, tw: Tower, ux: Tower, vy: Tower)
    requires RetainedAll(cfg, now, tw, ux) && RetainedAll(cfg, now, ux, vy)
    ensures vy == ux
  {
    hide Retained;
    forall k | 0 <= k < |tw.tiers| ensures vy.tiers[k] == ux.tiers[k] {
      assert RetainedTier(cfg, now, k, tw.tiers[k], ux.tiers[k]) && RetainedTier(cfg, now, k, ux.tiers[k], vy.tiers[k]);
      RetainedAgain(EffectivePolicy(cfg, k), now, tw.tiers[k].stored, ux.tiers[k].stored, vy.tiers[k].stored);
    }
    assert vy.tiers == ux.tiers;
  }

  // ---------------------------------------------------------------- prefixes

  ghost predicate EndsInOrder(pages: seq<Page>) {
    forall i, j :: 0 <= i < j < |pages| ==> pages[i].end <= pages[j].end
  }

  /** Age deletion removes a prefix of pages that end in order. */
  lemma {:induction false} AgeRemovesPrefix(pages: seq<Page>, now: Time, seconds: nat) returns (m: nat)
    requires EndsInOrder(pages)
    ensures m <= |pages| && Filter(pages, Unexpired(now, seconds)) == pages[m..]
    ensures m < |pages| ==> !Expired(pages[m].end, now, seconds)
  {
    hide Filter;
    if pages == [] {
      m := 0;
      FilterAll(pages, Unexpired(now, seconds));
    } else {
      var front, last := DropLast(pages), Last(pages);
      m := AgeRemovesPrefix(front, now, seconds);
      assert pages == front + [last];
      FilterSnoc(front, last, Unexpired(now, seconds));
      if m < |front| {
        assert pages[m].end <= last.end;
        assert pages[m..] == front[m..] + [last];
      } else if Expired(last.end, now, seconds) {
        m := |pages|;
      } else {
        assert pages[m..] == [last];
      }
    }
  }

  /** No two pages on either side of the cut end together. */
  predicate CleanCut(policy: RetentionPolicy, pages: seq<Page>) {
    policy.KeepNPages? && 0 < policy.count < |pages| ==>
      pages[|pages| - policy.count - 1].end < pages[|pages| - policy.count].end
  }

  lemma {:induction false} FilterNonEmpty<T>(s: seq<T>, p: T -> bool)
    ensures Filter(s, p) != [] ==> exists i :: 0 <= i < |s| && p(s[i])
  {
    if s != [] && !p(Last(s)) {
      FilterNonEmpty(DropLast(s), p);
    }
  }

  /** A page kept below the cut means that nothing above it went. */
  lemma KeptBelow(before: seq<Page>, after: seq<Page>, gone: set<nat>, m: nat, j: nat)
    requires EndsInOrder(before) && DropsOldest(before, after, gone)
    requires 0 < m < |before| && before[m - 1].end < before[m].end && j < m && before[j].id !in gone
    ensures forall i :: m <= i < |before| ==> before[i].id !in gone
  {
    FilterMembers(before, IdOutside(gone));
    assert before[j] in after;
    forall i | m <= i < |before| ensures before[i].id !in gone {
      assert before[j].end < before[i].end;
    }
  }

  lemma CutOutcome(before: seq<Page>, after: seq<Page>, gone: set<nat>, m: nat)
    requires m <= |before| && DropsOldest(before, after, gone)
    ensures after == Filter(before[..m] + before[m..], IdOutside(gone))
  {
    hide Filter;
    assert before == before[..m] + before[m..];
  }

  lemma KeptAcrossCut(before: seq<Page>, after: seq<Page>, gone: set<nat>, m: nat)
    requires EndsInOrder(before) && DropsOldest(before, after, gone)
    requires 0 < m < |before| && |after| == |before| - m && before[m - 1].end < before[m].end
    ensures after == before[m..]
  {
    var low, high, p := before[..m], before[m..], IdOutside(gone);
    hide Filter, DropsOldest, EndsInOrder;
    CutOutcome(before, after, gone, m);
    if forall i :: 0 <= i < m ==> before[i].id in gone {
      forall i | 0 <= i < |low| ensures !p(low[i]) {
        assert low[i] == before[i];
      }
      EmptyFront(low, high, after, p);
    } else {
      var j: nat :| j < m && before[j].id !in gone;
      KeptBelow(before, after, gone, m, j);
      forall i | 0 <= i < |high| ensures p(high[i]) {
        assert high[i] == before[m + i];
      }
      WholeBack(low, high, after, p);
    }
  }

  lemma WholeBack<T>(low: seq<T>, high: seq<T>, after: seq<T>, p: T -> bool)
    requires after == Filter(low + high, p) && |after| == |high| && forall i :: 0 <= i < |high| ==> p(high[i])
    ensures after == high
  {
    hide Filter;
    FilterConcat(low, high, p);
    FilterWhole(high, p);
  }

  lemma EmptyFront<T>(low: seq<T>, high: seq<T>, after: seq<T>, p: T -> bool)
    requires after == Filter(low + high, p) && |after| == |high| && forall i :: 0 <= i < |low| ==> !p(low[i])
    ensures after == high
  {
    hide Filter;
    FilterConcat(low, high, p);
    FilterNone(low, p);
    FilterAll(high, p);
  }

  /** The ids of the pages below index m - 1, and that of page m. */
  function AllButOneBelow(pages: seq<Page>, m: nat): set<nat>
    requires 0 < m < |pages|
  {
    (set i | 0 <= i < m - 1 :: pages[i].id) + {pages[m].id}
  }

  lemma AllButOneMembers(pages: seq<Page>, m: nat)
    requires Ascending(pages) && 0 < m < |pages|
    ensures forall i :: 0 <= i < |pages| ==> (pages[i].id in AllButOneBelow(pages, m) <==> i < m - 1 || i == m)
  {
    forall i | 0 <= i < |pages| ensures pages[i].id in AllButOneBelow(pages, m) <==> i < m - 1 || i == m {
      if pages[i].id in AllButOneBelow(pages, m) && i != m {
        assert pages[i].id != pages[m].id;
        var j :| 0 <= j < m - 1 && pages[j].id == pages[i].id;
        assert i == j;
      }
    }
  }

  lemma FilterPair<T>(x: T, y: T, p: T -> bool)
    requires p(x) && !p(y)
    ensures Filter([x, y], p) == [x]
  {
    assert [x, y] == [x] + [y] && [x] == [] + [x];
    FilterSnoc([x], y, p);
    FilterSnoc([], x, p);
  }

  lemma FilterNone<T>(s: seq<T>, p: T -> bool)
    requires forall i :: 0 <= i < |s| ==> !p(s[i])
    ensures Filter(s, p) == []
  {
    FilterNonEmpty(s, p);
  }

  lemma FilterWhole<T>(s: seq<T>, p: T -> bool)
    requires forall i :: 0 <= i < |s| ==> p(s[i])
    ensures Filter(s, p) == s
  {
    FilterAll(s, p);
  }

  /** A list of which only x, between a dropped front, a dropped y and a kept back, is in question. */
  lemma FilterAround<T>(low: seq<T>, x: T, y: T, high: seq<T>, p: T -> bool)
    requires (forall i :: 0 <= i < |low| ==> !p(low[i])) && p(x) && !p(y) && (forall i :: 0 <= i < |high| ==> p(high[i]))
    ensures Filter(low + ([x, y] + high), p) == [x] + high
  {
    hide Filter;
    FilterNone(low, p);
    FilterPair(x, y, p);
    FilterWhole(high, p);
    FilterConcat(low, [x, y] + high, p);
    FilterConcat([x, y], high, p);
  }

  lemma OtherSurvivors(before: seq<Page>, m: nat)
    requires Ascending(before) && 0 < m < |before|
    ensures Without(before, AllButOneBelow(before, m)) == [before[m - 1]] + before[m + 1..]
  {
    AllButOneMembers(before, m);
    hide Filter, AllButOneBelow, Ascending;
    var low, high := before[..m - 1], before[m + 1..];
    FilterAround(low, before[m - 1], before[m], high, IdOutside(AllButOneBelow(before, m)));
    assert before == low + ([before[m - 1], before[m]] + high);
  }

  /** Another outcome when pages at the cut end together: the later one goes first. */
  lemma OtherOutcome(before: seq<Page>, m: nat, now: Time) returns (after: seq<Page>)
    requires EndsInOrder(before) && Ascending(before) && 0 < m < |before| && before[m - 1].end == before[m].end
    ensures Retained(KeepNPages(|before| - m), now, before, after) && after != before[m..]
  {
    after := [before[m - 1]] + before[m + 1..];
    OldestGone(before, after, AllButOneBelow(before, m), m);
    OtherSurvivors(before, m);
    assert DropsOldest(before, after, AllButOneBelow(before, m));
    assert after[0].id < before[m..][0].id;
  }

  lemma OldestGone(before: seq<Page>, after: seq<Page>, gone: set<nat>, m: nat)
    requires EndsInOrder(before) && Ascending(before) && 0 < m < |before| && before[m - 1].end == before[m].end
    requires gone == AllButOneBelow(before, m) && after == [before[m - 1]] + before[m + 1..]
    ensures forall p, q :: p in before && q in after && p.id in gone ==> p.end <= q.end
  {
    AllButOneMembers(before, m);
    forall p, q | p in before && q in after && p.id in gone ensures p.end <= q.end {
      var i :| 0 <= i < |before| && before[i] == p;
      assert i <= m;
      assert p.end <= before[m].end;
      var j :| 0 <= j < |after| && after[j] == q;
      assert j > 0 ==> q == before[m + j];
      assert before[m].end <= q.end;
    }
  }

  /** Keeping n pages leaves exactly the newest n, whatever order the sort picks, iff the cut is clean. */
  lemma KeepNIsSuffixIff(before: seq<Page>, n: nat, now: Time)
    requires EndsInOrder(before) && Ascending(before)
    ensures (forall after :: Retained(KeepNPages(n), now, before, after) ==> after == before[|before| - Min(n, |before|)..])
       <==> CleanCut(KeepNPages(n), before)
  {
    if CleanCut(KeepNPages(n), before) {
      forall after | Retained(KeepNPages(n), now, before, after) ensures after == before[|before| - Min(n, |before|)..] {
        RetainedSuffix(KeepNPages(n), now, before, after);
      }
    } else {
      var m := |before| - n;
      assert before[m - 1].end <= before[m].end;
      var other := OtherOutcome(before, m, now);
      assert Retained(KeepNPages(n), now, before, other);
    }
  }

  /** With a clean cut every policy removes a prefix. */
  lemma RetainedSuffix(policy: RetentionPolicy, now: Time, before: seq<Page>, after: seq<Page>)
    requires EndsInOrder(before) && CleanCut(policy, before) && Retained(policy, now, before, after)
    ensures |after| <= |before| && after == before[|before| - |after|..]
  {
    hide Filter, EndsInOrder, DropsOldest;
    match policy
    case KeepIndefinitely =>
    case DeleteAfterSecs(seconds) =>
      if seconds > 0 {
        var m := AgeRemovesPrefix(before, now, seconds);
      }
    case KeepNPages(n) =>
      var gone :| DropsOldest(before, after, gone);
      if 0 < n < |before| {
        KeptAcrossCut(before, after, gone, |before| - n);
      } else if n > 0 {
        NothingDropped(before, after, gone);
      }
  }

  lemma NothingDropped(before: seq<Page>, after: seq<Page>, gone: set<nat>)
    requires DropsOldest(before, after, gone) && |after| == |before|
    ensures after == before
  {
    hide Filter;
    FilterAll(before, IdOutside(gone));
  }

  // ---------------------------------------------------------------- time

  lemma TimelyEndsInOrder(cfg: Settings, tw: Tower, k: nat, clock: Time)
    requires ValidSettings(cfg) && Sound(cfg, tw) && Timely(cfg, tw, clock) && k < |tw.tiers|
    ensures EndsInOrder(tw.tiers[k].stored) && Ascending(tw.tiers[k].stored)
  {
    hide Extends, RootOf, IdsSafe, TierTyped, Chained, WindowStart;
    var t := tw.tiers[k];
    assert TierOk(cfg, k, t) && TierTimely(cfg.levels[k], k, t, clock);
    forall i | 0 <= i < |t.stored| ensures t.stored[i].end == t.stored[i].start + cfg.levels[k].DurationNanos() {
      assert StoredOk(cfg, k, t.stored[i]);
    }
  }

  lemma SuffixTimely(l: Level, k: nat, t: Tier, m: nat, clock: Time)
    requires ValidLevel(l) && TierTimely(l, k, t, clock) && m <= |t.stored|
    ensures TierTimely(l, k, t.(stored := t.stored[m..]), clock)
  {
    hide WindowStart, Closed;
    var u := t.(stored := t.stored[m..]);
    assert u.stored != [] ==> Last(u.stored) == Last(t.stored);
    forall i | 0 < i < |u.stored| ensures u.stored[i].prev == Some(u.stored[i - 1].hash) {
      assert t.stored[m + i].prev == Some(t.stored[m + i - 1].hash);
    }
  }

  ghost predicate CleanPass(cfg: Settings, tw: Tower)
    requires |tw.tiers| == |cfg.levels|
  {
    forall k :: 0 <= k < |tw.tiers| ==> CleanCut(EffectivePolicy(cfg, k), tw.tiers[k].stored)
  }

  /** Retention with clean cuts keeps every level chained and in time order. */
  lemma RetentionKeepsTimely(cfg: Settings, now: Time, tw: Tower, ux: Tower, clock: Time)
    requires ValidSettings(cfg) && Sound(cfg, tw) && Timely(cfg, tw, clock)
    requires RetainedAll(cfg, now, tw, ux) && CleanPass(cfg, tw)
    ensures Timely(cfg, ux, clock)
  {
    hide Sound, TierTimely, Retained, CleanCut;
    forall k | 0 <= k < |ux.tiers| ensures TierTimely(cfg.levels[k], k, ux.tiers[k], clock) {
      TimelyEndsInOrder(cfg, tw, k, clock);
      var t, u := tw.tiers[k], ux.tiers[k];
      assert RetainedTier(cfg, now, k, t, u) && CleanCut(EffectivePolicy(cfg, k), t.stored);
      RetainedSuffix(EffectivePolicy(cfg, k), now, t.stored, u.stored);
      SuffixTimely(cfg.levels[k], k, t, |t.stored| - |u.stored|, clock);
      assert u == t.(stored := t.stored[|t.stored| - |u.stored|..]);
    }
  }

  // ---------------------------------------------------------------- runs with retention

  datatype Event = Added(step: Step) | Swept(now: Time)

  /** The tower after each event; event i leads from towers[i] to towers[i + 1]. */
  ghost predicate Lives(cfg: Settings, events: seq<Event>, towers: seq<Tower>)
    requires ValidSettings(cfg)
  {
    && |towers| == |events| + 1 && towers[0] == EmptyTower(cfg)
    && forall i :: 0 <= i < |events| ==> Typed(cfg, towers[i]) && Follow(cfg, events[i], towers[i], towers[i + 1])
  }

  ghost predicate Follow(cfg: Settings, e: Event, tw: Tower, ux: Tower)
    requires ValidSettings(cfg) && Typed(cfg, tw)
  {
    match e
    case Added(step) => ux == AddLeaf(cfg, tw, step.leaf, step.now)
    case Swept(now) => RetainedAll(cfg, now, tw, ux) && CleanPass(cfg, tw)
  }

  /** The latest leaf timestamp so far. */
  function ClockOf(events: seq<Event>): Time {
    if events == [] then 0 else if Last(events).Added? then Last(events).step.leaf.at else ClockOf(DropLast(events))
  }

  predicate InTimeOrder(events: seq<Event>) {
    events != [] ==>
      && InTimeOrder(DropLast(events))
      && (Last(events).Added? ==> InRange(Last(events).step.leaf.at) && ClockOf(DropLast(events)) <= Last(events).step.leaf.at)
  }

  lemma FollowKeeps(cfg: Settings, e: Event, tw: Tower, ux: Tower, before: Time)
    requires ValidSettings(cfg) && RunOk(cfg, tw) && Timely(cfg, tw, before) && Typed(cfg, tw) && Follow(cfg, e, tw, ux)
    requires e.Added? ==> InRange(e.step.leaf.at) && before <= e.step.leaf.at
    ensures RunOk(cfg, ux) && Timely(cfg, ux, if e.Added? then e.step.leaf.at else before)
  {
    hide TierOk, IdsSafe, TierTyped, LeafTierOk, TierTimely, AddLeaf, RetainedAll, CleanPass;
    match e
    case Added(step) =>
      AddLeafOk(cfg, tw, step.leaf, step.now);
      AddLeafTimely(cfg, tw, step.leaf, step.now, before);
    case Swept(now) =>
      RetentionKeepsRunOk(cfg, now, tw, ux);
      RetentionKeepsTimely(cfg, now, tw, ux, before);
  }

  /** Leaves and retention passes in any order: the invariants hold throughout. */
  lemma {:induction false} LivesKeep(cfg: Settings, events: seq<Event>, towers: seq<Tower>)
    requires ValidSettings(cfg) && Lives(cfg, events, towers) && InTimeOrder(events)
    ensures RunOk(cfg, Last(towers)) && Timely(cfg, Last(towers), ClockOf(events))
  {
    hide RunOk, Timely, Follow, Typed, RetainedAll;
    if events == [] {
      EmptyTowerOk(cfg);
      EmptyTowerTimely(cfg);
    } else {
      var n := |events| - 1;
      LivesKeep(cfg, DropLast(events), DropLast(towers));
      assert Follow(cfg, events[n], towers[n], towers[n + 1]);
      FollowKeeps(cfg, Last(events), towers[n], towers[n + 1], ClockOf(DropLast(events)));
    }
  }

  /** What retention leaves still passes the checker, at every level and for every id range. */
  lemma CheckerAcceptsLife(cfg: Settings, events: seq<Event>, towers: seq<Tower>, k: nat, from: Option<nat>, to: Option<nat>)
    requires ValidSettings(cfg) && Lives(cfg, events, towers) && InTimeOrder(events) && k < |cfg.levels|
    ensures |Last(towers).tiers| == |cfg.levels|
    ensures AllValid(Reports(Entries(Last(towers).tiers[k]), k, from, to))
  {
    assert |towers| > 0;
    hide Timely, LeafTierOk, Lives, InTimeOrder, AllValid, Reports, Entries, TierOk, IdsSafe, TierTyped;
    LivesKeep(cfg, events, towers);
    TimelyTierAccepted(cfg, Last(towers), ClockOf(events), k, from, to);
  }

  function AddedLeaves(events: seq<Event>): seq<Leaf> {
    if events == [] then []
    else AddedLeaves(DropLast(events)) + if Last(events).Added? then [Last(events).step.leaf] else []
  }

  ghost predicate SuffixOf<T>(s: seq<T>, t: seq<T>) {
    |s| <= |t| && s == t[|t| - |s|..]
  }

  lemma SweptLeaves(cfg: Settings, now: Time, tw: Tower, ux: Tower, clock: Time)
    requires ValidSettings(cfg) && Sound(cfg, tw) && Timely(cfg, tw, clock)
    requires RetainedAll(cfg, now, tw, ux) && CleanPass(cfg, tw)
    ensures SuffixOf(AllLeaves(ux), AllLeaves(tw))
  {
    hide Sound, Timely, Retained, CleanCut, LeavesIn;
    TimelyEndsInOrder(cfg, tw, 0, clock);
    var t, u := tw.tiers[0], ux.tiers[0];
    assert RetainedTier(cfg, now, 0, t, u) && CleanCut(EffectivePolicy(cfg, 0), t.stored);
    RetainedSuffix(EffectivePolicy(cfg, 0), now, t.stored, u.stored);
    var m := |t.stored| - |u.stored|;
    assert t.stored == t.stored[..m] + t.stored[m..];
    LeavesInConcat(t.stored[..m], t.stored[m..]);
    assert AllLeaves(tw) == LeavesIn(t.stored[..m]) + AllLeaves(ux);
  }

  /** Retention only ever forgets the oldest leaves: what is left is the newest part of the log, in order. */
  lemma {:induction false} LivesKeepNewestLeaves(cfg: Settings, events: seq<Event>, towers: seq<Tower>)
    requires ValidSettings(cfg) && Lives(cfg, events, towers) && InTimeOrder(events)
    ensures SuffixOf(AllLeaves(Last(towers)), AddedLeaves(events))
  {
    hide TierOk, IdsSafe, TierTyped, LeafTierOk, Timely, Typed, RetainedAll, AllLeaves, AddLeaf, CleanPass;
    if events == [] {
      EmptyTowerOk(cfg);
    } else {
      var n := |events| - 1;
      LivesKeepNewestLeaves(cfg, DropLast(events), DropLast(towers));
      LivesKeep(cfg, DropLast(events), DropLast(towers));
      assert Follow(cfg, events[n], towers[n], towers[n + 1]);
      match events[n]
      case Added(step) =>
        AddLeafOk(cfg, towers[n], step.leaf, step.now);
      case Swept(now) =>
        SweptLeaves(cfg, now, towers[n], towers[n + 1], ClockOf(DropLast(events)));
    }
  }
}
