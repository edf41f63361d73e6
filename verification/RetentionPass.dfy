/** `apply_retention_policies`, on the time hierarchy manager's store. */
module RetentionPass {
  import opened Prelude
  import opened Hashing
  import opened Config
  import opened Pages
  import opened Towers
  import opened Safety
  import opened Conservation
  import opened Storage
  import opened Retention
  import opened TimeManager

  function IdSet(s: seq<Summary>): set<nat> {
    set i | 0 <= i < |s| :: s[i].id
  }

  function ExpiredIds(s: seq<Summary>, now: Time, seconds: nat): set<nat> {
    set i | 0 <= i < |s| && Expired(s[i].end, now, seconds) :: s[i].id
  }

  // ---------------------------------------------------------------- the pass

  /** Deletes listed pages one by one. */
  method DeleteListed(storage: MemoryStorage, level: nat, summaries: seq<Summary>) returns (ghost gone: set<nat>)
    modifies storage
    ensures gone == IdSet(summaries) && Deleted(old(storage.pages), storage.pages, level, gone)
  {
    gone := {};
    for i := 0 to |summaries|
      invariant gone == IdSet(summaries[..i]) && Deleted(old(storage.pages), storage.pages, level, gone)
    {
      IdSetStep(summaries, i);
      storage.DeletePage(level, summaries[i].id);
      gone := gone + {summaries[i].id};
    }
    assert summaries[..|summaries|] == summaries;
  }

  /** Deletes the listed pages that ended longer ago than the given age. */
  method DeleteOlder(storage: MemoryStorage, level: nat, summaries: seq<Summary>, now: Time, seconds: nat) returns (ghost gone: set<nat>)
    modifies storage
    ensures gone == ExpiredIds(summaries, now, seconds) && Deleted(old(storage.pages), storage.pages, level, gone)
  {
    gone := {};
    for i := 0 to |summaries|
      invariant gone == ExpiredIds(summaries[..i], now, seconds) && Deleted(old(storage.pages), storage.pages, level, gone)
    {
      ExpiredIdsStep(summaries, i, now, seconds);
      if summaries[i].end > now {
        continue;
      }
      var pageAge := now - summaries[i].end;
      if pageAge > seconds * NANOS_PER_SECOND {
        storage.DeletePage(level, summaries[i].id);
        gone := gone + {summaries[i].id};
      }
    }
    assert summaries[..|summaries|] == summaries;
  }

  method DeletePages(m: TimeHierarchyManager, level: nat, summaries: seq<Summary>) returns (ghost gone: set<nat>)
    requires m.Valid() && level < |m.cfg.levels|
    modifies m`tower, m.storage
    ensures m.Valid() && level < |old(m.tower).tiers| && m.tower == Pruned(old(m.tower), level, gone)
    ensures gone == IdSet(summaries)
  {
    hide Represents, Pruned, LeafTierOk, ValidSettings, Deleted, IdSet;
    LevelsMatch(m.View(), m.cfg, m.tower);
    gone := DeleteListed(m.storage, level, summaries);
    PrunedRepresents(old(m.View()), m.cfg, m.tower, level, gone, m.storage.pages);
    m.tower := Pruned(m.tower, level, gone);
  }

  method DeleteExpired(m: TimeHierarchyManager, level: nat, summaries: seq<Summary>, now: Time, seconds: nat) returns (ghost gone: set<nat>)
    requires m.Valid() && level < |m.cfg.levels|
    modifies m`tower, m.storage
    ensures m.Valid() && level < |old(m.tower).tiers| && m.tower == Pruned(old(m.tower), level, gone)
    ensures gone == ExpiredIds(summaries, now, seconds)
  {
    hide Represents, Pruned, LeafTierOk, ValidSettings, Deleted, ExpiredIds;
    LevelsMatch(m.View(), m.cfg, m.tower);
    gone := DeleteOlder(m.storage, level, summaries, now, seconds);
    PrunedRepresents(old(m.View()), m.cfg, m.tower, level, gone, m.storage.pages);
    m.tower := Pruned(m.tower, level, gone);
  }

  /** The effective policy on one level. */
  method ApplyRetention(m: TimeHierarchyManager, level: nat, now: Time)
    requires m.Valid() && level < |m.cfg.levels|
    modifies m`tower, m.storage
    ensures m.Valid() && |m.tower.tiers| == |old(m.tower).tiers| == |m.cfg.levels| && m.tower.next == old(m.tower).next
    ensures RetainedTier(m.cfg, now, level, old(m.tower).tiers[level], m.tower.tiers[level])
    ensures forall j :: 0 <= j < |m.tower.tiers| && j != level ==> m.tower.tiers[j] == old(m.tower).tiers[j]
  {
    hide Represents, LeafTierOk, ValidSettings, Without, IdSet, ExpiredIds, Filter, DropsOldest, Ascending, SortedBy;
    StoredInOrder(m.View(), m.cfg, m.tower, level);
    ghost var before := m.tower.tiers[level].stored;
    var summaries := m.ListPages(level);
    match EffectivePolicy(m.cfg, level) {
      case KeepIndefinitely =>
      case DeleteAfterSecs(seconds) =>
        if seconds > 0 {
          ghost var gone := DeleteExpired(m, level, summaries, now, seconds);
          ExpiredGone(before, gone, now, seconds);
        }
      case KeepNPages(n) =>
        if n == 0 {
          ghost var gone := DeletePages(m, level, summaries);
          AllGone(before, gone);
        } else if |summaries| > n {
          var sorted := SortByEnd(summaries);
          ghost var gone := DeletePages(m, level, sorted[..|sorted| - n]);
          OldestDropped(before, sorted, n, gone);
        } else {
          NoneGone(before);
        }
    }
  }

  /** Every level in turn. */
  method ApplyRetentionPolicies(m: TimeHierarchyManager, now: Time)
    requires m.Valid()
    modifies m`tower, m.storage
    ensures m.Valid() && RetainedAll(m.cfg, now, old(m.tower), m.tower)
    ensures Passed(m.cfg, now, old(m.tower), m.tower)
  {
    RepresentsSound(m.View(), m.cfg, m.tower);
    hide Represents, LeafTierOk, ValidSettings, RetainedTier, Passed, Sound;
    LevelsMatch(m.View(), m.cfg, m.tower);
    for level := 0 to |m.cfg.levels|
      invariant m.Valid() && |m.tower.tiers| == |old(m.tower).tiers| == |m.cfg.levels| && m.tower.next == old(m.tower).next
      invariant forall k :: 0 <= k < level ==> RetainedTier(m.cfg, now, k, old(m.tower).tiers[k], m.tower.tiers[k])
      invariant forall k :: level <= k < |m.tower.tiers| ==> m.tower.tiers[k] == old(m.tower).tiers[k]
    {
      ApplyRetention(m, level, now);
    }
    RetainedPasses(m.cfg, now, old(m.tower), m.tower);
  }

  // ---------------------------------------------------------------- deleting from the store

  lemma LevelsMatch(f: Maps, cfg: Settings, tw: Tower)
    requires Represents(f, cfg, tw)
    ensures |tw.tiers| == |cfg.levels|
  {
  }

  lemma IdSetStep(s: seq<Summary>, i: nat)
    requires i < |s|
    ensures IdSet(s[..i + 1]) == IdSet(s[..i]) + {s[i].id}
  {
    assert s[..i + 1][i] == s[i];
    forall j | 0 <= j < i ensures s[..i + 1][j] == s[..i][j] {
    }
  }

  lemma ExpiredIdsStep(s: seq<Summary>, i: nat, now: Time, seconds: nat)
    requires i < |s|
    ensures ExpiredIds(s[..i + 1], now, seconds)
      == ExpiredIds(s[..i], now, seconds) + if Expired(s[i].end, now, seconds) then {s[i].id} else {}
  {
    assert s[..i + 1][i] == s[i];
    forall j | 0 <= j < i ensures s[..i + 1][j] == s[..i][j] {
    }
  }

  ghost predicate Doomed(key: PageKey, k: nat, gone: set<nat>) {
    key.level == k && key.id in gone
  }

  /** The store after pages of one level were deleted. */
  ghost predicate Deleted(before: map<PageKey, Page>, after: map<PageKey, Page>, k: nat, gone: set<nat>) {
    && (forall key :: key in after <==> key in before && !Doomed(key, k, gone))
    && (forall key :: key in after ==> after[key] == before[key])
  }

  /** Deleting pages of one level from the store prunes that tier. */
  lemma PrunedMirrors(f: Maps, tw: Tower, k: nat, gone: set<nat>, pages: map<PageKey, Page>)
    requires StoreMirrors(f.pages, tw) && k < |tw.tiers|
    requires Deleted(f.pages, pages, k, gone)
    ensures StoreMirrors(pages, Pruned(tw, k, gone))
  {
    hide Filter;
    FilterMembers(tw.tiers[k].stored, IdOutside(gone));
  }

  lemma PrunedRepresents(f: Maps, cfg: Settings, tw: Tower, k: nat, gone: set<nat>, pages: map<PageKey, Page>)
    requires Represents(f, cfg, tw) && k < |tw.tiers|
    requires Deleted(f.pages, pages, k, gone)
    ensures |Pruned(tw, k, gone).tiers| == |tw.tiers| && Represents(f.(pages := pages), cfg, Pruned(tw, k, gone))
    ensures LeafTierOk(cfg, tw.tiers[0]) ==> LeafTierOk(cfg, Pruned(tw, k, gone).tiers[0])
  {
    assert TierMirrors(f, k, tw.tiers[k]);
    hide TierOk, IdsSafe, TierTyped, StoreMirrors, TiersMirror, LeafTierOk, Without;
    PrunedOk(cfg, tw, k, gone);
    PrunedMirrors(f, tw, k, gone, pages);
    TiersMirrorAt(f, f.(pages := pages), tw, Pruned(tw, k, gone), k);
  }

  lemma StoredInOrder(f: Maps, cfg: Settings, tw: Tower, k: nat)
    requires Represents(f, cfg, tw) && k < |cfg.levels|
    ensures |tw.tiers| == |cfg.levels| && Ascending(tw.tiers[k].stored)
  {
    TierAscends(cfg, tw, k);
  }

  lemma ExpiredGone(before: seq<Page>, gone: set<nat>, now: Time, seconds: nat)
    requires Ascending(before)
    requires gone == ExpiredIds(Summaries(before), now, seconds)
    ensures Without(before, gone) == Filter(before, Unexpired(now, seconds))
  {
    forall p | p in before ensures IdOutside(gone)(p) == Unexpired(now, seconds)(p) {
      var i :| 0 <= i < |before| && before[i] == p;
      if p.id in gone {
        var j :| 0 <= j < |before| && Summaries(before)[j].id == p.id && Expired(Summaries(before)[j].end, now, seconds);
        assert i == j;
      } else {
        assert Summaries(before)[i].id == p.id;
      }
    }
    FilterAgrees(before, IdOutside(gone), Unexpired(now, seconds));
  }

  lemma NoneGone(before: seq<Page>)
    ensures DropsOldest(before, before, {})
  {
    FilterAll(before, IdOutside({}));
  }

  lemma AllGone(before: seq<Page>, gone: set<nat>)
    requires gone == IdSet(Summaries(before))
    ensures Without(before, gone) == [] && DropsOldest(before, [], gone)
  {
    forall i | 0 <= i < |before| ensures before[i].id in gone {
      assert Summaries(before)[i].id in gone;
    }
    FilterNonEmpty(before, IdOutside(gone));
  }

  function SummaryEnd(s: Summary): int { s.end }

  /** The library's unstable sort: any order of the same summaries with ends ascending. */
  method SortByEnd(summaries: seq<Summary>) returns (sorted: seq<Summary>)
    ensures multiset(sorted) == multiset(summaries) && |sorted| == |summaries| && SortedBy(sorted, SummaryEnd)
  {
    SortBySorts(summaries, SummaryEnd);
    assert |SortBy(summaries, SummaryEnd)| == |multiset(SortBy(summaries, SummaryEnd))| == |summaries|;
    sorted := SortBy(summaries, SummaryEnd);
  }

  /** Dropping pages with distinct listed ids drops that many pages. */
  lemma {:induction false} CountWithout(before: seq<Page>, gone: set<nat>)
    requires Ascending(before) && forall id :: id in gone ==> exists i :: 0 <= i < |before| && before[i].id == id
    ensures |Without(before, gone)| + |gone| == |before|
  {
    if before == [] {
      assert gone == {};
    } else {
      var front, last := DropLast(before), Last(before);
      var rest := gone - {last.id};
      assert Ascending(front);
      forall id | id in rest ensures exists i :: 0 <= i < |front| && front[i].id == id {
        var i :| 0 <= i < |before| && before[i].id == id;
        assert front[i].id == id;
      }
      CountWithout(front, rest);
      forall p | p in front ensures IdOutside(gone)(p) == IdOutside(rest)(p) {
        var i :| 0 <= i < |front| && front[i] == p;
        assert before[i].id < last.id;
      }
      FilterAgrees(front, IdOutside(gone), IdOutside(rest));
      if last.id in gone {
        assert |rest| == |gone| - 1;
      } else {
        assert rest == gone;
      }
    }
  }

  lemma {:induction false} IdCount(s: seq<Summary>)
    requires forall i, j :: 0 <= i < j < |s| ==> s[i].id != s[j].id
    ensures |IdSet(s)| == |s|
  {
    if s != [] {
      var front := DropLast(s);
      IdCount(front);
      forall id ensures id in IdSet(s) <==> id in IdSet(front) + {Last(s).id} {
        if id in IdSet(s) {
          var i :| 0 <= i < |s| && s[i].id == id;
          assert i < |front| ==> front[i].id == id;
        }
        if id in IdSet(front) {
          var i :| 0 <= i < |front| && front[i].id == id;
          assert s[i].id == id;
        }
        assert s[|s| - 1].id in IdSet(s);
      }
      assert IdSet(s) == IdSet(front) + {Last(s).id} && Last(s).id !in IdSet(front);
    }
  }

  /** Sorting keeps ids distinct. */
  lemma SortedIdsDistinct(before: seq<Page>, sorted: seq<Summary>)
    requires Ascending(before) && multiset(sorted) == multiset(Summaries(before))
    ensures |sorted| == |before| && forall i, j :: 0 <= i < j < |sorted| ==> sorted[i].id != sorted[j].id
  {
    assert |sorted| == |multiset(sorted)| == |before|;
    forall i, j | 0 <= i < j < |sorted| ensures sorted[i].id != sorted[j].id {
      if sorted[i].id == sorted[j].id {
        SameIdTwice(Summaries(before), sorted, i, j);
      }
    }
  }

  lemma InSorted(before: seq<Page>, sorted: seq<Summary>, s: Summary)
    requires multiset(sorted) == multiset(Summaries(before))
    ensures s in sorted <==> exists j :: 0 <= j < |before| && Summarize(before[j]) == s
  {
    assert s in sorted <==> s in multiset(sorted);
    assert s in Summaries(before) <==> s in multiset(Summaries(before));
    forall j | 0 <= j < |before| ensures Summarize(before[j]) == Summaries(before)[j] {
    }
  }

  /** Deleting the first pages by end time leaves n pages, none of them ending before a deleted one. */
  lemma OldestDropped(before: seq<Page>, sorted: seq<Summary>, n: nat, gone: set<nat>)
    requires Ascending(before) && multiset(sorted) == multiset(Summaries(before)) && SortedBy(sorted, SummaryEnd)
    requires n < |before| && |sorted| == |before| && gone == IdSet(sorted[..|sorted| - n])
    ensures |Without(before, gone)| == n && DropsOldest(before, Without(before, gone), gone)
  {
    hide Without;
    var dropped := sorted[..|sorted| - n];
    SortedIdsDistinct(before, sorted);
    IdCount(dropped);
    forall id | id in gone ensures exists i :: 0 <= i < |before| && before[i].id == id {
      var i :| 0 <= i < |dropped| && dropped[i].id == id;
      InSorted(before, sorted, sorted[i]);
    }
    CountWithout(before, gone);
    forall p, q | p in before && q in Without(before, gone) && p.id in gone ensures p.end <= q.end {
      EndsBefore(before, sorted, n, gone, p, q);
    }
  }

  lemma EndsBefore(before: seq<Page>, sorted: seq<Summary>, n: nat, gone: set<nat>, p: Page, q: Page)
    requires Ascending(before) && multiset(sorted) == multiset(Summaries(before)) && SortedBy(sorted, SummaryEnd)
    requires n < |before| && |sorted| == |before| && gone == IdSet(sorted[..|sorted| - n])
    requires p in before && q in Without(before, gone) && p.id in gone
    ensures p.end <= q.end
  {
    forall c | 0 <= c < |sorted| - n ensures sorted[c].id in gone {
      assert sorted[..|sorted| - n][c].id in gone;
    }
    SortedIdsDistinct(before, sorted);
    FilterMembers(before, IdOutside(gone));
    InSorted(before, sorted, Summarize(p));
    InSorted(before, sorted, Summarize(q));
    var i :| 0 <= i < |sorted| && sorted[i] == Summarize(p);
    var j :| 0 <= j < |sorted| && sorted[j] == Summarize(q);
    var c :| 0 <= c < |sorted| - n && sorted[..|sorted| - n][c].id == p.id;
    assert sorted[c].id == sorted[i].id;
    assert SummaryEnd(sorted[i]) <= SummaryEnd(sorted[j]);
  }
}
