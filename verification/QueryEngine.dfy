/** The query engine: loops over listed pages, proved against the scans of module QuerySpec. */
module QueryEngine {
  import opened Prelude
  import opened Hashing
  import opened Config
  import opened Merkle
  import opened Pages
  import opened Towers
  import opened Safety
  import opened Conservation
  import opened Storage
  import opened TimeManager
  import opened QuerySpec
  import opened Integrity
  import opened Audits
  import opened Inclusion

  // ---------------------------------------------------------------- in-place delta application

  /** The loop of `apply_delta` over the fields of an object delta. */
  method ApplyDeltaTo(state: Json, delta: Json) returns (r: Json)
    ensures r == ApplyDelta(state, delta)
    decreases delta
  {
    if !(state.Object? && delta.Object?) {
      return delta;
    }
    var fields := state.fields;
    var rest := delta.fields.Keys;
    while rest != {}
      invariant rest <= delta.fields.Keys
      invariant fields.Keys == state.fields.Keys + (delta.fields.Keys - rest)
      invariant forall k :: k in fields && (k in rest || k !in delta.fields) ==> fields[k] == state.fields[k]
      invariant forall k :: k in fields && k !in rest && k in delta.fields ==>
        fields[k] == (if k in state.fields then ApplyDelta(state.fields[k], delta.fields[k]) else delta.fields[k])
      decreases rest
    {
      var k :| k in rest;
      rest := rest - {k};
      var value := delta.fields[k];
      if k in fields {
        value := ApplyDeltaTo(fields[k], delta.fields[k]);
      }
      fields := fields[k := value];
    }
    return Object(fields);
  }

  // ---------------------------------------------------------------- loops over one page

  lemma {:induction false} TakeWhilePrefix<T>(s: seq<T>, p: T -> bool, j: nat)
    requires j <= |s| && (forall i :: 0 <= i < j ==> p(s[i])) && (j == |s| || !p(s[j]))
    ensures TakeWhile(s, p) == s[..j]
  {
    if j > 0 {
      TakeWhilePrefix(s[1..], p, j - 1);
      assert s[..j] == [s[0]] + s[1..][..j - 1];
    }
  }

  lemma FilterStep<T>(s: seq<T>, j: nat, p: T -> bool)
    requires j < |s|
    ensures Filter(s[..j + 1], p) == Filter(s[..j], p) + if p(s[j]) then [s[j]] else []
  {
    assert s[..j + 1] == s[..j] + [s[j]];
    FilterSnoc(s[..j], s[j], p);
  }

  lemma FoldStep(leaves: seq<Leaf>, l: Leaf)
    ensures FoldDeltas(leaves + [l]) == ApplyDelta(FoldDeltas(leaves), l.payload)
  {
    assert DropLast(leaves + [l]) == leaves;
  }

  /** Applies one page's deltas for a container, stopping at the first late leaf. */
  method ReplayPage(leaves: seq<Leaf>, c: string, at: Time, before: Json, ghost read: seq<Leaf>) returns (state: Json, found: bool)
    requires before == FoldDeltas(read)
    ensures var mine := Filter(TakeWhile(leaves, UpTo(at)), Of(c));
      state == FoldDeltas(read + mine) && found == (mine != [])
  {
    hide FoldDeltas, ApplyDelta;
    state, found := before, false;
    assert read + [] == read;
    var j := 0;
    while j < |leaves|
      invariant j <= |leaves| && forall i :: 0 <= i < j ==> leaves[i].at <= at
      invariant state == FoldDeltas(read + Filter(leaves[..j], Of(c))) && found == (Filter(leaves[..j], Of(c)) != [])
    {
      if leaves[j].at > at {
        break;
      }
      FilterStep(leaves, j, Of(c));
      ghost var sofar := read + Filter(leaves[..j], Of(c));
      assert read + Filter(leaves[..j + 1], Of(c)) == if Of(c)(leaves[j]) then sofar + [leaves[j]] else sofar;
      if leaves[j].container == c {
        FoldStep(sofar, leaves[j]);
        state := ApplyDeltaTo(state, leaves[j].payload);
        found := true;
      }
      j := j + 1;
    }
    TakeWhilePrefix(leaves, UpTo(at), j);
  }

  /** Collects one page's deltas for a container and range. */
  method CollectPage(leaves: seq<Leaf>, c: string, from: Time, to: Time) returns (mine: seq<Leaf>)
    requires from <= to
    ensures mine == Filter(TakeWhile(leaves, UpTo(to)), OfBetween(c, from, to))
  {
    mine := [];
    var j := 0;
    while j < |leaves|
      invariant j <= |leaves| && forall i :: 0 <= i < j ==> leaves[i].at <= to
      invariant mine == Filter(leaves[..j], OfBetween(c, from, to))
    {
      FilterStep(leaves, j, OfBetween(c, from, to));
      if leaves[j].at < from {
        j := j + 1;
        continue;
      }
      if leaves[j].at > to {
        break;
      }
      if leaves[j].container == c {
        mine := mine + [leaves[j]];
      }
      j := j + 1;
    }
    TakeWhilePrefix(leaves, UpTo(to), j);
  }

  /** What the paginated loop knows after reading `read`: the slice, and how many it skipped while not full. */
  ghost predicate Paged(read: seq<Leaf>, offset: nat, limit: nat, deltas: seq<Leaf>, skipped: nat, seen: bool) {
    && deltas == Slice(read, offset, limit)
    && seen == (read != [])
    && (|deltas| < limit ==> skipped == Min(offset, |read|))
  }

  lemma PagedFull(read: seq<Leaf>, more: seq<Leaf>, offset: nat, limit: nat, deltas: seq<Leaf>, skipped: nat, seen: bool)
    requires limit > 0 && Paged(read, offset, limit, deltas, skipped, seen) && |deltas| == limit
    ensures Paged(read + more, offset, limit, deltas, skipped, seen)
  {
  }

  lemma PagedSkip(read: seq<Leaf>, l: Leaf, offset: nat, limit: nat, deltas: seq<Leaf>, skipped: nat, seen: bool)
    requires limit > 0 && Paged(read, offset, limit, deltas, skipped, seen) && |deltas| < limit && skipped < offset
    ensures Paged(read + [l], offset, limit, deltas, skipped + 1, true)
  {
  }

  lemma PagedTake(read: seq<Leaf>, l: Leaf, offset: nat, limit: nat, deltas: seq<Leaf>, skipped: nat, seen: bool)
    requires limit > 0 && Paged(read, offset, limit, deltas, skipped, seen) && |deltas| < limit && skipped >= offset
    ensures Paged(read + [l], offset, limit, deltas + [l], skipped, true)
  {
  }

  /** The paginated loop over one page: skip, collect, and stop once the page of results is full. */
  method CollectBatch(leaves: seq<Leaf>, c: string, from: Time, to: Time, offset: nat, limit: nat,
                      deltas0: seq<Leaf>, skipped0: nat, seen0: bool, ghost read: seq<Leaf>)
    returns (deltas: seq<Leaf>, skipped: nat, seen: bool)
    requires from <= to && limit > 0 && |deltas0| < limit && Paged(read, offset, limit, deltas0, skipped0, seen0)
    ensures Paged(read + Filter(TakeWhile(leaves, UpTo(to)), OfBetween(c, from, to)), offset, limit, deltas, skipped, seen)
  {
    hide Paged;
    deltas, skipped, seen := deltas0, skipped0, seen0;
    ghost var p := OfBetween(c, from, to);
    assert read + [] == read;
    var j := 0;
    while j < |leaves|
      invariant j <= |leaves| && |deltas| < limit && forall i :: 0 <= i < j ==> leaves[i].at <= to
      invariant Paged(read + Filter(leaves[..j], p), offset, limit, deltas, skipped, seen)
    {
      FilterStep(leaves, j, p);
      ghost var sofar := read + Filter(leaves[..j], p);
      assert read + Filter(leaves[..j + 1], p) == if p(leaves[j]) then sofar + [leaves[j]] else sofar;
      if leaves[j].at < from {
        j := j + 1;
        continue;
      }
      if leaves[j].at > to {
        break;
      }
      if leaves[j].container == c {
        if skipped < offset {
          PagedSkip(sofar, leaves[j], offset, limit, deltas, skipped, seen);
          seen := true;
          skipped := skipped + 1;
          j := j + 1;
          continue;
        }
        PagedTake(sofar, leaves[j], offset, limit, deltas, skipped, seen);
        seen := true;
        deltas := deltas + [leaves[j]];
        if |deltas| == limit {
          PageFilled(read, leaves, j + 1, to, p, offset, limit, deltas, skipped, seen);
          return;
        }
      }
      j := j + 1;
    }
    TakeWhilePrefix(leaves, UpTo(to), j);
  }

  /** Once the page of results is full, the unread rest of the leaves does not matter. */
  lemma PageFilled(read: seq<Leaf>, leaves: seq<Leaf>, j: nat, to: Time, p: Leaf -> bool,
                   offset: nat, limit: nat, deltas: seq<Leaf>, skipped: nat, seen: bool)
    requires j <= |leaves| && forall i :: 0 <= i < j ==> leaves[i].at <= to
    requires limit > 0 && Paged(read + Filter(leaves[..j], p), offset, limit, deltas, skipped, seen) && |deltas| == limit
    ensures Paged(read + Filter(TakeWhile(leaves, UpTo(to)), p), offset, limit, deltas, skipped, seen)
  {
    hide Paged;
    RestOfPage(leaves, j, to, p);
    var done, all := Filter(leaves[..j], p), Filter(TakeWhile(leaves, UpTo(to)), p);
    PagedFull(read + done, all[|done|..], offset, limit, deltas, skipped, seen);
    assert read + done + all[|done|..] == read + all;
  }

  /** What was collected so far is a prefix of what the whole page yields. */
  lemma RestOfPage(leaves: seq<Leaf>, j: nat, to: Time, p: Leaf -> bool)
    requires j <= |leaves| && forall i :: 0 <= i < j ==> leaves[i].at <= to
    ensures Filter(leaves[..j], p) <= Filter(TakeWhile(leaves, UpTo(to)), p)
  {
    hide Filter, TakeWhile;
    TakeWhileExtends(leaves, UpTo(to), j);
    var t := TakeWhile(leaves, UpTo(to));
    assert t == leaves[..j] + t[j..];
    FilterConcat(leaves[..j], t[j..], p);
  }

  lemma {:induction false} TakeWhileExtends<T>(s: seq<T>, p: T -> bool, j: nat)
    requires j <= |s| && forall i :: 0 <= i < j ==> p(s[i])
    ensures s[..j] <= TakeWhile(s, p)
  {
    if j > 0 {
      TakeWhileExtends(s[1..], p, j - 1);
      assert s[..j] == [s[0]] + s[1..][..j - 1];
    }
  }

  // ---------------------------------------------------------------- listings

  function SummaryStart(s: Summary): int { s.start }

  lemma {:induction false} InsertSummaries(pages: seq<Page>, p: Page)
    ensures InsertBy(Summaries(pages), Summarize(p), SummaryStart) == Summaries(InsertBy(pages, p, ByStart))
  {
    if pages != [] {
      assert DropLast(Summaries(pages)) == Summaries(DropLast(pages));
      InsertSummaries(DropLast(pages), p);
    }
  }

  lemma {:induction false} SortSummaries(pages: seq<Page>)
    ensures SortBy(Summaries(pages), SummaryStart) == Summaries(SortBy(pages, ByStart))
  {
    if pages != [] {
      assert DropLast(Summaries(pages)) == Summaries(DropLast(pages));
      SortSummaries(DropLast(pages));
      InsertSummaries(SortBy(DropLast(pages), ByStart), Last(pages));
    }
  }

  lemma SortMembers(pages: seq<Page>)
    ensures forall i :: 0 <= i < |SortBy(pages, ByStart)| ==> SortBy(pages, ByStart)[i] in pages
  {
    SortBySorts(pages, ByStart);
    forall i | 0 <= i < |SortBy(pages, ByStart)| ensures SortBy(pages, ByStart)[i] in pages {
      assert SortBy(pages, ByStart)[i] in multiset(SortBy(pages, ByStart));
    }
  }

  /** At level 0 the active page is never in the store. */
  lemma ActiveUnstored(f: Maps, cfg: Settings, tw: Tower)
    requires Represents(f, cfg, tw) && |tw.tiers| > 0 && tw.tiers[0].active.Some?
    ensures tw.tiers[0].active.value.level == 0 && PageKey(0, tw.tiers[0].active.value.id) !in f.pages
  {
    hide TiersMirror, IdsSafe, StoredOk, Extends;
    var t := tw.tiers[0];
    assert TierOk(cfg, 0, t);
    forall i | 0 <= i < |t.stored| ensures t.stored[i].id < t.active.value.id {
      assert t.stored[i].id <= Last(t.stored).id;
    }
  }

  /** What the manager's maps say about the active page of a level. */
  lemma ActiveEntryOf(f: Maps, cfg: Settings, tw: Tower, k: nat)
    requires Represents(f, cfg, tw)
    ensures |tw.tiers| == |cfg.levels| > 0
    ensures k < |tw.tiers| ==> tw.tiers[k].active == if k in f.active then Some(f.active[k]) else None
    ensures k >= |tw.tiers| ==> k !in f.active
  {
    hide Sound, Typed, StoreMirrors;
    assert k < |tw.tiers| ==> TierMirrors(f, k, tw.tiers[k]);
  }

  class QueryEngine {
    const manager: TimeHierarchyManager

    constructor (m: TimeHierarchyManager)
      ensures manager == m
    {
      manager := m;
    }

    /** Stored pages followed by the active one. */
    method ListWithActive(level: nat) returns (summaries: seq<Summary>)
      requires manager.Consistent()
      ensures |manager.tower.tiers| == |manager.cfg.levels| > 0
      ensures summaries == if level < |manager.tower.tiers| then Summaries(TierPages(manager.tower.tiers[level])) else []
    {
      hide Represents;
      ActiveEntryOf(manager.View(), manager.cfg, manager.tower, level);
      summaries := manager.ListPages(level);
      if level in manager.activePages {
        summaries := summaries + [Summarize(manager.activePages[level])];
      }
    }

    /** Level-0 pages by start time. The active page is asked for in storage, where it never is. */
    method ListForReplay() returns (summaries: seq<Summary>)
      requires manager.Consistent()
      ensures |manager.tower.tiers| > 0
      ensures summaries == Summaries(SortBy(manager.tower.tiers[0].stored, ByStart))
    {
      hide Represents, SortBy;
      ActiveEntryOf(manager.View(), manager.cfg, manager.tower, 0);
      summaries := manager.ListPages(0);
      if 0 in manager.activePages {
        var found := manager.storage.LoadPage(0, manager.activePages[0].id);
        if found.Some? {
          summaries := summaries + [Summarize(found.value)];
        }
        ActiveUnstored(manager.View(), manager.cfg, manager.tower);
      }
      SortSummaries(manager.tower.tiers[0].stored);
      summaries := SortBy(summaries, SummaryStart);
    }

    /** The leaves of a listed level-0 page, from the store. */
    method LoadStoredLeaves(summary: Summary, ghost p: Page) returns (leaves: seq<Leaf>)
      requires manager.Consistent() && |manager.tower.tiers| > 0
      requires p in manager.tower.tiers[0].stored && summary == Summarize(p)
      ensures leaves == PageLeaves(p)
    {
      hide Represents;
      StoredLookup(manager.View(), manager.cfg, manager.tower, 0, p);
      leaves := [];
      var page := manager.storage.LoadPage(summary.level, summary.id);
      if page.Some? && page.value.content.Leaves? {
        leaves := page.value.content.leaves;
      }
    }

    method ReconstructContainerState(c: string, at: Time) returns (r: Result<Json, QueryError>)
      requires manager.Consistent()
      ensures |manager.tower.tiers| > 0 && r == Reconstruct(manager.tower.tiers[0].stored, c, at)
    {
      hide Represents, FoldDeltas, ApplyDelta, SortBy, TakeWhile, Filter;
      var summaries := ListForReplay();
      ghost var pages := SortBy(manager.tower.tiers[0].stored, ByStart);
      SortMembers(manager.tower.tiers[0].stored);
      FoldNothing();
      ghost var read: seq<Leaf> := [];
      var state, any := Null, false;
      var i := 0;
      while i < |summaries|
        invariant i <= |summaries|
        invariant state == FoldDeltas(read) && any == (read != [])
        invariant read + ReadUpTo(pages[i..], c, at) == ReadUpTo(pages, c, at)
      {
        if summaries[i].start > at {
          break;
        }
        var leaves := LoadStoredLeaves(summaries[i], pages[i]);
        var found;
        state, found := ReplayPage(leaves, c, at, state, read);
        any := any || found;
        ghost var mine := ReadStep(pages, i, c, at, read);
        read := read + mine;
        i := i + 1;
      }
      assert ReadUpTo(pages[i..], c, at) == [];
      assert read == ReadUpTo(pages, c, at);
      if !any {
        return Err(ContainerNotFound);
      }
      return Ok(state);
    }

    /** The leaves of a listed level-0 page, from the store or else from the active page. */
    method LoadListedLeaves(summary: Summary, ghost p: Page) returns (leaves: seq<Leaf>)
      requires manager.Consistent() && |manager.tower.tiers| > 0
      requires p in TierPages(manager.tower.tiers[0]) && summary == Summarize(p)
      ensures leaves == PageLeaves(p)
    {
      hide Represents;
      ActiveEntryOf(manager.View(), manager.cfg, manager.tower, 0);
      ListedLookup(manager.View(), manager.cfg, manager.tower, p);
      leaves := [];
      var page := manager.storage.LoadPage(summary.level, summary.id);
      if page.None? && 0 in manager.activePages {
        var active := manager.activePages[0];
        if active.id == summary.id && active.level == summary.level {
          page := Some(active);
        }
      }
      if page.Some? && page.value.content.Leaves? {
        leaves := page.value.content.leaves;
      }
    }

    method ListByStart() returns (summaries: seq<Summary>)
      requires manager.Consistent()
      ensures |manager.tower.tiers| > 0
      ensures summaries == Summaries(SortBy(TierPages(manager.tower.tiers[0]), ByStart))
    {
      hide Represents, SortBy, TierPages;
      summaries := ListWithActive(0);
      SortSummaries(TierPages(manager.tower.tiers[0]));
      summaries := SortBy(summaries, SummaryStart);
    }

    method GetDeltaReport(c: string, from: Time, to: Time) returns (r: Result<seq<Leaf>, QueryError>)
      requires manager.Consistent()
      ensures |manager.tower.tiers| > 0 && r == DeltaReport(TierPages(manager.tower.tiers[0]), c, from, to)
      ensures from > to ==> r == Err(InvalidParameters)
    {
      hide Represents, SortBy, TakeWhile, Filter, TierPages, ReadBetween;
      var summaries := ListByStart();
      if from > to {
        return Err(InvalidParameters);
      }
      ghost var pages := SortBy(TierPages(manager.tower.tiers[0]), ByStart);
      SortMembers(TierPages(manager.tower.tiers[0]));
      ReadNothing(pages, c, from, to);
      var deltas: seq<Leaf> := [];
      for i := 0 to |summaries|
        invariant deltas == ReadBetween(pages[..i], c, from, to)
      {
        BetweenStep(pages, i, c, from, to);
        if summaries[i].end < from || summaries[i].start > to {
          continue;
        }
        var leaves := LoadListedLeaves(summaries[i], pages[i]);
        var mine := CollectPage(leaves, c, from, to);
        deltas := deltas + mine;
      }
      assert pages[..|summaries|] == pages;
      if deltas == [] {
        return Err(ContainerNotFound);
      }
      return Ok(SortBy(deltas, ByTime));
    }

    method GetDeltaReportPaginated(c: string, from: Time, to: Time, offset: nat, limit: nat) returns (r: Result<seq<Leaf>, QueryError>)
      requires manager.Consistent()
      ensures |manager.tower.tiers| > 0
      ensures r == DeltaReportPage(TierPages(manager.tower.tiers[0]), c, from, to, offset, limit)
      ensures from > to ==> r == Err(InvalidParameters)
      ensures from <= to && limit == 0 ==> r == Ok([])
    {
      hide Represents, SortBy, TakeWhile, Filter, TierPages, ReadBetween, Slice, Paged;
      var summaries := ListByStart();
      if from > to {
        return Err(InvalidParameters);
      }
      if limit == 0 {
        return Ok([]);
      }
      ghost var pages := SortBy(TierPages(manager.tower.tiers[0]), ByStart);
      SortMembers(TierPages(manager.tower.tiers[0]));
      ReadNothing(pages, c, from, to);
      PagedNothing(offset, limit);
      var deltas: seq<Leaf>, skipped, seen := [], 0, false;
      var i := 0;
      while i < |summaries|
        invariant i <= |summaries| && |deltas| < limit
        invariant Paged(ReadBetween(pages[..i], c, from, to), offset, limit, deltas, skipped, seen)
      {
        BetweenStep(pages, i, c, from, to);
        if summaries[i].end < from || summaries[i].start > to {
          i := i + 1;
          continue;
        }
        var leaves := LoadListedLeaves(summaries[i], pages[i]);
        deltas, skipped, seen := CollectBatch(leaves, c, from, to, offset, limit, deltas, skipped, seen, ReadBetween(pages[..i], c, from, to));
        i := i + 1;
        PagedBounded(ReadBetween(pages[..i], c, from, to), offset, limit, deltas, skipped, seen);
        if |deltas| == limit {
          break;
        }
      }
      PagedRest(pages, i, c, from, to, offset, limit, deltas, skipped, seen);
      PagedAnswer(ReadBetween(pages, c, from, to), offset, limit, deltas, skipped, seen);
      if !seen {
        return Err(ContainerNotFound);
      }
      return Ok(SortBy(deltas, ByTime));
    }

    /** The page behind a summary, and whether it came from the store. */
    method LoadEntry(level: nat, summary: Summary) returns (r: Option<Entry>)
      ensures var key := PageKey(level, summary.id);
        r == if key in manager.storage.pages then Some(Entry(manager.storage.pages[key], true))
             else if level in manager.activePages && manager.activePages[level].id == summary.id then Some(Entry(manager.activePages[level], false))
             else None
    {
      var page := manager.storage.LoadPage(level, summary.id);
      if page.Some? {
        return Some(Entry(page.value, true));
      }
      if level in manager.activePages && manager.activePages[level].id == summary.id {
        return Some(Entry(manager.activePages[level], false));
      }
      return None;
    }

    /** What the checker says of one loaded page. */
    method CheckEntry(e: Entry, level: nat, prev: Option<Hash>) returns (report: Report)
      ensures report == ReportOn(e, level, prev)
    {
      var issues: seq<string> := [];
      if e.fromStorage {
        var again := e.page.Recalculate();
        if again.root != e.page.root {
          issues := issues + ["merkle_root mismatch"];
        }
        if again.hash != e.page.hash {
          issues := issues + ["page_hash mismatch"];
        }
        if prev.Some? && e.page.prev != prev {
          issues := issues + ["prev_page_hash mismatch"];
        }
      }
      return Report(e.page.id, level, issues == [], issues);
    }

    /** Every page the store has for the level, and the active one, by id. */
    method ListById(level: nat) returns (summaries: seq<Summary>)
      requires manager.storage.WellKeyed()
      ensures Listing(manager.View(), level, summaries)
      ensures manager.Consistent() ==> |manager.tower.tiers| == |manager.cfg.levels|
      ensures manager.Consistent() ==>
        summaries == if level < |manager.tower.tiers| then Summaries(TierPages(manager.tower.tiers[level])) else []
    {
      hide Represents, SortBy, TierPages, SortedBy;
      var listed := manager.storage.ListFinalizedPagesSummary(level);
      summaries := listed;
      if level in manager.activePages {
        summaries := summaries + [Summarize(manager.activePages[level])];
      }
      SortedListing(manager.View(), level, listed, summaries);
      if manager.Consistent() {
        ListedIsStored(manager.View(), manager.cfg, manager.tower, level, listed);
        ActiveListed(manager.View(), manager.cfg, manager.tower, level, listed, summaries);
        AlreadyById(manager.View(), manager.cfg, manager.tower, level);
      }
      summaries := SortBy(summaries, SummaryId);
    }

    /** Checks any well-keyed store and active pages, however they came about; the pages it looks at are `entries`. */
    method GetPageChainIntegrity(level: nat, from: Option<nat>, to: Option<nat>) returns (r: Result<seq<Report>, QueryError>, ghost entries: seq<Entry>)
      requires manager.storage.WellKeyed()
      ensures r.Err? <==> from.Some? && to.Some? && from.value > to.value
      ensures r.Err? ==> r.error == InvalidParameters
      ensures EntriesOf(manager.View(), level, entries)
      ensures r.Ok? ==> r.value == Reports(entries, level, from, to)
      ensures r.Ok? ==> (AllValid(r.value) <==> AllRight(entries, from, to))
      ensures manager.Consistent() ==> |manager.tower.tiers| == |manager.cfg.levels|
      ensures manager.Consistent() ==> entries == if level < |manager.tower.tiers| then Entries(manager.tower.tiers[level]) else []
    {
      hide Represents, SortBy, TierPages, Entries, Reports, LastSeen, ReportOn, Listing, EntriesOf, AllRight, AllValid, EntriesFor;
      var summaries := ListById(level);
      ListingLoads(manager.View(), level, summaries);
      entries := EntriesFor(manager.View(), level, summaries);
      ListingIsEntries(manager.View(), level, summaries);
      if manager.Consistent() {
        EntriesOfTier(manager.View(), manager.cfg, manager.tower, level, summaries);
      }
      if from.Some? && to.Some? && from.value > to.value {
        return Err(InvalidParameters), entries;
      }
      AcceptedIff(entries, level, from, to);
      var reports: seq<Report> := [];
      var prev: Option<Hash> := None;
      NothingReported(entries, level, from, to);
      EntriesForAt(manager.View(), level, summaries);
      for i := 0 to |summaries|
        invariant reports == Reports(entries[..i], level, from, to) && prev == LastSeen(entries[..i], from, to)
      {
        ReportStep(entries, i, level, from, to);
        var summary := summaries[i];
        if (from.Some? && summary.id < from.value) || (to.Some? && summary.id > to.value) {
          continue;
        }
        var found := LoadEntry(level, summary);
        match found {
          case Some(e) =>
            var report := CheckEntry(e, level, prev);
            prev := Some(e.page.hash);
            reports := reports + [report];
          case None =>
            reports := reports + [Report(summary.id, level, false, ["page missing"])];
            prev := None;
        }
      }
      assert entries[..|summaries|] == entries;
      return Ok(reports), entries;
    }

    /** The answer for a page that holds the hash: its first position there, and the tree path to it. */
    method ProveOnPage(page: Page, h: Hash) returns (r: Option<(nat, Proof)>)
      ensures r.Some? <==> h in LeafHashes(PageLeaves(page))
      ensures r.Some? ==> r.value.0 < |PageLeaves(page)| && PageLeaves(page)[r.value.0].hash == h
      ensures r.Some? ==> r.value.1 == ProofFor(LeafHashes(PageLeaves(page)), r.value.0)
    {
      hide ProofFor;
      if !page.content.Leaves? {
        return None;
      }
      var hashes := LeafHashes(page.content.leaves);
      for i := 0 to |hashes|
        invariant forall j :: 0 <= j < i ==> hashes[j] != h
      {
        if hashes[i] == h {
          var tree := NewTree(hashes);
          assert tree.Ok?;
          var proof := tree.value.GetProof(i, hashes);
          return Some((i, proof.value));
        }
      }
      return None;
    }

    /** The hinted page, at any level, is looked at first; a wrong hint is passed over. */
    method ProveByHint(h: Hash, hint: Option<PageKey>) returns (r: Option<InclusionProof>)
      requires manager.Consistent()
      ensures |manager.tower.tiers| > 0
      ensures r.Some? ==> Proves(manager.tower.tiers[0].stored, r.value, h)
    {
      hide Represents, ProofFor, Proves, LeavesIn;
      ActiveEntryOf(manager.View(), manager.cfg, manager.tower, 0);
      if hint.Some? {
        var page := manager.storage.LoadPage(hint.value.level, hint.value.id);
        if page.Some? {
          var found := ProveOnPage(page.value, h);
          if found.Some? {
            var (j, proof) := found.value;
            var a := InclusionProof(PageLeaves(page.value)[j], page.value.id, page.value.level, proof, page.value.root);
            LeafPageStored(manager.View(), manager.cfg, manager.tower, hint.value);
            ProvedAt(manager.tower.tiers[0].stored, a, page.value, h, j);
            return Some(a);
          }
        }
      }
      return None;
    }

    /** The ids of the level-0 pages, the active one included, ascending and without repetition. */
    method LevelZeroIds() returns (ids: seq<nat>)
      requires manager.Consistent()
      ensures |manager.tower.tiers| > 0
      ensures forall p :: p in manager.tower.tiers[0].stored ==> p.id in ids
    {
      hide Represents, SortBy, Dedup;
      ActiveEntryOf(manager.View(), manager.cfg, manager.tower, 0);
      ids := [];
      if 0 in manager.activePages {
        ids := [manager.activePages[0].id];
      }
      var summaries := manager.ListPages(0);
      for i := 0 to |summaries|
        invariant forall j :: 0 <= j < i ==> summaries[j].id in ids
      {
        ids := ids + [summaries[i].id];
      }
      forall p | p in manager.tower.tiers[0].stored ensures p.id in ids {
        var i :| 0 <= i < |manager.tower.tiers[0].stored| && manager.tower.tiers[0].stored[i] == p;
        assert summaries[i].id == p.id;
      }
      var sorted := SortBy(ids, (n: nat) => n);
      SortBySorts(ids, (n: nat) => n);
      assert forall n :: n in ids <==> n in multiset(ids);
      assert forall n :: n in sorted <==> n in multiset(sorted);
      DedupMembers(sorted);
      ids := Dedup(sorted);
    }

    /** The fallback scan over the level-0 pages. */
    method ProveByScan(h: Hash) returns (r: Result<InclusionProof, QueryError>)
      requires manager.Consistent()
      ensures |manager.tower.tiers| > 0
      ensures r.Ok? <==> Recorded(manager.tower.tiers[0].stored, h)
      ensures r.Ok? ==> Proves(manager.tower.tiers[0].stored, r.value, h)
      ensures r.Err? ==> r.error == LeafNotFound
    {
      hide Represents, ProofFor, Proves, LeavesIn, Recorded, LeafHashes, PageLeaves;
      var ids := LevelZeroIds();
      ghost var stored := manager.tower.tiers[0].stored;
      RecordedOnPage(stored, h);
      for i := 0 to |ids|
        invariant forall p :: p in stored && p.id in ids[..i] ==> h !in LeafHashes(PageLeaves(p))
      {
        var page := manager.storage.LoadPage(0, ids[i]);
        if page.Some? {
          LevelZeroStored(manager.View(), manager.cfg, manager.tower, PageKey(0, ids[i]));
          var found := ProveOnPage(page.value, h);
          if found.Some? {
            OnStoredPage(stored, page.value, h);
            var leaf := manager.storage.LoadLeafByHash(h);
            LeafLoaded(manager.View(), manager.cfg, manager.tower, leaf, h);
            if leaf.None? {
              return Err(LeafDataNotFound);
            }
            var (j, proof) := found.value;
            var a := InclusionProof(leaf.value, page.value.id, page.value.level, proof, page.value.root);
            ProvedAt(stored, a, page.value, h, j);
            return Ok(a);
          }
        }
        StoredByIdOnly(manager.View(), manager.cfg, manager.tower, ids[i]);
      }
      assert ids[..|ids|] == ids;
      return Err(LeafNotFound);
    }

    /**
     Answers exactly for the hashes of finalized leaves, with a proof that verifies against
     the stored root; when leaf hashes are unique it is the one right answer, whatever the hint.
     */
    method GetLeafInclusionProofWithHint(h: Hash, hint: Option<PageKey>) returns (r: Result<InclusionProof, QueryError>)
      requires manager.Consistent()
      ensures |manager.tower.tiers| > 0
      ensures r.Ok? <==> Recorded(manager.tower.tiers[0].stored, h)
      ensures r.Ok? ==> Proves(manager.tower.tiers[0].stored, r.value, h) && Verifies(h, r.value.proof, r.value.root)
      ensures r.Ok? && UniqueHashes(LeavesIn(manager.tower.tiers[0].stored)) ==>
        forall a :: Proves(manager.tower.tiers[0].stored, a, h) ==> a == r.value
      ensures r.Err? ==> r.error == LeafNotFound
    {
      hide Represents, Proves, LeavesIn, Recorded, Verifies, UniqueHashes;
      var hinted := ProveByHint(h, hint);
      if hinted.Some? {
        r := Ok(hinted.value);
      } else {
        r := ProveByScan(h);
      }
      if r.Ok? {
        AnswerIsRight(manager.View(), manager.cfg, manager.tower, r.value, h);
      }
    }
  }

  // ---------------------------------------------------------------- steps of the loops

  lemma FoldNothing()
    ensures FoldDeltas([]) == Null
  {
  }

  /** One page of a replay. */
  lemma ReadStep(pages: seq<Page>, i: nat, c: string, at: Time, read: seq<Leaf>) returns (mine: seq<Leaf>)
    requires i < |pages| && pages[i].start <= at
    ensures mine == Filter(TakeWhile(PageLeaves(pages[i]), UpTo(at)), Of(c))
    ensures read + ReadUpTo(pages[i..], c, at) == read + mine + ReadUpTo(pages[i + 1..], c, at)
  {
    hide Filter, TakeWhile;
    mine := Filter(TakeWhile(PageLeaves(pages[i]), UpTo(at)), Of(c));
    assert pages[i..][1..] == pages[i + 1..];
  }

  /** Looking a listed level-0 page up by id finds that page, and misses the active one. */
  lemma ListedLookup(f: Maps, cfg: Settings, tw: Tower, p: Page)
    requires Represents(f, cfg, tw) && |tw.tiers| > 0 && p in TierPages(tw.tiers[0])
    ensures p.level == 0
    ensures if PageKey(0, p.id) in f.pages then f.pages[PageKey(0, p.id)] == p else tw.tiers[0].active == Some(p)
  {
    hide Represents;
    if p in tw.tiers[0].stored {
      StoredLookup(f, cfg, tw, 0, p);
    } else {
      ActiveUnstored(f, cfg, tw);
    }
  }

  lemma ReadNothing(pages: seq<Page>, c: string, from: Time, to: Time)
    ensures ReadBetween(pages[..0], c, from, to) == []
  {
  }

  lemma BetweenStep(pages: seq<Page>, i: nat, c: string, from: Time, to: Time)
    requires i < |pages|
    ensures ReadBetween(pages[..i + 1], c, from, to) ==
      if pages[i].end < from || pages[i].start > to then ReadBetween(pages[..i], c, from, to)
      else ReadBetween(pages[..i], c, from, to) + Filter(TakeWhile(PageLeaves(pages[i]), UpTo(to)), OfBetween(c, from, to))
  {
    hide Filter, TakeWhile;
    assert DropLast(pages[..i + 1]) == pages[..i];
  }

  lemma PagedNothing(offset: nat, limit: nat)
    ensures Paged([], offset, limit, [], 0, false)
  {
  }

  lemma PagedBounded(read: seq<Leaf>, offset: nat, limit: nat, deltas: seq<Leaf>, skipped: nat, seen: bool)
    requires Paged(read, offset, limit, deltas, skipped, seen)
    ensures |deltas| <= limit
  {
  }

  lemma PagedAnswer(read: seq<Leaf>, offset: nat, limit: nat, deltas: seq<Leaf>, skipped: nat, seen: bool)
    requires Paged(read, offset, limit, deltas, skipped, seen)
    ensures deltas == Slice(read, offset, limit) && seen == (read != [])
  {
  }

  lemma {:induction false} ReadMore(pages: seq<Page>, i: nat, c: string, from: Time, to: Time) returns (more: seq<Leaf>)
    requires i <= |pages|
    ensures ReadBetween(pages, c, from, to) == ReadBetween(pages[..i], c, from, to) + more
    decreases |pages| - i
  {
    hide ReadBetween, Filter, TakeWhile;
    if i == |pages| {
      assert pages[..i] == pages;
      more := [];
    } else {
      BetweenStep(pages, i, c, from, to);
      var rest := ReadMore(pages, i + 1, c, from, to);
      more := ReadBetween(pages[..i + 1], c, from, to)[|ReadBetween(pages[..i], c, from, to)|..] + rest;
    }
  }

  /** Pages left unread once the results are full do not matter. */
  lemma PagedRest(pages: seq<Page>, i: nat, c: string, from: Time, to: Time, offset: nat, limit: nat,
                  deltas: seq<Leaf>, skipped: nat, seen: bool)
    requires i <= |pages| && limit > 0 && (i == |pages| || |deltas| == limit)
    requires Paged(ReadBetween(pages[..i], c, from, to), offset, limit, deltas, skipped, seen)
    ensures Paged(ReadBetween(pages, c, from, to), offset, limit, deltas, skipped, seen)
  {
    hide Paged, ReadBetween;
    if i == |pages| {
      assert pages[..i] == pages;
    } else {
      var more := ReadMore(pages, i, c, from, to);
      PagedFull(ReadBetween(pages[..i], c, from, to), more, offset, limit, deltas, skipped, seen);
    }
  }

  function SummaryId(s: Summary): int { s.id }

  /** Stored pages followed by the active one are already in id order. */
  lemma AlreadyById(f: Maps, cfg: Settings, tw: Tower, k: nat)
    requires Represents(f, cfg, tw)
    ensures k < |tw.tiers| ==> SortBy(Summaries(TierPages(tw.tiers[k])), SummaryId) == Summaries(TierPages(tw.tiers[k]))
    ensures SortBy([], SummaryId) == []
  {
    hide TiersMirror, StoreMirrors, IdsSafe, Typed, StoredOk, Extends, PageFormed;
    if k < |tw.tiers| {
      var t := tw.tiers[k];
      assert TierOk(cfg, k, t);
      if t.active.Some? && t.stored != [] {
        forall i | 0 <= i < |t.stored| ensures t.stored[i].id <= t.active.value.id {
          assert t.stored[i].id <= Last(t.stored).id;
        }
      }
      assert SortedBy(Summaries(TierPages(t)), SummaryId);
      SortBySorted(Summaries(TierPages(t)), SummaryId);
    }
  }

  /** One summary for every page the store has for the level, and for the active one, by id. */
  ghost predicate Listing(f: Maps, level: nat, summaries: seq<Summary>) {
    && (forall i, j :: 0 <= i < j < |summaries| ==> summaries[i].id <= summaries[j].id)
    && (forall key :: key in f.pages && key.level == level ==> Summarize(f.pages[key]) in summaries)
    && (level in f.active ==> Summarize(f.active[level]) in summaries)
    && (forall s :: s in summaries ==> Listed(f, level, s))
  }

  ghost predicate Listed(f: Maps, level: nat, s: Summary) {
    (PageKey(level, s.id) in f.pages && s == Summarize(f.pages[PageKey(level, s.id)]))
    || (level in f.active && s == Summarize(f.active[level]))
  }

  /** The page loaded for an id: the store's, or else the active one. */
  ghost predicate Loadable(f: Maps, level: nat, id: nat) {
    PageKey(level, id) in f.pages || (level in f.active && f.active[level].id == id)
  }

  ghost function EntryFor(f: Maps, level: nat, id: nat): Entry
    requires Loadable(f, level, id)
  {
    if PageKey(level, id) in f.pages then Entry(f.pages[PageKey(level, id)], true) else Entry(f.active[level], false)
  }

  ghost predicate AllLoadable(f: Maps, level: nat, summaries: seq<Summary>) {
    forall i :: 0 <= i < |summaries| ==> Loadable(f, level, summaries[i].id)
  }

  ghost function EntriesFor(f: Maps, level: nat, summaries: seq<Summary>): seq<Entry>
    requires AllLoadable(f, level, summaries)
  {
    seq(|summaries|, i requires 0 <= i < |summaries| => EntryFor(f, level, summaries[i].id))
  }

  /** The entries are the level's stored pages and its active page, by id; an active page that is also stored is taken from
      the store, a second time. */
  ghost predicate EntriesOf(f: Maps, level: nat, entries: seq<Entry>) {
    && (forall i, j :: 0 <= i < j < |entries| ==> entries[i].page.id <= entries[j].page.id)
    && (forall key :: key in f.pages && key.level == level ==> Entry(f.pages[key], true) in entries)
    && (level in f.active && PageKey(level, f.active[level].id) !in f.pages ==> Entry(f.active[level], false) in entries)
    && (forall e :: e in entries ==>
          if e.fromStorage then PageKey(level, e.page.id) in f.pages && e.page == f.pages[PageKey(level, e.page.id)]
          else level in f.active && e.page == f.active[level] && PageKey(level, e.page.id) !in f.pages)
  }

  lemma SortedListing(f: Maps, level: nat, listed: seq<Summary>, summaries: seq<Summary>)
    requires forall key :: key in f.pages ==> f.pages[key].level == key.level && f.pages[key].id == key.id
    requires forall s :: s in listed <==> exists key :: key in f.pages && key.level == level && s == Summarize(f.pages[key])
    requires summaries == if level in f.active then listed + [Summarize(f.active[level])] else listed
    ensures Listing(f, level, SortBy(summaries, SummaryId))
  {
    hide SortBy, SortedBy;
    var sorted := SortBy(summaries, SummaryId);
    SortSame(summaries);
    forall s | s in sorted ensures Listed(f, level, s) {
      if s in listed {
        var key :| key in f.pages && key.level == level && s == Summarize(f.pages[key]);
        assert key == PageKey(level, s.id);
      } else {
        assert s in summaries && level in f.active && s == Summarize(f.active[level]);
      }
    }
  }

  lemma SortSame(summaries: seq<Summary>)
    ensures var sorted := SortBy(summaries, SummaryId);
      && (forall s :: s in sorted <==> s in summaries)
      && forall i, j :: 0 <= i < j < |sorted| ==> sorted[i].id <= sorted[j].id
  {
    hide SortBy;
    var sorted := SortBy(summaries, SummaryId);
    SortBySorts(summaries, SummaryId);
    assert forall s :: s in sorted <==> s in multiset(sorted);
    assert forall s :: s in summaries <==> s in multiset(summaries);
    forall i, j | 0 <= i < j < |sorted| ensures sorted[i].id <= sorted[j].id {
      assert SummaryId(sorted[i]) <= SummaryId(sorted[j]);
    }
  }

  lemma ActiveListed(f: Maps, cfg: Settings, tw: Tower, level: nat, listed: seq<Summary>, summaries: seq<Summary>)
    requires Represents(f, cfg, tw) && |tw.tiers| == |cfg.levels|
    requires listed == if level < |tw.tiers| then Summaries(tw.tiers[level].stored) else []
    requires summaries == if level in f.active then listed + [Summarize(f.active[level])] else listed
    ensures summaries == if level < |tw.tiers| then Summaries(TierPages(tw.tiers[level])) else []
  {
    hide Represents;
    ActiveEntryOf(f, cfg, tw, level);
  }

  lemma ListingLoads(f: Maps, level: nat, summaries: seq<Summary>)
    requires Listing(f, level, summaries)
    ensures AllLoadable(f, level, summaries)
  {
    forall i | 0 <= i < |summaries| ensures Loadable(f, level, summaries[i].id) {
      assert Listed(f, level, summaries[i]);
    }
  }

  lemma EntriesForAt(f: Maps, level: nat, summaries: seq<Summary>)
    requires AllLoadable(f, level, summaries) && forall key :: key in f.pages ==> f.pages[key].id == key.id
    ensures |EntriesFor(f, level, summaries)| == |summaries|
    ensures forall i :: 0 <= i < |summaries| ==>
      && Loadable(f, level, summaries[i].id)
      && EntriesFor(f, level, summaries)[i] == EntryFor(f, level, summaries[i].id)
      && EntriesFor(f, level, summaries)[i].page.id == summaries[i].id
  {
  }

  lemma ListingIsEntries(f: Maps, level: nat, summaries: seq<Summary>)
    requires Listing(f, level, summaries) && AllLoadable(f, level, summaries)
    requires forall key :: key in f.pages ==> f.pages[key].level == key.level && f.pages[key].id == key.id
    ensures EntriesOf(f, level, EntriesFor(f, level, summaries))
  {
    var entries := EntriesFor(f, level, summaries);
    EntriesForAt(f, level, summaries);
    hide EntriesFor, Listed;
    forall key | key in f.pages && key.level == level ensures Entry(f.pages[key], true) in entries {
      var i :| 0 <= i < |summaries| && summaries[i] == Summarize(f.pages[key]);
      assert key == PageKey(level, summaries[i].id);
      assert entries[i] == Entry(f.pages[key], true);
    }
    if level in f.active && PageKey(level, f.active[level].id) !in f.pages {
      var i :| 0 <= i < |summaries| && summaries[i] == Summarize(f.active[level]);
      assert entries[i] == Entry(f.active[level], false);
    }
  }

  lemma EntriesOfTier(f: Maps, cfg: Settings, tw: Tower, k: nat, summaries: seq<Summary>)
    requires Represents(f, cfg, tw) && AllLoadable(f, k, summaries)
    requires summaries == if k < |tw.tiers| then Summaries(TierPages(tw.tiers[k])) else []
    ensures EntriesFor(f, k, summaries) == if k < |tw.tiers| then Entries(tw.tiers[k]) else []
  {
    hide Represents, TierPages, Entries;
    if k < |tw.tiers| {
      EntriesListed(tw, k);
      forall i | 0 <= i < |summaries| ensures EntriesFor(f, k, summaries)[i] == Entries(tw.tiers[k])[i] {
        EntryLookup(f, cfg, tw, k, i);
      }
    }
  }

  lemma EntriesListed(tw: Tower, k: nat)
    ensures k < |tw.tiers| ==> |Entries(tw.tiers[k])| == |TierPages(tw.tiers[k])|
  {
  }

  lemma NothingReported(entries: seq<Entry>, level: nat, from: Option<nat>, to: Option<nat>)
    ensures Reports(entries[..0], level, from, to) == [] && LastSeen(entries[..0], from, to) == None
  {
  }

  lemma ReportStep(entries: seq<Entry>, i: nat, level: nat, from: Option<nat>, to: Option<nat>)
    requires i < |entries|
    ensures Reports(entries[..i + 1], level, from, to) == Reports(entries[..i], level, from, to)
      + if Selected(entries[i].page.id, from, to) then [ReportOn(entries[i], level, LastSeen(entries[..i], from, to))] else []
    ensures LastSeen(entries[..i + 1], from, to)
      == if Selected(entries[i].page.id, from, to) then Some(entries[i].page.hash) else LastSeen(entries[..i], from, to)
  {
    hide ReportOn;
    assert DropLast(entries[..i + 1]) == entries[..i];
  }

  /** What the checker loads for a listed page is its entry. */
  lemma EntryLookup(f: Maps, cfg: Settings, tw: Tower, k: nat, i: nat)
    requires Represents(f, cfg, tw) && k < |tw.tiers| && i < |TierPages(tw.tiers[k])|
    ensures var p, key := TierPages(tw.tiers[k])[i], PageKey(k, TierPages(tw.tiers[k])[i].id);
      && |Entries(tw.tiers[k])| == |TierPages(tw.tiers[k])| && Entries(tw.tiers[k])[i].page.id == p.id
      && (if key in f.pages then Entries(tw.tiers[k])[i] == Entry(f.pages[key], true)
          else k in f.active && f.active[k] == p && Entries(tw.tiers[k])[i] == Entry(p, false))
  {
    hide Represents;
    var t := tw.tiers[k];
    ActiveEntryOf(f, cfg, tw, k);
    if i < |t.stored| {
      StoredLookup(f, cfg, tw, k, t.stored[i]);
    } else {
      ActiveStoredOnlyIfLast(f, cfg, tw, k);
    }
  }

  lemma ActiveStoredOnlyIfLast(f: Maps, cfg: Settings, tw: Tower, k: nat)
    requires Represents(f, cfg, tw) && k < |tw.tiers| && tw.tiers[k].active.Some?
    ensures var t, key := tw.tiers[k], PageKey(k, tw.tiers[k].active.value.id);
      && (key in f.pages <==> t.LastStored().Some? && t.LastStored().value.id == t.active.value.id)
      && (key in f.pages ==> f.pages[key] == t.LastStored().value)
  {
    hide TiersMirror, IdsSafe, StoredOk, Extends, Typed, PageFormed;
    var t := tw.tiers[k];
    assert TierOk(cfg, k, t);
    forall i | 0 <= i < |t.stored| - 1 ensures t.stored[i].id < t.active.value.id {
      assert t.stored[i].id < Last(t.stored).id;
    }
    if t.stored != [] {
      assert Last(t.stored) in t.stored;
    }
  }

  // ---------------------------------------------------------------- inclusion proofs

  /** Removes consecutive repetitions. */
  function Dedup(s: seq<nat>): seq<nat> {
    if |s| < 2 then s
    else if s[0] == s[1] then Dedup(s[1..])
    else [s[0]] + Dedup(s[1..])
  }

  lemma {:induction false} DedupMembers(s: seq<nat>)
    ensures forall n :: n in Dedup(s) <==> n in s
  {
    if |s| >= 2 {
      DedupMembers(s[1..]);
      assert s == [s[0]] + s[1..];
    }
  }

  /** A stored page of leaves sits at level 0. */
  lemma LeafPageStored(f: Maps, cfg: Settings, tw: Tower, key: PageKey)
    requires Represents(f, cfg, tw) && key in f.pages && f.pages[key].content.Leaves?
    ensures |tw.tiers| > 0 && f.pages[key] in tw.tiers[0].stored && f.pages[key].level == 0
  {
    hide TiersMirror, Sound, StoreCovers;
    assert TierTyped(cfg, key.level, tw.tiers[key.level]);
    var i :| 0 <= i < |tw.tiers[key.level].stored| && tw.tiers[key.level].stored[i] == f.pages[key];
    assert PageTyped(cfg, key.level, f.pages[key]);
  }

  lemma LevelZeroStored(f: Maps, cfg: Settings, tw: Tower, key: PageKey)
    requires Represents(f, cfg, tw) && key in f.pages && key.level == 0
    ensures |tw.tiers| > 0 && f.pages[key] in tw.tiers[0].stored && f.pages[key].level == 0
  {
    hide TiersMirror, Sound, Typed, StoreCovers;
  }

  lemma StoredByIdOnly(f: Maps, cfg: Settings, tw: Tower, id: nat)
    requires Represents(f, cfg, tw) && |tw.tiers| > 0
    ensures forall p :: p in tw.tiers[0].stored && p.id == id ==> PageKey(0, id) in f.pages && f.pages[PageKey(0, id)] == p
  {
    hide Represents;
    forall p | p in tw.tiers[0].stored && p.id == id ensures PageKey(0, id) in f.pages && f.pages[PageKey(0, id)] == p {
      StoredLookup(f, cfg, tw, 0, p);
    }
  }

  lemma OnStoredPage(stored: seq<Page>, p: Page, h: Hash)
    requires p in stored && h in LeafHashes(PageLeaves(p))
    ensures Recorded(stored, h)
  {
    hide Recorded, LeafHashes, PageLeaves;
    RecordedOnPage(stored, h);
  }

  /** Looking a recorded hash up finds a finalized leaf with that hash. */
  lemma LeafLoaded(f: Maps, cfg: Settings, tw: Tower, leaf: Option<Leaf>, h: Hash)
    requires Represents(f, cfg, tw) && |tw.tiers| > 0 && Recorded(tw.tiers[0].stored, h)
    requires leaf.Some? ==> leaf.value.hash == h
    requires leaf.Some? ==> exists key :: key in f.pages && f.pages[key].level == 0 && f.pages[key].content.Leaves? && leaf.value in f.pages[key].content.leaves
    requires leaf.None? ==> forall key :: key in f.pages && f.pages[key].level == 0 && f.pages[key].content.Leaves? ==>
      h !in LeafHashes(f.pages[key].content.leaves)
    ensures leaf.Some? && leaf.value.hash == h && leaf.value in LeavesIn(tw.tiers[0].stored)
  {
    hide Represents, LeavesIn, Recorded, LeafHashes;
    var stored := tw.tiers[0].stored;
    if leaf.Some? {
      var key :| key in f.pages && f.pages[key].level == 0 && f.pages[key].content.Leaves? && leaf.value in f.pages[key].content.leaves;
      LeafPageStored(f, cfg, tw, key);
      LeavesInMembers(stored, leaf.value);
    } else {
      RecordedOnPage(stored, h);
      EmptyHashes();
      forall i | 0 <= i < |stored| ensures h !in LeafHashes(PageLeaves(stored[i])) {
        StoredLookup(f, cfg, tw, 0, stored[i]);
      }
    }
  }

  lemma EmptyHashes()
    ensures LeafHashes([]) == []
  {
  }

  lemma ProvedAt(stored: seq<Page>, a: InclusionProof, p: Page, h: Hash, j: nat)
    requires p in stored && j < |PageLeaves(p)| && PageLeaves(p)[j].hash == h
    requires a.pageId == p.id && a.level == 0 && a.root == p.root && a.proof == ProofFor(LeafHashes(PageLeaves(p)), j)
    requires a.leaf.hash == h && (a.leaf == PageLeaves(p)[j] || a.leaf in LeavesIn(stored))
    ensures Proves(stored, a, h) && Recorded(stored, h)
  {
    hide LeavesIn, ProofFor;
    var i :| 0 <= i < |stored| && stored[i] == p;
    LeavesInMembers(stored, PageLeaves(p)[j]);
    assert PageLeaves(p)[j] in LeavesIn(stored);
    assert ProvesAt(stored, a, h, i, j);
  }

  lemma AnswerIsRight(f: Maps, cfg: Settings, tw: Tower, a: InclusionProof, h: Hash)
    requires Represents(f, cfg, tw) && |tw.tiers| > 0 && Proves(tw.tiers[0].stored, a, h)
    ensures Recorded(tw.tiers[0].stored, h) && Verifies(h, a.proof, a.root)
    ensures UniqueHashes(LeavesIn(tw.tiers[0].stored)) ==> forall b :: Proves(tw.tiers[0].stored, b, h) ==> b == a
  {
    hide LeavesIn, StoreMirrors, TiersMirror, Proves, Verifies, UniqueHashes, TierOk, IdsSafe;
    var stored := tw.tiers[0].stored;
    assert TierOk(cfg, 0, tw.tiers[0]);
    ProofVerifies(cfg, tw.tiers[0], a, h);
    ProvesRecorded(stored, a, h);
    if UniqueHashes(LeavesIn(stored)) {
      forall b | Proves(stored, b, h) ensures b == a {
        ProofUnique(stored, a, b, h);
      }
    }
  }

  lemma ProvesRecorded(stored: seq<Page>, a: InclusionProof, h: Hash)
    requires Proves(stored, a, h)
    ensures Recorded(stored, h)
  {
    hide LeavesIn;
  }
}
