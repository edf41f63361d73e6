/** What the queries answer, as functions of level-0 pages, and what that means in monotone runs. */
module QuerySpec {
  import opened Prelude
  import opened Hashing
  import opened Config
  import opened Patches
  import opened Pages
  import opened Towers
  import opened Safety
  import opened Conservation
  import opened Timeline
  import opened Storage
  import opened Links
  import opened Exactness

  datatype QueryError = ContainerNotFound | InvalidParameters | LeafNotFound | LeafDataNotFound | CoreError

  // ---------------------------------------------------------------- deltas

  /** `apply_delta`: objects merge recursively, anything else is replaced; null is a value like any other. */
  function ApplyDelta(state: Json, delta: Json): Json
    decreases delta
  {
    if state.Object? && delta.Object? then
      Object(map k | k in state.fields.Keys + delta.fields.Keys ::
        if k !in delta.fields then state.fields[k]
        else if k in state.fields then ApplyDelta(state.fields[k], delta.fields[k])
        else delta.fields[k])
    else delta
  }

  function FoldDeltas(leaves: seq<Leaf>): Json {
    if leaves == [] then Null else ApplyDelta(FoldDeltas(DropLast(leaves)), Last(leaves).payload)
  }

  // ---------------------------------------------------------------- scans

  function ByStart(p: Page): int { p.start }

  function ByTime(l: Leaf): int { l.at }

  function UpTo(at: Time): Leaf -> bool { (l: Leaf) => l.at <= at }

  function Of(c: string): Leaf -> bool { (l: Leaf) => l.container == c }

  function OfUpTo(c: string, at: Time): Leaf -> bool { (l: Leaf) => l.container == c && l.at <= at }

  function OfBetween(c: string, from: Time, to: Time): Leaf -> bool {
    (l: Leaf) => l.container == c && from <= l.at <= to
  }

  function PageLeaves(p: Page): seq<Leaf> {
    if p.content.Leaves? then p.content.leaves else []
  }

  /** The leaves a reconstruction reads from pages in the order given: it stops at the first page past the
      time, and inside a page at the first leaf past it. */
  function ReadUpTo(pages: seq<Page>, c: string, at: Time): seq<Leaf> {
    if pages == [] || pages[0].start > at then []
    else Filter(TakeWhile(PageLeaves(pages[0]), UpTo(at)), Of(c)) + ReadUpTo(pages[1..], c, at)
  }

  function Reconstruct(pages: seq<Page>, c: string, at: Time): Result<Json, QueryError> {
    var read := ReadUpTo(SortBy(pages, ByStart), c, at);
    if read == [] then Err(ContainerNotFound) else Ok(FoldDeltas(read))
  }

  /** The deltas a report collects from pages in the order given, skipping pages outside the range. */
  function ReadBetween(pages: seq<Page>, c: string, from: Time, to: Time): seq<Leaf> {
    if pages == [] then []
    else
      ReadBetween(DropLast(pages), c, from, to)
      + if Last(pages).end < from || Last(pages).start > to then []
        else Filter(TakeWhile(PageLeaves(Last(pages)), UpTo(to)), OfBetween(c, from, to))
  }

  function Slice<T>(s: seq<T>, offset: nat, limit: nat): seq<T> {
    s[Min(offset, |s|)..Min(offset + limit, |s|)]
  }

  function DeltaReport(pages: seq<Page>, c: string, from: Time, to: Time): Result<seq<Leaf>, QueryError> {
    var read := ReadBetween(SortBy(pages, ByStart), c, from, to);
    if from > to then Err(InvalidParameters)
    else if read == [] then Err(ContainerNotFound)
    else Ok(SortBy(read, ByTime))
  }

  function DeltaReportPage(pages: seq<Page>, c: string, from: Time, to: Time, offset: nat, limit: nat): Result<seq<Leaf>, QueryError> {
    var read := ReadBetween(SortBy(pages, ByStart), c, from, to);
    if from > to then Err(InvalidParameters)
    else if limit == 0 then Ok([])
    else if read == [] then Err(ContainerNotFound)
    else Ok(SortBy(Slice(read, offset, limit), ByTime))
  }

  function TierPages(t: Tier): seq<Page> {
    t.stored + if t.active.Some? then [t.active.value] else []
  }

  // ---------------------------------------------------------------- leaves in time order

  ghost predicate InOrder(ls: seq<Leaf>) {
    forall i, j :: 0 <= i < j < |ls| ==> ls[i].at <= ls[j].at
  }

  lemma {:induction false} TakeWhileIsFilter(ls: seq<Leaf>, at: Time)
    requires InOrder(ls)
    ensures TakeWhile(ls, UpTo(at)) == Filter(ls, UpTo(at))
  {
    if ls != [] {
      assert ls == [ls[0]] + ls[1..];
      FilterConcat([ls[0]], ls[1..], UpTo(at));
      assert Filter([ls[0]], UpTo(at)) == if ls[0].at <= at then [ls[0]] else [] by {
        assert [ls[0]] == [] + [ls[0]];
        FilterSnoc([], ls[0], UpTo(at));
      }
      if ls[0].at <= at {
        TakeWhileIsFilter(ls[1..], at);
      } else {
        NoneLeft(ls[1..], UpTo(at));
      }
    }
  }

  lemma {:induction false} NoneLeft<T>(s: seq<T>, p: T -> bool)
    requires forall x :: x in s ==> !p(x)
    ensures Filter(s, p) == []
  {
    if s != [] {
      assert Last(s) in s;
      NoneLeft(DropLast(s), p);
    }
  }

  lemma {:induction false} FilterTwice<T>(s: seq<T>, p: T -> bool, q: T -> bool, r: T -> bool)
    requires forall x :: x in s ==> r(x) == (p(x) && q(x))
    ensures Filter(Filter(s, p), q) == Filter(s, r)
  {
    if s != [] {
      assert s == DropLast(s) + [Last(s)] && Last(s) in s;
      FilterTwice(DropLast(s), p, q, r);
      if p(Last(s)) {
        FilterSnoc(Filter(DropLast(s), p), Last(s), q);
      } else {
        assert Filter(s, p) == Filter(DropLast(s), p);
      }
    }
  }

  ghost predicate PageOrdered(p: Page) {
    p.content.Leaves? && InOrder(p.content.leaves) && forall l :: l in p.content.leaves ==> p.start <= l.at < p.end
  }

  /** Pages as monotone runs leave them at level 0. */
  ghost predicate OrderedPages(pages: seq<Page>) {
    && (forall i, j :: 0 <= i < j < |pages| ==> pages[i].start <= pages[j].start)
    && (forall i :: 0 <= i < |pages| ==> PageOrdered(pages[i]))
  }

  lemma PageReadsUpTo(p: Page, c: string, at: Time)
    requires PageOrdered(p)
    ensures Filter(TakeWhile(PageLeaves(p), UpTo(at)), Of(c)) == Filter(p.content.leaves, OfUpTo(c, at))
  {
    TakeWhileIsFilter(p.content.leaves, at);
    FilterTwice(p.content.leaves, UpTo(at), Of(c), OfUpTo(c, at));
  }

  lemma PageReadsBetween(p: Page, c: string, from: Time, to: Time)
    requires PageOrdered(p)
    ensures (if p.end < from || p.start > to then [] else Filter(TakeWhile(PageLeaves(p), UpTo(to)), OfBetween(c, from, to)))
      == Filter(p.content.leaves, OfBetween(c, from, to))
  {
    if p.end < from || p.start > to {
      NoneLeft(p.content.leaves, OfBetween(c, from, to));
    } else {
      TakeWhileIsFilter(p.content.leaves, to);
      FilterTwice(p.content.leaves, UpTo(to), OfBetween(c, from, to), OfBetween(c, from, to));
    }
  }

  lemma LeavesInSnoc(pages: seq<Page>, p: Page)
    ensures LeavesIn(pages + [p]) == LeavesIn(pages) + PageLeaves(p)
  {
    assert DropLast(pages + [p]) == pages;
  }

  lemma {:induction false} LeavesInConcat(a: seq<Page>, b: seq<Page>)
    ensures LeavesIn(a + b) == LeavesIn(a) + LeavesIn(b)
  {
    hide LeavesIn, PageLeaves;
    LeavesInEmpty();
    if b == [] {
      assert a + b == a;
    } else {
      var front, last := DropLast(b), Last(b);
      LeavesInConcat(a, front);
      LeavesInSnoc(a + front, last);
      LeavesInSnoc(front, last);
      assert b == front + [last] && a + b == (a + front) + [last];
    }
  }

  lemma {:induction false} LeavesInMembers(pages: seq<Page>, l: Leaf)
    ensures l in LeavesIn(pages) <==> exists i :: 0 <= i < |pages| && pages[i].content.Leaves? && l in pages[i].content.leaves
  {
    if pages != [] {
      LeavesInMembers(DropLast(pages), l);
      assert pages == DropLast(pages) + [Last(pages)];
      assert forall i :: 0 <= i < |pages| - 1 ==> DropLast(pages)[i] == pages[i];
    }
  }

  lemma LatePagesHoldNothing(pages: seq<Page>, c: string, at: Time)
    requires OrderedPages(pages) && pages != [] && pages[0].start > at
    ensures Filter(LeavesIn(pages), OfUpTo(c, at)) == []
  {
    hide LeavesIn;
    forall l | l in LeavesIn(pages) ensures !OfUpTo(c, at)(l) {
      LeavesInMembers(pages, l);
      var i :| 0 <= i < |pages| && pages[i].content.Leaves? && l in pages[i].content.leaves;
      assert PageOrdered(pages[i]) && pages[0].start <= pages[i].start;
    }
    NoneLeft(LeavesIn(pages), OfUpTo(c, at));
  }

  lemma OrderedTail(pages: seq<Page>)
    requires OrderedPages(pages) && pages != []
    ensures OrderedPages(pages[1..]) && PageOrdered(pages[0])
    ensures LeavesIn(pages) == pages[0].content.leaves + LeavesIn(pages[1..])
  {
    LeavesInCons(pages);
    hide PageOrdered, LeavesIn;
    assert PageOrdered(pages[0]);
    LeavesOfOrdered(pages[0]);
  }

  lemma LeavesInCons(pages: seq<Page>)
    requires pages != []
    ensures LeavesIn(pages) == PageLeaves(pages[0]) + LeavesIn(pages[1..])
  {
    var p := pages[0];
    assert pages == [p] + pages[1..];
    LeavesInConcat([p], pages[1..]);
    assert DropLast([p]) == [];
  }

  lemma LeavesOfOrdered(p: Page)
    requires PageOrdered(p)
    ensures p.content.Leaves? && PageLeaves(p) == p.content.leaves
  {
  }

  lemma OrderedFront(pages: seq<Page>)
    requires OrderedPages(pages) && pages != []
    ensures OrderedPages(DropLast(pages)) && PageOrdered(Last(pages))
    ensures LeavesIn(pages) == LeavesIn(DropLast(pages)) + Last(pages).content.leaves
  {
    hide PageOrdered;
    assert PageOrdered(Last(pages));
    LeavesOfOrdered(Last(pages));
  }

  /** Stopping at the first late page, and at the first late leaf of a page, loses nothing. */
  lemma {:induction false} ReadUpToIsFilter(pages: seq<Page>, c: string, at: Time)
    requires OrderedPages(pages)
    ensures ReadUpTo(pages, c, at) == Filter(LeavesIn(pages), OfUpTo(c, at))
  {
    hide OrderedPages, LeavesIn;
    LeavesInEmpty();
    if pages != [] {
      OrderedTail(pages);
      if pages[0].start > at {
        LatePagesHoldNothing(pages, c, at);
      } else {
        PageReadsUpTo(pages[0], c, at);
        ReadUpToIsFilter(pages[1..], c, at);
        FilterConcat(pages[0].content.leaves, LeavesIn(pages[1..]), OfUpTo(c, at));
      }
    }
  }

  lemma LeavesInEmpty()
    ensures LeavesIn([]) == []
  {
  }

  /** Pruning by page window loses nothing. */
  lemma {:induction false} ReadBetweenIsFilter(pages: seq<Page>, c: string, from: Time, to: Time)
    requires OrderedPages(pages)
    ensures ReadBetween(pages, c, from, to) == Filter(LeavesIn(pages), OfBetween(c, from, to))
  {
    hide OrderedPages, LeavesIn;
    LeavesInEmpty();
    if pages != [] {
      OrderedFront(pages);
      PageReadsBetween(Last(pages), c, from, to);
      FilterConcat(LeavesIn(DropLast(pages)), Last(pages).content.leaves, OfBetween(c, from, to));
      ReadBetweenIsFilter(DropLast(pages), c, from, to);
    }
  }

  // ---------------------------------------------------------------- monotone runs

  lemma {:induction false} PagesInOrder(pages: seq<Page>)
    requires InOrder(LeavesIn(pages))
    ensures forall p :: p in pages && p.content.Leaves? ==> InOrder(p.content.leaves)
  {
    if pages != [] {
      var front, last := LeavesIn(DropLast(pages)), PageLeaves(Last(pages));
      assert LeavesIn(pages) == front + last;
      assert forall i :: 0 <= i < |front| ==> front[i] == LeavesIn(pages)[i];
      assert forall i :: 0 <= i < |last| ==> last[i] == LeavesIn(pages)[|front| + i];
      PagesInOrder(DropLast(pages));
      assert pages == DropLast(pages) + [Last(pages)];
    }
  }

  lemma TierPagesHoldAll(tw: Tower)
    requires tw.tiers != []
    ensures LeavesIn(TierPages(tw.tiers[0])) == AllLeaves(tw)
  {
    var t := tw.tiers[0];
    if t.active.Some? {
      assert DropLast(t.stored + [t.active.value]) == t.stored;
    } else {
      assert TierPages(t) == t.stored;
    }
  }

  lemma LevelZeroPages(cfg: Settings, tw: Tower)
    requires ValidSettings(cfg) && RunOk(cfg, tw)
    ensures forall i :: 0 <= i < |TierPages(tw.tiers[0])| ==> LeavesPlaced(TierPages(tw.tiers[0])[i])
  {
    hide LeavesPlaced, TierOk, IdsSafe, TierTyped;
  }

  lemma StartsAscend(cfg: Settings, tw: Tower, now: Time)
    requires ValidSettings(cfg) && Timely(cfg, tw, now)
    ensures forall i, j :: 0 <= i < j < |TierPages(tw.tiers[0])| ==> TierPages(tw.tiers[0])[i].start <= TierPages(tw.tiers[0])[j].start
  {
    hide WindowStart, Chained, Closed, Anchored;
    assert TierTimely(cfg.levels[0], 0, tw.tiers[0], now);
    var t := tw.tiers[0];
    forall i | 0 <= i < |t.stored| ensures t.stored[i].start <= Last(t.stored).start {
    }
  }

  /** A page whose leaves come from an ordered, in-range log is ordered. */
  lemma PlacedIsOrdered(pages: seq<Page>, i: nat)
    requires i < |pages| && LeavesPlaced(pages[i]) && InOrder(LeavesIn(pages))
    requires forall j :: 0 <= j < |LeavesIn(pages)| ==> InRange(LeavesIn(pages)[j].at)
    ensures PageOrdered(pages[i])
  {
    hide LeavesIn;
    PagesInOrder(pages);
    forall l | l in pages[i].content.leaves ensures InRange(l.at) {
      LeavesInMembers(pages, l);
    }
  }

  lemma MonotoneLeaves(steps: seq<Step>)
    requires Monotone(steps)
    ensures InOrder(LeavesOf(steps)) && forall j :: 0 <= j < |LeavesOf(steps)| ==> InRange(LeavesOf(steps)[j].at)
  {
  }

  ghost predicate LeavesTimely(tw: Tower) {
    InOrder(AllLeaves(tw)) && forall j :: 0 <= j < |AllLeaves(tw)| ==> InRange(AllLeaves(tw)[j].at)
  }

  /** Level 0 of a tower whose leaves came in time order, with or without its active page, is ordered. */
  lemma LevelZeroOrdered(cfg: Settings, tw: Tower, clock: Time)
    requires ValidSettings(cfg) && RunOk(cfg, tw) && Timely(cfg, tw, clock) && LeavesTimely(tw)
    ensures tw.tiers != []
    ensures OrderedPages(TierPages(tw.tiers[0])) && OrderedPages(tw.tiers[0].stored)
    ensures LeavesIn(TierPages(tw.tiers[0])) == AllLeaves(tw)
  {
    assert tw.tiers != [];
    hide RunOk, Timely, AllLeaves, TierPages, LeavesIn, LeavesPlaced, PageOrdered;
    StartsAscend(cfg, tw, clock);
    TierPagesHoldAll(tw);
    LevelZeroPages(cfg, tw);
    var pages := TierPages(tw.tiers[0]);
    forall i | 0 <= i < |pages| ensures PageOrdered(pages[i]) {
      PlacedIsOrdered(pages, i);
    }
    StoredOrdered(tw.tiers[0]);
  }

  /** In particular of a monotone run. */
  lemma RunOrdered(cfg: Settings, steps: seq<Step>)
    requires ValidSettings(cfg) && Monotone(steps)
    ensures var t := Run(cfg, steps).tiers[0];
      && OrderedPages(TierPages(t)) && OrderedPages(t.stored)
      && LeavesIn(TierPages(t)) == LeavesOf(steps) && InOrder(LeavesOf(steps))
  {
    hide Run, RunOk, Timely, LeafChained, AllLeaves, TierPages, LeavesIn, OrderedPages, Monotone;
    RunConserves(cfg, steps);
    RunTimely(cfg, steps);
    MonotoneLeaves(steps);
    LevelZeroOrdered(cfg, Run(cfg, steps), Clock(steps));
  }

  lemma StoredOrdered(t: Tier)
    requires OrderedPages(TierPages(t))
    ensures OrderedPages(t.stored)
  {
    hide PageOrdered;
    assert forall i :: 0 <= i < |t.stored| ==> TierPages(t)[i] == t.stored[i];
  }

  lemma ReconstructOrdered(pages: seq<Page>, c: string, at: Time)
    requires OrderedPages(pages)
    ensures var mine := Filter(LeavesIn(pages), OfUpTo(c, at));
      Reconstruct(pages, c, at) == if mine == [] then Err(ContainerNotFound) else Ok(FoldDeltas(mine))
  {
    hide OrderedPages;
    OrderedSorted(pages);
    ReadUpToIsFilter(pages, c, at);
  }

  /** Reconstruction is the arrival-order fold of the container's finalized leaves up to the time. */
  lemma ReconstructIsFold(cfg: Settings, steps: seq<Step>, c: string, at: Time)
    requires ValidSettings(cfg) && Monotone(steps)
    ensures var stored := Run(cfg, steps).tiers[0].stored;
      var mine := Filter(LeavesIn(stored), OfUpTo(c, at));
      Reconstruct(stored, c, at) == if mine == [] then Err(ContainerNotFound) else Ok(FoldDeltas(mine))
  {
    hide Run, OrderedPages, Reconstruct;
    RunOrdered(cfg, steps);
    ReconstructOrdered(Run(cfg, steps).tiers[0].stored, c, at);
  }

  lemma OrderedSorted(pages: seq<Page>)
    requires OrderedPages(pages)
    ensures SortBy(pages, ByStart) == pages
  {
    hide PageOrdered;
    assert SortedBy(pages, ByStart);
    SortBySorted(pages, ByStart);
  }

  lemma {:induction false} FilterInOrder(ls: seq<Leaf>, p: Leaf -> bool)
    requires InOrder(ls)
    ensures InOrder(Filter(ls, p)) && SortBy(Filter(ls, p), ByTime) == Filter(ls, p)
  {
    FilterStaysInOrder(ls, p);
    SortBySorted(Filter(ls, p), ByTime);
  }

  lemma {:induction false} FilterStaysInOrder(ls: seq<Leaf>, p: Leaf -> bool)
    requires InOrder(ls)
    ensures InOrder(Filter(ls, p))
  {
    if ls != [] {
      FilterStaysInOrder(DropLast(ls), p);
      FilterMembers(DropLast(ls), p);
      var front := Filter(DropLast(ls), p);
      forall i | 0 <= i < |front| ensures front[i].at <= Last(ls).at {
        assert front[i] in front;
        var j :| 0 <= j < |DropLast(ls)| && DropLast(ls)[j] == front[i];
      }
    }
  }

  lemma DeltaReportOrdered(pages: seq<Page>, c: string, from: Time, to: Time)
    requires OrderedPages(pages) && InOrder(LeavesIn(pages)) && from <= to
    ensures var mine := Filter(LeavesIn(pages), OfBetween(c, from, to));
      DeltaReport(pages, c, from, to) == if mine == [] then Err(ContainerNotFound) else Ok(mine)
  {
    hide OrderedPages;
    OrderedSorted(pages);
    ReadBetweenIsFilter(pages, c, from, to);
    FilterInOrder(LeavesIn(pages), OfBetween(c, from, to));
  }

  /** A delta report is exactly the container's leaves in the range, active page included, in arrival order. */
  lemma DeltaReportIsExact(cfg: Settings, steps: seq<Step>, c: string, from: Time, to: Time)
    requires ValidSettings(cfg) && Monotone(steps) && from <= to
    ensures var mine := Filter(LeavesOf(steps), OfBetween(c, from, to));
      DeltaReport(TierPages(Run(cfg, steps).tiers[0]), c, from, to) == if mine == [] then Err(ContainerNotFound) else Ok(mine)
  {
    hide Run, OrderedPages, TierPages, DeltaReport;
    RunOrdered(cfg, steps);
    DeltaReportOrdered(TierPages(Run(cfg, steps).tiers[0]), c, from, to);
  }

  /** Leaf by leaf: a report gives a leaf exactly when it was added to the container at a time in the closed range, and it
      fails exactly when there is no such leaf. */
  lemma {:induction false} DeltaReportGives(cfg: Settings, steps: seq<Step>, c: string, from: Time, to: Time, l: Leaf)
    requires ValidSettings(cfg) && Monotone(steps) && from <= to
    ensures var report := DeltaReport(TierPages(Run(cfg, steps).tiers[0]), c, from, to);
      (report.Ok? && l in report.value)
        <==> (exists i :: 0 <= i < |steps| && steps[i].leaf == l) && l.container == c && from <= l.at && l.at <= to
  {
    hide Run, DeltaReport, TierPages;
    DeltaReportIsExact(cfg, steps, c, from, to);
    FilterMembers(LeavesOf(steps), OfBetween(c, from, to));
    AddedSteps(steps, l);
    var mine := Filter(LeavesOf(steps), OfBetween(c, from, to));
    assert l in mine <==> l in LeavesOf(steps) && OfBetween(c, from, to)(l);
  }

  lemma AddedSteps(steps: seq<Step>, l: Leaf)
    ensures l in LeavesOf(steps) <==> exists i :: 0 <= i < |steps| && steps[i].leaf == l
  {
    if i :| 0 <= i < |steps| && steps[i].leaf == l {
      assert LeavesOf(steps)[i] == l;
    }
  }

  lemma ReportPageOrdered(pages: seq<Page>, c: string, from: Time, to: Time, offset: nat, limit: nat)
    requires OrderedPages(pages) && InOrder(LeavesIn(pages)) && from <= to && limit > 0
    ensures var full := DeltaReport(pages, c, from, to);
      DeltaReportPage(pages, c, from, to, offset, limit)
        == if full.Ok? then Ok(Slice(full.value, offset, limit)) else full
  {
    hide OrderedPages;
    OrderedSorted(pages);
    ReadBetweenIsFilter(pages, c, from, to);
    FilterInOrder(LeavesIn(pages), OfBetween(c, from, to));
    SliceInOrder(Filter(LeavesIn(pages), OfBetween(c, from, to)), offset, limit);
  }

  /** A report page is the slice of the full report it names; it fails only when the full report does. */
  lemma DeltaReportPageIsSlice(cfg: Settings, steps: seq<Step>, c: string, from: Time, to: Time, offset: nat, limit: nat)
    requires ValidSettings(cfg) && Monotone(steps) && from <= to && limit > 0
    ensures var pages := TierPages(Run(cfg, steps).tiers[0]);
      var full := DeltaReport(pages, c, from, to);
      DeltaReportPage(pages, c, from, to, offset, limit)
        == if full.Ok? then Ok(Slice(full.value, offset, limit)) else full
  {
    hide Run, OrderedPages, TierPages, DeltaReport, DeltaReportPage;
    RunOrdered(cfg, steps);
    ReportPageOrdered(TierPages(Run(cfg, steps).tiers[0]), c, from, to, offset, limit);
  }

  lemma SliceInOrder(ls: seq<Leaf>, offset: nat, limit: nat)
    requires InOrder(ls)
    ensures SortBy(Slice(ls, offset, limit), ByTime) == Slice(ls, offset, limit)
  {
    SortBySorted(Slice(ls, offset, limit), ByTime);
  }

  /** What a client has read after asking for that many pages of results, one after another. */
  function ReadInPages(pages: seq<Page>, c: string, from: Time, to: Time, limit: nat, count: nat): seq<Leaf> {
    if count == 0 then []
    else
      var answer := DeltaReportPage(pages, c, from, to, (count - 1) * limit, limit);
      ReadInPages(pages, c, from, to, limit, count - 1) + if answer.Ok? then answer.value else []
  }

  lemma SliceExtends<T>(s: seq<T>, offset: nat, limit: nat)
    ensures s[..Min(offset, |s|)] + Slice(s, offset, limit) == s[..Min(offset + limit, |s|)]
    ensures limit > 0 ==> (Slice(s, offset, limit) == [] <==> offset >= |s|)
  {
  }

  /** Reading page by page gives the start of the full report, and the first empty page means all of it was read. */
  lemma {:induction false} PagesTile(pages: seq<Page>, c: string, from: Time, to: Time, limit: nat, count: nat)
    requires OrderedPages(pages) && InOrder(LeavesIn(pages)) && from <= to && limit > 0
    ensures var full := DeltaReport(pages, c, from, to);
      full.Ok? ==>
        && ReadInPages(pages, c, from, to, limit, count) == full.value[..Min(count * limit, |full.value|)]
        && (DeltaReportPage(pages, c, from, to, count * limit, limit) == Ok([])
            <==> ReadInPages(pages, c, from, to, limit, count) == full.value)
  {
    hide OrderedPages, LeavesIn, DeltaReport, DeltaReportPage, Slice;
    var full := DeltaReport(pages, c, from, to);
    ReportPageOrdered(pages, c, from, to, count * limit, limit);
    if full.Ok? {
      SliceExtends(full.value, count * limit, limit);
      if count > 0 {
        PagesTile(pages, c, from, to, limit, count - 1);
        ReportPageOrdered(pages, c, from, to, (count - 1) * limit, limit);
        assert count * limit == (count - 1) * limit + limit;
        SliceExtends(full.value, (count - 1) * limit, limit);
      }
    }
  }

  /** In a monotone run the engine's answers at offsets 0, limit, 2 * limit, ... concatenate to the report. */
  lemma BatchesTile(cfg: Settings, steps: seq<Step>, c: string, from: Time, to: Time, limit: nat, count: nat)
    requires ValidSettings(cfg) && Monotone(steps) && from <= to && limit > 0
    ensures var pages := TierPages(Run(cfg, steps).tiers[0]);
      var full := DeltaReport(pages, c, from, to);
      full.Ok? ==>
        && ReadInPages(pages, c, from, to, limit, count) == full.value[..Min(count * limit, |full.value|)]
        && (DeltaReportPage(pages, c, from, to, count * limit, limit) == Ok([])
            <==> ReadInPages(pages, c, from, to, limit, count) == full.value)
  {
    hide Run, OrderedPages, TierPages, DeltaReport, DeltaReportPage, ReadInPages;
    RunOrdered(cfg, steps);
    PagesTile(TierPages(Run(cfg, steps).tiers[0]), c, from, to, limit, count);
  }

  // ---------------------------------------------------------------- agreement with net patches

  /** An object payload without object-valued fields. */
  predicate Flat(j: Json) {
    j.Object? && forall k :: k in j.fields ==> !j.fields[k].Object?
  }

  lemma ApplyFlat(a: Json, b: Json)
    requires Flat(a) && Flat(b)
    ensures ApplyDelta(a, b) == Object(a.fields + b.fields) && Flat(ApplyDelta(a, b))
  {
  }

  /** For flat payloads of one container the deep merge is the overlay of top-level fields. */
  lemma {:induction false} FlatFold(leaves: seq<Leaf>, c: string)
    requires leaves != [] && forall l :: l in leaves ==> l.container == c && Flat(l.payload)
    ensures FoldDeltas(leaves) == Object(FieldsOf(LeavesPatch(leaves), c)) && Flat(FoldDeltas(leaves))
  {
    var front, l := DropLast(leaves), Last(leaves);
    assert l in leaves;
    assert forall x :: x in front ==> x in leaves;
    MergeFields(LeavesPatch(front), LeafPatch(l), c);
    if front == [] {
      assert FieldsOf(LeavesPatch(front), c) + l.payload.fields == l.payload.fields;
    } else {
      FlatFold(front, c);
      ApplyFlat(FoldDeltas(front), l.payload);
    }
  }

  function LeafFields(l: Leaf, c: string): Fields {
    if l.container == c && l.payload.Object? then l.payload.fields else map[]
  }

  lemma SnocFields(leaves: seq<Leaf>, l: Leaf, c: string)
    ensures FieldsOf(LeavesPatch(leaves + [l]), c) == FieldsOf(LeavesPatch(leaves), c) + LeafFields(l, c)
  {
    hide Merge;
    assert DropLast(leaves + [l]) == leaves;
    MergeFields(LeavesPatch(leaves), LeafPatch(l), c);
  }

  /** Other containers do not touch a container's fields. */
  lemma {:induction false} PatchOfContainer(leaves: seq<Leaf>, c: string)
    ensures FieldsOf(LeavesPatch(Filter(leaves, Of(c))), c) == FieldsOf(LeavesPatch(leaves), c)
  {
    hide LeavesPatch, FieldsOf;
    if leaves != [] {
      var front, l := DropLast(leaves), Last(leaves);
      assert leaves == front + [l];
      PatchOfContainer(front, c);
      SnocFields(front, l, c);
      SnocFields(Filter(front, Of(c)), l, c);
      if l.container != c {
        assert Filter(leaves, Of(c)) == Filter(front, Of(c));
      }
    }
  }

  /** Replaying the finalized leaves and overlaying the level-1 net patches give the same state. */
  lemma ReconstructionsAgree(cfg: Settings, steps: seq<Step>, c: string, at: Time)
    requires ValidSettings(cfg) && Monotone(steps) && |cfg.levels| > 1 && cfg.levels[1].CarriesPatches()
    requires forall i :: 0 <= i < |steps| ==> steps[i].leaf.at <= at
    requires forall i :: 0 <= i < |steps| && steps[i].leaf.container == c ==> Flat(steps[i].leaf.payload)
    ensures var tw := Run(cfg, steps);
      Reconstruct(tw.tiers[0].stored, c, at).Ok? ==>
        Reconstruct(tw.tiers[0].stored, c, at).value == Object(FieldsOf(Net(tw.tiers[1]), c))
  {
    hide Run, Net, NetIn, LeavesIn, LeavesPatch, FoldDeltas, Monotone, Reconstruct, TierTyped, TierOk, IdsSafe, LeafTierOk;
    var tw := Run(cfg, steps);
    var stored := tw.tiers[0].stored;
    var leaves := LeavesIn(stored);
    ReconstructIsFold(cfg, steps, c, at);
    RunTelescopes(cfg, steps, 0);
    RunConserves(cfg, steps);
    forall l | l in leaves ensures l.at <= at && (l.container == c ==> Flat(l.payload)) {
      assert l in AllLeaves(tw);
    }
    FilterAgrees(leaves, OfUpTo(c, at), Of(c));
    FilterMembers(leaves, Of(c));
    PatchOfContainer(leaves, c);
    var mine := Filter(leaves, Of(c));
    if mine != [] {
      FlatFold(mine, c);
    }
  }
}
