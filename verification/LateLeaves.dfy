/**
 What the queries read in runs that are not in time order.  Inside a page they stop at the first
 leaf past the time, so a leaf that arrived behind a later one on its page is missed.
 */
module LateLeaves {
  import opened Prelude
  import opened Hashing
  import opened Config
  import opened Pages
  import opened Towers
  import opened Safety
  import opened Conservation
  import opened Storage
  import opened QuerySpec

  /** A wanted leaf sits behind a leaf past the time. */
  ghost predicate Hides(ls: seq<Leaf>, at: Time, wanted: Leaf -> bool) {
    exists i, j :: 0 <= i < j < |ls| && ls[i].at > at && wanted(ls[j])
  }

  ghost predicate NoneHidden(pages: seq<Page>, at: Time, wanted: Leaf -> bool) {
    forall i :: 0 <= i < |pages| ==> !Hides(PageLeaves(pages[i]), at, wanted)
  }

  // ---------------------------------------------------------------- one page

  lemma {:induction false} TakeWhileLength(ls: seq<Leaf>, at: Time)
    ensures var n := |TakeWhile(ls, UpTo(at))|;
      && n <= |ls| && TakeWhile(ls, UpTo(at)) == ls[..n]
      && (forall i :: 0 <= i < n ==> ls[i].at <= at) && (n < |ls| ==> ls[n].at > at)
  {
    if ls != [] && ls[0].at <= at {
      TakeWhileLength(ls[1..], at);
      var n := |TakeWhile(ls[1..], UpTo(at))|;
      assert ls[..n + 1] == [ls[0]] + ls[1..][..n];
    }
  }

  lemma HidesFrom(ls: seq<Leaf>, n: nat, at: Time, wanted: Leaf -> bool)
    requires n <= |ls| && (forall i :: 0 <= i < n ==> ls[i].at <= at) && (n < |ls| ==> ls[n].at > at)
    requires forall l :: wanted(l) ==> l.at <= at
    ensures Hides(ls, at, wanted) <==> exists j :: n <= j < |ls| && wanted(ls[j])
  {
    if j :| n <= j < |ls| && wanted(ls[j]) {
      assert n < j && ls[n].at > at;
    }
  }

  lemma NothingLeftIff(ls: seq<Leaf>, n: nat, wanted: Leaf -> bool)
    requires n <= |ls|
    ensures Filter(ls[n..], wanted) == [] <==> forall j :: n <= j < |ls| ==> !wanted(ls[j])
  {
    hide Filter;
    var rest := ls[n..];
    FilterMembers(rest, wanted);
    if j :| n <= j < |ls| && wanted(ls[j]) {
      assert rest[j - n] == ls[j];
      assert ls[j] in Filter(rest, wanted);
    } else {
      NoneLeft(rest, wanted);
    }
  }

  /** What is read from a page is the start of what is wanted of it, and all of it exactly when nothing wanted is hidden. */
  lemma PageReadIff(ls: seq<Leaf>, at: Time, wanted: Leaf -> bool) returns (missed: seq<Leaf>)
    requires forall l :: wanted(l) ==> l.at <= at
    ensures Filter(ls, wanted) == Filter(TakeWhile(ls, UpTo(at)), wanted) + missed
    ensures missed == [] <==> !Hides(ls, at, wanted)
  {
    hide Filter, TakeWhile, Hides;
    TakeWhileLength(ls, at);
    var n := |TakeWhile(ls, UpTo(at))|;
    assert ls == ls[..n] + ls[n..];
    FilterConcat(ls[..n], ls[n..], wanted);
    missed := Filter(ls[n..], wanted);
    HidesFrom(ls, n, at, wanted);
    NothingLeftIff(ls, n, wanted);
  }

  // ---------------------------------------------------------------- pages by start

  ghost predicate PlacedPages(pages: seq<Page>) {
    forall i :: 0 <= i < |pages| ==> pages[i].content.Leaves? && forall l :: l in pages[i].content.leaves ==> pages[i].start <= l.at < pages[i].end
  }

  ghost predicate StartsInOrder(pages: seq<Page>) {
    forall i, j :: 0 <= i < j < |pages| ==> pages[i].start <= pages[j].start
  }

  lemma NothingWanted(pages: seq<Page>, at: Time, wanted: Leaf -> bool)
    requires PlacedPages(pages) && (forall l :: wanted(l) ==> l.at <= at) && forall i :: 0 <= i < |pages| ==> pages[i].start > at
    ensures Filter(LeavesIn(pages), wanted) == [] && NoneHidden(pages, at, wanted)
  {
    hide LeavesIn;
    forall l | l in LeavesIn(pages) ensures !wanted(l) {
      LeavesInMembers(pages, l);
    }
    NoneLeft(LeavesIn(pages), wanted);
    forall i | 0 <= i < |pages| ensures !Hides(PageLeaves(pages[i]), at, wanted) {
      assert forall j :: 0 <= j < |PageLeaves(pages[i])| ==> PageLeaves(pages[i])[j] in pages[i].content.leaves;
    }
  }

  lemma UpToOnPage(ls: seq<Leaf>, c: string, at: Time)
    ensures Filter(TakeWhile(ls, UpTo(at)), Of(c)) == Filter(TakeWhile(ls, UpTo(at)), OfUpTo(c, at))
  {
    TakeWhileLength(ls, at);
    FilterAgrees(TakeWhile(ls, UpTo(at)), Of(c), OfUpTo(c, at));
  }

  /** A replay reads no leaf that is not wanted, and all that are exactly when none is hidden. */
  lemma {:induction false} ReadUpToIff(pages: seq<Page>, c: string, at: Time)
    requires PlacedPages(pages) && StartsInOrder(pages)
    ensures |ReadUpTo(pages, c, at)| <= |Filter(LeavesIn(pages), OfUpTo(c, at))|
    ensures ReadUpTo(pages, c, at) == Filter(LeavesIn(pages), OfUpTo(c, at)) <==> NoneHidden(pages, at, OfUpTo(c, at))
  {
    hide LeavesIn, Hides, Filter, TakeWhile;
    LeavesInEmpty();
    FilterEmpty(OfUpTo(c, at));
    if pages != [] {
      if pages[0].start > at {
        NothingWanted(pages, at, OfUpTo(c, at));
      } else {
        var ls, rest := PageLeaves(pages[0]), pages[1..];
        ReadUpToIff(rest, c, at);
        LeavesInCons(pages);
        FilterConcat(ls, LeavesIn(rest), OfUpTo(c, at));
        UpToOnPage(ls, c, at);
        var missed := PageReadIff(ls, at, OfUpTo(c, at));
        var mine := Filter(TakeWhile(ls, UpTo(at)), OfUpTo(c, at));
        var r, w := ReadUpTo(rest, c, at), Filter(LeavesIn(rest), OfUpTo(c, at));
        assert ReadUpTo(pages, c, at) == mine + r && Filter(LeavesIn(pages), OfUpTo(c, at)) == mine + missed + w;
        SplitEqual(mine, r, missed, w);
        NoneHiddenCons(pages, at, OfUpTo(c, at));
      }
    }
  }

  lemma FilterEmpty(wanted: Leaf -> bool)
    ensures Filter([], wanted) == []
  {
  }

  lemma SplitEqual(mine: seq<Leaf>, r: seq<Leaf>, missed: seq<Leaf>, w: seq<Leaf>)
    requires |r| <= |w|
    ensures mine + r == mine + missed + w <==> missed == [] && r == w
  {
    if mine + r == mine + missed + w {
      assert |r| == |missed| + |w|;
      assert r == (mine + r)[|mine|..] && w == (mine + missed + w)[|mine|..];
    }
  }

  lemma NoneHiddenCons(pages: seq<Page>, at: Time, wanted: Leaf -> bool)
    requires pages != []
    ensures NoneHidden(pages, at, wanted) <==> !Hides(PageLeaves(pages[0]), at, wanted) && NoneHidden(pages[1..], at, wanted)
  {
    hide Hides;
    if NoneHidden(pages, at, wanted) {
      forall i | 0 <= i < |pages[1..]| ensures !Hides(PageLeaves(pages[1..][i]), at, wanted) {
        assert pages[1..][i] == pages[i + 1];
      }
    }
    if !Hides(PageLeaves(pages[0]), at, wanted) && NoneHidden(pages[1..], at, wanted) {
      forall i | 0 <= i < |pages| ensures !Hides(PageLeaves(pages[i]), at, wanted) {
        assert i > 0 ==> pages[i] == pages[1..][i - 1];
      }
    }
  }

  /** So does a report, and pruning by window loses nothing. */
  lemma {:induction false} ReadBetweenIff(pages: seq<Page>, c: string, from: Time, to: Time)
    requires PlacedPages(pages)
    ensures |ReadBetween(pages, c, from, to)| <= |Filter(LeavesIn(pages), OfBetween(c, from, to))|
    ensures ReadBetween(pages, c, from, to) == Filter(LeavesIn(pages), OfBetween(c, from, to)) <==> NoneHidden(pages, to, OfBetween(c, from, to))
    ensures multiset(ReadBetween(pages, c, from, to)) <= multiset(Filter(LeavesIn(pages), OfBetween(c, from, to)))
    ensures |ReadBetween(pages, c, from, to)| == |Filter(LeavesIn(pages), OfBetween(c, from, to))| ==> NoneHidden(pages, to, OfBetween(c, from, to))
  {
    hide LeavesIn, Hides, Filter, TakeWhile, NoneHidden;
    var wanted := OfBetween(c, from, to);
    LeavesInEmpty();
    FilterEmpty(wanted);
    if pages == [] {
      NoPagesNoneHidden(to, wanted);
    } else {
      var front, last := DropLast(pages), Last(pages);
      assert pages == front + [last];
      ReadBetweenIff(front, c, from, to);
      LeavesInSnoc(front, last);
      FilterConcat(LeavesIn(front), PageLeaves(last), wanted);
      NoneHiddenSnoc(pages, to, wanted);
      var r, w := ReadBetween(front, c, from, to), Filter(LeavesIn(front), wanted);
      if last.end < from || last.start > to {
        PrunedHasNone(last, to, wanted, from, c);
        assert r + [] == r && w + [] == w;
      } else {
        var missed := PageReadIff(PageLeaves(last), to, wanted);
        var mine := Filter(TakeWhile(PageLeaves(last), UpTo(to)), wanted);
        assert ReadBetween(pages, c, from, to) == r + mine && Filter(LeavesIn(pages), wanted) == w + (mine + missed);
        SplitEqualFront(r, w, mine, missed);
      }
    }
  }

  lemma SplitEqualFront(r: seq<Leaf>, w: seq<Leaf>, mine: seq<Leaf>, missed: seq<Leaf>)
    requires |r| <= |w| && multiset(r) <= multiset(w)
    ensures r + mine == w + (mine + missed) <==> missed == [] && r == w
    ensures multiset(r + mine) <= multiset(w + (mine + missed))
  {
    assert multiset(r + mine) == multiset(r) + multiset(mine);
    assert multiset(w + (mine + missed)) == multiset(w) + (multiset(mine) + multiset(missed));
    if r + mine == w + (mine + missed) {
      assert |missed| == 0 && |r| == |w|;
      assert r == (r + mine)[..|r|] && w == (w + (mine + missed))[..|w|];
    }
  }

  lemma NoPagesNoneHidden(at: Time, wanted: Leaf -> bool)
    ensures NoneHidden([], at, wanted)
  {
  }

  lemma NoneHiddenSnoc(pages: seq<Page>, at: Time, wanted: Leaf -> bool)
    requires pages != []
    ensures NoneHidden(pages, at, wanted) <==> NoneHidden(DropLast(pages), at, wanted) && !Hides(PageLeaves(Last(pages)), at, wanted)
  {
    hide Hides;
    forall i | 0 <= i < |pages| - 1 ensures DropLast(pages)[i] == pages[i] {
    }
    if NoneHidden(DropLast(pages), at, wanted) && !Hides(PageLeaves(Last(pages)), at, wanted) {
      forall i | 0 <= i < |pages| ensures !Hides(PageLeaves(pages[i]), at, wanted) {
        assert i < |pages| - 1 ==> pages[i] == DropLast(pages)[i];
      }
    }
  }

  lemma PrunedHasNone(p: Page, to: Time, wanted: Leaf -> bool, from: Time, c: string)
    requires p.content.Leaves? && forall l :: l in p.content.leaves ==> p.start <= l.at < p.end
    requires wanted == OfBetween(c, from, to) && (p.end < from || p.start > to)
    ensures Filter(PageLeaves(p), wanted) == [] && !Hides(PageLeaves(p), to, wanted)
  {
    NoneLeft(PageLeaves(p), wanted);
    assert forall j :: 0 <= j < |PageLeaves(p)| ==> PageLeaves(p)[j] in p.content.leaves;
  }

  // ---------------------------------------------------------------- sorting pages

  lemma {:induction false} LeavesInInserted(pages: seq<Page>, p: Page)
    ensures multiset(LeavesIn(InsertBy(pages, p, ByStart))) == multiset(LeavesIn(pages)) + multiset(PageLeaves(p))
  {
    hide LeavesIn, PageLeaves;
    if pages == [] || ByStart(Last(pages)) <= ByStart(p) {
      LeavesInSnoc(pages, p);
    } else {
      var front, last := DropLast(pages), Last(pages);
      assert pages == front + [last];
      LeavesInInserted(front, p);
      LeavesInSnoc(InsertBy(front, p, ByStart), last);
      LeavesInSnoc(front, last);
    }
  }

  lemma {:induction false} LeavesInSorted(pages: seq<Page>)
    ensures multiset(LeavesIn(SortBy(pages, ByStart))) == multiset(LeavesIn(pages))
  {
    hide LeavesIn, PageLeaves, InsertBy;
    if pages != [] {
      var front, last := DropLast(pages), Last(pages);
      assert pages == front + [last];
      LeavesInSorted(front);
      LeavesInInserted(SortBy(front, ByStart), last);
      LeavesInSnoc(front, last);
    }
  }

  lemma {:induction false} FilterBag(ls: seq<Leaf>, wanted: Leaf -> bool, l: Leaf)
    ensures multiset(Filter(ls, wanted))[l] == if wanted(l) then multiset(ls)[l] else 0
  {
    if ls != [] {
      assert ls == DropLast(ls) + [Last(ls)];
      FilterBag(DropLast(ls), wanted, l);
    }
  }

  lemma FilterSameBag(a: seq<Leaf>, b: seq<Leaf>, wanted: Leaf -> bool)
    requires multiset(a) == multiset(b)
    ensures multiset(Filter(a, wanted)) == multiset(Filter(b, wanted)) && |Filter(a, wanted)| == |Filter(b, wanted)|
  {
    forall l ensures multiset(Filter(a, wanted))[l] == multiset(Filter(b, wanted))[l] {
      FilterBag(a, wanted, l);
      FilterBag(b, wanted, l);
    }
    assert multiset(Filter(a, wanted)) == multiset(Filter(b, wanted));
    assert |multiset(Filter(a, wanted))| == |Filter(a, wanted)| && |multiset(Filter(b, wanted))| == |Filter(b, wanted)|;
  }

  lemma SortedPages(pages: seq<Page>)
    ensures var sorted := SortBy(pages, ByStart); StartsInOrder(sorted) && forall p :: p in sorted <==> p in pages
  {
    hide SortBy;
    var sorted := SortBy(pages, ByStart);
    SortBySorts(pages, ByStart);
    assert forall p :: p in sorted <==> p in multiset(sorted);
    assert forall p :: p in pages <==> p in multiset(pages);
    forall i, j | 0 <= i < j < |sorted| ensures sorted[i].start <= sorted[j].start {
      assert ByStart(sorted[i]) <= ByStart(sorted[j]);
    }
  }

  lemma SamePages(a: seq<Page>, b: seq<Page>, at: Time, wanted: Leaf -> bool)
    requires forall p :: p in a <==> p in b
    ensures PlacedPages(a) ==> PlacedPages(b)
    ensures NoneHidden(a, at, wanted) <==> NoneHidden(b, at, wanted)
  {
    hide Hides;
    forall i | 0 <= i < |b| ensures exists j :: 0 <= j < |a| && a[j] == b[i] {
      assert b[i] in a;
    }
    forall i | 0 <= i < |a| ensures exists j :: 0 <= j < |b| && b[j] == a[i] {
      assert a[i] in b;
    }
  }

  // ---------------------------------------------------------------- runs

  predicate InTimeRange(steps: seq<Step>) {
    forall i :: 0 <= i < |steps| ==> InRange(steps[i].leaf.at)
  }

  lemma PagesPlaced(pages: seq<Page>)
    requires forall i :: 0 <= i < |pages| ==> LeavesPlaced(pages[i])
    requires forall j :: 0 <= j < |LeavesIn(pages)| ==> InRange(LeavesIn(pages)[j].at)
    ensures PlacedPages(pages)
  {
    hide LeavesIn;
    forall i, l | 0 <= i < |pages| && l in pages[i].content.leaves ensures pages[i].start <= l.at < pages[i].end {
      LeavesInMembers(pages, l);
    }
  }

  lemma RunPlaced(cfg: Settings, steps: seq<Step>)
    requires ValidSettings(cfg) && InTimeRange(steps)
    ensures var t := Run(cfg, steps).tiers[0];
      && PlacedPages(TierPages(t)) && PlacedPages(t.stored) && LeavesIn(TierPages(t)) == LeavesOf(steps)
  {
    hide Run, RunOk, LeafChained, AllLeaves, LeavesIn, LeavesPlaced;
    var tw := Run(cfg, steps);
    RunConserves(cfg, steps);
    TierPagesHoldAll(tw);
    LevelZeroPages(cfg, tw);
    PagesPlaced(TierPages(tw.tiers[0]));
    assert forall i :: 0 <= i < |tw.tiers[0].stored| ==> TierPages(tw.tiers[0])[i] == tw.tiers[0].stored[i];
  }

  /** In every run a reconstruction folds exactly the container's finalized leaves up to the time, page by page in order of
      their windows, if and only if none of them sits behind a later leaf on its page. */
  lemma ReconstructReadsAllIff(cfg: Settings, steps: seq<Step>, c: string, at: Time)
    requires ValidSettings(cfg) && InTimeRange(steps)
    ensures var stored := Run(cfg, steps).tiers[0].stored;
      var sorted := SortBy(stored, ByStart);
      var read := ReadUpTo(sorted, c, at);
      && Reconstruct(stored, c, at) == (if read == [] then Err(ContainerNotFound) else Ok(FoldDeltas(read)))
      && StartsInOrder(sorted) && multiset(LeavesIn(sorted)) == multiset(LeavesIn(stored))
      && (read == Filter(LeavesIn(sorted), OfUpTo(c, at)) <==> NoneHidden(stored, at, OfUpTo(c, at)))
  {
    hide Run, PlacedPages, NoneHidden, LeavesIn, FoldDeltas, StartsInOrder;
    RunPlaced(cfg, steps);
    var stored := Run(cfg, steps).tiers[0].stored;
    var sorted := SortBy(stored, ByStart);
    SortedPages(stored);
    LeavesInSorted(stored);
    SamePages(stored, sorted, at, OfUpTo(c, at));
    ReadUpToIff(sorted, c, at);
  }

  /** In every run a report is in time order and gives only wanted leaves; it gives all of them if and only if none sits
      behind a leaf past the range on its page. */
  lemma ReportCompleteIff(cfg: Settings, steps: seq<Step>, c: string, from: Time, to: Time)
    requires ValidSettings(cfg) && InTimeRange(steps) && from <= to
    ensures var pages := TierPages(Run(cfg, steps).tiers[0]);
      var report := DeltaReport(pages, c, from, to);
      var given := if report.Ok? then report.value else [];
      var wanted := Filter(LeavesOf(steps), OfBetween(c, from, to));
      && (forall i, j :: 0 <= i < j < |given| ==> given[i].at <= given[j].at)
      && multiset(given) <= multiset(wanted)
      && (multiset(given) == multiset(wanted) <==> NoneHidden(pages, to, OfBetween(c, from, to)))
      && (report.Err? ==> report.error == ContainerNotFound)
  {
    hide Run, PlacedPages, NoneHidden, LeavesIn, TierPages, SortBy, Filter;
    RunPlaced(cfg, steps);
    var pages := TierPages(Run(cfg, steps).tiers[0]);
    var sorted, wanted := SortBy(pages, ByStart), OfBetween(c, from, to);
    SortedPages(pages);
    LeavesInSorted(pages);
    SamePages(pages, sorted, to, wanted);
    ReadBetweenIff(sorted, c, from, to);
    FilterSameBag(LeavesIn(sorted), LeavesIn(pages), wanted);
    var read := ReadBetween(sorted, c, from, to);
    ReportSorts(read);
    assert |multiset(read)| == |read|;
    assert |multiset(Filter(LeavesOf(steps), wanted))| == |Filter(LeavesOf(steps), wanted)|;
  }

  lemma ReportSorts(read: seq<Leaf>)
    ensures var given := SortBy(read, ByTime);
      multiset(given) == multiset(read) && forall i, j :: 0 <= i < j < |given| ==> given[i].at <= given[j].at
  {
    hide SortBy;
    SortBySorts(read, ByTime);
    var given := SortBy(read, ByTime);
    forall i, j | 0 <= i < j < |given| ensures given[i].at <= given[j].at {
      assert ByTime(given[i]) <= ByTime(given[j]);
    }
  }

  /** In any state a page of results is a slice of what the scan reads, put in time order; an inverted range is an error, and
      an empty page is empty whatever there is to read. */
  lemma ReportPageAnswers(pages: seq<Page>, c: string, from: Time, to: Time, offset: nat, limit: nat)
    ensures var answer := DeltaReportPage(pages, c, from, to, offset, limit);
      var read := ReadBetween(SortBy(pages, ByStart), c, from, to);
      if from > to then answer == Err(InvalidParameters)
      else if limit == 0 then answer == Ok([])
      else if read == [] then answer == Err(ContainerNotFound)
      else
        && answer.Ok?
        && (forall i, j :: 0 <= i < j < |answer.value| ==> answer.value[i].at <= answer.value[j].at)
        && multiset(answer.value) == multiset(if offset >= |read| then [] else read[offset..][..Min(limit, |read| - offset)])
  {
    hide SortBy, ReadBetween;
    var read := ReadBetween(SortBy(pages, ByStart), c, from, to);
    ReportSorts(Slice(read, offset, limit));
    assert Slice(read, offset, limit) == if offset >= |read| then [] else read[offset..][..Min(limit, |read| - offset)];
  }
}
