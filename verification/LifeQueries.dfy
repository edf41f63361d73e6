/** What the queries answer once retention passes have deleted pages. */
module LifeQueries {
  import opened Prelude
  import opened Hashing
  import opened Config
  import opened Pages
  import opened Towers
  import opened Safety
  import opened Conservation
  import opened Timeline
  import opened QuerySpec
  import opened Retention

  lemma {:induction false} AddedInOrder(events: seq<Event>)
    requires InTimeOrder(events)
    ensures InOrder(AddedLeaves(events))
    ensures forall j :: 0 <= j < |AddedLeaves(events)| ==> InRange(AddedLeaves(events)[j].at) && AddedLeaves(events)[j].at <= ClockOf(events)
  {
    if events != [] {
      AddedInOrder(DropLast(events));
    }
  }

  lemma SuffixInOrder(ls: seq<Leaf>, all: seq<Leaf>)
    requires SuffixOf(ls, all) && InOrder(all) && forall j :: 0 <= j < |all| ==> InRange(all[j].at)
    ensures InOrder(ls) && forall j :: 0 <= j < |ls| ==> InRange(ls[j].at)
  {
  }

  /** Filtering the newest part of a list gives the newest part of the filtered list. */
  lemma FilterSuffix(ls: seq<Leaf>, all: seq<Leaf>, p: Leaf -> bool)
    requires SuffixOf(ls, all)
    ensures SuffixOf(Filter(ls, p), Filter(all, p))
  {
    hide Filter;
    var gone := all[..|all| - |ls|];
    assert all == gone + ls;
    FilterConcat(gone, ls, p);
  }

  /** Level 0 is ordered after any mix of ordered leaves and clean retention passes. */
  lemma LifeOrdered(cfg: Settings, events: seq<Event>, towers: seq<Tower>)
    requires ValidSettings(cfg) && Lives(cfg, events, towers) && InTimeOrder(events)
    ensures var tw := Last(towers);
      && tw.tiers != [] && OrderedPages(TierPages(tw.tiers[0])) && OrderedPages(tw.tiers[0].stored)
      && LeavesIn(TierPages(tw.tiers[0])) == AllLeaves(tw) && InOrder(AllLeaves(tw)) && SuffixOf(AllLeaves(tw), AddedLeaves(events))
  {
    assert |towers| > 0;
    hide Lives, InTimeOrder, InOrder, SuffixOf, RunOk, Timely, AllLeaves, OrderedPages, TierPages, LeavesIn;
    var tw := Last(towers);
    LivesKeep(cfg, events, towers);
    LivesKeepNewestLeaves(cfg, events, towers);
    AddedInOrder(events);
    SuffixInOrder(AllLeaves(tw), AddedLeaves(events));
    LevelZeroOrdered(cfg, tw, ClockOf(events));
  }

  /** Reconstruction folds the container's finalized leaves that are left, up to the time, in arrival order. */
  lemma ReconstructIsFoldInLife(cfg: Settings, events: seq<Event>, towers: seq<Tower>, c: string, at: Time)
    requires ValidSettings(cfg) && Lives(cfg, events, towers) && InTimeOrder(events)
    ensures Last(towers).tiers != []
    ensures var stored := Last(towers).tiers[0].stored;
      var mine := Filter(LeavesIn(stored), OfUpTo(c, at));
      Reconstruct(stored, c, at) == if mine == [] then Err(ContainerNotFound) else Ok(FoldDeltas(mine))
  {
    assert |towers| > 0;
    hide Lives, InTimeOrder, OrderedPages, Reconstruct, AllLeaves;
    LifeOrdered(cfg, events, towers);
    ReconstructOrdered(Last(towers).tiers[0].stored, c, at);
  }

  /** A report gives exactly the container's leaves in the range that level 0 still holds: the newest part of what it
      would give had nothing been deleted. */
  lemma DeltaReportIsExactInLife(cfg: Settings, events: seq<Event>, towers: seq<Tower>, c: string, from: Time, to: Time)
    requires ValidSettings(cfg) && Lives(cfg, events, towers) && InTimeOrder(events) && from <= to
    ensures Last(towers).tiers != []
    ensures var mine := Filter(AllLeaves(Last(towers)), OfBetween(c, from, to));
      && DeltaReport(TierPages(Last(towers).tiers[0]), c, from, to) == (if mine == [] then Err(ContainerNotFound) else Ok(mine))
      && SuffixOf(mine, Filter(AddedLeaves(events), OfBetween(c, from, to)))
  {
    assert |towers| > 0;
    hide Lives, InTimeOrder, OrderedPages, DeltaReport, AllLeaves, TierPages, SuffixOf;
    LifeOrdered(cfg, events, towers);
    DeltaReportOrdered(TierPages(Last(towers).tiers[0]), c, from, to);
    FilterSuffix(AllLeaves(Last(towers)), AddedLeaves(events), OfBetween(c, from, to));
  }

  /** Reading that report page by page gives the whole of it. */
  lemma BatchesTileInLife(cfg: Settings, events: seq<Event>, towers: seq<Tower>, c: string, from: Time, to: Time, limit: nat, count: nat)
    requires ValidSettings(cfg) && Lives(cfg, events, towers) && InTimeOrder(events) && from <= to && limit > 0
    ensures Last(towers).tiers != []
    ensures var pages := TierPages(Last(towers).tiers[0]);
      var full := DeltaReport(pages, c, from, to);
      full.Ok? ==>
        && ReadInPages(pages, c, from, to, limit, count) == full.value[..Min(count * limit, |full.value|)]
        && (DeltaReportPage(pages, c, from, to, count * limit, limit) == Ok([])
            <==> ReadInPages(pages, c, from, to, limit, count) == full.value)
  {
    assert |towers| > 0;
    hide Lives, InTimeOrder, OrderedPages, DeltaReport, DeltaReportPage, ReadInPages, TierPages, SuffixOf, AllLeaves;
    LifeOrdered(cfg, events, towers);
    PagesTile(TierPages(Last(towers).tiers[0]), c, from, to, limit, count);
  }
}
