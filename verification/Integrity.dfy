/** The page-chain checker: what it reports, and which states it accepts. */
module Integrity {
  import opened Prelude
  import opened Hashing
  import opened Config
  import opened Pages
  import opened Towers
  import opened Safety
  import opened Conservation
  import opened Timeline
  import opened Rules

  datatype Report = Report(id: nat, level: nat, valid: bool, issues: seq<string>)

  /** A page as the checker sees it: loaded from storage, or still active. */
  datatype Entry = Entry(page: Page, fromStorage: bool)

  /** The active page is looked up in storage first; a reopened one is found there. */
  function ActiveEntry(t: Tier): seq<Entry> {
    if t.active.None? then []
    else if t.LastStored().Some? && t.LastStored().value.id == t.active.value.id then [Entry(t.LastStored().value, true)]
    else [Entry(t.active.value, false)]
  }

  function Entries(t: Tier): seq<Entry> {
    seq(|t.stored|, i requires 0 <= i < |t.stored| => Entry(t.stored[i], true)) + ActiveEntry(t)
  }

  predicate Selected(id: nat, from: Option<nat>, to: Option<nat>) {
    (from.Some? ==> from.value <= id) && (to.Some? ==> id <= to.value)
  }

  /** The hash of the last selected page. */
  function LastSeen(entries: seq<Entry>, from: Option<nat>, to: Option<nat>): Option<Hash> {
    if entries == [] then None
    else if Selected(Last(entries).page.id, from, to) then Some(Last(entries).page.hash)
    else LastSeen(DropLast(entries), from, to)
  }

  ghost function IssuesOf(p: Page, prev: Option<Hash>): seq<string> {
    (if p.Rehash().root != p.root then ["merkle_root mismatch"] else [])
    + (if p.Rehash().hash != p.hash then ["page_hash mismatch"] else [])
    + (if prev.Some? && p.prev != prev then ["prev_page_hash mismatch"] else [])
  }

  ghost function ReportOn(e: Entry, level: nat, prev: Option<Hash>): Report {
    var issues := if e.fromStorage then IssuesOf(e.page, prev) else [];
    Report(e.page.id, level, issues == [], issues)
  }

  ghost function Reports(entries: seq<Entry>, level: nat, from: Option<nat>, to: Option<nat>): seq<Report> {
    if entries == [] then []
    else
      var front := DropLast(entries);
      Reports(front, level, from, to)
      + if Selected(Last(entries).page.id, from, to) then [ReportOn(Last(entries), level, LastSeen(front, from, to))] else []
  }

  ghost predicate AllValid(reports: seq<Report>) {
    forall i :: 0 <= i < |reports| ==> reports[i].valid
  }

  // ---------------------------------------------------------------- accepted chains

  ghost predicate GoodChain(entries: seq<Entry>) {
    && (forall i, j :: 0 <= i < j < |entries| ==> entries[i].page.id < entries[j].page.id)
    && (forall i :: 0 <= i < |entries| && entries[i].fromStorage ==> entries[i].page == entries[i].page.Rehash())
    && (forall i :: 0 < i < |entries| && entries[i].fromStorage ==> entries[i].page.prev == Some(entries[i - 1].page.hash))
  }

  /** With ascending ids, a selected page's last selected predecessor is its neighbour, if any. */
  lemma {:induction false} LastSeenIsNeighbour(entries: seq<Entry>, from: Option<nat>, to: Option<nat>, next: nat)
    requires forall i, j :: 0 <= i < j < |entries| ==> entries[i].page.id < entries[j].page.id
    requires Selected(next, from, to) && forall i :: 0 <= i < |entries| ==> entries[i].page.id < next
    ensures LastSeen(entries, from, to).None? || (entries != [] && LastSeen(entries, from, to) == Some(Last(entries).page.hash))
  {
    if entries != [] && !Selected(Last(entries).page.id, from, to) {
      NoneSeen(entries, from, to);
    }
  }

  lemma {:induction false} NoneSeen(entries: seq<Entry>, from: Option<nat>, to: Option<nat>)
    requires entries != [] ==> from.Some? && forall i :: 0 <= i < |entries| ==> entries[i].page.id < from.value
    ensures LastSeen(entries, from, to).None?
  {
    if entries != [] {
      NoneSeen(DropLast(entries), from, to);
    }
  }

  lemma ReportsSnoc(front: seq<Entry>, e: Entry, k: nat, from: Option<nat>, to: Option<nat>)
    ensures Reports(front + [e], k, from, to) ==
      Reports(front, k, from, to) + if Selected(e.page.id, from, to) then [ReportOn(e, k, LastSeen(front, from, to))] else []
  {
    hide ReportOn;
    assert DropLast(front + [e]) == front;
  }

  lemma GoodChainFront(entries: seq<Entry>)
    requires GoodChain(entries) && entries != []
    ensures GoodChain(DropLast(entries)) && entries == DropLast(entries) + [Last(entries)]
    ensures forall i :: 0 <= i < |DropLast(entries)| ==> DropLast(entries)[i].page.id < Last(entries).page.id
  {
    hide RootOf;
    var front := DropLast(entries);
    assert forall i :: 0 <= i < |front| ==> front[i] == entries[i];
  }

  lemma LastOfGoodChainValid(entries: seq<Entry>, level: nat, prev: Option<Hash>)
    requires GoodChain(entries) && entries != []
    requires prev.None? || (|entries| > 1 && prev == Some(Last(DropLast(entries)).page.hash))
    ensures ReportOn(Last(entries), level, prev).valid
  {
    hide RootOf;
    assert Last(entries) == entries[|entries| - 1];
  }

  lemma {:induction false} GoodChainAccepted(entries: seq<Entry>, level: nat, from: Option<nat>, to: Option<nat>)
    requires GoodChain(entries)
    ensures AllValid(Reports(entries, level, from, to))
  {
    if entries != [] {
      hide GoodChain, Reports, ReportOn, LastSeen, Selected;
      var front, last := DropLast(entries), Last(entries);
      GoodChainFront(entries);
      GoodChainAccepted(front, level, from, to);
      ReportsSnoc(front, last, level, from, to);
      if Selected(last.page.id, from, to) {
        GoodChainAscends(front);
        LastSeenIsNeighbour(front, from, to, last.page.id);
        LastOfGoodChainValid(entries, level, LastSeen(front, from, to));
      }
    }
  }

  lemma GoodChainAscends(entries: seq<Entry>)
    requires GoodChain(entries)
    ensures forall i, j :: 0 <= i < j < |entries| ==> entries[i].page.id < entries[j].page.id
  {
  }

  // ---------------------------------------------------------------- tiers

  /** The active page is a reopened one: a page of the same id is still in the store. */
  ghost predicate ActiveAlsoStored(t: Tier) {
    t.active.Some? && t.LastStored().Some? && t.LastStored().value.id == t.active.value.id
  }

  function StoredEntries(t: Tier): seq<Entry> {
    seq(|t.stored|, i requires 0 <= i < |t.stored| => Entry(t.stored[i], true))
  }

  lemma StoredEntriesGood(cfg: Settings, k: nat, t: Tier)
    requires k < |cfg.levels| && TierOk(cfg, k, t) && Chained(t.stored)
    ensures GoodChain(StoredEntries(t))
  {
    hide RootOf, Extends, ActiveOk;
    forall i | 0 <= i < |t.stored| ensures t.stored[i] == t.stored[i].Rehash() {
      assert StoredOk(cfg, k, t.stored[i]);
    }
  }

  /** A sound, chained tier whose active page is not also stored. */
  lemma TierEntriesGood(cfg: Settings, k: nat, t: Tier)
    requires k < |cfg.levels| && TierOk(cfg, k, t) && Chained(t.stored) && Anchored(t) && !ActiveAlsoStored(t)
    ensures GoodChain(Entries(t))
  {
    hide RootOf, Extends, StoredOk;
    StoredEntriesGood(cfg, k, t);
    var es, stored := Entries(t), StoredEntries(t);
    if t.active.None? {
      assert es == stored;
    } else {
      assert es == stored + [Entry(t.active.value, false)];
      forall i | 0 <= i < |t.stored| ensures t.stored[i].id < t.active.value.id {
        assert t.stored[i].id <= Last(t.stored).id;
      }
      GoodChainSnoc(stored, t.active.value);
    }
  }

  lemma GoodChainSnoc(entries: seq<Entry>, p: Page)
    requires GoodChain(entries) && forall i :: 0 <= i < |entries| ==> entries[i].page.id < p.id
    ensures GoodChain(entries + [Entry(p, false)])
  {
    hide RootOf;
    var all := entries + [Entry(p, false)];
    forall i | 0 <= i < |entries| ensures all[i] == entries[i] {
    }
  }

  /** No page can name its own hash as predecessor. */
  lemma NoSelfLink(p: Page)
    requires p == p.Rehash()
    ensures p.prev != Some(p.hash)
  {
    hide RootOf;
    if p.prev.Some? {
      assert p.hash == p.Digest();
      assert p.prev.value < p.prev;
      assert p.prev < p.Digest();
    }
  }

  /** Over a sound chained tier only a selected active page that is also stored is flagged. */
  lemma TierAcceptedIff(cfg: Settings, k: nat, t: Tier, from: Option<nat>, to: Option<nat>)
    requires k < |cfg.levels| && TierOk(cfg, k, t) && Chained(t.stored) && Anchored(t)
    ensures AllValid(Reports(Entries(t), k, from, to)) <==> !(ActiveAlsoStored(t) && Selected(t.active.value.id, from, to))
  {
    hide RootOf, Extends, GoodChain, Reports, IssuesOf, TierOk, Chained, Entries, AllValid, Selected;
    if ActiveAlsoStored(t) {
      StoredEntriesGood(cfg, k, t);
      GoodChainAccepted(StoredEntries(t), k, from, to);
      ReopenedIsFlaggedIff(cfg, k, t, from, to);
    } else {
      TierEntriesGood(cfg, k, t);
      GoodChainAccepted(Entries(t), k, from, to);
    }
  }

  /** A page listed twice in a row does not link to itself. */
  lemma ReopenedIsFlaggedIff(cfg: Settings, k: nat, t: Tier, from: Option<nat>, to: Option<nat>)
    requires k < |cfg.levels| && TierOk(cfg, k, t) && ActiveAlsoStored(t) && AllValid(Reports(StoredEntries(t), k, from, to))
    ensures AllValid(Reports(Entries(t), k, from, to)) <==> !Selected(t.active.value.id, from, to)
  {
    hide RootOf, Extends, ActiveOk, IssuesOf;
    var es, front, p := Entries(t), StoredEntries(t), Last(t.stored);
    assert StoredOk(cfg, k, t.stored[|t.stored| - 1]);
    NoSelfLink(p);
    assert es == front + [Entry(p, true)] && DropLast(es) == front && Last(front) == Entry(p, true);
    hide TierOk, Entries, StoredEntries, StoredOk, Reports;
    ReportsSnoc(front, Entry(p, true), k, from, to);
    if Selected(p.id, from, to) {
      LastSeenLast(front, from, to);
      TwiceIsInvalid(p, k);
      var rs := Reports(es, k, from, to);
      assert rs[|rs| - 1] == ReportOn(Entry(p, true), k, Some(p.hash));
    }
  }

  lemma LastSeenLast(entries: seq<Entry>, from: Option<nat>, to: Option<nat>)
    requires entries != [] && Selected(Last(entries).page.id, from, to)
    ensures LastSeen(entries, from, to) == Some(Last(entries).page.hash)
  {
  }

  lemma TwiceIsInvalid(p: Page, k: nat)
    requires p.prev != Some(p.hash)
    ensures !ReportOn(Entry(p, true), k, Some(p.hash)).valid
  {
    hide RootOf;
    var issues := IssuesOf(p, Some(p.hash));
    assert "prev_page_hash mismatch" in issues;
  }

  // ---------------------------------------------------------------- runs

  /** Level 0 passes the checker in every run, whatever the timestamps. */
  lemma CheckerAcceptsLevelZero(cfg: Settings, steps: seq<Step>, from: Option<nat>, to: Option<nat>)
    requires ValidSettings(cfg)
    ensures AllValid(Reports(Entries(Run(cfg, steps).tiers[0]), 0, from, to))
  {
    hide Run, Reports, RootOf, Extends, IdsSafe, TierTyped, GoodChain, StoredOk;
    RunConserves(cfg, steps);
    var t := Run(cfg, steps).tiers[0];
    assert TierOk(cfg, 0, t);
    NotReopenedAtZero(cfg, t);
    TierEntriesGood(cfg, 0, t);
    GoodChainAccepted(Entries(t), 0, from, to);
  }

  lemma NotReopenedAtZero(cfg: Settings, t: Tier)
    requires 0 < |cfg.levels| && TierOk(cfg, 0, t)
    ensures !ActiveAlsoStored(t)
  {
    hide StoredOk, Extends, RootOf;
  }

  /** Every tier of every run is chained and anchored, whatever the timestamps. */
  lemma RunChained(cfg: Settings, steps: seq<Step>, k: nat)
    requires ValidSettings(cfg) && k < |cfg.levels|
    ensures RunOk(cfg, Run(cfg, steps)) && TierOk(cfg, k, Run(cfg, steps).tiers[k])
    ensures Chained(Run(cfg, steps).tiers[k].stored) && Anchored(Run(cfg, steps).tiers[k])
  {
    hide Run, TierOk, IdsSafe, TierTyped, LeafTierOk, LeafChained;
    RunConserves(cfg, steps);
    RunObeys(Chain, cfg, steps);
    assert TierObeys(Chain, k, Run(cfg, steps).tiers[k]);
  }

  /**
   In every run, at every level and for every id range, whatever the timestamps: the checker
   accepts exactly when no selected active page is also in the store.
   */
  lemma CheckerAcceptsIff(cfg: Settings, steps: seq<Step>, k: nat, from: Option<nat>, to: Option<nat>)
    requires ValidSettings(cfg) && k < |cfg.levels|
    ensures var t := Run(cfg, steps).tiers[k];
      AllValid(Reports(Entries(t), k, from, to)) <==> !(ActiveAlsoStored(t) && Selected(t.active.value.id, from, to))
  {
    hide Run, TierOk, AllValid, Reports, Entries, ActiveAlsoStored, RunOk, Chained;
    RunChained(cfg, steps, k);
    TierAcceptedIff(cfg, k, Run(cfg, steps).tiers[k], from, to);
  }

  /** Every level passes the checker in every monotone run, for every id range, reopened pages included. */
  lemma CheckerAcceptsRun(cfg: Settings, steps: seq<Step>, k: nat, from: Option<nat>, to: Option<nat>)
    requires ValidSettings(cfg) && Monotone(steps) && k < |cfg.levels|
    ensures AllValid(Reports(Entries(Run(cfg, steps).tiers[k]), k, from, to))
  {
    hide Run, Reports, RootOf, Extends, IdsSafe, TierTyped, LeafTierOk, LeafChained, Monotone;
    RunConserves(cfg, steps);
    RunTimely(cfg, steps);
    TimelyTierAccepted(cfg, Run(cfg, steps), Clock(steps), k, from, to);
  }

  lemma TimelyTierAccepted(cfg: Settings, tw: Tower, now: Time, k: nat, from: Option<nat>, to: Option<nat>)
    requires ValidSettings(cfg) && Sound(cfg, tw) && Timely(cfg, tw, now) && k < |cfg.levels|
    ensures AllValid(Reports(Entries(tw.tiers[k]), k, from, to))
  {
    hide Reports, RootOf, Extends, IdsSafe, WindowStart, Closed, GoodChain, StoredOk, Chained;
    var t := tw.tiers[k];
    assert TierOk(cfg, k, t) && TierTimely(cfg.levels[k], k, t, now);
    TierEntriesGood(cfg, k, t);
    GoodChainAccepted(Entries(t), k, from, to);
  }
}
