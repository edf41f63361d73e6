/** `append_leaf`: the journal's hash chain, and the page a leaf really lands on. */
module Journals {
  import opened Prelude
  import opened Hashing
  import opened Config
  import opened Pages
  import opened Towers
  import opened Safety
  import opened Conservation
  import opened TimeManager
  import opened QuerySpec
  import opened Inclusion

  // ---------------------------------------------------------------- the log of a journal

  /** One call of `append_leaf`; an absent parent means the leaf appended last. */
  datatype Append = Append(at: Time, parent: Option<Hash>, container: string, payload: Json)

  function Head(log: seq<Leaf>): Option<Hash> {
    if log == [] then None else Some(Last(log).hash)
  }

  function LeafFor(a: Append, id: nat, head: Option<Hash>): Leaf {
    NewLeaf(id, a.at, if a.parent.Some? then a.parent else head, a.container, a.payload)
  }

  function Log(calls: seq<Append>): (log: seq<Leaf>)
    ensures |log| == |calls|
  {
    if calls == [] then [] else
      var front := Log(DropLast(calls));
      front + [LeafFor(Last(calls), |front|, Head(front))]
  }

  /** `append_leaf` passes the leaf's own timestamp as the operation time. */
  function StepsOf(log: seq<Leaf>): seq<Step> {
    seq(|log|, i requires 0 <= i < |log| => Step(log[i], log[i].at))
  }

  predicate Implicit(calls: seq<Append>) {
    forall i :: 0 <= i < |calls| ==> calls[i].parent.None?
  }

  // ---------------------------------------------------------------- chaining

  lemma {:induction false} LogEntry(calls: seq<Append>, i: nat)
    requires i < |calls|
    ensures Log(calls)[i] == LeafFor(calls[i], i, if i == 0 then None else Some(Log(calls)[i - 1].hash))
  {
    if i < |calls| - 1 {
      LogEntry(DropLast(calls), i);
    }
  }

  /** Every leaf names the parent it was given, or else the hash of the leaf before it. */
  lemma LogLinks(calls: seq<Append>, i: nat)
    requires i < |calls|
    ensures calls[i].parent.Some? ==> Log(calls)[i].parent == calls[i].parent
    ensures calls[i].parent.None? ==> Log(calls)[i].parent == if i == 0 then None else Some(Log(calls)[i - 1].hash)
  {
    LogEntry(calls, i);
  }

  /** No two leaves share a hash, so inclusion proofs are unique. */
  lemma LogUnique(calls: seq<Append>)
    ensures UniqueHashes(Log(calls))
  {
    forall i, j | 0 <= i < j < |calls| ensures Log(calls)[i].hash != Log(calls)[j].hash {
      LogEntry(calls, i);
      LogEntry(calls, j);
    }
  }

  /** With implicit parents the last hash commits to the whole log. */
  lemma {:induction false} HeadCommits(a: seq<Append>, b: seq<Append>)
    requires Implicit(a) && Implicit(b)
    ensures Head(Log(a)) == Head(Log(b)) <==> Log(a) == Log(b)
    decreases |a|
  {
    if a != [] && b != [] && Head(Log(a)) == Head(Log(b)) {
      HeadCommits(DropLast(a), DropLast(b));
    }
  }

  /** Leaf conservation for a journal: what the tower holds is the log, hash-linked when parents are implicit. */
  lemma JournalHoldsLog(cfg: Settings, calls: seq<Append>)
    requires ValidSettings(cfg)
    ensures AllLeaves(Run(cfg, StepsOf(Log(calls)))) == Log(calls)
    ensures Implicit(calls) ==> forall i :: 0 < i < |calls| ==> Log(calls)[i].parent == Some(Log(calls)[i - 1].hash)
    ensures UniqueHashes(LeavesIn(Run(cfg, StepsOf(Log(calls))).tiers[0].stored))
  {
    hide Run, Log, TierOk, IdsSafe, TierTyped, LeafTierOk, LeafChained, LeavesIn;
    var log := Log(calls);
    RunConserves(cfg, StepsOf(log));
    assert LeavesOf(StepsOf(log)) == log;
    LogUnique(calls);
    forall i | 0 < i < |calls| && calls[i].parent.None? ensures log[i].parent == Some(log[i - 1].hash) {
      LogLinks(calls, i);
    }
    var kept := LeavesIn(Run(cfg, StepsOf(log)).tiers[0].stored);
    assert kept <= log;
    forall i, j | 0 <= i < j < |kept| ensures kept[i].hash != kept[j].hash {
      assert kept[i] == log[i] && kept[j] == log[j];
    }
  }

  // ---------------------------------------------------------------- the returned page id

  /** After `add_leaf` the newest level-0 page is the one the leaf was put on. */
  lemma LeafLandsLast(cfg: Settings, tw: Tower, leaf: Leaf, now: Time)
    requires ValidSettings(cfg) && RunOk(cfg, tw)
    ensures Typed(cfg, tw)
    ensures var pages := TierPages(AddLeaf(cfg, tw, leaf, now).tiers[0]);
      && pages != [] && Last(pages).id == LeafPage(cfg, tw, leaf.at, now).0.id
      && Last(pages).content == Leaves(LeafPage(cfg, tw, leaf.at, now).0.content.leaves + [leaf])
  {
    hide TierOk, IdsSafe, TierTyped, LeafTierOk, Fits, Grows, FinalizeAndRollup, LeavesPlaced, Follows, LeafChained, LeafPage, LeavesIn, RootOf;
    LeafPageOpens(cfg, tw, leaf.at, now);
    var (p, ready) := LeafPage(cfg, tw, leaf.at, now);
    FilledFits(cfg, ready, p, leaf);
    var filled := p.AddLeaf(leaf);
    if DueLeafPage(cfg.levels[0], filled, leaf.at, now) {
      RehashFits(cfg, ready, filled);
      StoreAppends(cfg, ready, filled.Rehash());
    }
  }

  /** A page that is finalized early gets a new successor, with a new id. */
  lemma EarlyFinalizeChangesId(cfg: Settings, tw: Tower, at: Time, now: Time)
    requires ValidSettings(cfg) && RunOk(cfg, tw)
    ensures Typed(cfg, tw)
    ensures PreFinalizes(cfg.levels[0], OpenLeafPage(cfg, tw, at).0, at, now)
       <==> LeafPage(cfg, tw, at, now).0.id != OpenLeafPage(cfg, tw, at).0.id
  {
    hide TierOk, IdsSafe, TierTyped, LeafTierOk, Fits, Grows, FinalizeAndRollup, LeavesPlaced, Follows, LeafChained, OpenLeafPage, LeavesIn, RootOf;
    OpenLeafPageOpens(cfg, tw, at);
    var (p, ready) := OpenLeafPage(cfg, tw, at);
    if PreFinalizes(cfg.levels[0], p, at, now) {
      FinalizeLeafPage(cfg, ready, p, at);
      var after := FinalizeAndRollup(cfg, ready, 0, p.Rehash(), at);
      RehashFits(cfg, ready, p);
      StoreAppends(cfg, ready, p.Rehash());
      VacantOpensFresh(cfg, after, at);
      NextIsFree(after, |after.tiers[0].stored| - 1);
    }
  }

  lemma VacantOpensFresh(cfg: Settings, tw: Tower, at: Time)
    requires ValidSettings(cfg) && Typed(cfg, tw) && tw.tiers[0].active.None?
    ensures OpenLeafPage(cfg, tw, at).0.id == tw.next
  {
  }

  lemma NextIsFree(tw: Tower, i: nat)
    requires IdsSafe(tw) && |tw.tiers| > 0 && i < |tw.tiers[0].stored|
    ensures tw.tiers[0].stored[i].id < tw.next
  {
    assert tw.tiers[0].stored[i].id in tw.tiers[0].Ids();
  }

  /**
   `add_leaf` promises the id of the page the leaf was added to. It keeps that promise
   exactly when the open page was not finalized early, before the leaf was added.
   */
  lemma ReturnedIdIsRightIff(cfg: Settings, tw: Tower, leaf: Leaf, now: Time)
    requires ValidSettings(cfg) && RunOk(cfg, tw)
    ensures Typed(cfg, tw)
    ensures var returned := OpenLeafPage(cfg, tw, leaf.at).0;
      var pages := TierPages(AddLeaf(cfg, tw, leaf, now).tiers[0]);
      pages != [] && (returned.id == Last(pages).id <==> !PreFinalizes(cfg.levels[0], returned, leaf.at, now))
  {
    hide TierOk, IdsSafe, TierTyped, LeafTierOk, AddLeaf, OpenLeafPage, LeafPage, PreFinalizes, TierPages;
    LeafLandsLast(cfg, tw, leaf, now);
    EarlyFinalizeChangesId(cfg, tw, leaf.at, now);
  }

  // ---------------------------------------------------------------- the journal

  class Journal {
    const manager: TimeHierarchyManager
    var lastLeafHash: Option<Hash>
    var nextLeafId: nat
    ghost var calls: seq<Append>

    /** The manager has seen exactly the calls made so far. */
    ghost predicate InStep()
      reads this, manager, manager.storage, manager.gen
      requires manager.Valid()
    {
      && lastLeafHash == Head(Log(calls)) && nextLeafId == |calls|
      && manager.tower == Run(manager.cfg, StepsOf(Log(calls)))
    }

    constructor (settings: Settings)
      requires ValidSettings(settings)
      ensures manager.Valid() && InStep() && calls == [] && manager.cfg == settings
      ensures fresh(manager) && fresh(manager.storage) && fresh(manager.gen)
    {
      manager := new TimeHierarchyManager(settings);
      lastLeafHash := None;
      nextLeafId := 0;
      calls := [];
    }

    /** Returns the new leaf's hash; the operation time is the leaf's own, so no page is finalized early. */
    method AppendLeaf(at: Time, parent: Option<Hash>, container: string, payload: Json) returns (hash: Hash, ghost leaf: Leaf)
      requires manager.Valid()
      modifies this, manager, manager.storage, manager.gen
      ensures manager.Valid()
      ensures leaf == NewLeaf(old(nextLeafId), at, if parent.Some? then parent else old(lastLeafHash), container, payload)
      ensures hash == leaf.hash && lastLeafHash == Some(hash) && nextLeafId == old(nextLeafId) + 1
      ensures AllLeaves(manager.tower) == AllLeaves(old(manager.tower)) + [leaf]
      ensures calls == old(calls) + [Append(at, parent, container, payload)]
      ensures old(InStep()) ==> InStep()
    {
      hide Represents, AddLeaf, LeafTierOk, AllLeaves, ValidSettings, Typed;
      var prev := if parent.Some? then parent else lastLeafHash;
      var made := NewLeaf(nextLeafId, at, prev, container, payload);
      leaf := made;
      ManagerOk(manager);
      AddLeafOk(manager.cfg, manager.tower, made, at);
      ghost var call := Append(at, parent, container, payload);
      LogStep(calls, call);
      var _ := manager.AddLeaf(made, at);
      nextLeafId := nextLeafId + 1;
      lastLeafHash := Some(made.hash);
      calls := calls + [call];
      hash := made.hash;
    }
  }

  lemma ManagerOk(m: TimeHierarchyManager)
    requires m.Valid()
    ensures ValidSettings(m.cfg) && RunOk(m.cfg, m.tower)
  {
  }

  lemma LogStep(calls: seq<Append>, call: Append)
    ensures var log := Log(calls);
      var leaf := LeafFor(call, |log|, Head(log));
      && Log(calls + [call]) == log + [leaf] && Head(log + [leaf]) == Some(leaf.hash)
      && forall cfg :: ValidSettings(cfg) ==>
        Run(cfg, StepsOf(log + [leaf])) == AddLeaf(cfg, Run(cfg, StepsOf(log)), leaf, leaf.at)
  {
    hide AddLeaf;
    var log := Log(calls);
    var leaf := LeafFor(call, |log|, Head(log));
    assert DropLast(calls + [call]) == calls;
    assert StepsOf(log + [leaf]) == StepsOf(log) + [Step(leaf, leaf.at)];
    assert DropLast(StepsOf(log + [leaf])) == StepsOf(log);
  }
}
