/** Which containers a snapshot of everything covers. */
module SnapshotTargets {
  import opened Prelude
  import opened Hashing
  import opened Config
  import opened Patches
  import opened Pages
  import opened Towers
  import opened Safety
  import opened Conservation
  import opened Timeline
  import opened Rules
  import opened Storage
  import opened QuerySpec
  import opened Snapshots
  import opened SnapshotManagers

  lemma OwnersOfConcat(a: seq<Leaf>, b: seq<Leaf>, at: Time)
    ensures Owners(a + b, at) == Owners(a, at) + Owners(b, at)
  {
    forall c ensures c in Owners(a + b, at) <==> c in Owners(a, at) + Owners(b, at) {
      if c in Owners(a, at) {
        var i :| 0 <= i < |a| && a[i].at <= at && a[i].container == c;
        assert (a + b)[i] == a[i];
      }
      if c in Owners(b, at) {
        var i :| 0 <= i < |b| && b[i].at <= at && b[i].container == c;
        assert (a + b)[|a| + i] == b[i];
      }
    }
  }

  lemma OwnersOfPage(p: Page, at: Time, c: string)
    ensures c in OwnersOn(p, at) <==> c in Owners(PageLeaves(p), at) || IsBaseline(p, c, at)
  {
  }

  lemma {:induction false} OwnersOfPages(pages: seq<Page>, at: Time, c: string)
    ensures c in OwnersIn(pages, at) <==> c in Owners(LeavesIn(pages), at) || exists p :: p in pages && IsBaseline(p, c, at)
  {
    hide Owners, OwnersOn, IsBaseline;
    if pages == [] {
      NoLeafOwners(at);
    } else {
      var front, last := DropLast(pages), Last(pages);
      OwnersOfPages(front, at, c);
      OwnersOfConcat(LeavesIn(front), PageLeaves(last), at);
      OwnersOfPage(last, at, c);
      assert pages == front + [last];
    }
  }

  lemma NoLeafOwners(at: Time)
    ensures Owners([], at) == {}
  {
  }

  lemma OwnersByFilter(ls: seq<Leaf>, at: Time, c: string)
    ensures c in Owners(ls, at) <==> Filter(ls, OfUpTo(c, at)) != []
  {
    FilterMembers(ls, OfUpTo(c, at));
    if c in Owners(ls, at) {
      var i :| 0 <= i < |ls| && ls[i].at <= at && ls[i].container == c;
      assert ls[i] in Filter(ls, OfUpTo(c, at));
    }
    if Filter(ls, OfUpTo(c, at)) != [] {
      assert Filter(ls, OfUpTo(c, at))[0] in Filter(ls, OfUpTo(c, at));
    }
  }

  ghost predicate HasLeaf(tw: Tower, c: string, at: Time) {
    exists l :: l in AllLeaves(tw) && l.container == c && l.at <= at
  }

  lemma HasLeafByFilter(tw: Tower, c: string, at: Time)
    ensures HasLeaf(tw, c, at) <==> Filter(AllLeaves(tw), OfUpTo(c, at)) != []
  {
    hide AllLeaves, Filter;
    var mine := Filter(AllLeaves(tw), OfUpTo(c, at));
    FilterMembers(AllLeaves(tw), OfUpTo(c, at));
    if mine != [] {
      assert mine[0] in mine;
    }
    if HasLeaf(tw, c, at) {
      var l :| l in AllLeaves(tw) && l.container == c && l.at <= at;
      assert l in mine;
    }
  }

  /** Gathering finds a leaf of the container exactly when level 0 holds one. */
  lemma OwnsGatheredLeafIff(cfg: Settings, tw: Tower, at: Time, c: string)
    requires ValidSettings(cfg) && RunOk(cfg, tw) && forall l :: l in AllLeaves(tw) ==> InRange(l.at)
    ensures HasLeaf(tw, c, at)
      <==> c in Owners(LeavesIn(Gathered(tw.tiers, at)), at) || c in Owners(ActiveUpTo(tw, at), at)
  {
    hide RunOk, Gathered, LeavesIn, Owners, AllLeaves, ActiveUpTo, SortLeaves, Filter, HasLeaf;
    OwnersByFilter(LeavesIn(Gathered(tw.tiers, at)), at, c);
    OwnersByFilter(ActiveUpTo(tw, at), at, c);
    HasLeafByFilter(tw, c, at);
    SnapshotSeesAll(cfg, tw, c, at);
    var parts := Filter(LeavesIn(Gathered(tw.tiers, at)), OfUpTo(c, at)) + Filter(ActiveUpTo(tw, at), OfUpTo(c, at));
    var mine := Filter(AllLeaves(tw), OfUpTo(c, at));
    SortLeavesSorts(parts);
    SortLeavesSorts(mine);
    assert |parts| == |multiset(parts)| == |multiset(mine)| == |mine|;
  }

  /** A snapshot of containers that were asked for covers exactly those, known or not. */
  lemma AskedForTargets(tw: Tower, at: Time, ids: seq<string>, c: string)
    ensures c in Targets(tw, at, Some(ids)) <==> c in ids
  {
  }

  /** In every state a run can reach, a snapshot of everything covers exactly the containers with a leaf up to the
      time or with a baseline. */
  lemma TargetsIff(cfg: Settings, tw: Tower, at: Time, c: string)
    requires ValidSettings(cfg) && RunOk(cfg, tw) && forall l :: l in AllLeaves(tw) ==> InRange(l.at)
    ensures c in Targets(tw, at, None) <==> HasLeaf(tw, c, at) || Baseline(tw, c, at).Some?
  {
    hide RunOk, Gathered, LeavesIn, Owners, OwnersIn, AllLeaves, ActiveUpTo, HasLeaf, Baseline, IsBaseline;
    OwnersOfPages(Gathered(tw.tiers, at), at, c);
    OwnsGatheredLeafIff(cfg, tw, at, c);
    BaselineIsLatest(tw, c, at);
  }

  // ---------------------------------------------------------------- what a container state says of its last leaf

  /** The container's last leaf up to the time: by timestamp, and by leaf id among those of one time. */
  ghost predicate LastLeafUpTo(tw: Tower, c: string, at: Time, l: Leaf) {
    && l in AllLeaves(tw) && l.container == c && l.at <= at
    && forall k :: k in AllLeaves(tw) && k.container == c && k.at <= at ==> k.at < l.at || (k.at == l.at && k.id <= l.id)
  }

  lemma LastOfSorted(tw: Tower, c: string, at: Time)
    ensures var mine := SortLeaves(Filter(AllLeaves(tw), OfUpTo(c, at)));
      && (mine == [] <==> !HasLeaf(tw, c, at))
      && (mine != [] ==> LastLeafUpTo(tw, c, at, Last(mine)))
  {
    hide AllLeaves, Filter, SortLeaves, HasLeaf;
    var wanted := Filter(AllLeaves(tw), OfUpTo(c, at));
    var mine := SortLeaves(wanted);
    HasLeafByFilter(tw, c, at);
    SortLeavesSorts(wanted);
    assert |mine| == |multiset(mine)| == |multiset(wanted)| == |wanted|;
    FilterMembers(AllLeaves(tw), OfUpTo(c, at));
    if mine != [] {
      assert Last(mine) in multiset(mine) && Last(mine) in wanted;
      forall k | k in wanted ensures NotAfter(k, Last(mine)) {
        assert k in multiset(wanted) && k in mine;
        var i :| 0 <= i < |mine| && mine[i] == k;
        assert i < |mine| - 1 ==> NotAfter(mine[i], mine[|mine| - 1]);
      }
    }
  }

  /** A container state names the hash and the time of the container's last leaf; without one it names no hash, and the end
      of the patch page it started from if that left it any field, and otherwise the time asked for. */
  lemma StateNamesLastLeaf(cfg: Settings, tw: Tower, s: ContainerState, c: string, at: Time)
    requires ValidSettings(cfg) && RunOk(cfg, tw) && (forall l :: l in AllLeaves(tw) ==> InRange(l.at)) && IsStateOf(s, tw, c, at)
    ensures if HasLeaf(tw, c, at) then exists l :: LastLeafUpTo(tw, c, at, l) && s.lastLeaf == l.hash && s.lastAt == l.at
      else s.lastLeaf == Zero && s.lastAt == (if s.payload != [] && Baseline(tw, c, at).Some? then Baseline(tw, c, at).value.end else at)
  {
    hide RunOk, AllLeaves, Filter, SortLeaves, HasLeaf, Baseline, SnapshotLeaves, SnapshotFields, LastLeafUpTo;
    SnapshotSeesAll(cfg, tw, c, at);
    LastOfSorted(tw, c, at);
    NoFields(s.payload, SnapshotFields(tw, c, at));
  }

  lemma NoFields(payload: seq<(string, Json)>, fields: Fields)
    requires Serializes(payload, fields)
    ensures payload == [] <==> fields == map[]
  {
    if payload != [] {
      assert Last(payload).0 in FieldsIn(payload);
    }
  }

  // ---------------------------------------------------------------- monotone runs

  /** The leaves up to a time come first. */
  lemma {:induction false} SplitAt(steps: seq<Step>, at: Time) returns (n: nat)
    requires Monotone(steps)
    ensures n <= |steps|
    ensures forall i :: 0 <= i < n ==> steps[i].leaf.at <= at
    ensures forall i :: n <= i < |steps| ==> at < steps[i].leaf.at
  {
    if steps == [] || Last(steps).leaf.at <= at {
      n := |steps|;
    } else {
      n := SplitAt(DropLast(steps), at);
    }
  }

  /** A container without a leaf up to the time is on no parent page that ended by then. */
  lemma LateContainerIsHushed(cfg: Settings, steps: seq<Step>, at: Time, c: string)
    requires ValidSettings(cfg) && Monotone(steps)
    requires forall i :: 0 <= i < |steps| && steps[i].leaf.container == c ==> at < steps[i].leaf.at
    ensures Obeys(Hushed(c, None, at), Run(cfg, steps))
  {
    hide Run, Obeys;
    var n := SplitAt(steps, at);
    var early, late := steps[..n], steps[n..];
    assert StepsObey(Silent(c, None), cfg, early);
    RunObeys(Silent(c, None), cfg, early);
    SilentIsHushed(Run(cfg, early), c, None, at);
    assert StepsObey(Hushed(c, None, at), cfg, late);
    RunObeysFrom(Hushed(c, None, at), cfg, early, late);
    assert early + late == steps;
  }

  lemma HushedHasNoBaseline(cfg: Settings, tw: Tower, c: string, at: Time)
    requires ValidSettings(cfg) && Typed(cfg, tw) && Obeys(Hushed(c, None, at), tw)
    ensures Baseline(tw, c, at).None?
  {
    hide Baseline, Gathered;
    BaselineIsLatest(tw, c, at);
    forall p | p in Gathered(tw.tiers, at) ensures !IsBaseline(p, c, at) {
      GatheredMembers(tw.tiers, at, p);
      var k :| 0 <= k < |tw.tiers| && p in tw.tiers[k].stored;
      var i :| 0 <= i < |tw.tiers[k].stored| && tw.tiers[k].stored[i] == p;
      assert TierTyped(cfg, k, tw.tiers[k]) && TierObeys(Hushed(c, None, at), k, tw.tiers[k]);
      assert PageTyped(cfg, k, tw.tiers[k].stored[i]) && Marked(Hushed(c, None, at), k, tw.tiers[k].stored[i]);
    }
  }

  /** In every monotone run a snapshot of everything covers exactly the containers with a leaf up to the time. */
  lemma TargetsAreTheContainers(cfg: Settings, steps: seq<Step>, at: Time, c: string)
    requires ValidSettings(cfg) && Monotone(steps)
    ensures c in Targets(Run(cfg, steps), at, None)
      <==> exists i :: 0 <= i < |steps| && steps[i].leaf.container == c && steps[i].leaf.at <= at
  {
    hide Run, RunOk, Targets, AllLeaves, Obeys, LeafChained;
    var tw := Run(cfg, steps);
    RunConserves(cfg, steps);
    forall l | l in AllLeaves(tw) ensures InRange(l.at) {
      var i :| 0 <= i < |steps| && steps[i].leaf == l;
    }
    TargetsIff(cfg, tw, at, c);
    if i :| 0 <= i < |steps| && steps[i].leaf.container == c && steps[i].leaf.at <= at {
      assert LeavesOf(steps)[i] in AllLeaves(tw);
    } else {
      LateContainerIsHushed(cfg, steps, at, c);
      HushedHasNoBaseline(cfg, tw, c, at);
    }
  }
}
