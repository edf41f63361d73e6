/** `create_snapshot`: gathering pages, replaying each container, and the page that holds the container states. */
module SnapshotManagers {
  import opened Prelude
  import opened Hashing
  import opened Config
  import opened Merkle
  import opened Patches
  import opened Pages
  import opened Towers
  import opened Conservation
  import opened Storage
  import opened TimeManager
  import opened QuerySpec
  import opened Snapshots

  // ---------------------------------------------------------------- specification

  /** A container's state, with its fields written out one after another. */
  datatype ContainerState = ContainerState(owner: string, payload: seq<(string, Json)>, lastLeaf: Hash, lastAt: Time)
  {
    /** The timestamp is hashed in whole microseconds. */
    function Digest(): Hash {
      StateDigest(owner, payload, lastLeaf, lastAt / 1000)
    }

    predicate Agrees(that: ContainerState) {
      && owner == that.owner && FieldsIn(payload) == FieldsIn(that.payload)
      && lastLeaf == that.lastLeaf && lastAt / 1000 == that.lastAt / 1000
    }
  }

  function FieldsIn(payload: seq<(string, Json)>): Fields {
    if payload == [] then map[] else FieldsIn(DropLast(payload))[Last(payload).0 := Last(payload).1]
  }

  /** The payload lists exactly these fields, each once, in some order. */
  ghost predicate Serializes(payload: seq<(string, Json)>, fields: Fields) {
    FieldsIn(payload) == fields && forall i, j :: 0 <= i < j < |payload| ==> payload[i].0 != payload[j].0
  }

  datatype Snapshot = Snapshot(states: seq<ContainerState>, root: Hash)

  datatype SnapshotError = ConfigError

  function LastLeafOf(leaves: seq<Leaf>): Hash {
    if leaves == [] then Zero else Last(leaves).hash
  }

  function LastTimeOf(leaves: seq<Leaf>, fields: Fields, base: Option<Page>, at: Time): Time {
    if leaves != [] then Last(leaves).at else if fields != map[] && base.Some? then base.value.end else at
  }

  ghost predicate IsStateOf(state: ContainerState, tw: Tower, c: string, at: Time) {
    var leaves, fields := SnapshotLeaves(tw, c, at), SnapshotFields(tw, c, at);
    && state.owner == c && Serializes(state.payload, fields)
    && state.lastLeaf == LastLeafOf(leaves) && state.lastAt == LastTimeOf(leaves, fields, Baseline(tw, c, at), at)
  }

  function Owners(leaves: seq<Leaf>, at: Time): set<string> {
    set i | 0 <= i < |leaves| && leaves[i].at <= at :: leaves[i].container
  }

  function OwnersOn(p: Page, at: Time): set<string> {
    match p.content
    case Leaves(leaves) => Owners(leaves, at)
    case NetPatches(patches) => if p.end <= at then patches.Keys else {}
    case _ => {}
  }

  function OwnersIn(pages: seq<Page>, at: Time): set<string> {
    if pages == [] then {} else OwnersIn(DropLast(pages), at) + OwnersOn(Last(pages), at)
  }

  /** The containers asked for, or else every container with something to replay. */
  function Targets(tw: Tower, at: Time, ids: Option<seq<string>>): set<string> {
    if ids.Some? then set i | 0 <= i < |ids.value| :: ids.value[i]
    else OwnersIn(Gathered(tw.tiers, at), at) + Owners(ActiveUpTo(tw, at), at)
  }

  function OwnerSet(states: seq<ContainerState>): set<string> {
    set i | 0 <= i < |states| :: states[i].owner
  }

  ghost predicate DistinctOwners(states: seq<ContainerState>) {
    forall i, j :: 0 <= i < j < |states| ==> states[i].owner != states[j].owner
  }

  /** One state per target container, in no particular order, under the Merkle root of their digests. */
  ghost predicate IsSnapshotOf(s: Snapshot, tw: Tower, at: Time, ids: Option<seq<string>>) {
    && (forall i :: 0 <= i < |s.states| ==> IsStateOf(s.states[i], tw, s.states[i].owner, at))
    && OwnerSet(s.states) == Targets(tw, at, ids) && DistinctOwners(s.states)
    && s.root == RootOf(StateHashes(s.states))
  }

  function StateHashes(states: seq<ContainerState>): seq<Hash> {
    seq(|states|, i requires 0 <= i < |states| => states[i].Digest())
  }

  // ---------------------------------------------------------------- snapshot pages

  datatype SnapshotPayload = SnapshotPayload(
    asOf: Time, createdAt: Time, snapshot: Snapshot, preceding: Option<Hash>, previous: Option<Hash>)

  /** A page of the dedicated level, with a snapshot as its content. */
  datatype SnapshotPage = SnapshotPage(
    id: nat, level: nat, start: Time, end: Time, payload: SnapshotPayload, root: Hash, prev: Option<Hash>, hash: Hash)
  {
    function Digest(): Hash {
      PageDigest(id, level, start, end, root, prev, None, None)
    }

    function States(): seq<ContainerState> { payload.snapshot.states }
  }

  /** By end, then by level, then by id. */
  predicate Outranks(p: Page, q: Page) {
    p.end > q.end || (p.end == q.end && (p.level > q.level || (p.level == q.level && p.id >= q.id)))
  }

  /** The hash of the highest-ranking page that ended by the time, if any did. */
  ghost predicate IsPreceding(h: Option<Hash>, pages: seq<Page>, at: Time) {
    match h
    case None => forall q :: q in pages ==> q.end > at
    case Some(hash) => exists p :: p in pages && p.end <= at && p.hash == hash && forall q :: q in pages && q.end <= at ==> Outranks(p, q)
  }

  /** By creation time, then by id. */
  predicate NotOlder(p: SnapshotPage, q: SnapshotPage) {
    p.start > q.start || (p.start == q.start && p.id >= q.id)
  }

  /** The hash of the snapshot page created last, if there is one. */
  ghost predicate IsPrevious(h: Option<Hash>, pages: seq<SnapshotPage>) {
    match h
    case None => pages == []
    case Some(hash) => exists p :: p in pages && p.hash == hash && forall q :: q in pages ==> NotOlder(p, q)
  }

  /** The page that a snapshot of the journal as of a time puts behind the earlier ones. */
  ghost predicate IsSnapshotPage(p: SnapshotPage, cfg: Settings, tw: Tower, level: nat, earlier: seq<SnapshotPage>,
                                 at: Time, ids: Option<seq<string>>, created: Time)
  {
    && p.level == level && p.start == created == p.payload.createdAt
    && p.end == created + (if level < |cfg.levels| then cfg.levels[level].duration else 1) * NANOS_PER_SECOND
    && p.payload.asOf == at && IsSnapshotOf(p.payload.snapshot, tw, at, ids)
    && IsPreceding(p.payload.preceding, Gathered(tw.tiers, at), at)
    && p.payload.previous == p.prev && IsPrevious(p.prev, earlier)
    && p.root == (if p.States() == [] then Zero else p.payload.snapshot.root) && p.hash == p.Digest()
  }

  ghost predicate SnapshotPageOk(p: SnapshotPage) {
    p.hash == p.Digest() && p.root == RootOf(StateHashes(p.States())) && DistinctOwners(p.States())
  }

  /** The snapshot pages in the order they were made. */
  ghost predicate Series(pages: seq<SnapshotPage>) {
    && (forall i :: 0 <= i < |pages| ==> SnapshotPageOk(pages[i]) && IsPrevious(pages[i].prev, pages[..i]))
    && (forall i, j :: 0 <= i < j < |pages| ==> pages[i].id < pages[j].id)
  }

  lemma SeriesSnoc(pages: seq<SnapshotPage>, p: SnapshotPage)
    requires Series(pages) && SnapshotPageOk(p) && IsPrevious(p.prev, pages)
    requires forall i :: 0 <= i < |pages| ==> pages[i].id < p.id
    ensures Series(pages + [p])
  {
    hide SnapshotPageOk, IsPrevious;
    var all := pages + [p];
    forall i | 0 <= i < |all| ensures SnapshotPageOk(all[i]) && IsPrevious(all[i].prev, all[..i]) {
      assert all[..i] == pages[..i];
      if i == |pages| {
        assert pages[..i] == pages;
      }
    }
  }

  lemma MadePageOk(p: SnapshotPage, cfg: Settings, tw: Tower, level: nat, earlier: seq<SnapshotPage>, at: Time, ids: Option<seq<string>>, created: Time)
    requires IsSnapshotPage(p, cfg, tw, level, earlier, at, ids, created)
    ensures SnapshotPageOk(p) && IsPrevious(p.prev, earlier)
  {
  }

  // ---------------------------------------------------------------- serializing a state

  lemma {:induction false} FieldsInKeys(payload: seq<(string, Json)>, k: string)
    ensures k in FieldsIn(payload) <==> exists i :: 0 <= i < |payload| && payload[i].0 == k
  {
    if payload != [] {
      FieldsInKeys(DropLast(payload), k);
      assert payload[|payload| - 1].0 == Last(payload).0;
      if i :| 0 <= i < |DropLast(payload)| && DropLast(payload)[i].0 == k {
        assert payload[i].0 == k;
      }
    }
  }

  lemma SerializesAdd(payload: seq<(string, Json)>, fields: Fields, k: string, v: Json)
    requires Serializes(payload, fields) && k !in fields
    ensures Serializes(payload + [(k, v)], fields[k := v])
  {
    FieldsInKeys(payload, k);
    assert DropLast(payload + [(k, v)]) == payload;
  }

  // ---------------------------------------------------------------- the program

  class SnapshotManager {
    const manager: TimeHierarchyManager
    const enabled: bool
    const level: nat
    const ids: PageIdGenerator
    var pages: seq<SnapshotPage>

    /** The stored snapshot pages, in id order, are a series, and their ids come from this manager's own counter. */
    ghost predicate Valid()
      reads this, ids
    {
      Series(pages) && ids != manager.gen && forall i :: 0 <= i < |pages| ==> pages[i].id < ids.counter
    }

    constructor (m: TimeHierarchyManager, on: bool, dedicatedLevel: nat, gen: PageIdGenerator)
      requires gen != m.gen
      ensures Valid() && manager == m && enabled == on && level == dedicatedLevel && ids == gen && pages == []
    {
      manager := m;
      enabled := on;
      level := dedicatedLevel;
      ids := gen;
      pages := [];
    }

    /** The pages of one level that start by the time. */
    method GatherLevel(level: nat, at: Time) returns (pages: seq<Page>)
      requires manager.Consistent() && level < |manager.cfg.levels|
      ensures level < |manager.tower.tiers| && pages == Filter(manager.tower.tiers[level].stored, StartsBy(at))
    {
      hide Represents, Filter;
      var summaries := manager.ListPages(level);
      ghost var stored := manager.tower.tiers[level].stored;
      pages := [];
      FilterNothing(StartsBy(at));
      for i := 0 to |summaries|
        invariant pages == Filter(stored[..i], StartsBy(at))
      {
        FilterTake(stored, i, StartsBy(at));
        if summaries[i].start <= at {
          StoredLookup(manager.View(), manager.cfg, manager.tower, level, stored[i]);
          var page := manager.storage.LoadPage(level, summaries[i].id);
          if page.Some? {
            pages := pages + [page.value];
          }
        }
      }
      assert stored[..|summaries|] == stored;
    }

    method GatherPages(at: Time) returns (pages: seq<Page>)
      requires manager.Consistent()
      ensures pages == Gathered(manager.tower.tiers, at)
    {
      hide Represents, Filter;
      ghost var tiers := manager.tower.tiers;
      TiersMatch(manager.View(), manager.cfg, manager.tower);
      pages := [];
      for level := 0 to |manager.cfg.levels|
        invariant pages == Gathered(tiers[..level], at)
      {
        assert DropLast(tiers[..level + 1]) == tiers[..level];
        var more := GatherLevel(level, at);
        pages := pages + more;
      }
      assert tiers[..|manager.cfg.levels|] == tiers;
    }

    method ActiveLeavesUpTo(at: Time) returns (leaves: seq<Leaf>)
      requires manager.Consistent()
      ensures leaves == ActiveUpTo(manager.tower, at)
    {
      hide Represents, Filter;
      ZeroActive(manager.View(), manager.cfg, manager.tower);
      FilterNothing(UpTo(at));
      leaves := [];
      if 0 in manager.activePages && manager.activePages[0].content.Leaves? {
        var all := manager.activePages[0].content.leaves;
        for i := 0 to |all|
          invariant leaves == Filter(all[..i], UpTo(at))
        {
          FilterTake(all, i, UpTo(at));
          if all[i].at <= at {
            leaves := leaves + [all[i]];
          }
        }
        assert all[..|all|] == all;
      }
    }

    /** Every container with a leaf up to the time, or with a patch on a patch-only page that ended by then. */
    method Discover(pages: seq<Page>, active: seq<Leaf>, at: Time) returns (owners: set<string>)
      ensures owners == OwnersIn(pages, at) + Owners(active, at)
    {
      owners := {};
      for i := 0 to |pages|
        invariant owners == OwnersIn(pages[..i], at)
      {
        assert DropLast(pages[..i + 1]) == pages[..i];
        match pages[i].content {
          case Leaves(leaves) =>
            var found := OwnersOfList(leaves, at);
            owners := owners + found;
          case NetPatches(patches) =>
            if pages[i].end <= at {
              owners := owners + patches.Keys;
            }
          case ThrallHashes(_) =>
          case ThrallHashesWithNetPatches(_, _) =>
        }
      }
      assert pages[..|pages|] == pages;
      var found := OwnersOfList(active, at);
      owners := owners + found;
    }

    method OwnersOfList(leaves: seq<Leaf>, at: Time) returns (owners: set<string>)
      ensures owners == Owners(leaves, at)
    {
      owners := {};
      for i := 0 to |leaves|
        invariant owners == set j | 0 <= j < i && leaves[j].at <= at :: leaves[j].container
      {
        if leaves[i].at <= at {
          owners := owners + {leaves[i].container};
        }
      }
    }

    /** The container's leaves on the gathered pages, then the active ones. */
    method LeavesOfContainer(pages: seq<Page>, active: seq<Leaf>, c: string, at: Time) returns (leaves: seq<Leaf>)
      ensures leaves == Filter(LeavesIn(pages), OfUpTo(c, at)) + Filter(active, OfUpTo(c, at))
    {
      hide Filter;
      FilterNothing(OfUpTo(c, at));
      leaves := [];
      for i := 0 to |pages|
        invariant leaves == Filter(LeavesIn(pages[..i]), OfUpTo(c, at))
      {
        assert DropLast(pages[..i + 1]) == pages[..i];
        FilterConcat(LeavesIn(pages[..i]), PageLeaves(pages[i]), OfUpTo(c, at));
        if pages[i].content.Leaves? {
          var more := SelectLeaves(pages[i].content.leaves, c, at);
          leaves := leaves + more;
        }
      }
      assert pages[..|pages|] == pages;
      var more := SelectLeaves(active, c, at);
      leaves := leaves + more;
    }

    method SelectLeaves(all: seq<Leaf>, c: string, at: Time) returns (leaves: seq<Leaf>)
      ensures leaves == Filter(all, OfUpTo(c, at))
    {
      hide Filter;
      FilterNothing(OfUpTo(c, at));
      leaves := [];
      for i := 0 to |all|
        invariant leaves == Filter(all[..i], OfUpTo(c, at))
      {
        FilterTake(all, i, OfUpTo(c, at));
        if all[i].container == c && all[i].at <= at {
          leaves := leaves + [all[i]];
        }
      }
      assert all[..|all|] == all;
    }

    method FindBaseline(sorted: seq<Page>, c: string, at: Time) returns (base: Option<Page>)
      ensures base == FirstBaseline(sorted, c, at)
    {
      for i := 0 to |sorted|
        invariant FirstBaseline(sorted, c, at) == FirstBaseline(sorted[i..], c, at)
      {
        if sorted[i].end <= at && sorted[i].content.NetPatches? && c in sorted[i].content.patches {
          return Some(sorted[i]);
        }
        assert sorted[i..][1..] == sorted[i + 1..];
      }
      return None;
    }

    /** Replays leaves over a starting state, one field at a time. */
    method ReplayLeaves(start: Fields, leaves: seq<Leaf>, after: Option<Time>) returns (state: Fields)
      ensures state == Replay(start, if after.Some? then Filter(leaves, After(after.value)) else leaves)
    {
      hide Filter, ApplyPatch;
      state := start;
      ghost var done: seq<Leaf> := [];
      if after.Some? {
        FilterNothing(After(after.value));
      }
      for i := 0 to |leaves|
        invariant done == if after.Some? then Filter(leaves[..i], After(after.value)) else leaves[..i]
        invariant state == Replay(start, done)
      {
        if after.Some? {
          FilterTake(leaves, i, After(after.value));
        } else {
          assert leaves[..i + 1] == leaves[..i] + [leaves[i]];
        }
        if after.None? || leaves[i].at > after.value {
          assert DropLast(done + [leaves[i]]) == done;
          state := ApplyDeltaToState(state, leaves[i].payload);
          done := done + [leaves[i]];
        }
      }
      assert leaves[..|leaves|] == leaves;
    }

    method ApplyDeltaToState(state: Fields, delta: Json) returns (r: Fields)
      ensures r == ApplyPatch(state, delta)
    {
      r := state;
      if delta.Object? {
        var rest := delta.fields.Keys;
        while rest != {}
          invariant rest <= delta.fields.Keys
          invariant forall k :: k in r <==> if k in delta.fields && k !in rest then delta.fields[k] != Null else k in state
          invariant forall k :: k in r ==> r[k] == if k in delta.fields && k !in rest then delta.fields[k] else state[k]
          decreases rest
        {
          var k :| k in rest;
          rest := rest - {k};
          if delta.fields[k] == Null {
            r := r - {k};
          } else {
            r := r[k := delta.fields[k]];
          }
        }
      }
    }

    /** Writes a state's fields in the map's own, arbitrary order. */
    method Serialize(fields: Fields) returns (payload: seq<(string, Json)>)
      ensures Serializes(payload, fields)
    {
      payload := [];
      ghost var done: Fields := map[];
      var rest := fields.Keys;
      while rest != {}
        invariant rest <= fields.Keys && done.Keys == fields.Keys - rest
        invariant forall k :: k in done ==> done[k] == fields[k]
        invariant Serializes(payload, done)
        decreases rest
      {
        var k :| k in rest;
        rest := rest - {k};
        SerializesAdd(payload, done, k, fields[k]);
        payload := payload + [(k, fields[k])];
        done := done[k := fields[k]];
      }
      assert done == fields;
    }

    /** The state of one container, from the gathered pages and active leaves. */
    method StateOfContainer(pages: seq<Page>, active: seq<Leaf>, c: string, at: Time) returns (state: ContainerState)
      requires manager.Consistent()
      requires pages == Gathered(manager.tower.tiers, at) && active == ActiveUpTo(manager.tower, at)
      ensures IsStateOf(state, manager.tower, c, at)
    {
      hide Represents, Filter, Replay, SortLeaves, SortBy, FirstBaseline, Serializes;
      var leaves := LeavesOfContainer(pages, active, c, at);
      leaves := SortLeaves(leaves);
      var sorted := SortBy(pages, ByEndDescending);
      var base := FindBaseline(sorted, c, at);
      FirstBaselineIs(sorted, c, at);
      var fields;
      if base.Some? {
        fields := ReplayLeaves(NonNull(base.value.content.patches[c]), leaves, Some(base.value.end));
      } else {
        fields := ReplayLeaves(map[], leaves, None);
      }
      var payload := Serialize(fields);
      var lastLeaf, lastAt := Zero, at;
      if leaves != [] {
        lastLeaf, lastAt := Last(leaves).hash, Last(leaves).at;
      } else if fields != map[] && base.Some? {
        lastAt := base.value.end;
      }
      return ContainerState(c, payload, lastLeaf, lastAt);
    }

    method StatesRoot(states: seq<ContainerState>) returns (root: Hash)
      ensures root == RootOf(StateHashes(states))
    {
      var hashes := StateHashes(states);
      root := Zero;
      if hashes != [] {
        var tree := NewTree(hashes);
        root := tree.value.GetRoot().value;
      }
    }

    /** One state per target container. */
    method Assemble(gathered: seq<Page>, at: Time, containers: Option<seq<string>>) returns (s: Snapshot)
      requires manager.Consistent() && gathered == Gathered(manager.tower.tiers, at)
      ensures IsSnapshotOf(s, manager.tower, at, containers)
    {
      hide Represents, IsStateOf, RootOf, Owners, OwnersIn, Gathered, ActiveUpTo, OwnerSet;
      NoOwners();
      var active := ActiveLeavesUpTo(at);
      var rest;
      if containers.Some? {
        rest := set i | 0 <= i < |containers.value| :: containers.value[i];
      } else {
        rest := Discover(gathered, active, at);
      }
      ghost var targets := rest;
      assert targets == Targets(manager.tower, at, containers);
      var states: seq<ContainerState> := [];
      while rest != {}
        invariant rest <= targets
        invariant forall i :: 0 <= i < |states| ==> IsStateOf(states[i], manager.tower, states[i].owner, at)
        invariant OwnerSet(states) == targets - rest
        invariant DistinctOwners(states)
        decreases rest
      {
        var c :| c in rest;
        rest := rest - {c};
        var state := StateOfContainer(gathered, active, c, at);
        OwnerOfState(state, manager.tower, c, at);
        OwnerSetStep(states, state);
        states := states + [state];
      }
      var root := StatesRoot(states);
      return Snapshot(states, root);
    }

    /** The page that ended last, the higher level and id first, among those that ended by the time. */
    method PrecedingHash(gathered: seq<Page>, at: Time) returns (h: Option<Hash>)
      ensures IsPreceding(h, gathered, at)
    {
      var first: Option<Page> := None;
      for i := 0 to |gathered|
        invariant first.None? ==> forall j :: 0 <= j < i ==> gathered[j].end > at
        invariant first.Some? ==> first.value in gathered && first.value.end <= at
        invariant first.Some? ==> forall j :: 0 <= j < i && gathered[j].end <= at ==> Outranks(first.value, gathered[j])
      {
        if gathered[i].end <= at && (first.None? || !Outranks(first.value, gathered[i])) {
          first := Some(gathered[i]);
        }
      }
      h := if first.Some? then Some(first.value.hash) else None;
    }

    method PreviousHash() returns (h: Option<Hash>)
      ensures IsPrevious(h, pages)
    {
      if pages == [] {
        return None;
      }
      var newest := pages[0];
      for i := 0 to |pages|
        invariant newest in pages && NotOlder(newest, newest)
        invariant forall j :: 0 <= j < i ==> NotOlder(newest, pages[j])
      {
        if !NotOlder(newest, pages[i]) {
          newest := pages[i];
        }
      }
      return Some(newest.hash);
    }

    /** The page of a level that need not be one of the journal's. */
    method NewSnapshotPage(prev: Option<Hash>, created: Time, payload: SnapshotPayload) returns (p: SnapshotPage)
      modifies ids
      ensures p.id == old(ids.counter) && ids.counter == old(ids.counter) + 1
      ensures p.level == level && p.start == created && p.prev == prev && p.payload == payload && p.hash == p.Digest()
      ensures p.end == created + (if level < |manager.cfg.levels| then manager.cfg.levels[level].duration else 1) * NANOS_PER_SECOND
      ensures p.root == if p.States() == [] then Zero else payload.snapshot.root
    {
      var id := ids.Next();
      var seconds := if level < |manager.cfg.levels| then manager.cfg.levels[level].duration else 1;
      var end := created + seconds * NANOS_PER_SECOND;
      var root := Zero;
      if payload.snapshot.states != [] {
        var tree := NewTree([payload.snapshot.root]);
        root := tree.value.GetRoot().value;
      }
      p := SnapshotPage(id, level, created, end, payload, root, prev, PageDigest(id, level, created, end, root, prev, None, None));
    }

    /** Fails exactly when snapshots are off; otherwise stores the snapshot's page behind the earlier ones and returns its hash. */
    method CreateSnapshot(at: Time, containers: Option<seq<string>>, created: Time) returns (r: Result<Hash, SnapshotError>)
      requires manager.Consistent() && Valid()
      modifies this`pages, ids
      ensures manager.Consistent() && Valid()
      ensures r.Err? <==> !enabled
      ensures r.Err? ==> pages == old(pages) && ids.counter == old(ids.counter)
      ensures r.Ok? ==> |pages| == |old(pages)| + 1 && pages[..|old(pages)|] == old(pages) && ids.counter == old(ids.counter) + 1
      ensures r.Ok? ==> Last(pages).id == old(ids.counter) && r.value == Last(pages).hash
      ensures r.Ok? ==> IsSnapshotPage(Last(pages), manager.cfg, manager.tower, level, old(pages), at, containers, created)
    {
      hide Represents, IsSnapshotOf, IsPreceding, IsPrevious, Gathered, Series;
      if !enabled {
        return Err(ConfigError);
      }
      var gathered := GatherPages(at);
      var snapshot := Assemble(gathered, at, containers);
      var preceding := PrecedingHash(gathered, at);
      var previous := PreviousHash();
      var page := NewSnapshotPage(previous, created, SnapshotPayload(at, created, snapshot, preceding, previous));
      assert IsSnapshotPage(page, manager.cfg, manager.tower, level, pages, at, containers, created);
      MadePageOk(page, manager.cfg, manager.tower, level, pages, at, containers, created);
      SeriesSnoc(pages, page);
      pages := pages + [page];
      return Ok(page.hash);
    }
  }

  lemma NoOwners()
    ensures OwnerSet([]) == {}
  {
  }

  lemma OwnerSetStep(states: seq<ContainerState>, state: ContainerState)
    ensures OwnerSet(states + [state]) == OwnerSet(states) + {state.owner}
    ensures forall i :: 0 <= i < |states| ==> states[i].owner in OwnerSet(states)
  {
    var more := states + [state];
    assert more[|states|].owner == state.owner;
    forall i | 0 <= i < |states| ensures more[i] == states[i] && states[i].owner in OwnerSet(states) {
    }
  }

  lemma OwnerOfState(state: ContainerState, tw: Tower, c: string, at: Time)
    requires IsStateOf(state, tw, c, at)
    ensures state.owner == c
  {
  }

  lemma FilterNothing<T>(p: T -> bool)
    ensures Filter([], p) == []
  {
  }

  lemma FilterTake<T>(s: seq<T>, i: nat, p: T -> bool)
    requires i < |s|
    ensures Filter(s[..i + 1], p) == if p(s[i]) then Filter(s[..i], p) + [s[i]] else Filter(s[..i], p)
  {
    assert s[..i + 1] == s[..i] + [s[i]];
    FilterSnoc(s[..i], s[i], p);
  }

  lemma TiersMatch(f: Maps, cfg: Settings, tw: Tower)
    requires Represents(f, cfg, tw)
    ensures |tw.tiers| == |cfg.levels|
  {
  }

  lemma ZeroActive(f: Maps, cfg: Settings, tw: Tower)
    requires Represents(f, cfg, tw)
    ensures |tw.tiers| > 0 && tw.tiers[0].active == if 0 in f.active then Some(f.active[0]) else None
  {
    Lookup(f, cfg, tw, 0);
  }
}
