/** What the root over a snapshot's container states says about the states, and when the states fix the root. */
module SnapshotRoots {
  import opened Prelude
  import opened Hashing
  import opened Merkle
  import opened Patches
  import opened Pages
  import opened Towers
  import opened Snapshots
  import opened SnapshotManagers

  // ---------------------------------------------------------------- the root binds the states

  lemma StateHashesPlain(states: seq<ContainerState>)
    requires DistinctOwners(states)
    ensures PlainLeaves(StateHashes(states)) && NoRepeats(StateHashes(states)) && Zero !in StateHashes(states)
  {
  }

  lemma RootNotZero(leaves: seq<Hash>)
    requires |leaves| > 0 && Zero !in leaves
    ensures Root(leaves) != Zero
  {
    if |leaves| > 1 {
      hide Root, ProofFor;
      Completeness(leaves, 0);
      ClimbMakesPairs(leaves[0], ProofFor(leaves, 0));
    }
  }

  /** Snapshots share a root exactly when their states hash alike one by one; so the states agree, up to the microsecond. */
  lemma SnapshotRootBinds(a: seq<ContainerState>, b: seq<ContainerState>)
    requires DistinctOwners(a) && DistinctOwners(b)
    ensures RootOf(StateHashes(a)) == RootOf(StateHashes(b)) <==> StateHashes(a) == StateHashes(b)
    ensures RootOf(StateHashes(a)) == RootOf(StateHashes(b)) ==>
      |a| == |b| && forall i :: 0 <= i < |a| ==> a[i].Agrees(b[i])
  {
    var x, y := StateHashes(a), StateHashes(b);
    StateHashesPlain(a);
    StateHashesPlain(b);
    hide Root, DistinctOwners, NoRepeats, PlainLeaves;
    if x != [] && y != [] {
      DistinctRootsEqualIff(x, y);
    } else if x != [] {
      RootNotZero(x);
    } else if y != [] {
      RootNotZero(y);
    }
    if x == y {
      forall i | 0 <= i < |a| ensures a[i].Agrees(b[i]) {
        assert x[i] == y[i];
        assert a[i].Digest() == b[i].Digest();
      }
    }
  }

  // ---------------------------------------------------------------- one state's hash

  lemma {:induction false} SerializesSize(payload: seq<(string, Json)>, fields: Fields)
    requires Serializes(payload, fields)
    ensures |payload| == |fields|
  {
    if payload != [] {
      var front := DropLast(payload);
      assert forall i :: 0 <= i < |front| ==> front[i] == payload[i];
      SerializesSize(front, FieldsIn(front));
      FieldsInKeys(front, Last(payload).0);
      assert fields.Keys == FieldsIn(front).Keys + {Last(payload).0};
      assert |fields| == |fields.Keys| && |FieldsIn(front)| == |FieldsIn(front).Keys|;
    }
  }

  lemma {:induction false} SomeSerialization(fields: Fields) returns (payload: seq<(string, Json)>)
    ensures Serializes(payload, fields)
    decreases |fields|
  {
    if fields == map[] {
      payload := [];
    } else {
      var k :| k in fields;
      var rest := SomeSerialization(fields - {k});
      SerializesAdd(rest, fields - {k}, k, fields[k]);
      assert (fields - {k})[k := fields[k]] == fields;
      payload := rest + [(k, fields[k])];
    }
  }

  /** A state determines its hash exactly when it has at most one field: the fields are written in no fixed order. */
  lemma StateDeterminesHashIff(c: string, fields: Fields, lastLeaf: Hash, lastAt: Time)
    ensures (forall p, q | Serializes(p, fields) && Serializes(q, fields) ::
        ContainerState(c, p, lastLeaf, lastAt).Digest() == ContainerState(c, q, lastLeaf, lastAt).Digest())
      <==> |fields| <= 1
  {
    if |fields| <= 1 {
      forall p, q | Serializes(p, fields) && Serializes(q, fields) ensures p == q {
        ShortSerialization(p, q, fields);
      }
    } else {
      TwoOrders(fields);
      var p, q :| Serializes(p, fields) && Serializes(q, fields) && p != q;
      assert ContainerState(c, p, lastLeaf, lastAt).Digest() != ContainerState(c, q, lastLeaf, lastAt).Digest();
    }
  }

  lemma ShortSerialization(p: seq<(string, Json)>, q: seq<(string, Json)>, fields: Fields)
    requires Serializes(p, fields) && Serializes(q, fields) && |fields| <= 1
    ensures p == q
  {
    SerializesSize(p, fields);
    SerializesSize(q, fields);
    if |p| == 1 {
      assert FieldsIn(DropLast(p)) == map[] && FieldsIn(DropLast(q)) == map[];
      assert p[0].0 in fields && fields.Keys == {p[0].0} == {q[0].0};
      assert q[0].0 in {p[0].0};
    }
  }

  lemma TwoOrders(fields: Fields)
    requires |fields| > 1
    ensures exists p, q :: Serializes(p, fields) && Serializes(q, fields) && p != q
  {
    var k :| k in fields;
    var rest := fields - {k};
    assert rest.Keys == fields.Keys - {k} && |rest| == |rest.Keys| && |fields| == |fields.Keys|;
    var l :| l in rest;
    var p := SomeSerialization(fields - {k});
    var q := SomeSerialization(fields - {l});
    SerializesAdd(p, fields - {k}, k, fields[k]);
    SerializesAdd(q, fields - {l}, l, fields[l]);
    assert (fields - {k})[k := fields[k]] == fields && (fields - {l})[l := fields[l]] == fields;
    assert Last(p + [(k, fields[k])]) != Last(q + [(l, fields[l])]);
  }

  // ---------------------------------------------------------------- the states do not fix the root

  /** The same state, its fields written in any order. */
  ghost predicate SameState(s: ContainerState, t: ContainerState) {
    s.owner == t.owner && Serializes(t.payload, FieldsIn(s.payload)) && s.lastLeaf == t.lastLeaf && s.lastAt == t.lastAt
  }

  /** The same states, in any order. */
  ghost predicate SameStates(a: seq<ContainerState>, b: seq<ContainerState>) {
    |a| == |b| && DistinctOwners(b) && forall j :: 0 <= j < |b| ==> exists i :: 0 <= i < |a| && SameState(a[i], b[j])
  }

  ghost predicate WellFormed(a: seq<ContainerState>) {
    DistinctOwners(a) && forall i :: 0 <= i < |a| ==> Serializes(a[i].payload, FieldsIn(a[i].payload))
  }

  lemma SwappedDiffers(a: seq<ContainerState>)
    requires WellFormed(a) && |a| > 1
    ensures exists b :: SameStates(a, b) && RootOf(StateHashes(b)) != RootOf(StateHashes(a))
  {
    hide Root, Serializes;
    var b := a[0 := a[1]][1 := a[0]];
    forall j | 0 <= j < |b| ensures exists i :: 0 <= i < |a| && SameState(a[i], b[j]) {
      var i := if j == 0 then 1 else if j == 1 then 0 else j;
      assert SameState(a[i], b[j]);
    }
    assert DistinctOwners(b);
    assert b[0].owner != a[0].owner;
    SnapshotRootBinds(a, b);
  }

  lemma RewrittenDiffers(a: seq<ContainerState>)
    requires WellFormed(a) && |a| == 1 && |FieldsIn(a[0].payload)| > 1
    ensures exists b :: SameStates(a, b) && RootOf(StateHashes(b)) != RootOf(StateHashes(a))
  {
    var s, fields := a[0], FieldsIn(a[0].payload);
    StateDeterminesHashIff(s.owner, fields, s.lastLeaf, s.lastAt);
    hide Serializes;
    var p, q :| Serializes(p, fields) && Serializes(q, fields) && s.(payload := p).Digest() != s.(payload := q).Digest();
    var b := [s.(payload := if s.(payload := p).Digest() == s.Digest() then q else p)];
    assert SameState(s, b[0]);
    assert SameStates(a, b);
    assert StateHashes(b)[0] != StateHashes(a)[0];
  }

  lemma LoneStateFixesRoot(a: seq<ContainerState>, b: seq<ContainerState>)
    requires WellFormed(a) && |a| == 1 && |FieldsIn(a[0].payload)| <= 1 && SameStates(a, b)
    ensures b == a
  {
    assert SameState(a[0], b[0]);
    ShortSerialization(a[0].payload, b[0].payload, FieldsIn(a[0].payload));
  }

  lemma NoStates(b: seq<ContainerState>)
    requires SameStates([], b)
    ensures b == []
  {
  }

  /** States fix their root, whatever order they and their fields come in, exactly when there is no state,
      or only one, with at most one field. */
  lemma StatesFixRootIff(a: seq<ContainerState>)
    requires WellFormed(a)
    ensures (forall b :: SameStates(a, b) ==> RootOf(StateHashes(b)) == RootOf(StateHashes(a)))
      <==> a == [] || (|a| == 1 && |FieldsIn(a[0].payload)| <= 1)
  {
    hide WellFormed, SameStates, Root;
    if |a| > 1 {
      SwappedDiffers(a);
    } else if |a| == 1 && |FieldsIn(a[0].payload)| > 1 {
      RewrittenDiffers(a);
    } else if |a| == 1 {
      forall b | SameStates(a, b) ensures RootOf(StateHashes(b)) == RootOf(StateHashes(a)) {
        LoneStateFixesRoot(a, b);
      }
    } else {
      forall b | SameStates(a, b) ensures b == a {
        NoStates(b);
      }
    }
  }

  // ---------------------------------------------------------------- the journal does not fix the root

  /** Distinct owners make as many owners as states. */
  lemma {:induction false} OwnerCount(states: seq<ContainerState>)
    requires DistinctOwners(states)
    ensures |OwnerSet(states)| == |states|
  {
    if states == [] {
      NoOwners();
    } else {
      var front := DropLast(states);
      OwnerCount(front);
      OwnerSetStep(front, Last(states));
      assert states == front + [Last(states)];
      assert Last(states).owner !in OwnerSet(front);
    }
  }

  lemma SubsetOfSameSize<T>(s: set<T>, t: set<T>)
    requires s <= t && |s| == |t|
    ensures s == t
  {
    assert |t - s| == |t| - |s|;
    assert t == s + (t - s);
  }

  lemma SameStatesSameOwners(a: seq<ContainerState>, b: seq<ContainerState>)
    requires DistinctOwners(a) && SameStates(a, b)
    ensures OwnerSet(b) == OwnerSet(a)
  {
    hide Serializes, DistinctOwners;
    OwnerCount(a);
    OwnerCount(b);
    SubsetOfSameSize(OwnerSet(b), OwnerSet(a));
  }

  /** All snapshots of one journal hold the same states. */
  lemma SnapshotsHoldSameStates(s: Snapshot, t: Snapshot, tw: Tower, at: Time, ids: Option<seq<string>>)
    requires IsSnapshotOf(s, tw, at, ids) && IsSnapshotOf(t, tw, at, ids)
    ensures WellFormed(s.states) && SameStates(s.states, t.states)
  {
    hide Serializes, DistinctOwners, Targets, RootOf, SnapshotLeaves, SnapshotFields, Baseline;
    OwnerCount(s.states);
    OwnerCount(t.states);
    forall j | 0 <= j < |t.states| ensures exists i :: 0 <= i < |s.states| && SameState(s.states[i], t.states[j]) {
      assert t.states[j].owner in OwnerSet(t.states);
      var i :| 0 <= i < |s.states| && s.states[i].owner == t.states[j].owner;
      SerializedFields(s.states[i].payload, SnapshotFields(tw, s.states[i].owner, at));
      assert SameState(s.states[i], t.states[j]);
    }
    forall i | 0 <= i < |s.states| ensures Serializes(s.states[i].payload, FieldsIn(s.states[i].payload)) {
      SerializedFields(s.states[i].payload, SnapshotFields(tw, s.states[i].owner, at));
    }
  }

  lemma SerializedFields(payload: seq<(string, Json)>, fields: Fields)
    requires Serializes(payload, fields)
    ensures FieldsIn(payload) == fields
  {
  }

  /** The same states in another order make a snapshot too. */
  lemma ReorderedIsSnapshot(s: Snapshot, b: seq<ContainerState>, tw: Tower, at: Time, ids: Option<seq<string>>)
    requires IsSnapshotOf(s, tw, at, ids) && SameStates(s.states, b)
    ensures IsSnapshotOf(Snapshot(b, RootOf(StateHashes(b))), tw, at, ids)
  {
    SameStatesSameOwners(s.states, b);
    hide Serializes, DistinctOwners, Targets, RootOf, SnapshotLeaves, SnapshotFields, Baseline, OwnerSet;
    forall j | 0 <= j < |b| ensures IsStateOf(b[j], tw, b[j].owner, at) {
      var i :| 0 <= i < |s.states| && SameState(s.states[i], b[j]);
      SerializedFields(s.states[i].payload, SnapshotFields(tw, s.states[i].owner, at));
    }
  }

  lemma {:induction false} SomeStates(tw: Tower, at: Time, owners: set<string>) returns (states: seq<ContainerState>)
    ensures forall i :: 0 <= i < |states| ==> IsStateOf(states[i], tw, states[i].owner, at)
    ensures OwnerSet(states) == owners && DistinctOwners(states)
  {
    hide Serializes, SnapshotLeaves, SnapshotFields, Baseline;
    if owners == {} {
      states := [];
      NoOwners();
    } else {
      var c :| c in owners;
      var rest := SomeStates(tw, at, owners - {c});
      var leaves, fields := SnapshotLeaves(tw, c, at), SnapshotFields(tw, c, at);
      var payload := SomeSerialization(fields);
      var state := ContainerState(c, payload, LastLeafOf(leaves), LastTimeOf(leaves, fields, Baseline(tw, c, at), at));
      OwnerSetStep(rest, state);
      states := rest + [state];
    }
  }

  /** A journal fixes the root of its snapshots exactly when they cover no container, or one with at most one field. */
  lemma JournalFixesRootIff(tw: Tower, at: Time, ids: Option<seq<string>>)
    ensures (forall s, t | IsSnapshotOf(s, tw, at, ids) && IsSnapshotOf(t, tw, at, ids) :: s.root == t.root)
      <==> |Targets(tw, at, ids)| == 0 || (|Targets(tw, at, ids)| == 1 && forall c :: c in Targets(tw, at, ids) ==> |SnapshotFields(tw, c, at)| <= 1)
  {
    hide Targets, IsStateOf, SameStates, WellFormed, RootOf, SnapshotFields;
    var states := SomeStates(tw, at, Targets(tw, at, ids));
    var one := Snapshot(states, RootOf(StateHashes(states)));
    assert IsSnapshotOf(one, tw, at, ids);
    SnapshotsHoldSameStates(one, one, tw, at, ids);
    StatesFixRootIff(states);
    OwnerCount(states);
    LoneFields(tw, at, states);
    if b :| SameStates(states, b) && RootOf(StateHashes(b)) != RootOf(StateHashes(states)) {
      ReorderedIsSnapshot(one, b, tw, at, ids);
      assert IsSnapshotOf(Snapshot(b, RootOf(StateHashes(b))), tw, at, ids);
    } else {
      forall s, t | IsSnapshotOf(s, tw, at, ids) && IsSnapshotOf(t, tw, at, ids) ensures s.root == t.root {
        SnapshotsHoldSameStates(one, s, tw, at, ids);
        SnapshotsHoldSameStates(one, t, tw, at, ids);
      }
    }
  }

  lemma LoneFields(tw: Tower, at: Time, states: seq<ContainerState>)
    requires forall i :: 0 <= i < |states| ==> IsStateOf(states[i], tw, states[i].owner, at)
    ensures |states| == 1 ==> OwnerSet(states) == {states[0].owner} && FieldsIn(states[0].payload) == SnapshotFields(tw, states[0].owner, at)
  {
    hide SnapshotFields, SnapshotLeaves, Baseline;
    if |states| == 1 {
      SerializedFields(states[0].payload, SnapshotFields(tw, states[0].owner, at));
    }
  }
}
