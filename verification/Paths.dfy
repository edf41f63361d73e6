/** What deep merging does at every path, and which leaf decides what a reconstruction holds there. */
module Paths {
  import opened Prelude
  import opened Hashing
  import opened Config
  import opened Pages
  import opened Towers
  import opened Conservation
  import opened Timeline
  import opened QuerySpec

  type Path = seq<string>

  /** What the value holds at the end of a path of keys, if the path leads somewhere. */
  function At(j: Json, path: Path): Option<Json>
    decreases |path|
  {
    if path == [] then Some(j)
    else if j.Object? && path[0] in j.fields then At(j.fields[path[0]], path[1..])
    else None
  }

  function Field(j: Json, k: string): Option<Json> {
    if j.Object? && k in j.fields then Some(j.fields[k]) else None
  }

  lemma AtField(j: Json, path: Path)
    requires path != []
    ensures At(j, path) == if Field(j, path[0]).Some? then At(Field(j, path[0]).value, path[1..]) else None
  {
  }

  /** The value has something other than an object at a proper prefix of the path. */
  ghost predicate CutsOff(j: Json, path: Path) {
    exists n :: 0 <= n < |path| && At(j, path[..n]).Some? && !At(j, path[..n]).value.Object?
  }

  lemma CutsOffStep(j: Json, path: Path)
    requires path != []
    ensures CutsOff(j, path) <==> !j.Object? || (path[0] in j.fields && CutsOff(j.fields[path[0]], path[1..]))
  {
    if CutsOff(j, path) && j.Object? {
      var n :| 0 <= n < |path| && At(j, path[..n]).Some? && !At(j, path[..n]).value.Object?;
      assert n > 0 && path[..n][1..] == path[1..][..n - 1];
    }
    if !j.Object? {
      assert At(j, path[..0]) == Some(j);
    } else if path[0] in j.fields && CutsOff(j.fields[path[0]], path[1..]) {
      var n :| 0 <= n < |path[1..]| && At(j.fields[path[0]], path[1..][..n]).Some? && !At(j.fields[path[0]], path[1..][..n]).value.Object?;
      assert path[..n + 1][1..] == path[1..][..n];
    }
  }

  /** The value says something about the path: it leads somewhere, or something cuts it off. */
  ghost predicate Decides(j: Json, path: Path) {
    At(j, path).Some? || CutsOff(j, path)
  }

  /** What a merge of a delta into a state holds at one path. */
  ghost predicate MergedAt(state: Json, delta: Json, merged: Json, path: Path) {
    match At(delta, path)
    case Some(v) => At(merged, path).Some? && (if v.Object? then At(merged, path).value.Object? else At(merged, path).value == v)
    case None => At(merged, path) == if CutsOff(delta, path) then None else At(state, path)
  }

  /** The merged fields, one by one. */
  lemma MergeField(state: Json, delta: Json, k: string)
    requires delta.Object?
    ensures Field(ApplyDelta(state, delta), k) ==
      if k !in delta.fields then Field(state, k)
      else if Field(state, k).Some? then Some(ApplyDelta(Field(state, k).value, delta.fields[k]))
      else Some(delta.fields[k])
  {
  }

  lemma MergeNew(delta: Json)
    ensures ApplyDelta(Null, delta) == delta
  {
  }

  /** At every path a merge holds the delta's value if that is not an object, nothing if the delta cuts the path off,
      an object where the delta has one, and otherwise what the state held. */
  lemma {:induction false} MergeAt(state: Json, delta: Json, path: Path)
    ensures MergedAt(state, delta, ApplyDelta(state, delta), path)
    decreases |path|
  {
    if path != [] && delta.Object? {
      hide ApplyDelta;
      var k, rest := path[0], path[1..];
      MergeField(state, delta, k);
      CutsOffStep(delta, path);
      if k in delta.fields && Field(state, k).Some? {
        MergeAt(Field(state, k).value, delta.fields[k], rest);
      } else if k in delta.fields {
        MergeAt(Null, delta.fields[k], rest);
        MergeNew(delta.fields[k]);
      }
    } else if path != [] {
      CutsOffStep(delta, path);
    }
  }

  // ---------------------------------------------------------------- the law determines the merge

  ghost predicate Alike(a: Option<Json>, b: Option<Json>) {
    a == b || (a.Some? && b.Some? && a.value.Object? && b.value.Object?)
  }

  /** Values that hold the same at every path, objects aside, are equal. */
  lemma {:induction false} SameAtPaths(a: Json, b: Json)
    requires forall path: Path :: Alike(At(a, path), At(b, path))
    ensures a == b
    decreases a
  {
    assert Alike(At(a, []), At(b, []));
    if a.Object? {
      forall k ensures k in a.fields <==> k in b.fields {
        assert Alike(At(a, [k]), At(b, [k]));
        AtField(a, [k]);
        AtField(b, [k]);
      }
      forall k | k in a.fields ensures a.fields[k] == b.fields[k] {
        forall path: Path ensures Alike(At(a.fields[k], path), At(b.fields[k], path)) {
          assert Alike(At(a, [k] + path), At(b, [k] + path));
          assert ([k] + path)[1..] == path;
        }
        SameAtPaths(a.fields[k], b.fields[k]);
      }
    }
  }

  /** The law at all paths is the merge: nothing else satisfies it. */
  lemma MergeIff(state: Json, delta: Json, merged: Json)
    ensures merged == ApplyDelta(state, delta) <==> forall path: Path :: MergedAt(state, delta, merged, path)
  {
    hide At, CutsOff, ApplyDelta;
    forall path: Path ensures MergedAt(state, delta, ApplyDelta(state, delta), path) {
      MergeAt(state, delta, path);
    }
    if forall path: Path :: MergedAt(state, delta, merged, path) {
      forall path: Path ensures Alike(At(merged, path), At(ApplyDelta(state, delta), path)) {
        assert MergedAt(state, delta, merged, path) && MergedAt(state, delta, ApplyDelta(state, delta), path);
      }
      SameAtPaths(merged, ApplyDelta(state, delta));
    }
  }

  // ---------------------------------------------------------------- leaves

  /** Leaf i is the last one to say something about the path. */
  ghost predicate LastDecides(leaves: seq<Leaf>, path: Path, i: nat) {
    i < |leaves| && Decides(leaves[i].payload, path) && forall j :: i < j < |leaves| ==> !Decides(leaves[j].payload, path)
  }

  /** The state holds at the path what the last leaf that says something about it says, up to the contents of objects. */
  ghost predicate HoldsLast(leaves: seq<Leaf>, path: Path, state: Json) {
    && (forall i: nat :: LastDecides(leaves, path, i) ==> Alike(At(state, path), At(leaves[i].payload, path)))
    && ((forall i :: 0 <= i < |leaves| ==> !Decides(leaves[i].payload, path)) ==> At(state, path) == if path == [] then Some(Null) else None)
  }

  lemma DecidedLast(leaves: seq<Leaf>, path: Path, state: Json)
    requires leaves != [] && Decides(Last(leaves).payload, path) && Alike(At(state, path), At(Last(leaves).payload, path))
    ensures HoldsLast(leaves, path, state)
  {
    hide At, Decides;
    var n := |leaves| - 1;
    forall i: nat | LastDecides(leaves, path, i) ensures i == n {
      assert !(i < n);
    }
    assert !(forall i :: 0 <= i < |leaves| ==> !Decides(leaves[i].payload, path));
  }

  lemma DecidesInFront(leaves: seq<Leaf>, path: Path, i: nat)
    requires leaves != [] && !Decides(Last(leaves).payload, path) && LastDecides(leaves, path, i)
    ensures i < |leaves| - 1 && LastDecides(DropLast(leaves), path, i) && leaves[i] == DropLast(leaves)[i]
  {
    hide Decides;
    var front := DropLast(leaves);
    assert i != |leaves| - 1;
    forall j | i < j < |front| ensures !Decides(front[j].payload, path) {
      assert front[j] == leaves[j];
    }
  }

  lemma DecidedEarlier(leaves: seq<Leaf>, path: Path, before: Json, state: Json)
    requires leaves != [] && !Decides(Last(leaves).payload, path) && HoldsLast(DropLast(leaves), path, before)
    requires At(state, path) == At(before, path)
    ensures HoldsLast(leaves, path, state)
  {
    hide At, Decides, Alike, LastDecides;
    var front := DropLast(leaves);
    forall i: nat | LastDecides(leaves, path, i) ensures i < |leaves| && Alike(At(state, path), At(leaves[i].payload, path)) {
      DecidesInFront(leaves, path, i);
    }
    if forall i :: 0 <= i < |leaves| ==> !Decides(leaves[i].payload, path) {
      assert forall i :: 0 <= i < |front| ==> front[i] == leaves[i];
    }
  }

  /** The last leaf that sets a path or cuts it off decides what folding the leaves holds there. */
  lemma {:induction false} FoldAt(leaves: seq<Leaf>, path: Path)
    ensures HoldsLast(leaves, path, FoldDeltas(leaves))
  {
    hide At, CutsOff, ApplyDelta, HoldsLast;
    if leaves == [] {
      NullAt(path);
      NothingHeld(path, FoldDeltas(leaves));
    } else {
      FoldAt(DropLast(leaves), path);
      MergeAt(FoldDeltas(DropLast(leaves)), Last(leaves).payload, path);
      if Decides(Last(leaves).payload, path) {
        DecidedLast(leaves, path, FoldDeltas(leaves));
      } else {
        DecidedEarlier(leaves, path, FoldDeltas(DropLast(leaves)), FoldDeltas(leaves));
      }
    }
  }

  lemma NothingHeld(path: Path, state: Json)
    requires At(state, path) == if path == [] then Some(Null) else None
    ensures HoldsLast([], path, state)
  {
  }

  lemma NullAt(path: Path)
    ensures At(Null, path) == if path == [] then Some(Null) else None
  {
  }

  /** In a monotone run a reconstruction holds at every path what the last of the container's finalized leaves up to the
      time that says something about the path says. */
  lemma ReconstructAt(cfg: Settings, steps: seq<Step>, c: string, at: Time, path: Path)
    requires ValidSettings(cfg) && Monotone(steps)
    ensures var stored := Run(cfg, steps).tiers[0].stored;
      var answer := Reconstruct(stored, c, at);
      answer.Ok? ==> HoldsLast(Filter(LeavesIn(stored), OfUpTo(c, at)), path, answer.value)
  {
    hide Run, LeavesIn, FoldDeltas, HoldsLast;
    ReconstructIsFold(cfg, steps, c, at);
    FoldAt(Filter(LeavesIn(Run(cfg, steps).tiers[0].stored), OfUpTo(c, at)), path);
  }
}
