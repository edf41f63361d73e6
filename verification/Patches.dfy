/** Net patches: object id -> field -> value, merged with last write winning. */
module Patches {
  import opened Prelude
  import opened Hashing
  import opened Ordering

  type Fields = map<string, Json>
  type PatchMap = map<string, Fields>

  function FieldsOf(p: PatchMap, o: string): Fields {
    if o in p then p[o] else map[]
  }

  /** q laid over p. */
  function Merge(p: PatchMap, q: PatchMap): PatchMap {
    map o | o in p.Keys + q.Keys :: FieldsOf(p, o) + FieldsOf(q, o)
  }

  /** Everything p mentions is mentioned by q. */
  ghost predicate KeysWithin(p: PatchMap, q: PatchMap) {
    p.Keys <= q.Keys && forall o :: o in p ==> p[o].Keys <= FieldsOf(q, o).Keys
  }

  lemma MergeFields(p: PatchMap, q: PatchMap, o: string)
    ensures FieldsOf(Merge(p, q), o) == FieldsOf(p, o) + FieldsOf(q, o)
    ensures o in Merge(p, q) <==> o in p || o in q
  {
  }

  lemma SamePatches(a: PatchMap, b: PatchMap)
    requires a.Keys == b.Keys
    requires forall o :: o in a ==> FieldsOf(a, o) == FieldsOf(b, o)
    ensures a == b
  {
    forall o | o in a ensures a[o] == b[o] {
      assert FieldsOf(a, o) == FieldsOf(b, o);
    }
  }

  lemma FieldsAssociative(a: Fields, b: Fields, c: Fields)
    ensures (a + b) + c == a + (b + c)
  {
  }

  lemma FieldsAbsorb(a: Fields, b: Fields, c: Fields)
    requires b.Keys <= c.Keys
    ensures (a + b) + c == a + c
  {
  }

  lemma MergeKeys(p: PatchMap, q: PatchMap)
    ensures Merge(p, q).Keys == p.Keys + q.Keys
  {
  }

  lemma MergeAssociative(p: PatchMap, q: PatchMap, r: PatchMap)
    ensures Merge(Merge(p, q), r) == Merge(p, Merge(q, r))
  {
    var pq, qr := Merge(p, q), Merge(q, r);
    var a, b := Merge(pq, r), Merge(p, qr);
    assert a.Keys == b.Keys by {
      MergeKeys(p, q); MergeKeys(q, r); MergeKeys(pq, r); MergeKeys(p, qr);
    }
    forall o | o in a ensures FieldsOf(a, o) == FieldsOf(b, o) {
      MergeFields(p, q, o);
      MergeFields(pq, r, o);
      MergeFields(q, r, o);
      MergeFields(p, qr, o);
      FieldsAssociative(FieldsOf(p, o), FieldsOf(q, o), FieldsOf(r, o));
    }
    SamePatches(a, b);
  }

  lemma MergeEmpty(p: PatchMap)
    ensures Merge(p, map[]) == p && Merge(map[], p) == p
  {
    assert forall o :: o in p ==> FieldsOf(p, o) + map[] == p[o] && map[] + FieldsOf(p, o) == p[o];
  }

  /** A patch that mentions everything an earlier one mentions hides it. */
  lemma MergeAbsorbs(base: PatchMap, p: PatchMap, q: PatchMap)
    requires KeysWithin(p, q)
    ensures Merge(Merge(base, p), q) == Merge(base, q)
  {
    var bp := Merge(base, p);
    var a, b := Merge(bp, q), Merge(base, q);
    assert a.Keys == b.Keys by {
      MergeKeys(base, p); MergeKeys(bp, q); MergeKeys(base, q);
    }
    forall o | o in a ensures FieldsOf(a, o) == FieldsOf(b, o) {
      MergeFields(base, p, o);
      MergeFields(bp, q, o);
      MergeFields(base, q, o);
      assert FieldsOf(p, o).Keys <= FieldsOf(q, o).Keys;
      FieldsAbsorb(FieldsOf(base, o), FieldsOf(p, o), FieldsOf(q, o));
    }
    SamePatches(a, b);
  }

  lemma MergeExtendsKeys(p: PatchMap, q: PatchMap)
    ensures KeysWithin(p, Merge(p, q))
  {
    forall o | o in p ensures p[o].Keys <= FieldsOf(Merge(p, q), o).Keys {
      MergeFields(p, q, o);
    }
  }

  /** The inner loop of `merge_net_patches`: one object's fields. */
  method MergeEntry(entry: Fields, incoming: Fields) returns (merged: Fields)
    ensures merged == entry + incoming
  {
    merged := entry;
    var names := incoming.Keys;
    while names != {}
      invariant names <= incoming.Keys
      invariant merged == entry + (incoming - names)
      decreases names
    {
      var f :| f in names;
      names := names - {f};
      merged := merged[f := incoming[f]];
    }
    assert incoming - names == incoming;
  }

  /** The outer loop of `merge_net_patches`: one entry per object. */
  method MergeInto(existing: PatchMap, incoming: PatchMap) returns (merged: PatchMap)
    ensures merged == Merge(existing, incoming)
  {
    merged := existing;
    var objects := incoming.Keys;
    while objects != {}
      invariant objects <= incoming.Keys
      invariant merged.Keys == existing.Keys + (incoming.Keys - objects)
      invariant forall o :: o in merged ==>
        FieldsOf(merged, o) == if o in objects then FieldsOf(existing, o) else FieldsOf(existing, o) + FieldsOf(incoming, o)
      decreases objects
    {
      var o :| o in objects;
      objects := objects - {o};
      var entry := MergeEntry(FieldsOf(merged, o), incoming[o]);
      ghost var before := merged;
      merged := merged[o := entry];
      forall x | x in merged
        ensures FieldsOf(merged, x) == if x in objects then FieldsOf(existing, x) else FieldsOf(existing, x) + FieldsOf(incoming, x)
      {
        if x != o {
          assert FieldsOf(merged, x) == FieldsOf(before, x);
        }
      }
    }
    MergeKeys(existing, incoming);
    forall o | o in merged ensures FieldsOf(merged, o) == FieldsOf(Merge(existing, incoming), o) {
      MergeFields(existing, incoming, o);
    }
    SamePatches(merged, Merge(existing, incoming));
  }

  // ---------------------------------------------------------------- hashing

  ghost function FieldHashes(o: string, fields: Fields, names: seq<string>): seq<Hash>
    requires forall f :: f in names ==> f in fields
  {
    seq(|names|, i requires 0 <= i < |names| => PatchDigest(o + names[i], fields[names[i]]))
  }

  ghost function ObjectHashes(p: PatchMap, objects: seq<string>): seq<Hash>
    requires forall o :: o in objects ==> o in p
  {
    if objects == [] then [] else
    var o := Last(objects);
    SortedKeysMembers(p[o].Keys);
    ObjectHashes(p, DropLast(objects)) + FieldHashes(o, p[o], SortedKeys(p[o].Keys))
  }

  /** One digest per (object, field, value), objects and fields in ascending order. */
  ghost function PatchHashes(p: PatchMap): seq<Hash> {
    SortedKeysMembers(p.Keys);
    ObjectHashes(p, SortedKeys(p.Keys))
  }

  /** The inner loop: one digest per field of one object. */
  method HashFields(o: string, fields: Fields) returns (hashes: seq<Hash>)
    ensures forall f :: f in SortedKeys(fields.Keys) ==> f in fields
    ensures hashes == FieldHashes(o, fields, SortedKeys(fields.Keys))
  {
    hashes := [];
    var names := SortKeys(fields.Keys);
    SortedKeysMembers(fields.Keys);
    for j := 0 to |names|
      invariant |hashes| == j
      invariant forall i :: 0 <= i < j ==> hashes[i] == PatchDigest(o + names[i], fields[names[i]])
    {
      hashes := hashes + [PatchDigest(o + names[j], fields[names[j]])];
    }
  }

  method HashPatches(p: PatchMap) returns (hashes: seq<Hash>)
    ensures hashes == PatchHashes(p)
  {
    hashes := [];
    var objects := SortKeys(p.Keys);
    SortedKeysMembers(p.Keys);
    for i := 0 to |objects|
      invariant hashes == ObjectHashes(p, objects[..i])
    {
      var one := HashFields(objects[i], p[objects[i]]);
      hashes := hashes + one;
      assert DropLast(objects[..i + 1]) == objects[..i];
    }
    assert objects[..|objects|] == objects;
  }
}
