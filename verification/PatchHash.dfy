/** Which digests a page of net patches is hashed over, and when two different patches give the same ones. */
module PatchLists {
  import opened Prelude
  import opened Hashing
  import opened Ordering
  import opened Patches

  datatype Name = Name(owner: string, field: string)

  predicate Before(a: Name, b: Name) {
    Less(a.owner, b.owner) || (a.owner == b.owner && Less(a.field, b.field))
  }

  /** Every object and field the patch mentions, once each, by object and then by field. */
  ghost predicate Names(p: PatchMap, names: seq<Name>) {
    && (forall i, j :: 0 <= i < j < |names| ==> Before(names[i], names[j]))
    && (forall n :: n in names <==> n.owner in p && n.field in p[n.owner])
  }

  /** One digest per name, over object id and field name run together, and the value. */
  ghost predicate Spells(p: PatchMap, names: seq<Name>, hashes: seq<Hash>)
    requires Names(p, names)
  {
    && |hashes| == |names|
    && forall i :: 0 <= i < |names| ==>
      names[i] in names && hashes[i] == PatchDigest(names[i].owner + names[i].field, p[names[i].owner][names[i].field])
  }

  ghost predicate Ascends(keys: seq<string>) {
    forall i, j :: 0 <= i < j < |keys| ==> Less(keys[i], keys[j])
  }

  lemma {:induction false} SortedKeysAscend(keys: set<string>)
    ensures Ascends(SortedKeys(keys))
  {
    if keys != {} {
      var m := Least(keys);
      SortedKeysAscend(keys - {m});
      SortedKeysMembers(keys - {m});
    }
  }

  ghost function NamesOf(o: string, fields: seq<string>): seq<Name> {
    seq(|fields|, i requires 0 <= i < |fields| => Name(o, fields[i]))
  }

  /** The first objects of an ascending list. */
  ghost predicate NamesUpTo(p: PatchMap, objects: seq<string>, names: seq<Name>) {
    && (forall i, j :: 0 <= i < j < |names| ==> Before(names[i], names[j]))
    && (forall n :: n in names <==> n.owner in objects && n.owner in p && n.field in p[n.owner])
  }

  ghost predicate SpellsPart(p: PatchMap, names: seq<Name>, hashes: seq<Hash>) {
    && |hashes| == |names|
    && forall i :: 0 <= i < |names| ==>
      && names[i].owner in p && names[i].field in p[names[i].owner]
      && hashes[i] == PatchDigest(names[i].owner + names[i].field, p[names[i].owner][names[i].field])
  }

  lemma PartsJoin(p: PatchMap, a: seq<Name>, x: seq<Hash>, b: seq<Name>, y: seq<Hash>)
    requires SpellsPart(p, a, x) && SpellsPart(p, b, y)
    ensures SpellsPart(p, a + b, x + y)
  {
  }

  lemma FieldsSpelled(p: PatchMap, o: string)
    requires o in p
    ensures forall f :: f in SortedKeys(p[o].Keys) <==> f in p[o]
    ensures SpellsPart(p, NamesOf(o, SortedKeys(p[o].Keys)), FieldHashes(o, p[o], SortedKeys(p[o].Keys)))
  {
    SortedKeysMembers(p[o].Keys);
    hide SortedKeys;
  }

  lemma {:induction false} SpelledOut(p: PatchMap, objects: seq<string>) returns (names: seq<Name>)
    requires (forall o :: o in objects ==> o in p) && Ascends(objects)
    ensures NamesUpTo(p, objects, names) && SpellsPart(p, names, ObjectHashes(p, objects))
  {
    hide SpellsPart, SortedKeys, NamesOf, FieldHashes;
    if objects == [] {
      names := [];
      NothingSpelled(p);
    } else {
      var front, o := DropLast(objects), Last(objects);
      assert forall x :: x in front ==> x in objects;
      assert Ascends(front);
      var earlier := SpelledOut(p, front);
      FieldsSpelled(p, o);
      SortedKeysAscend(p[o].Keys);
      var mine := NamesOf(o, SortedKeys(p[o].Keys));
      names := earlier + mine;
      hide NamesUpTo, Ascends;
      NamesStep(p, objects, earlier, mine);
      PartsJoin(p, earlier, ObjectHashes(p, front), mine, FieldHashes(o, p[o], SortedKeys(p[o].Keys)));
    }
  }

  lemma NothingSpelled(p: PatchMap)
    ensures SpellsPart(p, [], [])
  {
  }

  lemma NamesStep(p: PatchMap, objects: seq<string>, earlier: seq<Name>, mine: seq<Name>)
    requires objects != [] && Ascends(objects) && Last(objects) in p && NamesUpTo(p, DropLast(objects), earlier)
    requires (forall x :: x in SortedKeys(p[Last(objects)].Keys) <==> x in p[Last(objects)]) && Ascends(SortedKeys(p[Last(objects)].Keys))
    requires mine == NamesOf(Last(objects), SortedKeys(p[Last(objects)].Keys))
    ensures NamesUpTo(p, objects, earlier + mine)
  {
    var o, fields := Last(objects), SortedKeys(p[Last(objects)].Keys);
    forall n ensures n in mine <==> n.owner == o && n.field in p[o] {
      if n.owner == o && n.field in p[o] {
        var i :| 0 <= i < |fields| && fields[i] == n.field;
        assert mine[i] == n;
      }
    }
    forall i, j | 0 <= i < |earlier| && 0 <= j < |mine| ensures Before(earlier[i], mine[j]) {
      assert earlier[i] in earlier;
      var k :| 0 <= k < |DropLast(objects)| && DropLast(objects)[k] == earlier[i].owner;
      assert Less(objects[k], objects[|objects| - 1]);
    }
    assert objects == DropLast(objects) + [o];
    hide Before, SortedKeys;
    assert forall i, j :: 0 <= i < j < |mine| ==> Before(mine[i], mine[j]) by {
      MineAscends(o, fields);
    }
  }

  lemma MineAscends(o: string, fields: seq<string>)
    requires Ascends(fields)
    ensures forall i, j :: 0 <= i < j < |NamesOf(o, fields)| ==> Before(NamesOf(o, fields)[i], NamesOf(o, fields)[j])
  {
  }

  /** The digests a page of net patches is hashed over spell out the patch, in order. */
  lemma PatchHashesSpell(p: PatchMap) returns (names: seq<Name>)
    ensures Names(p, names) && Spells(p, names, PatchHashes(p))
  {
    SortedKeysMembers(p.Keys);
    SortedKeysAscend(p.Keys);
    names := SpelledOut(p, SortedKeys(p.Keys));
  }

  /** Two patches give the same digests exactly when their lists agree in every joined name and every value. */
  lemma SameHashesIff(p: PatchMap, m: seq<Name>, q: PatchMap, n: seq<Name>)
    requires Names(p, m) && Names(q, n) && Spells(p, m, PatchHashes(p)) && Spells(q, n, PatchHashes(q))
    ensures PatchHashes(p) == PatchHashes(q) <==>
      |m| == |n| && forall i :: 0 <= i < |m| ==>
        m[i].owner + m[i].field == n[i].owner + n[i].field && (m[i] in m && n[i] in n && p[m[i].owner][m[i].field] == q[n[i].owner][n[i].field])
  {
    hide PatchHashes;
    var a, b := PatchHashes(p), PatchHashes(q);
    if a == b {
      forall i | 0 <= i < |m| ensures m[i].owner + m[i].field == n[i].owner + n[i].field && p[m[i].owner][m[i].field] == q[n[i].owner][n[i].field] {
        assert a[i] == b[i];
      }
    }
  }

  lemma OneName(o: string, f: string, v: Json)
    ensures PatchHashes(map[o := map[f := v]]) == [PatchDigest(o + f, v)]
  {
    var p := map[o := map[f := v]];
    var names := PatchHashesSpell(p);
    hide PatchHashes;
    assert Name(o, f) in names;
    if |names| > 1 {
      assert names[0] in names && names[1] in names && Before(names[0], names[1]);
      LessTotal(o, o);
      LessTotal(f, f);
    }
    assert names[0] in names;
    assert PatchHashes(p) == [PatchHashes(p)[0]];
  }

  /** Different patches whose joined names agree share their digests, and so the root of their pages. */
  lemma NamesRunTogether(v: Json)
    ensures map["a" := map["bc" := v]] != map["ab" := map["c" := v]]
    ensures PatchHashes(map["a" := map["bc" := v]]) == PatchHashes(map["ab" := map["c" := v]])
  {
    OneName("a", "bc", v);
    OneName("ab", "c", v);
    assert "a" + "bc" == "ab" + "c";
    assert "a" in map["a" := map["bc" := v]] && "a" !in map["ab" := map["c" := v]];
  }
}
