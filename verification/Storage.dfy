/** The in-memory page store and its correspondence to a tower. */
module Storage {
  import opened Prelude
  import opened Hashing
  import opened Config
  import opened Pages
  import opened Towers
  import opened Safety

  datatype PageKey = PageKey(level: nat, id: nat)

  datatype Summary = Summary(id: nat, level: nat, start: Time, end: Time, hash: Hash)

  function Summarize(p: Page): Summary {
    Summary(p.id, p.level, p.start, p.end, p.hash)
  }

  function Summaries(pages: seq<Page>): seq<Summary> {
    seq(|pages|, i requires 0 <= i < |pages| => Summarize(pages[i]))
  }

  // ---------------------------------------------------------------- stable sorting by a key

  function InsertBy<T>(s: seq<T>, x: T, key: T -> int): seq<T> {
    if s == [] || key(Last(s)) <= key(x) then s + [x] else InsertBy(DropLast(s), x, key) + [Last(s)]
  }

  /** The library's stable `sort_by_key`. */
  function SortBy<T>(s: seq<T>, key: T -> int): seq<T> {
    if s == [] then [] else InsertBy(SortBy(DropLast(s), key), Last(s), key)
  }

  ghost predicate SortedBy<T>(s: seq<T>, key: T -> int) {
    forall i, j :: 0 <= i < j < |s| ==> key(s[i]) <= key(s[j])
  }

  lemma MultisetSnoc<T>(s: seq<T>, x: T)
    ensures multiset(s + [x]) == multiset(s) + multiset{x}
  {
  }

  lemma {:induction false} InsertByContents<T>(s: seq<T>, x: T, key: T -> int)
    ensures multiset(InsertBy(s, x, key)) == multiset(s) + multiset{x}
  {
    if s == [] || key(Last(s)) <= key(x) {
      MultisetSnoc(s, x);
    } else {
      var front := DropLast(s);
      assert s == front + [Last(s)];
      InsertByContents(front, x, key);
      MultisetSnoc(front, Last(s));
      MultisetSnoc(InsertBy(front, x, key), Last(s));
    }
  }

  lemma {:induction false} InsertByBound<T>(s: seq<T>, x: T, key: T -> int, bound: int)
    requires key(x) <= bound && forall i :: 0 <= i < |s| ==> key(s[i]) <= bound
    ensures forall i :: 0 <= i < |InsertBy(s, x, key)| ==> key(InsertBy(s, x, key)[i]) <= bound
  {
    if s != [] && key(Last(s)) > key(x) {
      InsertByBound(DropLast(s), x, key, bound);
    }
  }

  lemma {:induction false} InsertBySorted<T>(s: seq<T>, x: T, key: T -> int)
    requires SortedBy(s, key)
    ensures SortedBy(InsertBy(s, x, key), key)
  {
    if s != [] && key(Last(s)) > key(x) {
      var t := InsertBy(DropLast(s), x, key);
      InsertBySorted(DropLast(s), x, key);
      InsertByBound(DropLast(s), x, key, key(Last(s)));
    }
  }

  lemma {:induction false} SortBySorts<T>(s: seq<T>, key: T -> int)
    ensures SortedBy(SortBy(s, key), key) && multiset(SortBy(s, key)) == multiset(s)
  {
    hide SortedBy, InsertBy;
    if s != [] {
      SortBySorts(DropLast(s), key);
      InsertBySorted(SortBy(DropLast(s), key), Last(s), key);
      InsertByContents(SortBy(DropLast(s), key), Last(s), key);
      assert s == DropLast(s) + [Last(s)];
    } else {
      EmptySorted(key);
    }
  }

  lemma EmptySorted<T>(key: T -> int)
    ensures SortedBy([], key)
  {
  }

  /** Stability: a list already in order is left as it is. */
  lemma {:induction false} SortBySorted<T>(s: seq<T>, key: T -> int)
    requires SortedBy(s, key)
    ensures SortBy(s, key) == s
  {
    if s != [] {
      var front := DropLast(s);
      assert SortedBy(front, key);
      SortBySorted(front, key);
      assert front == [] || key(Last(front)) <= key(Last(s));
      assert s == front + [Last(s)];
    }
  }

  lemma {:induction false} AscendingUnique(a: seq<Summary>, b: seq<Summary>)
    requires forall i, j :: 0 <= i < j < |a| ==> a[i].id < a[j].id
    requires forall i, j :: 0 <= i < j < |b| ==> b[i].id < b[j].id
    requires forall x :: x in a <==> x in b
    ensures a == b
  {
    assert a != [] ==> Last(a) in a;
    assert b != [] ==> Last(b) in b;
    if a != [] && b != [] {
      var x := Last(a);
      assert x in b;
      var y := Last(b);
      assert y in a;
      assert x == y;
      var c, d := DropLast(a), DropLast(b);
      assert a == c + [x] && b == d + [x];
      forall z ensures z in c <==> z in d {
        assert z in c <==> z in a && z != x;
        assert z in d <==> z in b && z != x;
      }
      AscendingUnique(c, d);
    }
  }

  // ---------------------------------------------------------------- correspondence to a tower

  ghost predicate StoreWithin(pages: map<PageKey, Page>, tw: Tower) {
    forall key :: key in pages ==>
      key.level < |tw.tiers| && pages[key] in tw.tiers[key.level].stored && pages[key].level == key.level && pages[key].id == key.id
  }

  ghost predicate StoreCovers(pages: map<PageKey, Page>, tw: Tower) {
    forall k, p :: 0 <= k < |tw.tiers| && p in tw.tiers[k].stored ==>
      PageKey(k, p.id) in pages && pages[PageKey(k, p.id)] == p
  }

  /** The map holds exactly the tower's stored pages, each under its level and id. */
  ghost predicate StoreMirrors(pages: map<PageKey, Page>, tw: Tower) {
    StoreWithin(pages, tw) && StoreCovers(pages, tw)
  }

  lemma StoreMembers(t: Tier, p: Page)
    requires Ascending(t.stored) && (t.stored != [] ==> Last(t.stored).id <= p.id)
    ensures forall q :: q in t.Store(p).stored <==> q == p || (q in t.stored && q.id != p.id)
  {
    var base := DropLast(t.Store(p).stored);
    forall q ensures q in base <==> q in t.stored && q.id != p.id {
      if q in base {
        var i :| 0 <= i < |base| && base[i] == q;
        assert t.stored[i] == q && t.stored[i].id < p.id;
      }
      if q in t.stored && q.id != p.id {
        var i :| 0 <= i < |t.stored| && t.stored[i] == q;
        assert base[i] == q;
      }
    }
  }

  lemma StoreKeepsMirror(cfg: Settings, pages: map<PageKey, Page>, tw: Tower, k: nat, p: Page)
    requires Sound(cfg, tw) && StoreMirrors(pages, tw) && k < |tw.tiers| && Fits(cfg, tw, k, p)
    ensures StoreMirrors(pages[PageKey(k, p.id) := p], tw.Finalize(k, p))
  {
    var t := tw.tiers[k];
    assert Ascending(t.stored) && (t.stored != [] ==> Last(t.stored).id <= p.id) && p.level == k by {
      assert TierOk(cfg, k, t);
    }
    hide Sound, Fits, Ascending, StoreWithin, StoreCovers;
    StoreMembers(t, p);
    StoreStaysWithin(pages, tw, k, p);
    StoreStillCovers(pages, tw, k, p);
  }

  lemma StoreStaysWithin(pages: map<PageKey, Page>, tw: Tower, k: nat, p: Page)
    requires StoreWithin(pages, tw) && k < |tw.tiers| && p.level == k
    requires forall q :: q in tw.tiers[k].Store(p).stored <==> q == p || (q in tw.tiers[k].stored && q.id != p.id)
    ensures StoreWithin(pages[PageKey(k, p.id) := p], tw.Finalize(k, p))
  {
  }

  lemma StoreStillCovers(pages: map<PageKey, Page>, tw: Tower, k: nat, p: Page)
    requires StoreCovers(pages, tw) && k < |tw.tiers|
    requires forall q :: q in tw.tiers[k].Store(p).stored <==> q == p || (q in tw.tiers[k].stored && q.id != p.id)
    ensures StoreCovers(pages[PageKey(k, p.id) := p], tw.Finalize(k, p))
  {
  }

  /** Looking up the last finalized id finds the tower's last stored page, or nothing. */
  lemma LastLookup(cfg: Settings, pages: map<PageKey, Page>, tw: Tower, k: nat)
    requires Sound(cfg, tw) && StoreMirrors(pages, tw) && k < |tw.tiers| && tw.tiers[k].last.Some?
    ensures PageKey(k, tw.tiers[k].last.value.id) in pages <==> tw.tiers[k].LastStored().Some?
    ensures tw.tiers[k].LastStored().Some? ==> pages[PageKey(k, tw.tiers[k].last.value.id)] == tw.tiers[k].LastStored().value
  {
    hide StoredOk, Extends, IdsSafe, ActiveOk;
    var t := tw.tiers[k];
    assert TierOk(cfg, k, t);
    if PageKey(k, t.last.value.id) in pages {
      var p := pages[PageKey(k, t.last.value.id)];
      var i :| 0 <= i < |t.stored| && t.stored[i] == p;
      assert t.stored[i].id <= Last(t.stored).id;
      assert i == |t.stored| - 1;
    }
    if t.LastStored().Some? {
      assert Last(t.stored) in t.stored;
    }
  }

  /** A page hash determines the page. */
  lemma HashesDetermine(cfg: Settings, pages: map<PageKey, Page>, tw: Tower, a: PageKey, b: PageKey)
    requires Sound(cfg, tw) && StoreMirrors(pages, tw) && a in pages && b in pages && pages[a].hash == pages[b].hash
    ensures a == b
  {
    hide Extends, IdsSafe, ActiveOk, RootOf;
    StoredPageOk(cfg, tw, a.level, pages[a]);
    StoredPageOk(cfg, tw, b.level, pages[b]);
    assert pages[a].hash == pages[a].Digest() && pages[b].hash == pages[b].Digest();
  }

  lemma StoredPageOk(cfg: Settings, tw: Tower, k: nat, p: Page)
    requires Sound(cfg, tw) && k < |tw.tiers| && p in tw.tiers[k].stored
    ensures StoredOk(cfg, k, p)
  {
    assert TierOk(cfg, k, tw.tiers[k]);
    var i :| 0 <= i < |tw.tiers[k].stored| && tw.tiers[k].stored[i] == p;
  }

  // ---------------------------------------------------------------- the store

  class MemoryStorage {
    var pages: map<PageKey, Page>

    constructor ()
      ensures pages == map[]
    {
      pages := map[];
    }

    ghost predicate WellKeyed()
      reads this
    {
      forall key :: key in pages ==> pages[key].level == key.level && pages[key].id == key.id
    }

    method StorePage(page: Page)
      modifies this
      ensures pages == old(pages)[PageKey(page.level, page.id) := page]
    {
      pages := pages[PageKey(page.level, page.id) := page];
    }

    method LoadPage(level: nat, id: nat) returns (r: Option<Page>)
      ensures r == if PageKey(level, id) in pages then Some(pages[PageKey(level, id)]) else None
    {
      if PageKey(level, id) in pages {
        return Some(pages[PageKey(level, id)]);
      }
      return None;
    }

    method DeletePage(level: nat, id: nat)
      modifies this
      ensures pages == old(pages) - {PageKey(level, id)}
    {
      pages := pages - {PageKey(level, id)};
    }

    /** Scans the entries in no particular order. */
    method LoadPageByHash(hash: Hash) returns (r: Option<Page>)
      ensures r.Some? ==> exists key :: key in pages && pages[key] == r.value && r.value.hash == hash
      ensures r.None? ==> forall key :: key in pages ==> pages[key].hash != hash
    {
      var rest := pages.Keys;
      while rest != {}
        invariant rest <= pages.Keys
        invariant forall key :: key in pages && key !in rest ==> pages[key].hash != hash
        decreases rest
      {
        var key :| key in rest;
        if pages[key].hash == hash {
          return Some(pages[key]);
        }
        rest := rest - {key};
      }
      return None;
    }

    /** Scans the level-0 pages for a leaf with the given hash. */
    method LoadLeafByHash(hash: Hash) returns (r: Option<Leaf>)
      ensures r.Some? ==> r.value.hash == hash
      ensures r.Some? ==> exists key :: key in pages && pages[key].level == 0 && pages[key].content.Leaves? && r.value in pages[key].content.leaves
      ensures r.None? ==> forall key :: key in pages && pages[key].level == 0 && pages[key].content.Leaves? ==>
        hash !in LeafHashes(pages[key].content.leaves)
    {
      var rest := pages.Keys;
      while rest != {}
        invariant rest <= pages.Keys
        invariant forall key :: key in pages && key !in rest && pages[key].level == 0 && pages[key].content.Leaves? ==>
          hash !in LeafHashes(pages[key].content.leaves)
        decreases rest
      {
        var key :| key in rest;
        var page := pages[key];
        if page.level == 0 && page.content.Leaves? {
          for i := 0 to |page.content.leaves|
            invariant forall j :: 0 <= j < i ==> page.content.leaves[j].hash != hash
          {
            if page.content.leaves[i].hash == hash {
              return Some(page.content.leaves[i]);
            }
          }
        }
        rest := rest - {key};
      }
      return None;
    }

    /** Summaries of one level's pages in ascending id order. */
    method ListFinalizedPagesSummary(level: nat) returns (summaries: seq<Summary>)
      requires WellKeyed()
      ensures forall i, j :: 0 <= i < j < |summaries| ==> summaries[i].id < summaries[j].id
      ensures forall s :: s in summaries <==> exists key :: key in pages && key.level == level && s == Summarize(pages[key])
    {
      var found: seq<Summary> := [];
      var rest := pages.Keys;
      while rest != {}
        invariant rest <= pages.Keys
        invariant forall i, j :: 0 <= i < j < |found| ==> found[i].id != found[j].id
        invariant forall s :: s in found <==> exists key :: key in pages && key !in rest && key.level == level && s == Summarize(pages[key])
        decreases rest
      {
        var key :| key in rest;
        rest := rest - {key};
        if key.level == level {
          FreshId(pages, rest, found, level, key);
          found := found + [Summarize(pages[key])];
        }
      }
      var byId := (s: Summary) => s.id;
      summaries := SortBy(found, byId);
      SortBySorts(found, byId);
      SortedDistinct(found, summaries);
      assert forall s :: s in summaries <==> s in multiset(summaries);
      assert forall s :: s in found <==> s in multiset(found);
    }
  }

  lemma FreshId(pages: map<PageKey, Page>, rest: set<PageKey>, found: seq<Summary>, level: nat, key: PageKey)
    requires forall k :: k in pages ==> pages[k].level == k.level && pages[k].id == k.id
    requires key in pages && key !in rest && key.level == level
    requires forall s :: s in found ==> exists k :: k in pages && k !in rest + {key} && k.level == level && s == Summarize(pages[k])
    ensures forall i :: 0 <= i < |found| ==> found[i].id != pages[key].id
  {
    forall i | 0 <= i < |found| ensures found[i].id != pages[key].id {
      assert found[i] in found;
      var k :| k in pages && k !in rest + {key} && k.level == level && found[i] == Summarize(pages[k]);
    }
  }

  lemma SortedDistinct(a: seq<Summary>, b: seq<Summary>)
    requires multiset(a) == multiset(b) && SortedBy(b, (s: Summary) => s.id)
    requires forall i, j :: 0 <= i < j < |a| ==> a[i].id != a[j].id
    ensures forall i, j :: 0 <= i < j < |b| ==> b[i].id < b[j].id
  {
    forall i, j | 0 <= i < j < |b| ensures b[i].id < b[j].id {
      if b[i].id == b[j].id {
        SameIdTwice(a, b, i, j);
      }
    }
  }

  lemma TwiceInSeq<T>(s: seq<T>, x: T, i: nat, j: nat)
    requires i < j < |s| && s[i] == x && s[j] == x
    ensures multiset(s)[x] >= 2
  {
    assert s == s[..i] + [x] + s[i + 1..j] + [x] + s[j + 1..];
  }

  lemma TwicePlaced<T>(s: seq<T>, x: T)
    requires multiset(s)[x] >= 2
    ensures exists m, n :: 0 <= m < n < |s| && s[m] == x && s[n] == x
  {
    assert x in s;
    var m :| 0 <= m < |s| && s[m] == x;
    var rest := s[..m] + s[m + 1..];
    assert s == s[..m] + [x] + s[m + 1..];
    assert multiset(rest)[x] >= 1 && x in rest;
    var n :| 0 <= n < |rest| && rest[n] == x;
    assert if n < m then s[n] == x else s[n + 1] == x;
  }

  lemma SameIdTwice(a: seq<Summary>, b: seq<Summary>, i: nat, j: nat)
    requires multiset(a) == multiset(b) && i < j < |b| && b[i].id == b[j].id
    ensures exists m, n :: 0 <= m < n < |a| && a[m].id == a[n].id
  {
    var x, y := b[i], b[j];
    if x != y {
      assert x in multiset(a) && y in multiset(a);
      var m :| 0 <= m < |a| && a[m] == x;
      var n :| 0 <= n < |a| && a[n] == y;
      assert m != n;
    } else {
      TwiceInSeq(b, x, i, j);
      TwicePlaced(a, x);
    }
  }
}
