/** Leaves, page content, pages, and the page id generator. */
module Pages {
  import opened Prelude
  import opened Hashing
  import opened Config
  import opened Patches
  import opened Merkle

  datatype Leaf = Leaf(id: nat, at: Time, parent: Option<Hash>, container: string, payload: Json, hash: Hash)

  function NewLeaf(id: nat, at: Time, parent: Option<Hash>, container: string, payload: Json): Leaf {
    Leaf(id, at, parent, container, payload, LeafDigest(id, at, parent, container, payload))
  }

  datatype Content =
    | Leaves(leaves: seq<Leaf>)
    | ThrallHashes(hashes: seq<Hash>)
    | ThrallHashesWithNetPatches(hashes: seq<Hash>, patches: PatchMap)
    | NetPatches(patches: PatchMap)
  {
    function Length(): nat {
      match this
      case Leaves(ls) => |ls|
      case ThrallHashes(hs) => |hs|
      case ThrallHashesWithNetPatches(hs, _) => |hs|
      case NetPatches(ps) => |ps|
    }

    predicate IsEmpty() {
      match this
      case Leaves(ls) => ls == []
      case ThrallHashes(hs) => hs == []
      case ThrallHashesWithNetPatches(hs, ps) => hs == [] && ps == map[]
      case NetPatches(ps) => ps == map[]
    }

    predicate HasHashes() {
      ThrallHashes? || ThrallHashesWithNetPatches?
    }

    predicate HasPatches() {
      NetPatches? || ThrallHashesWithNetPatches?
    }
  }

  function LeafHashes(ls: seq<Leaf>): seq<Hash> {
    seq(|ls|, i requires 0 <= i < |ls| => ls[i].hash)
  }

  /** The hashes a page's Merkle root is taken over. */
  ghost function HashList(c: Content): seq<Hash> {
    match c
    case Leaves(ls) => LeafHashes(ls)
    case ThrallHashes(hs) => hs
    case ThrallHashesWithNetPatches(hs, _) => hs
    case NetPatches(ps) => PatchHashes(ps)
  }

  ghost function RootOf(hs: seq<Hash>): Hash {
    if hs == [] then Zero else Root(hs)
  }

  /** The child hashes recorded by a parent page. */
  function ThrallList(c: Content): seq<Hash> {
    if c.HasHashes() then c.hashes else []
  }

  /** The net patch of one leaf: its top-level fields when its payload is an object. */
  function LeafPatch(l: Leaf): PatchMap {
    if l.payload.Object? then map[l.container := l.payload.fields] else map[]
  }

  function LeavesPatch(ls: seq<Leaf>): PatchMap {
    if ls == [] then map[] else Merge(LeavesPatch(DropLast(ls)), LeafPatch(Last(ls)))
  }

  /** What a page contributes when it is rolled up into a patch-carrying parent. */
  function NetPatch(c: Content): PatchMap {
    match c
    case Leaves(ls) => LeavesPatch(ls)
    case ThrallHashes(_) => map[]
    case ThrallHashesWithNetPatches(_, ps) => ps
    case NetPatches(ps) => ps
  }

  function EmptyContent(cfg: Settings, level: nat): Content {
    if level == 0 then Leaves([])
    else if level >= |cfg.levels| then ThrallHashes([])
    else match cfg.levels[level].kind
      case ChildHashes => ThrallHashes([])
      case NetPatchesOnly => NetPatches(map[])
      case ChildHashesAndNetPatches => ThrallHashesWithNetPatches([], map[])
  }

  predicate SameShape(c: Content, d: Content) {
    && c.Leaves? == d.Leaves?
    && c.ThrallHashes? == d.ThrallHashes?
    && c.ThrallHashesWithNetPatches? == d.ThrallHashesWithNetPatches?
    && c.NetPatches? == d.NetPatches?
  }

  datatype Page = Page(
    id: nat, level: nat, start: Time, end: Time, content: Content, root: Hash,
    prev: Option<Hash>, lastLeafAt: Option<Time>, hash: Hash,
    firstChild: Option<Time>, lastChild: Option<Time>)
  {
    function Length(): nat { content.Length() }

    predicate IsEmpty() { content.IsEmpty() }

    predicate InWindow(ts: Time) { start <= ts < end }

    function Digest(): Hash {
      PageDigest(id, level, start, end, root, prev, firstChild, lastChild)
    }

    /** `recalculate_merkle_root_and_page_hash` */
    ghost function Rehash(): Page {
      var q := this.(root := RootOf(HashList(content)));
      q.(hash := q.Digest())
    }

    function AddLeaf(l: Leaf): Page
      requires level == 0 && content.Leaves?
    {
      this.(lastLeafAt := Some(l.at),
            firstChild := if firstChild.None? || l.at < firstChild.value then Some(l.at) else firstChild,
            lastChild := if lastChild.None? || l.at > lastChild.value then Some(l.at) else lastChild,
            content := Leaves(content.leaves + [l]))
    }

    function TouchChild(ts: Time): Page {
      this.(firstChild := if firstChild.None? then Some(ts) else firstChild,
            lastChild := if lastChild.None? || ts > lastChild.value then Some(ts) else lastChild)
    }

    function AddThrallHash(h: Hash, ts: Time): Page
      requires level != 0 && content.HasHashes()
    {
      TouchChild(ts).(content := content.(hashes := content.hashes + [h]))
    }

    function MergeNetPatches(ps: PatchMap, ts: Time): Page
      requires level != 0 && content.HasPatches()
    {
      TouchChild(ts).(content := content.(patches := Merge(content.patches, ps)))
    }

    /** Whether a page is due by count or age, and whether the timestamp lies past its window. */
    function ShouldFinalize(ts: Time, now: Time, maxItems: nat, maxAge: Option<Time>): (bool, bool) {
      var oldest := if firstChild.Some? then firstChild.value else start;
      (Length() >= maxItems || (maxAge.Some? && now - oldest >= maxAge.value), ts >= end)
    }

    method Recalculate() returns (q: Page)
      ensures q == Rehash()
    {
      var hashes: seq<Hash>;
      match content {
        case Leaves(ls) => hashes := LeafHashes(ls);
        case ThrallHashes(hs) => hashes := hs;
        case ThrallHashesWithNetPatches(hs, _) => hashes := hs;
        case NetPatches(ps) => hashes := HashPatches(ps);
      }
      var newRoot := Zero;
      if hashes != [] {
        var tree := NewTree(hashes);
        if tree.Ok? && tree.value.GetRoot().Some? {
          newRoot := tree.value.GetRoot().value;
        }
      }
      q := this.(root := newRoot);
      q := q.(hash := q.Digest());
    }
  }

  function NewPage(id: nat, level: nat, prev: Option<Hash>, start: Time, cfg: Settings): (p: Page)
    ensures p.hash == p.Digest() && p.IsEmpty() && p.Length() == 0
    ensures SameShape(p.content, EmptyContent(cfg, level))
    ensures level >= |cfg.levels| ==> p.end == start + 1_000_000_000
    ensures level < |cfg.levels| ==> p.end == start + cfg.levels[level].duration * 1_000_000_000
  {
    var seconds := if level < |cfg.levels| then cfg.levels[level].duration else 1;
    var end := start + seconds * NANOS_PER_SECOND;
    Page(id, level, start, end, EmptyContent(cfg, level), Zero, prev, None,
         PageDigest(id, level, start, end, Zero, prev, None, None), None, None)
  }

  /** The loop that turns leaves into a net patch during rollup. */
  method PatchFromLeaves(ls: seq<Leaf>) returns (ps: PatchMap)
    ensures ps == LeavesPatch(ls)
  {
    ps := map[];
    for i := 0 to |ls|
      invariant ps == LeavesPatch(ls[..i])
    {
      var l := ls[i];
      assert DropLast(ls[..i + 1]) == ls[..i];
      if l.payload.Object? {
        ps := MergeInto(ps, map[l.container := l.payload.fields]);
      } else {
        MergeEmpty(ps);
      }
    }
    assert ls[..|ls|] == ls;
  }

  /** Rolling one finalized child into a parent page, before the parent is rehashed. */
  function Absorb(kind: ContentKind, parent: Page, child: Page): (p: Page)
    requires parent.level != 0
    requires kind != NetPatchesOnly ==> parent.content.HasHashes()
    requires kind != ChildHashes ==> parent.content.HasPatches()
    ensures SameShape(p.content, parent.content)
  {
    var withHash := if kind == NetPatchesOnly then parent else parent.AddThrallHash(child.hash, child.end);
    var ps := NetPatch(child.content);
    if kind == ChildHashes || ps == map[] then withHash else withHash.MergeNetPatches(ps, child.end)
  }

  /** What absorbing a child does to the parent's content, whatever its kind. */
  lemma AbsorbContent(kind: ContentKind, parent: Page, child: Page)
    requires parent.level != 0
    requires kind != NetPatchesOnly <==> parent.content.HasHashes()
    requires kind != ChildHashes <==> parent.content.HasPatches()
    ensures var p := Absorb(kind, parent, child);
      && ThrallList(p.content) == ThrallList(parent.content) + (if kind == NetPatchesOnly then [] else [child.hash])
      && NetPatch(p.content) == (if kind == ChildHashes then map[] else Merge(NetPatch(parent.content), NetPatch(child.content)))
  {
    if NetPatch(child.content) == map[] && kind != ChildHashes {
      MergeEmpty(NetPatch(parent.content));
    }
  }

  class PageIdGenerator {
    var counter: nat

    constructor ()
      ensures counter == 0
    {
      counter := 0;
    }

    method Next() returns (id: nat)
      modifies this
      ensures id == old(counter) && counter == old(counter) + 1
    {
      id := counter;
      counter := counter + 1;
    }

    /** Takes back the last issued id; any other id is left alone. */
    method Revert(id: nat)
      modifies this
      ensures counter == if id + 1 == old(counter) then id else old(counter)
    {
      if id + 1 == counter {
        counter := counter - 1;
      }
    }
  }
}
