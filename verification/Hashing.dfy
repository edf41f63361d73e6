/**
 JSON values and the abstract SHA-256 digest.  A digest is the free term built
 from the tuple that was hashed, so two digests are equal exactly when the hashed
 tuples are.  `External` stands for every 32-byte value that did not come out of
 one of these tuples.
 */
module Hashing {
  import opened Prelude

  type Time = int  // nanoseconds since the epoch

  datatype Json =
    | Null
    | Bool(flag: bool)
    | Number(digits: string)
    | Text(text: string)
    | Array(items: seq<Json>)
    | Object(fields: map<string, Json>)

  datatype Hash =
    | Zero
    | External(tag: string)
    | LeafDigest(leafId: nat, at: Time, parent: Option<Hash>, container: string, payload: Json)
    | PairDigest(left: Hash, right: Hash)
    | PatchDigest(path: string, value: Json)
    | PageDigest(pageId: nat, level: nat, start: Time, end: Time, root: Hash,
                 prevPage: Option<Hash>, firstChild: Option<Time>, lastChild: Option<Time>)
    | StateDigest(owner: string, state: seq<(string, Json)>, lastLeaf: Hash, lastAt: Time)
}
