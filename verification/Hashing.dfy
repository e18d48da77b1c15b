/** SHA-256 as an arbitrary function whose freedom from collisions is a stated hypothesis. */
module Hashing {
  import opened Json
  import opened Utf8

  /** The hexadecimal digest of a byte string. */
  type Hash = Bytes -> Str

  ghost predicate CollisionFree(hash: Hash, inPlay: set<Bytes>) {
    forall x, y :: x in inPlay && y in inPlay && hash(x) == hash(y) ==> x == y
  }
}
