/**
 * `ActiveMetadata`: the identity of the open file, its path together with the
 * digest of the bytes last loaded from or saved to it. The digest algorithm is
 * a parameter (`Hasher`); nothing here depends on which function it is.
 */
module Metadata {
  import opened Base
  import opened Files

  /** A digest value. */
  type Sum = seq<byte>

  /** A deterministic digest over a file's bytes. */
  type Hasher = Bytes -> Sum

  datatype Identity = Identity(path: Path, sum: Sum)

  /** `ActiveMetadata::new(path, data)`: the path kept verbatim, the fingerprint taken from `data`. */
  function NewIdentity(h: Hasher, path: Path, data: Bytes): (id: Identity)
    ensures id.path == path
    ensures IsSameAs(h, id, data)
  {
    Identity(path, h(data))
  }

  /** `is_same_as`: does `data` still have the recorded fingerprint? */
  predicate IsSameAs(h: Hasher, id: Identity, data: Bytes)
    // in sync: refreshing the fingerprint from `data` would change nothing
    ensures IsSameAs(h, id, data) <==> id.(sum := h(data)) == id
  {
    h(data) == id.sum
  }

  /** `set_sum`: the same file, now in sync with `data`. */
  function SetSum(h: Hasher, id: Identity, data: Bytes): (id': Identity)
    ensures id'.path == id.path
    ensures IsSameAs(h, id', data)
  {
    id.(sum := h(data))
  }

  /** `get_dir`: the directory holding the file. */
  function GetDir(id: Identity): (d: Option<Path>)
    ensures d.None? <==> id.path == []
    ensures d.Some? ==> d.value + [FileName(id.path).value] == id.path
  {
    Parent(id.path)
  }

  /**
   * After `set_sum(b1)` the identity matches `b1`, and it tells apart any content
   * whose digest differs from that of `b1`.
   */
  lemma SetSumDetectsChange(h: Hasher, id: Identity, b1: Bytes, b2: Bytes)
    requires h(b1) != h(b2)
    ensures IsSameAs(h, SetSum(h, id, b1), b1)
    ensures !IsSameAs(h, SetSum(h, id, b1), b2)
  {
  }
}
