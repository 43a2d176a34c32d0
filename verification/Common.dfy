/** Small vocabulary shared by the chunkserver models. */
module Common {

  datatype Option<+T> = None | Some(value: T)

  /** A SAUNAFS_STATUS_* or SAUNAFS_ERROR_* code. */
  type Status = nat

  const OK: Status := 0
  const EINVAL: Status := 6
  const NOTDONE: Status := 16
  const WRONGVERSION: Status := 19
  const CHUNKEXIST: Status := 20
  const NOSPACE: Status := 21
  const IO: Status := 22
  const WRONGSIZE: Status := 24

  /** The number of metadata server connections a chunkserver keeps, kMaxMetadataConnections. */
  const MAX_CONNECTIONS: nat := 64

  newtype byte = x: int | 0 <= x < 256

  /** The size of a chunk block, SFSBLOCKSIZE. */
  const BLOCK: nat := 65536

  ghost predicate Distinct<T(!new)>(s: seq<T>) {
    forall i, j :: 0 <= i < j < |s| ==> s[i] != s[j]
  }

  function Min(a: nat, b: nat): nat {
    if a < b then a else b
  }

  function Max(a: nat, b: nat): nat {
    if a < b then b else a
  }

  function Sum(counts: seq<nat>): nat {
    if counts == [] then 0 else Sum(counts[..|counts| - 1]) + counts[|counts| - 1]
  }

  lemma SumAppend(counts: seq<nat>, n: nat)
    ensures Sum(counts + [n]) == Sum(counts) + n
  {
    assert (counts + [n])[..|counts|] == counts;
  }

  lemma {:induction false} SumFirst(counts: seq<nat>)
    requires counts != []
    ensures Sum(counts) == counts[0] + Sum(counts[1..])
  {
    var n := |counts| - 1;
    if n > 0 {
      SumFirst(counts[..n]);
      assert counts[..n][1..] == counts[1..][..n - 1];
    }
  }

  /** The first bytes of a block slot, read from its start. */
  lemma SlotPrefix(memory: seq<byte>, i: nat, size: nat)
    requires (i + 1) * BLOCK <= |memory| && size <= BLOCK
    ensures BLOCK <= |memory[i * BLOCK..]|
    ensures memory[i * BLOCK..i * BLOCK + size] == memory[i * BLOCK..][..size]
    ensures memory[i * BLOCK..i * BLOCK + size] == memory[i * BLOCK..(i + 1) * BLOCK][..size]
  {
  }

  lemma Regroup<T>(a: seq<T>, b: seq<T>, c: seq<T>)
    ensures a + (b + c) == (a + b) + c
  {
  }
}
