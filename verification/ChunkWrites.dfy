/** Writes to a chunk and what a reader sees after them, byte by byte. */
module ChunkWrites {
  import opened Common
  import opened InputBuffers

  /** A write: where it starts in the chunk and its bytes. */
  datatype Write = Write(start: nat, bytes: seq<byte>) {
    predicate Covers(position: nat) {
      start <= position < start + |bytes|
    }

    /** It lies in one block of the chunk. */
    predicate InOneBlock() {
      start % BLOCK + |bytes| <= BLOCK
    }
  }

  /** What a reader must see at a position: the last write over it, or else what the disk holds. */
  function Newest(writes: seq<Write>, position: nat, onDisk: byte): byte
    decreases |writes|
  {
    if writes == [] then onDisk
    else
      var w := writes[|writes| - 1];
      if w.Covers(position) then w.bytes[position - w.start] else Newest(writes[..|writes| - 1], position, onDisk)
  }

  lemma NewestAppend(writes: seq<Write>, w: Write, position: nat, onDisk: byte)
    ensures Newest(writes + [w], position, onDisk)
         == if w.Covers(position) then w.bytes[position - w.start] else Newest(writes, position, onDisk)
  {
    assert (writes + [w])[..|writes|] == writes;
  }

  lemma {:induction false} Uncovered(writes: seq<Write>, position: nat, onDisk: byte)
    requires forall j :: 0 <= j < |writes| ==> !writes[j].Covers(position)
    ensures Newest(writes, position, onDisk) == onDisk
    decreases |writes|
  {
    if writes != [] {
      Uncovered(writes[..|writes| - 1], position, onDisk);
    }
  }

  /** While a write is registered, it does not matter to a reader how much of it is on the disk. */
  lemma {:induction false} DiskUnderWritesIsUnseen(writes: seq<Write>, position: nat, before: byte, after: byte)
    requires (forall j :: 0 <= j < |writes| ==> !writes[j].Covers(position)) ==> after == before
    ensures Newest(writes, position, after) == Newest(writes, position, before)
    decreases |writes|
  {
    if writes != [] {
      var n := |writes| - 1;
      if !writes[n].Covers(position) {
        assert (forall j :: 0 <= j < n ==> !writes[..n][j].Covers(position)) ==> forall j :: 0 <= j < |writes| ==>
            !writes[j].Covers(position);
        DiskUnderWritesIsUnseen(writes[..n], position, before, after);
      }
    }
  }

  /** Once the oldest writes are on the disk they can be taken out of the registry: a reader sees the same. */
  lemma {:induction false} RemovalIsUnseen(first: seq<Write>, rest: seq<Write>, position: nat, base: byte)
    ensures Newest(rest, position, Newest(first, position, base)) == Newest(first + rest, position, base)
    decreases |rest|
  {
    if rest == [] {
      assert first + rest == first;
    } else {
      var n := |rest| - 1;
      RemovalIsUnseen(first, rest[..n], position, base);
      assert (first + rest)[..|first| + n] == first + rest[..n];
    }
  }

  function ByteAt(bytes: seq<byte>, position: nat): byte {
    if position < |bytes| then bytes[position] else 0
  }

  lemma PatchedAt(bytes: seq<byte>, w: Write, position: nat)
    ensures ByteAt(Patched(bytes, w.start, w.bytes), position) == if w.Covers(position)
        then w.bytes[position - w.start] else ByteAt(bytes, position)
  {
  }

  // Operations as writes.

  predicate IsSingle(op: WriteOperation) {
    op.Valid() && op.blocksPerBuffer == [1]
  }

  function WriteBy(op: WriteOperation): Write
    requires IsSingle(op)
  {
    Write(op.startBlock * BLOCK + op.offset, op.buffers[0][..op.size])
  }

  ghost predicate AllSingle(ops: seq<WriteOperation>) {
    forall i :: 0 <= i < |ops| ==> IsSingle(ops[i])
  }

  ghost function WritesBy(ops: seq<WriteOperation>): (writes: seq<Write>)
    requires AllSingle(ops)
    ensures |writes| == |ops| && forall i :: 0 <= i < |ops| ==> writes[i] == WriteBy(ops[i])
  {
    seq(|ops|, i requires 0 <= i < |ops| => WriteBy(ops[i]))
  }

  lemma JoinSingles(a: seq<WriteOperation>, b: seq<WriteOperation>)
    requires AllSingle(a) && AllSingle(b)
    ensures AllSingle(a + b) && WritesBy(a + b) == WritesBy(a) + WritesBy(b)
  {
  }

  lemma LastSingles(all: seq<Contents>)
    requires all != [] && forall k :: 0 <= k < |all| ==> all[k].Complete()
    requires var n := |all| - 1;
             && AllSingle(AllSingles(all[..n]))
             && AllSingle(Singles(all[n], |all[n].infos|))
    ensures var n := |all| - 1;
            && AllSingle(AllSingles(all))
            && WritesBy(AllSingles(all))
               == WritesBy(AllSingles(all[..n])) + WritesBy(Singles(all[n], |all[n].infos|))
  {
    hide AllSingle, Singles, Contents.Complete;
    var n := |all| - 1;
    JoinSingles(AllSingles(all[..n]), Singles(all[n], |all[n].infos|));
  }

  lemma ExecutedWrites(disk: Disk, op: WriteOperation)
    requires IsSingle(op)
    ensures Executed(disk, op).bytes == Patched(disk.bytes, WriteBy(op).start, WriteBy(op).bytes)
  {
    hide Gathered, Patched, Sum;
    if op.FullBlocks() {
      GatherOne(op.buffers[0]);
      assert op.buffers == [op.buffers[0]];
    }
  }

  /** Performing writes one by one leaves at every position the last one over it. */
  lemma {:induction false} RunLeavesNewest(disk: Disk, ops: seq<WriteOperation>, position: nat)
    requires AllSingle(ops)
    ensures AllValid(ops) && ByteAt(Run(disk, ops).bytes, position)
        == Newest(WritesBy(ops), position, ByteAt(disk.bytes, position))
    decreases |ops|
  {
    if ops != [] {
      hide Executed, Patched;
      var n := |ops| - 1;
      RunLeavesNewest(disk, ops[..n], position);
      assert WritesBy(ops)[..n] == WritesBy(ops[..n]);
      ExecutedWrites(Run(disk, ops[..n]), ops[n]);
      PatchedAt(Run(disk, ops[..n]).bytes, WriteBy(ops[n]), position);
    }
  }
}
