/** Received writes are handed to the disk as operations: runs of full blocks that follow each other in the
    chunk become one operation, even across input buffers. */
module InputBuffers {
  import opened Common

  datatype WriteInfo = WriteInfo(block: nat, offset: nat, size: nat, writeId: nat, status: Status)

  /** What an input buffer holds: a write per block slot of its memory, with the checksum the client sent. */
  datatype Contents = Contents(infos: seq<WriteInfo>, crcs: seq<nat>, memory: seq<byte>) {
    predicate Complete() {
      |crcs| == |infos| && |infos| * BLOCK <= |memory| && forall i :: 0 <= i < |infos| ==>
          infos[i].offset + infos[i].size <= BLOCK
    }
  }

  /** A pointer into block memory is what lies behind it. */
  datatype WriteOperation = WriteOperation(
    startBlock: nat, blocksPerBuffer: seq<nat>, buffers: seq<seq<byte>>, offset: nat, size: nat, crcs: seq<nat>)
  {
    predicate FullBlocks() {
      offset == 0 && size == BLOCK
    }

    predicate Valid() {
      && |buffers| == |blocksPerBuffer| >= 1 && |crcs| == Sum(blocksPerBuffer)
      && (forall i :: 0 <= i < |buffers| ==> 1 <= blocksPerBuffer[i] && blocksPerBuffer[i] * BLOCK <= |buffers[i]|)
      && offset + size <= BLOCK && (!FullBlocks() ==> blocksPerBuffer == [1])
    }
  }

  // What operations mean.

  /** A chunk: its bytes, and a stored checksum for every block written whole. */
  datatype Disk = Disk(bytes: seq<byte>, crcs: map<nat, nat>)

  function Zeros(n: nat): (z: seq<byte>)
    ensures |z| == n
  {
    seq(n, i => 0)
  }

  /** Bytes written at a position; a gap before it reads as zeros. */
  function Patched(bytes: seq<byte>, at: nat, data: seq<byte>): (r: seq<byte>)
    ensures |r| == (if |bytes| < at + |data| then at + |data| else |bytes|)
  {
    var before := if |bytes| < at then bytes + Zeros(at - |bytes|) else bytes[..at];
    var behind := if |bytes| < at + |data| then [] else bytes[at + |data|..];
    before + data + behind
  }

  lemma {:induction false} PatchTwice(bytes: seq<byte>, at: nat, a: seq<byte>, b: seq<byte>)
    ensures Patched(Patched(bytes, at, a), at + |a|, b) == Patched(bytes, at, a + b)
  {
  }

  /** The blocks of the operation, gathered from its buffers. */
  function Gathered(buffers: seq<seq<byte>>, blocks: seq<nat>): seq<byte>
    requires |buffers| == |blocks| && forall i :: 0 <= i < |buffers| ==> blocks[i] * BLOCK <= |buffers[i]|
  {
    if buffers == [] then []
    else
      var n := |buffers| - 1;
      Gathered(buffers[..n], blocks[..n]) + buffers[n][..blocks[n] * BLOCK]
  }

  /** The checksums of consecutive blocks are stored. */
  function Checksummed(crcs: map<nat, nat>, block: nat, stored: seq<nat>): map<nat, nat>
    decreases |stored|
  {
    if stored == [] then crcs
    else
      var n := |stored| - 1;
      Checksummed(crcs, block, stored[..n])[block + n := stored[n]]
  }

  /** The disk after the operation. The checksum of a block written in part is no longer the stored one: the disk
      computes it from the bytes. */
  function Executed(disk: Disk, op: WriteOperation): Disk
    requires op.Valid()
  {
    if op.FullBlocks() then
      Disk(Patched(disk.bytes, op.startBlock * BLOCK, Gathered(op.buffers, op.blocksPerBuffer)),
          Checksummed(disk.crcs, op.startBlock, op.crcs))
    else
      Disk(Patched(disk.bytes, op.startBlock * BLOCK + op.offset, op.buffers[0][..op.size]),
          disk.crcs - {op.startBlock})
  }

  ghost predicate AllValid(ops: seq<WriteOperation>) {
    forall i :: 0 <= i < |ops| ==> ops[i].Valid()
  }

  ghost function Run(disk: Disk, ops: seq<WriteOperation>): Disk
    requires AllValid(ops)
    decreases |ops|
  {
    if ops == [] then disk else Executed(Run(disk, ops[..|ops| - 1]), ops[|ops| - 1])
  }

  /** A received write on its own. */
  function Single(c: Contents, i: nat): WriteOperation
    requires c.Complete() && i < |c.infos|
  {
    WriteOperation(c.infos[i].block, [1], [c.memory[i * BLOCK..]], c.infos[i].offset, c.infos[i].size, [c.crcs[i]])
  }

  /** All writes of the buffers, each on its own, in the order received. */
  function Singles(c: Contents, n: nat): (ops: seq<WriteOperation>)
    requires c.Complete() && n <= |c.infos|
    ensures |ops| == n && forall i :: 0 <= i < n ==> ops[i] == Single(c, i)
  {
    seq(n, i requires 0 <= i < n => Single(c, i))
  }

  function AllSingles(buffers: seq<Contents>): seq<WriteOperation>
    requires forall i :: 0 <= i < |buffers| ==> buffers[i].Complete()
  {
    if buffers == [] then []
    else AllSingles(buffers[..|buffers| - 1]) + Singles(buffers[|buffers| - 1], |buffers[|buffers| - 1].infos|)
  }

  // Merging.

  predicate Mergeable(op: WriteOperation, endBlock: nat, info: WriteInfo) {
    endBlock + 1 == info.block && op.offset == 0 && op.size == BLOCK && info.offset == 0 && info.size == BLOCK
  }

  /** A block of the same buffer lies behind the operation's last one; one of another buffer does not. */
  function Merged(op: WriteOperation, block: seq<byte>, crc: nat, sameBuffer: bool): WriteOperation
    requires op.blocksPerBuffer != []
  {
    var n := |op.blocksPerBuffer| - 1;
    if sameBuffer then op.(crcs := op.crcs + [crc],
        blocksPerBuffer := op.blocksPerBuffer[n := op.blocksPerBuffer[n] + 1])
    else op.(crcs := op.crcs + [crc], blocksPerBuffer := op.blocksPerBuffer + [1], buffers := op.buffers + [block])
  }

  lemma SumLast(counts: seq<nat>)
    requires counts != []
    ensures Sum(counts[|counts| - 1 := counts[|counts| - 1] + 1]) == Sum(counts) + 1
  {
    var n := |counts| - 1;
    assert counts[n := counts[n] + 1][..n] == counts[..n];
  }

  lemma GatherAppend(buffers: seq<seq<byte>>, blocks: seq<nat>, buffer: seq<byte>)
    requires |buffers| == |blocks| && (forall i :: 0 <= i < |buffers| ==> blocks[i] * BLOCK <= |buffers[i]|)
        && BLOCK <= |buffer|
    ensures Gathered(buffers + [buffer], blocks + [1]) == Gathered(buffers, blocks) + buffer[..BLOCK]
  {
    assert (buffers + [buffer])[..|buffers|] == buffers && (blocks + [1])[..|blocks|] == blocks;
  }

  lemma GatherLast(buffers: seq<seq<byte>>, blocks: seq<nat>)
    requires |buffers| == |blocks| >= 1 && (forall i :: 0 <= i < |buffers| ==> blocks[i] * BLOCK <= |buffers[i]|)
    requires var n := |blocks| - 1; (blocks[n] + 1) * BLOCK <= |buffers[n]|
    ensures var n := |blocks| - 1;
            Gathered(buffers, blocks[n := blocks[n] + 1])
                == Gathered(buffers, blocks) + buffers[n][blocks[n] * BLOCK..(blocks[n] + 1) * BLOCK]
  {
    var n := |blocks| - 1;
    var blocks' := blocks[n := blocks[n] + 1];
    assert blocks'[..n] == blocks[..n];
    assert buffers[n][..(blocks[n] + 1) * BLOCK]
        == buffers[n][..blocks[n] * BLOCK] + buffers[n][blocks[n] * BLOCK..(blocks[n] + 1) * BLOCK];
  }

  lemma {:induction false} GatherLength(buffers: seq<seq<byte>>, blocks: seq<nat>)
    requires |buffers| == |blocks| && forall i :: 0 <= i < |buffers| ==> blocks[i] * BLOCK <= |buffers[i]|
    ensures |Gathered(buffers, blocks)| == Sum(blocks) * BLOCK
  {
    if buffers != [] {
      GatherLength(buffers[..|buffers| - 1], blocks[..|blocks| - 1]);
    }
  }

  lemma ChecksumTwice(crcs: map<nat, nat>, block: nat, a: seq<nat>, crc: nat)
    ensures Checksummed(Checksummed(crcs, block, a), block + |a|, [crc]) == Checksummed(crcs, block, a + [crc])
  {
    assert (a + [crc])[..|a|] == a;
  }

  /** The block that a merge adds is the one that follows in the chunk and lies behind the last one in memory. */
  ghost predicate Follows(op: WriteOperation, single: WriteOperation, sameBuffer: bool) {
    && op.Valid() && single.Valid() && op.FullBlocks() && single.FullBlocks()
        && op.startBlock + Sum(op.blocksPerBuffer) == single.startBlock
    && |single.crcs| == 1
    && var n := |op.blocksPerBuffer| - 1;
       sameBuffer ==>
         && (op.blocksPerBuffer[n] + 1) * BLOCK <= |op.buffers[n]|
         && op.buffers[n][op.blocksPerBuffer[n] * BLOCK..(op.blocksPerBuffer[n] + 1) * BLOCK]
             == single.buffers[0][..BLOCK]
  }

  lemma MergedIsValid(op: WriteOperation, single: WriteOperation, sameBuffer: bool)
    requires Follows(op, single, sameBuffer) && single.blocksPerBuffer == [1]
    ensures var m := Merged(op, single.buffers[0], single.crcs[0], sameBuffer);
            && m.Valid() && m.FullBlocks() && m.startBlock == op.startBlock
                && Sum(m.blocksPerBuffer) == Sum(op.blocksPerBuffer) + 1
            && Gathered(m.buffers, m.blocksPerBuffer)
                == Gathered(op.buffers, op.blocksPerBuffer) + single.buffers[0][..BLOCK]
  {
    hide Sum, Gathered;
    if sameBuffer {
      SumLast(op.blocksPerBuffer);
      GatherLast(op.buffers, op.blocksPerBuffer);
    } else {
      SumAppend(op.blocksPerBuffer, 1);
      GatherAppend(op.buffers, op.blocksPerBuffer, single.buffers[0]);
    }
  }

  /** Executing the merged operation is executing the operation and then the block. */
  lemma MergeKeepsMeaning(disk: Disk, op: WriteOperation, single: WriteOperation, sameBuffer: bool)
    requires Follows(op, single, sameBuffer) && single.blocksPerBuffer == [1]
    ensures var m := Merged(op, single.buffers[0], single.crcs[0], sameBuffer);
            m.Valid() && Executed(disk, m) == Executed(Executed(disk, op), single)
  {
    hide Gathered, Sum, Checksummed, Patched;
    MergedIsValid(op, single, sameBuffer);
    GatherLength(op.buffers, op.blocksPerBuffer);
    GatherOne(single.buffers[0]);
    PatchTwice(disk.bytes, op.startBlock * BLOCK, Gathered(op.buffers, op.blocksPerBuffer), single.buffers[0][..BLOCK]);
    ChecksumTwice(disk.crcs, op.startBlock, op.crcs, single.crcs[0]);
    assert single.buffers == [single.buffers[0]] && single.crcs == [single.crcs[0]];
  }

  lemma GatherOne(buffer: seq<byte>)
    requires BLOCK <= |buffer|
    ensures Gathered([buffer], [1]) == buffer[..BLOCK]
  {
    GatherAppend([], [], buffer);
    assert [] + [buffer] == [buffer] && [] + [1] == [1];
  }

  ghost predicate SameEffect(a: seq<WriteOperation>, b: seq<WriteOperation>) {
    AllValid(a) && AllValid(b) && forall disk :: Run(disk, a) == Run(disk, b)
  }

  lemma AppendSameEffect(a: seq<WriteOperation>, b: seq<WriteOperation>, op: WriteOperation)
    requires SameEffect(a, b) && op.Valid()
    ensures SameEffect(a + [op], b + [op])
  {
    forall disk
      ensures Run(disk, a + [op]) == Run(disk, b + [op])
    {
      assert (a + [op])[..|a|] == a && (b + [op])[..|b|] == b;
    }
  }

  lemma RunLast(disk: Disk, a: seq<WriteOperation>)
    requires AllValid(a) && a != []
    ensures AllValid(a[..|a| - 1]) && a[|a| - 1].Valid()
        && Run(disk, a) == Executed(Run(disk, a[..|a| - 1]), a[|a| - 1])
  {
  }

  lemma ValidWith(a: seq<WriteOperation>, op: WriteOperation)
    requires AllValid(a) && a != [] && op.Valid()
    ensures AllValid(a[|a| - 1 := op]) && a[|a| - 1 := op][..|a| - 1] == a[..|a| - 1]
  {
  }

  lemma RunMerged(disk: Disk, a: seq<WriteOperation>, single: WriteOperation, sameBuffer: bool)
    requires AllValid(a) && a != [] && Follows(a[|a| - 1], single, sameBuffer) && single.blocksPerBuffer == [1]
    ensures var m := Merged(a[|a| - 1], single.buffers[0], single.crcs[0], sameBuffer);
            m.Valid() && AllValid(a[|a| - 1 := m]) && Run(disk, a[|a| - 1 := m]) == Executed(Run(disk, a), single)
  {
    var n := |a| - 1;
    assert single.Valid();
    MergedIsValid(a[n], single, sameBuffer);
    hide Executed, Follows, Gathered, Sum, Merged, WriteOperation.Valid, AllValid, Run;
    var m := Merged(a[n], single.buffers[0], single.crcs[0], sameBuffer);
    RunLast(disk, a);
    ValidWith(a, m);
    RunLast(disk, a[n := m]);
    MergeKeepsMeaning(Run(disk, a[..n]), a[n], single, sameBuffer);
  }

  lemma RunAppended(disk: Disk, b: seq<WriteOperation>, op: WriteOperation)
    requires AllValid(b) && op.Valid()
    ensures AllValid(b + [op]) && Run(disk, b + [op]) == Executed(Run(disk, b), op)
  {
    assert (b + [op])[..|b|] == b;
  }

  lemma MergeSameEffect(a: seq<WriteOperation>, b: seq<WriteOperation>, single: WriteOperation, sameBuffer: bool)
    requires SameEffect(a, b) && a != [] && Follows(a[|a| - 1], single, sameBuffer) && single.blocksPerBuffer == [1]
    ensures SameEffect(a[|a| - 1 := Merged(a[|a| - 1], single.buffers[0], single.crcs[0], sameBuffer)], b + [single])
  {
    assert single.Valid();
    hide Executed, Follows, Merged, WriteOperation.Valid, AllValid, Run;
    RunMerged(Disk([], map[]), a, single, sameBuffer);
    RunAppended(Disk([], map[]), b, single);
    var m := Merged(a[|a| - 1], single.buffers[0], single.crcs[0], sameBuffer);
    forall disk
      ensures Run(disk, a[|a| - 1 := m]) == Run(disk, b + [single])
    {
      RunMerged(disk, a, single, sameBuffer);
      RunAppended(disk, b, single);
    }
  }

  // Which writes an operation stands for.

  /** The write is the operation's block at the index. */
  ghost predicate IsBlockOf(op: WriteOperation, single: WriteOperation, i: nat)
    requires op.Valid()
  {
    && single.Valid() && single.FullBlocks() && single.blocksPerBuffer == [1] && single.startBlock == op.startBlock + i
    && var bytes := Gathered(op.buffers, op.blocksPerBuffer);
       (i + 1) * BLOCK <= |bytes| && single.buffers[0][..BLOCK] == bytes[i * BLOCK..(i + 1) * BLOCK]
  }

  ghost predicate MergeOf(op: WriteOperation, group: seq<WriteOperation>) {
    && op.Valid() && |group| == Sum(op.blocksPerBuffer)
    && if op.FullBlocks() then forall i :: 0 <= i < |group| ==> IsBlockOf(op, group[i], i) else group == [op]
  }

  /** The operations stand for the writes in order, each for as many as it has blocks. */
  ghost predicate Grouped(ops: seq<WriteOperation>, singles: seq<WriteOperation>)
    decreases |ops|
  {
    if ops == [] then singles == []
    else
      var op, n := ops[|ops| - 1], |singles| - Sum(ops[|ops| - 1].blocksPerBuffer);
      n >= 0 && MergeOf(op, singles[n..]) && Grouped(ops[..|ops| - 1], singles[..n])
  }

  lemma SingleIsGroup(c: Contents, i: nat)
    requires c.Complete() && i < |c.infos|
    ensures MergeOf(Single(c, i), [Single(c, i)])
  {
    hide Gathered;
    SingleIsValid(c, i);
    GatherOne(c.memory[i * BLOCK..]);
  }

  lemma GroupAppended(ops: seq<WriteOperation>, singles: seq<WriteOperation>, single: WriteOperation)
    requires Grouped(ops, singles) && MergeOf(single, [single]) && Sum(single.blocksPerBuffer) == 1
    ensures Grouped(ops + [single], singles + [single])
  {
    hide MergeOf;
    var all := singles + [single];
    assert (ops + [single])[..|ops|] == ops && all[..|singles|] == singles && all[|singles|..] == [single];
  }

  lemma MergedIsGroup(op: WriteOperation, group: seq<WriteOperation>, single: WriteOperation, sameBuffer: bool)
    requires MergeOf(op, group) && Follows(op, single, sameBuffer) && single.blocksPerBuffer == [1]
    ensures MergeOf(Merged(op, single.buffers[0], single.crcs[0], sameBuffer), group + [single])
  {
    hide Gathered, Sum, Merged;
    MergedIsValid(op, single, sameBuffer);
    GatherLength(op.buffers, op.blocksPerBuffer);
    var m, bytes := Merged(op, single.buffers[0], single.crcs[0], sameBuffer), Gathered(op.buffers, op.blocksPerBuffer);
    forall i | 0 <= i <= |group|
      ensures IsBlockOf(m, (group + [single])[i], i)
    {
      if i < |group| {
        assert IsBlockOf(op, group[i], i);
        Within(bytes, single.buffers[0][..BLOCK], i);
      } else {
        assert (bytes + single.buffers[0][..BLOCK])[i * BLOCK..(i + 1) * BLOCK] == single.buffers[0][..BLOCK];
      }
    }
  }

  lemma Within(a: seq<byte>, b: seq<byte>, i: nat)
    requires (i + 1) * BLOCK <= |a|
    ensures (a + b)[i * BLOCK..(i + 1) * BLOCK] == a[i * BLOCK..(i + 1) * BLOCK]
  {
  }

  lemma GroupMerged(ops: seq<WriteOperation>, singles: seq<WriteOperation>, single: WriteOperation, sameBuffer: bool)
    requires Grouped(ops, singles) && ops != [] && Follows(ops[|ops| - 1], single, sameBuffer)
        && single.blocksPerBuffer == [1]
    ensures Grouped(ops[|ops| - 1 := Merged(ops[|ops| - 1], single.buffers[0], single.crcs[0], sameBuffer)],
        singles + [single])
  {
    hide MergeOf, Merged, Sum;
    var k := |ops| - 1;
    var n := |singles| - Sum(ops[k].blocksPerBuffer);
    var m := Merged(ops[k], single.buffers[0], single.crcs[0], sameBuffer);
    MergedIsGroup(ops[k], singles[n..], single, sameBuffer);
    MergedIsValid(ops[k], single, sameBuffer);
    assert ops[k := m][..k] == ops[..k];
    assert (singles + [single])[n..] == singles[n..] + [single] && (singles + [single])[..n] == singles[..n];
  }

  function CountBlocks(ops: seq<WriteOperation>): nat {
    if ops == [] then 0 else CountBlocks(ops[..|ops| - 1]) + Sum(ops[|ops| - 1].blocksPerBuffer)
  }

  function CountInfos(buffers: seq<Contents>): nat {
    if buffers == [] then 0 else CountInfos(buffers[..|buffers| - 1]) + |buffers[|buffers| - 1].infos|
  }

  /** The last operation ends at `endBlock`, and in the buffer at hand right before slot `i`. */
  ghost predicate EndsAt(op: WriteOperation, endBlock: nat, c: Contents, i: nat) {
    && op.Valid() && (op.FullBlocks() ==> op.startBlock + Sum(op.blocksPerBuffer) == endBlock + 1)
    && var n := |op.blocksPerBuffer| - 1;
       i > 0 ==>
         && op.blocksPerBuffer[n] <= i && i * BLOCK <= |c.memory|
         && op.buffers[n] == c.memory[(i - op.blocksPerBuffer[n]) * BLOCK..]
  }

  lemma NextFollows(op: WriteOperation, endBlock: nat, c: Contents, i: nat)
    requires c.Complete() && i < |c.infos| && EndsAt(op, endBlock, c, i) && Mergeable(op, endBlock, c.infos[i])
    ensures Follows(op, Single(c, i), i > 0)
  {
    var single := Single(c, i);
    assert (i + 1) * BLOCK <= |c.memory|;
    assert Sum([1]) == 1;
    if i > 0 {
      var n := |op.blocksPerBuffer| - 1;
      Slices(c.memory, i, op.blocksPerBuffer[n]);
    }
  }

  lemma Slices(memory: seq<byte>, i: nat, n: nat)
    requires n <= i && (i + 1) * BLOCK <= |memory|
    ensures var p := memory[(i - n) * BLOCK..];
            (n + 1) * BLOCK <= |p| && p[n * BLOCK..(n + 1) * BLOCK] == memory[i * BLOCK..][..BLOCK]
  {
  }

  lemma CountUpdate(ops: seq<WriteOperation>, op: WriteOperation)
    requires ops != []
    ensures CountBlocks(ops[|ops| - 1 := op])
        == CountBlocks(ops) - Sum(ops[|ops| - 1].blocksPerBuffer) + Sum(op.blocksPerBuffer)
  {
    assert ops[|ops| - 1 := op][..|ops| - 1] == ops[..|ops| - 1];
  }

  lemma CountAppend(ops: seq<WriteOperation>, op: WriteOperation)
    ensures CountBlocks(ops + [op]) == CountBlocks(ops) + Sum(op.blocksPerBuffer)
  {
    assert (ops + [op])[..|ops|] == ops;
  }

  /** One more write: merged into the last operation, or an operation of its own. */
  method AddWrite(ops: seq<WriteOperation>, endBlock: nat, c: Contents, i: nat, ghost before: seq<WriteOperation>)
    returns (ops': seq<WriteOperation>, endBlock': nat)
    requires c.Complete() && i < |c.infos| && SameEffect(ops, before)
        && (ops != [] ==> EndsAt(ops[|ops| - 1], endBlock, c, i))
    requires Grouped(ops, before) && (i > 0 ==> ops != [])
    ensures Grouped(ops', before + [Single(c, i)])
    ensures SameEffect(ops', before + [Single(c, i)]) && ops' != [] && EndsAt(ops'[|ops'| - 1], endBlock', c, i + 1)
    ensures CountBlocks(ops') == CountBlocks(ops) + 1
  {
    hide SameEffect, CountBlocks, Gathered, Grouped, MergeOf;
    var info, pointer, crc := c.infos[i], c.memory[i * BLOCK..], c.crcs[i];
    ghost var single := Single(c, i);
    SingleIsValid(c, i);
    if ops != [] && Mergeable(ops[|ops| - 1], endBlock, info) {
      NextFollows(ops[|ops| - 1], endBlock, c, i);
      MergeSameEffect(ops, before, single, i > 0);
      GroupMerged(ops, before, single, i > 0);
      MergedIsValid(ops[|ops| - 1], single, i > 0);
      var op := Merged(ops[|ops| - 1], pointer, crc, i > 0);
      CountUpdate(ops, op);
      ops', endBlock' := ops[|ops| - 1 := op], endBlock + 1;
      MergedEnds(ops[|ops| - 1], endBlock, c, i);
    } else {
      AppendSameEffect(ops, before, single);
      SingleIsGroup(c, i);
      GroupAppended(ops, before, single);
      CountAppend(ops, single);
      ops', endBlock' := ops + [WriteOperation(info.block, [1], [pointer], info.offset, info.size, [crc])], info.block;
      SingleEnds(c, i);
    }
  }

  lemma SingleIsValid(c: Contents, i: nat)
    requires c.Complete() && i < |c.infos|
    ensures Single(c, i).Valid() && Sum(Single(c, i).blocksPerBuffer) == 1
  {
    assert (i + 1) * BLOCK <= |c.memory|;
    assert Sum([1]) == 1;
  }

  lemma SingleEnds(c: Contents, i: nat)
    requires c.Complete() && i < |c.infos|
    ensures EndsAt(Single(c, i), c.infos[i].block, c, i + 1)
  {
    SingleIsValid(c, i);
    assert (i + 1) * BLOCK <= |c.memory|;
  }

  lemma MergedEnds(op: WriteOperation, endBlock: nat, c: Contents, i: nat)
    requires c.Complete() && i < |c.infos| && EndsAt(op, endBlock, c, i) && Mergeable(op, endBlock, c.infos[i])
    ensures EndsAt(Merged(op, c.memory[i * BLOCK..], c.crcs[i], i > 0), endBlock + 1, c, i + 1)
  {
    hide Gathered, Sum;
    NextFollows(op, endBlock, c, i);
    MergedIsValid(op, Single(c, i), i > 0);
    assert (i + 1) * BLOCK <= |c.memory|;
  }

  /** The operations to perform for the buffers: they do to any disk what the writes do one by one, in the order
      received, and account for every block. */
  method GetWriteOperations(buffers: seq<Contents>) returns (ops: seq<WriteOperation>, totalBlocks: nat)
    requires forall k :: 0 <= k < |buffers| ==> buffers[k].Complete()
    ensures SameEffect(ops, AllSingles(buffers)) && Grouped(ops, AllSingles(buffers))
    ensures totalBlocks == CountInfos(buffers) == CountBlocks(ops)
  {
    hide SameEffect, EndsAt, WriteOperation.Valid, CountBlocks, Grouped;
    ops, totalBlocks := [], 0;
    var endBlock, k := 0, 0;
    NothingYet();
    while k < |buffers|
      invariant 0 <= k <= |buffers| && SameEffect(ops, AllSingles(buffers[..k]))
          && Grouped(ops, AllSingles(buffers[..k]))
      invariant totalBlocks == CountInfos(buffers[..k]) == CountBlocks(ops)
      invariant ops != [] ==> EndsAt(ops[|ops| - 1], endBlock, Contents([], [], []), 0)
    {
      var c := buffers[k];
      ghost var done := AllSingles(buffers[..k]);
      if ops != [] {
        AnyBuffer(ops[|ops| - 1], endBlock, c);
      }
      var i := 0;
      assert done + Singles(c, 0) == done;
      while i < |c.infos|
        invariant 0 <= i <= |c.infos| && SameEffect(ops, done + Singles(c, i)) && (i > 0 ==> ops != [])
        invariant Grouped(ops, done + Singles(c, i))
        invariant totalBlocks == CountInfos(buffers[..k]) + i == CountBlocks(ops)
        invariant ops != [] ==> EndsAt(ops[|ops| - 1], endBlock, c, i)
      {
        totalBlocks := totalBlocks + 1;
        ops, endBlock := AddWrite(ops, endBlock, c, i, done + Singles(c, i));
        assert done + Singles(c, i) + [Single(c, i)] == done + Singles(c, i + 1);
        i := i + 1;
      }
      assert buffers[..k + 1][..k] == buffers[..k];
      if ops != [] {
        BufferBehind(ops[|ops| - 1], endBlock, c, i);
      }
      k := k + 1;
    }
    assert buffers[..k] == buffers;
  }

  lemma NothingYet()
    ensures SameEffect([], []) && Grouped([], []) && CountBlocks([]) == 0
  {
  }

  lemma AnyBuffer(op: WriteOperation, endBlock: nat, c: Contents)
    requires EndsAt(op, endBlock, Contents([], [], []), 0)
    ensures EndsAt(op, endBlock, c, 0)
  {
  }

  lemma BufferBehind(op: WriteOperation, endBlock: nat, c: Contents, i: nat)
    requires EndsAt(op, endBlock, c, i)
    ensures EndsAt(op, endBlock, Contents([], [], []), 0)
  {
  }
}
