/** The write job: it performs the operations of its buffers until one fails and reports a status per block. */
module WriteJobs {
  import opened Common
  import opened InputBuffers
  import opened ChunkWrites

  /** What the disk answers to an operation: for full blocks the bytes written or an error, else a status. */
  datatype DiskResult = BytesWritten(count: nat) | WriteError(status: Status) | BlockStatus(status: Status)

  const MAX_BLOCKS: nat := 65535

  /** The answers the disk can give. */
  predicate Possible(op: WriteOperation, result: DiskResult) {
    if op.FullBlocks() then
      (result.BytesWritten? && result.count <= Sum(op.blocksPerBuffer) * BLOCK)
          || (result.WriteError? && result.status != OK)
    else result.BlockStatus?
  }

  /** The blocks of the operation that the disk has, and whether it has them all. An operation of size zero has
      nothing to write. */
  function BlocksDone(op: WriteOperation, result: DiskResult): nat
    requires op.Valid() && Possible(op, result)
  {
    if op.size == 0 then 1
    else if !op.FullBlocks() then (if result.status == OK then 1 else 0)
    else if Sum(op.blocksPerBuffer) > MAX_BLOCKS || result.WriteError? then 0
    else result.count / BLOCK
  }

  predicate Succeeds(op: WriteOperation, result: DiskResult)
    requires op.Valid() && Possible(op, result)
  {
    BlocksDone(op, result) == Sum(op.blocksPerBuffer)
  }

  /** OK for the first blocks and an error for every other. */
  ghost predicate Report(statuses: seq<Status>, written: nat) {
    && written <= |statuses|
    && (forall i :: 0 <= i < written ==> statuses[i] == OK)
    && (forall i :: written <= i < |statuses| ==> statuses[i] != OK)
  }

  function Repeat(status: Status, n: nat): (s: seq<Status>)
    ensures |s| == n && forall i :: 0 <= i < n ==> s[i] == status
  {
    seq(n, i => status)
  }

  lemma DoneIsBounded(op: WriteOperation, result: DiskResult)
    requires op.Valid() && Possible(op, result)
    ensures BlocksDone(op, result) <= Sum(op.blocksPerBuffer) && 1 <= Sum(op.blocksPerBuffer)
  {
    SumPositive(op.blocksPerBuffer);
    if !op.FullBlocks() {
      assert Sum([1]) == 1;
    }
  }

  lemma {:induction false} SumPositive(counts: seq<nat>)
    requires counts != [] && forall i :: 0 <= i < |counts| ==> counts[i] >= 1
    ensures Sum(counts) >= 1
  {
  }

  /** The error of an operation that did not succeed. */
  function ErrorOf(op: WriteOperation, result: DiskResult): Status
    requires op.Valid() && Possible(op, result)
  {
    if !op.FullBlocks() then result.status
    else if Sum(op.blocksPerBuffer) > MAX_BLOCKS then EINVAL
    else if result.WriteError? then result.status
    else IO
  }

  /** The statuses one operation contributes, and whether the job goes on. */
  method Perform(op: WriteOperation, result: DiskResult) returns (statuses: seq<Status>, goOn: bool)
    requires op.Valid() && Possible(op, result)
    ensures goOn == Succeeds(op, result)
    ensures statuses == Repeat(OK, BlocksDone(op, result))
        || (|statuses| == BlocksDone(op, result) + 1 && Report(statuses, BlocksDone(op, result)))
    ensures goOn <==> |statuses| == BlocksDone(op, result)
    ensures !goOn ==> statuses != [] && statuses[|statuses| - 1] == ErrorOf(op, result)
  {
    DoneIsBounded(op, result);
    if op.size == 0 {
      assert op.blocksPerBuffer == [1] && Sum([1]) == 1;
      return [OK], true;
    }
    if op.offset == 0 && op.size == BLOCK {
      var numBlocks, k := 0, 0;
      while k < |op.blocksPerBuffer|
        invariant 0 <= k <= |op.blocksPerBuffer| && numBlocks == Sum(op.blocksPerBuffer[..k])
      {
        assert op.blocksPerBuffer[..k + 1][..k] == op.blocksPerBuffer[..k];
        numBlocks := numBlocks + op.blocksPerBuffer[k];
        k := k + 1;
      }
      assert op.blocksPerBuffer[..k] == op.blocksPerBuffer;
      if numBlocks > MAX_BLOCKS {
        return [EINVAL], false;
      }
      if result.WriteError? {
        return [result.status], false;
      }
      if result.count != numBlocks * BLOCK {
        return Repeat(OK, result.count / BLOCK) + [IO], false;
      }
      return Repeat(OK, numBlocks), true;
    }
    assert op.blocksPerBuffer == [1] && Sum([1]) == 1;
    statuses, goOn := [result.status], result.status == OK;
  }

  // The disk.

  /** The writes of an operation, block by block. */
  ghost function OperationWrites(op: WriteOperation): (writes: seq<Write>)
    requires op.Valid()
    ensures |writes| == Sum(op.blocksPerBuffer)
  {
    if op.FullBlocks() then
      GatherLength(op.buffers, op.blocksPerBuffer);
      var bytes := Gathered(op.buffers, op.blocksPerBuffer);
      seq(Sum(op.blocksPerBuffer), i requires 0 <= i < Sum(op.blocksPerBuffer) =>
        Write((op.startBlock + i) * BLOCK, bytes[i * BLOCK..(i + 1) * BLOCK]))
    else
      assert Sum([1]) == 1;
      [Write(op.startBlock * BLOCK + op.offset, op.buffers[0][..op.size])]
  }

  /** The disk has the first `written` writes, whatever it made of those up to `touched`, and no later one. */
  ghost predicate Settles(writes: seq<Write>, written: nat, touched: nat, before: Disk, after: Disk)
    requires written <= touched <= |writes|
  {
    forall p: nat :: (forall i :: written <= i < touched ==> !writes[i].Covers(p)) ==>
      ByteAt(after.bytes, p) == Newest(writes[..written], p, ByteAt(before.bytes, p))
  }

  /** What the disk answers to an operation, and what it is then. */
  datatype Answer = Answer(result: DiskResult, after: Disk)

  ghost predicate Fits(op: WriteOperation, before: Disk, answer: Answer)
    requires op.Valid()
  {
    && Possible(op, answer.result)
    && BlocksDone(op, answer.result) <= Sum(op.blocksPerBuffer)
    && Settles(OperationWrites(op), BlocksDone(op, answer.result), Sum(op.blocksPerBuffer), before, answer.after)
  }

  /** A disk that performs every operation it is called for whole. */
  function PerfectDisk(i: nat, op: WriteOperation, disk: Disk): Answer {
    if !op.Valid() then Answer(WriteError(EINVAL), disk)
    else if TooMany(op) then Answer(WriteError(EINVAL), disk)
    else if op.FullBlocks() then Answer(BytesWritten(Sum(op.blocksPerBuffer) * BLOCK), Executed(disk, op))
    else Answer(BlockStatus(OK), Executed(disk, op))
  }

  /** Its answers are among those the job is proved for, and it fails only operations with too many blocks. */
  lemma PerfectDiskFits(i: nat, op: WriteOperation, disk: Disk)
    requires op.Valid()
    ensures Fits(op, disk, PerfectDisk(i, op, disk))
    ensures Succeeds(op, PerfectDisk(i, op, disk).result) <==> !TooMany(op)
  {
    DoneIsBounded(op, PerfectDisk(i, op, disk).result);
    if TooMany(op) {
      UncalledFits(op, WriteError(EINVAL), disk);
    } else if op.FullBlocks() {
      FullBlocksFit(op, disk);
    } else {
      hide Patched;
      assert IsSingle(op) && Sum([1]) == 1;
      ExecutedWrites(disk, op);
      assert OperationWrites(op)[..1] == OperationWrites(op) == [WriteBy(op)];
      forall p: nat
        ensures ByteAt(Executed(disk, op).bytes, p) == Newest(OperationWrites(op), p, ByteAt(disk.bytes, p))
      {
        PatchedAt(disk.bytes, WriteBy(op), p);
        NewestAppend([], WriteBy(op), p, ByteAt(disk.bytes, p));
        assert [] + [WriteBy(op)] == [WriteBy(op)];
      }
    }
  }

  lemma FullBlocksFit(op: WriteOperation, before: Disk)
    requires op.Valid() && op.FullBlocks() && Sum(op.blocksPerBuffer) <= MAX_BLOCKS
    ensures Fits(op, before, Answer(BytesWritten(Sum(op.blocksPerBuffer) * BLOCK), Executed(before, op)))
  {
    hide Gathered, Sum, Patched;
    var n, start, bytes := Sum(op.blocksPerBuffer), op.startBlock * BLOCK, Gathered(op.buffers, op.blocksPerBuffer);
    GatherLength(op.buffers, op.blocksPerBuffer);
    assert OperationWrites(op)[..n] == OperationWrites(op);
    forall p: nat
      ensures ByteAt(Executed(before, op).bytes, p) == Newest(OperationWrites(op), p, ByteAt(before.bytes, p))
    {
      PatchedAt(before.bytes, Write(start, bytes), p);
      BlockwiseNewest(op, n, p, ByteAt(before.bytes, p));
    }
  }

  lemma {:induction false} BlockwiseNewest(op: WriteOperation, n: nat, p: nat, base: byte)
    requires op.Valid() && op.FullBlocks() && n <= Sum(op.blocksPerBuffer)
    ensures |Gathered(op.buffers, op.blocksPerBuffer)| == Sum(op.blocksPerBuffer) * BLOCK
    ensures Newest(OperationWrites(op)[..n], p, base)
         == if op.startBlock * BLOCK <= p < (op.startBlock + n) * BLOCK
            then Gathered(op.buffers, op.blocksPerBuffer)[p - op.startBlock * BLOCK] else base
    decreases n
  {
    hide Gathered, Sum;
    GatherLength(op.buffers, op.blocksPerBuffer);
    if n > 0 {
      BlockwiseNewest(op, n - 1, p, base);
      assert OperationWrites(op)[..n][..n - 1] == OperationWrites(op)[..n - 1];
    }
  }

  lemma SettlesNext(writes: seq<Write>, c: nat, own: seq<Write>, d: nat, before: Disk, mid: Disk, after: Disk)
    requires c + |own| <= |writes| && writes[c..c + |own|] == own && d <= |own|
    requires Settles(writes, c, c, before, mid) && Settles(own, d, |own|, mid, after)
    ensures Settles(writes, c + d, c + |own|, before, after)
  {
    hide Newest;
    forall p: nat | forall i :: c + d <= i < c + |own| ==> !writes[i].Covers(p)
      ensures ByteAt(after.bytes, p) == Newest(writes[..c + d], p, ByteAt(before.bytes, p))
    {
      forall i | d <= i < |own|
        ensures !own[i].Covers(p)
      {
        assert own[i] == writes[c + i];
      }
      RemovalIsUnseen(writes[..c], own[..d], p, ByteAt(before.bytes, p));
      assert writes[..c] + own[..d] == writes[..c + d];
    }
  }

  lemma NothingSettled(writes: seq<Write>, disk: Disk)
    ensures Settles(writes, 0, 0, disk, disk)
  {
  }

  /** The disk is not called for an operation of size zero or with too many blocks. */
  lemma UncalledFits(op: WriteOperation, result: DiskResult, disk: Disk)
    requires op.Valid() && Possible(op, result)
        && (op.size == 0 || (op.FullBlocks() && Sum(op.blocksPerBuffer) > MAX_BLOCKS))
    ensures Fits(op, disk, Answer(result, disk))
  {
    DoneIsBounded(op, result);
    if op.size == 0 {
      assert Sum([1]) == 1;
      assert OperationWrites(op)[..1] == OperationWrites(op);
      forall p: nat
        ensures Newest(OperationWrites(op), p, ByteAt(disk.bytes, p)) == ByteAt(disk.bytes, p)
      {
        Uncovered(OperationWrites(op), p, ByteAt(disk.bytes, p));
      }
    }
  }

  lemma GroupWrites(op: WriteOperation, group: seq<WriteOperation>)
    requires MergeOf(op, group)
    ensures AllSingle(group) && WritesBy(group) == OperationWrites(op)
  {
    hide Gathered;
    if !op.FullBlocks() {
      assert Sum([1]) == 1;
    } else {
      forall i | 0 <= i < |group|
        ensures IsSingle(group[i]) && WriteBy(group[i]) == OperationWrites(op)[i]
      {
        assert IsBlockOf(op, group[i], i);
      }
    }
  }

  lemma {:induction false} GroupedSingles(ops: seq<WriteOperation>, singles: seq<WriteOperation>)
    requires Grouped(ops, singles)
    ensures AllSingle(singles) && AllValid(ops) && CountBlocks(ops) == |singles|
    decreases |ops|
  {
    if ops != [] {
      hide MergeOf, AllSingle, AllValid, Sum, OperationWrites, WriteOperation.Valid;
      var k := |ops| - 1;
      var n := |singles| - Sum(ops[k].blocksPerBuffer);
      GroupedSingles(ops[..k], singles[..n]);
      GroupWrites(ops[k], singles[n..]);
      GroupIsValid(ops[k], singles[n..]);
      JoinSingles(singles[..n], singles[n..]);
      RunAppended(Disk([], map[]), ops[..k], ops[k]);
      assert singles == singles[..n] + singles[n..];
      assert ops == ops[..k] + [ops[k]];
    }
  }

  lemma GroupIsValid(op: WriteOperation, group: seq<WriteOperation>)
    requires MergeOf(op, group)
    ensures op.Valid() && |group| == Sum(op.blocksPerBuffer)
  {
  }

  /** The writes of an operation are where the blocks of the operations before it end. */
  lemma {:induction false} GroupAt(ops: seq<WriteOperation>, singles: seq<WriteOperation>, i: nat)
    requires Grouped(ops, singles) && i < |ops|
    ensures ops[i].Valid() && AllSingle(singles)
    ensures var c := CountBlocks(ops[..i]);
            && c + Sum(ops[i].blocksPerBuffer) == CountBlocks(ops[..i + 1]) <= |singles|
            && WritesBy(singles)[c..c + Sum(ops[i].blocksPerBuffer)] == OperationWrites(ops[i])
    decreases |ops|
  {
    hide MergeOf, OperationWrites, AllSingle, AllValid, Sum, WriteOperation.Valid;
    GroupedSingles(ops, singles);
    var k := |ops| - 1;
    var n := |singles| - Sum(ops[k].blocksPerBuffer);
    GroupedSingles(ops[..k], singles[..n]);
    GroupWrites(ops[k], singles[n..]);
    GroupIsValid(ops[k], singles[n..]);
    JoinSingles(singles[..n], singles[n..]);
    assert singles == singles[..n] + singles[n..];
    assert ops[..i + 1][..i] == ops[..i];
    if i == k {
      assert ops[..k + 1] == ops;
    } else {
      GroupAt(ops[..k], singles[..n], i);
      assert ops[..k][..i] == ops[..i] && ops[..k][..i + 1] == ops[..i + 1];
      var c := CountBlocks(ops[..i]);
      assert WritesBy(singles)[c..c + Sum(ops[i].blocksPerBuffer)]
          == WritesBy(singles[..n])[c..c + Sum(ops[i].blocksPerBuffer)];
    }
  }

  /** The operations are performed until one fails. Every block gets a status: OK for exactly the first `written`
      ones, and these the disk has. */
  method PerformAll(ops: seq<WriteOperation>, totalBlocks: nat, disk: Disk,
      answer: (nat, WriteOperation, Disk) -> Answer, ghost singles: seq<WriteOperation>)
    returns (statuses: seq<Status>, after: Disk, ghost written: nat, ghost touched: nat)
    requires ops != [] && Grouped(ops, singles) && totalBlocks == CountBlocks(ops)
    requires forall i, op: WriteOperation, d :: op.Valid() ==> Fits(op, d, answer(i, op, d))
    ensures AllSingle(singles) && written <= touched <= |singles| == |statuses| && Report(statuses, written)
    ensures Settles(WritesBy(singles), written, touched, disk, after)
    ensures StopsOnlyAtFailure(ops, WritesBy(singles), disk, answer, statuses, written, touched)
  {
    hide Grouped, Settles, OperationWrites, CountBlocks, Sum;
    GroupedSingles(ops, singles);
    ghost var writes := WritesBy(singles);
    statuses, after, written, touched := [], disk, 0, 0;
    NothingSettled(writes, disk);
    NoBlocks(ops);
    var i, failed := 0, false;
    ghost var at := disk;
    while i < |ops| && !failed
      invariant 0 <= i <= |ops| && written <= touched <= |singles| && touched == CountBlocks(ops[..i])
      invariant Settles(writes, written, touched, disk, after)
      invariant Report(statuses, written) && |statuses| == written + (if failed then 1 else 0) <= |singles|
      invariant !failed ==> written == touched
      invariant failed ==> i > 0 && FailsHere(ops, writes, disk, answer, statuses[written..], written, i - 1, at)
      decreases |ops| - i + (if failed then 0 else 1)
    {
      GroupAt(ops, singles, i);
      ghost var before, own := after, OperationWrites(ops[i]);
      var a := answer(i, ops[i], after);
      DoneIsBounded(ops[i], a.result);
      var more, goOn := Perform(ops[i], a.result);
      if ops[i].size == 0 || TooMany(ops[i]) {
        UncalledFits(ops[i], a.result, after);
      } else {
        after := a.after;
      }
      SettlesNext(writes, touched, own, BlocksDone(ops[i], a.result), disk, before, after);
      written, touched := touched + BlocksDone(ops[i], a.result), touched + |own|;
      statuses, failed, i, at := statuses + more, !goOn, i + 1, before;
    }
    if !failed {
      assert ops[..i] == ops;
    }
    ghost var errors := statuses[written..];
    if |statuses| < totalBlocks {
      statuses := statuses + Repeat(statuses[|statuses| - 1], totalBlocks - |statuses|);
    }
    if failed {
      MoreOfTheSame(ops, writes, disk, answer, errors, statuses[written..], written, i - 1, at);
    }
  }

  lemma MoreOfTheSame(ops: seq<WriteOperation>, writes: seq<Write>, disk: Disk,
      answer: (nat, WriteOperation, Disk) -> Answer, errors: seq<Status>, more: seq<Status>, written: nat, j: nat,
      at: Disk)
    requires FailsHere(ops, writes, disk, answer, errors, written, j, at) && |errors| == 1
    requires forall i :: 0 <= i < |more| ==> more[i] == errors[0]
    ensures FailsHere(ops, writes, disk, answer, more, written, j, at)
  {
    hide CountBlocks, Settles;
  }

  /** Operation `j`, called for on a disk that had all blocks of the operations before it, did not succeed: the blocks
      it has are the last ones written, and its error is every later block's. */
  ghost predicate FailsHere(ops: seq<WriteOperation>, writes: seq<Write>, disk: Disk,
      answer: (nat, WriteOperation, Disk) -> Answer, errors: seq<Status>, written: nat, j: nat, at: Disk)
  {
    && j < |ops| && ops[j].Valid() && CountBlocks(ops[..j]) <= |writes|
    && Settles(writes, CountBlocks(ops[..j]), CountBlocks(ops[..j]), disk, at)
    && var result := answer(j, ops[j], at).result;
       && Possible(ops[j], result) && !Succeeds(ops[j], result)
       && written == CountBlocks(ops[..j]) + BlocksDone(ops[j], result)
       && forall i :: 0 <= i < |errors| ==> errors[i] == ErrorOf(ops[j], result)
  }

  /** All blocks are written, or an operation failed and none behind it was tried. */
  ghost predicate StopsOnlyAtFailure(ops: seq<WriteOperation>, writes: seq<Write>, disk: Disk,
      answer: (nat, WriteOperation, Disk) -> Answer, statuses: seq<Status>, written: nat, touched: nat)
    requires written <= |statuses|
  {
    || written == touched == |statuses| == CountBlocks(ops)
    || exists j, at ::
         && FailsHere(ops, writes, disk, answer, statuses[written..], written, j, at)
         && touched == CountBlocks(ops[..j + 1])
  }

  predicate TooMany(op: WriteOperation) {
    op.FullBlocks() && Sum(op.blocksPerBuffer) > MAX_BLOCKS
  }

  lemma NoBlocks(ops: seq<WriteOperation>)
    ensures CountBlocks(ops[..0]) == 0
  {
  }

  /** job_write: a status for every block received, in the order received, OK up to the first failure and errors from
      there on. Wherever no failed write of the last operation tried reaches, the disk afterwards is as the writes
      with status OK, performed one by one, leave it. */
  method JobWrite(buffers: seq<Contents>, disk: Disk, answer: (nat, WriteOperation, Disk) -> Answer)
      returns (statuses: seq<Status>, after: Disk, ghost ops: seq<WriteOperation>, ghost written: nat,
        ghost touched: nat)
    requires forall k :: 0 <= k < |buffers| ==> buffers[k].Complete()
    requires forall i, op: WriteOperation, d :: op.Valid() ==> Fits(op, d, answer(i, op, d))
    ensures |statuses| == CountInfos(buffers) && Report(statuses, written)
    ensures AllSingle(AllSingles(buffers)) && written <= touched <= |AllSingles(buffers)| == |statuses|
    ensures Grouped(ops, AllSingles(buffers))
    ensures StopsOnlyAtFailure(ops, WritesBy(AllSingles(buffers)), disk, answer, statuses, written, touched)
    ensures JobLeaves(buffers, statuses, disk, after) && AllValid(AllSingles(buffers)[..written])
    ensures forall p: nat :: (forall i :: written <= i < touched ==> !WriteBy(AllSingles(buffers)[i]).Covers(p)) ==>
              ByteAt(after.bytes, p) == ByteAt(Run(disk, AllSingles(buffers)[..written]).bytes, p)
  {
    hide Grouped, Settles, SameEffect, CountBlocks, Run;
    var operations, totalBlocks := GetWriteOperations(buffers);
    ghost var singles := AllSingles(buffers);
    ops := operations;
    GroupedSingles(ops, singles);
    if operations == [] {
      statuses, after, written, touched := [], disk, 0, 0;
      NothingSettled(WritesBy(singles), disk);
      NoBlocks(ops);
      assert ops[..0] == ops;
    } else {
      statuses, after, written, touched := PerformAll(operations, totalBlocks, disk, answer, singles);
    }
    SettledIsRun(singles, written, touched, disk, after);
  }

  /** What a write job with these statuses may have made of the disk. */
  ghost predicate JobLeaves(buffers: seq<Contents>, statuses: seq<Status>, before: Disk, after: Disk)
    requires forall k :: 0 <= k < |buffers| ==> buffers[k].Complete()
  {
    var singles := AllSingles(buffers);
    && AllSingle(singles) && |statuses| == |singles|
    && exists written: nat, touched: nat ::
         && written <= touched <= |singles| && Report(statuses, written)
         && Settles(WritesBy(singles), written, touched, before, after)
  }

  lemma SettledIsRun(singles: seq<WriteOperation>, written: nat, touched: nat, before: Disk, after: Disk)
    requires AllSingle(singles) && written <= touched <= |singles|
        && Settles(WritesBy(singles), written, touched, before, after)
    ensures AllValid(singles[..written])
    ensures forall p: nat :: (forall i :: written <= i < touched ==> !WriteBy(singles[i]).Covers(p)) ==>
              ByteAt(after.bytes, p) == ByteAt(Run(before, singles[..written]).bytes, p)
  {
    hide Run, Newest;
    assert WritesBy(singles)[..written] == WritesBy(singles[..written]);
    forall p: nat | forall i :: written <= i < touched ==> !WriteBy(singles[i]).Covers(p)
      ensures ByteAt(after.bytes, p) == ByteAt(Run(before, singles[..written]).bytes, p)
    {
      RunLeavesNewest(before, singles[..written], p);
    }
  }

  // Statuses back in the buffers.

  function WithStatuses(infos: seq<WriteInfo>, statuses: seq<Status>): (r: seq<WriteInfo>)
    requires |statuses| == |infos|
    ensures |r| == |infos| && forall i :: 0 <= i < |infos| ==> r[i] == infos[i].(status := statuses[i])
  {
    seq(|infos|, i requires 0 <= i < |infos| => infos[i].(status := statuses[i]))
  }

  /** The statuses are dealt out buffer by buffer, while there are enough for a whole buffer. */
  function Dealt(buffers: seq<seq<WriteInfo>>, statuses: seq<Status>): (r: seq<seq<WriteInfo>>)
    ensures |r| == |buffers|
    decreases |buffers|
  {
    if buffers == [] || |buffers[0]| > |statuses| then buffers
    else
      var n := |buffers[0]|;
      [WithStatuses(buffers[0], statuses[..n])] + Dealt(buffers[1..], statuses[n..])
  }

  function Lengths(buffers: seq<seq<WriteInfo>>): nat {
    if buffers == [] then 0 else |buffers[0]| + Lengths(buffers[1..])
  }

  function StatusesOf(infos: seq<WriteInfo>): (r: seq<Status>)
    ensures |r| == |infos| && forall i :: 0 <= i < |infos| ==> r[i] == infos[i].status
  {
    seq(|infos|, i requires 0 <= i < |infos| => infos[i].status)
  }

  function AllStatuses(buffers: seq<seq<WriteInfo>>): seq<Status> {
    if buffers == [] then [] else StatusesOf(buffers[0]) + AllStatuses(buffers[1..])
  }

  function AllIds(buffers: seq<seq<WriteInfo>>): seq<nat> {
    if buffers == [] then []
    else seq(|buffers[0]|, i requires 0 <= i < |buffers[0]| => buffers[0][i].writeId) + AllIds(buffers[1..])
  }

  /** What was dealt out is what the session reads back, block by block and with the write ids in their places. */
  lemma {:induction false} StatusesComeBack(buffers: seq<seq<WriteInfo>>, statuses: seq<Status>)
    requires |statuses| == Lengths(buffers)
    ensures AllStatuses(Dealt(buffers, statuses)) == statuses && AllIds(Dealt(buffers, statuses)) == AllIds(buffers)
    decreases |buffers|
  {
    if buffers != [] {
      var n := |buffers[0]|;
      StatusesComeBack(buffers[1..], statuses[n..]);
      var dealt := Dealt(buffers, statuses);
      assert dealt[0] == WithStatuses(buffers[0], statuses[..n]) && dealt[1..] == Dealt(buffers[1..], statuses[n..]);
      assert StatusesOf(dealt[0]) == statuses[..n];
      SameIds(buffers[0], dealt[0]);
    }
  }

  lemma SameIds(a: seq<WriteInfo>, b: seq<WriteInfo>)
    requires |a| == |b| && forall i :: 0 <= i < |a| ==> a[i].writeId == b[i].writeId
    ensures seq(|a|, i requires 0 <= i < |a| => a[i].writeId) == seq(|b|, i requires 0 <= i < |b| => b[i].writeId)
  {
  }

  class InputBuffer {
    var infos: seq<WriteInfo>

    method SetStatuses(statuses: seq<Status>)
      requires |statuses| == |infos|
      modifies this`infos
      ensures infos == WithStatuses(old(infos), statuses)
    {
      var i := 0;
      while i < |infos|
        invariant 0 <= i <= |infos| == old(|infos|)
        invariant forall j :: 0 <= j < i ==> infos[j] == old(infos)[j].(status := statuses[j])
        invariant forall j :: i <= j < |infos| ==> infos[j] == old(infos)[j]
      {
        infos := infos[i := infos[i].(status := statuses[i])];
        i := i + 1;
      }
    }
  }

  ghost function Snapshot(buffers: seq<InputBuffer>): (r: seq<seq<WriteInfo>>)
    reads buffers
    ensures |r| == |buffers| && forall i :: 0 <= i < |buffers| ==> r[i] == buffers[i].infos
  {
    seq(|buffers|, i requires 0 <= i < |buffers| reads buffers => buffers[i].infos)
  }

  lemma {:induction false} DealtFrom(buffers: seq<seq<WriteInfo>>, statuses: seq<Status>, k: nat, at: nat)
    requires k <= |buffers| && at == Lengths(buffers[..k]) <= |statuses|
    ensures Dealt(buffers, statuses)[k..] == Dealt(buffers[k..], statuses[at..])
    decreases k
  {
    if k == 0 {
      assert buffers[0..] == buffers && statuses[0..] == statuses && buffers[..0] == [];
    } else {
      var n := |buffers[0]|;
      assert buffers[..k][1..] == buffers[1..][..k - 1];
      DealtFrom(buffers[1..], statuses[n..], k - 1, at - n);
      assert buffers[1..][k - 1..] == buffers[k..] && statuses[n..][at - n..] == statuses[at..];
      assert Dealt(buffers, statuses)[k..] == Dealt(buffers[1..], statuses[n..])[k - 1..];
    }
  }

  lemma DealtAt(buffers: seq<seq<WriteInfo>>, statuses: seq<Status>, k: nat, at: nat)
    requires k < |buffers| && at == Lengths(buffers[..k]) <= |statuses|
    ensures var dealt := Dealt(buffers, statuses);
            if at + |buffers[k]| > |statuses| then forall i :: k <= i < |buffers| ==> dealt[i] == buffers[i]
            else dealt[k] == WithStatuses(buffers[k], statuses[at..at + |buffers[k]|])
  {
    var dealt := Dealt(buffers, statuses);
    DealtFrom(buffers, statuses, k, at);
    assert dealt[k..][0] == dealt[k];
    if at + |buffers[k]| > |statuses| {
      assert dealt[k..] == buffers[k..];
      assert forall i :: k <= i < |buffers| ==> dealt[i] == dealt[k..][i - k] && buffers[i] == buffers[k..][i - k];
    } else {
      assert statuses[at..][..|buffers[k]|] == statuses[at..at + |buffers[k]|];
    }
  }

  lemma LengthsAppend(buffers: seq<seq<WriteInfo>>, k: nat)
    requires k < |buffers|
    ensures Lengths(buffers[..k + 1]) == Lengths(buffers[..k]) + |buffers[k]|
    decreases k
  {
    if k == 0 {
      assert buffers[..1][1..] == [] && buffers[..0] == [];
    } else {
      LengthsAppend(buffers[1..], k - 1);
      assert buffers[1..][..k] == buffers[..k + 1][1..] && buffers[1..][..k - 1] == buffers[..k][1..];
    }
  }

  lemma NoLengths(buffers: seq<seq<WriteInfo>>)
    ensures Lengths(buffers[..0]) == 0
  {
  }

  /** applyStatuses. */
  method ApplyStatuses(buffers: seq<InputBuffer>, statuses: seq<Status>)
    requires forall i, j :: 0 <= i < j < |buffers| ==> buffers[i] != buffers[j]
    modifies buffers
    ensures Snapshot(buffers) == Dealt(old(Snapshot(buffers)), statuses)
  {
    hide Dealt, Lengths;
    ghost var before, after := Snapshot(buffers), Dealt(Snapshot(buffers), statuses);
    NoLengths(before);
    var cursor, k := 0, 0;
    while k < |buffers|
      invariant 0 <= k <= |buffers| && cursor == Lengths(before[..k]) <= |statuses|
      invariant forall i :: 0 <= i < k ==> buffers[i].infos == after[i]
      invariant forall i :: k <= i < |buffers| ==> buffers[i].infos == before[i]
    {
      DealtAt(before, statuses, k, cursor);
      LengthsAppend(before, k);
      if cursor + |buffers[k].infos| > |statuses| {
        return;
      }
      var n := |buffers[k].infos|;
      buffers[k].SetStatuses(statuses[cursor..cursor + n]);
      cursor, k := cursor + n, k + 1;
    }
  }
}
