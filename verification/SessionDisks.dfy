/** Write sessions, reads and the disk together: the disk follows the write jobs of a session, and a read sees exactly
    what was acknowledged. */
module SessionDisks {
  import opened Common
  import opened WriteSessions
  import opened ReplyOrder
  import opened SessionInvariants
  import opened SessionSteps
  import opened SessionTheorems
  import opened ChunkWrites
  import opened SessionReads
  import InputBuffers
  import ReadOverlay
  import WriteJobs

  // What a write job of the session is given.

  function Crcs(blocks: Blocks, from: nat, n: nat): (r: seq<nat>)
    ensures |r| == n
  {
    if n == 0 then [] else Crcs(blocks, from, n - 1) + [blocks(from + n - 1).crc]
  }

  ghost function ContentsAt(blocks: Blocks, start: nat, n: nat): (c: InputBuffers.Contents)
    requires AllBlocks(blocks)
    ensures c.Complete() && |c.infos| == n
  {
    InfosFit(blocks, start, n);
    InputBuffers.Contents(Infos(blocks, start, n), Crcs(blocks, start, n), Memory(blocks, start, n))
  }

  lemma InfosFit(blocks: Blocks, start: nat, n: nat)
    requires AllBlocks(blocks)
    ensures var infos := Infos(blocks, start, n); forall i :: 0 <= i < n ==> infos[i].offset + infos[i].size <= BLOCK
  {
    forall i | 0 <= i < n
      ensures Infos(blocks, start, n)[i].offset + Infos(blocks, start, n)[i].size <= BLOCK
    {
      assert blocks(start + i).Valid();
    }
  }

  /** The buffers of a batch whose first block has the number `from`. */
  ghost function JobContents(blocks: Blocks, from: nat, batch: seq<Buffer>): (r: seq<InputBuffers.Contents>)
    requires AllBlocks(blocks)
    ensures |r| == |batch| && forall k :: 0 <= k < |batch| ==> r[k].Complete()
    ensures forall k :: 0 <= k < |batch| ==> r[k] == ContentsAt(blocks, StartOf(from, batch, k), |batch[k].ids|)
  {
    seq(|batch|, k requires 0 <= k < |batch| => ContentsAt(blocks, StartOf(from, batch, k), |batch[k].ids|))
  }

  lemma BlockWrite(blocks: Blocks, start: nat, n: nat, i: nat)
    requires AllBlocks(blocks) && i < n
    ensures var single := InputBuffers.Single(ContentsAt(blocks, start, n), i);
            IsSingle(single) && WriteBy(single) == blocks(start + i).AsWrite()
  {
    hide Sum;
    assert blocks(start + i).Valid();
    InputBuffers.SingleIsValid(ContentsAt(blocks, start, n), i);
    MemoryAt(blocks, start, n, i);
    SlotPrefix(Memory(blocks, start, n), i, blocks(start + i).info.size);
  }

  lemma BufferWrites(blocks: Blocks, start: nat, n: nat)
    requires AllBlocks(blocks)
    ensures var singles := InputBuffers.Singles(ContentsAt(blocks, start, n), n);
            AllSingle(singles) && WritesBy(singles) == Writes(blocks, start, n)
  {
    hide ContentsAt, IsSingle;
    forall i | 0 <= i < n
      ensures IsSingle(InputBuffers.Single(ContentsAt(blocks, start, n), i))
      ensures WriteBy(InputBuffers.Single(ContentsAt(blocks, start, n), i)) == blocks(start + i).AsWrite()
    {
      BlockWrite(blocks, start, n, i);
    }
  }

  /** The job's writes are the session's blocks from `from` on. */
  lemma JobWrites(blocks: Blocks, from: nat, batch: seq<Buffer>)
    requires AllBlocks(blocks)
    ensures var singles := InputBuffers.AllSingles(JobContents(blocks, from, batch));
            AllSingle(singles) && WritesBy(singles) == Writes(blocks, from, |Ids(batch)|)
  {
    hide JobContents, Ids, AllSingle, InputBuffers.AllSingles;
    var all := JobContents(blocks, from, batch);
    FirstJobWrites(blocks, from, batch, all, |batch|);
    assert all[..|batch|] == all && batch[..|batch|] == batch;
  }

  lemma {:induction false} FirstJobWrites(blocks: Blocks, from: nat, batch: seq<Buffer>,
      all: seq<InputBuffers.Contents>, n: nat)
    requires AllBlocks(blocks) && n <= |batch| == |all| && forall k :: 0 <= k < |batch| ==> all[k].Complete()
    requires forall k :: 0 <= k < |batch| ==> all[k] == ContentsAt(blocks, StartOf(from, batch, k), |batch[k].ids|)
    ensures var singles := InputBuffers.AllSingles(all[..n]);
            AllSingle(singles) && WritesBy(singles) == Writes(blocks, from, |Ids(batch[..n])|)
    decreases n
  {
    if n > 0 {
      hide ContentsAt, AllSingle, InputBuffers.AllSingles, InputBuffers.Contents.Complete, Ids, WritesBy, Writes;
      FirstJobWrites(blocks, from, batch, all, n - 1);
      NextWrites(blocks, from, |Ids(batch[..n - 1])|, |batch[n - 1].ids|, all, n);
      assert batch[..n][..n - 1] == batch[..n - 1];
      LastIds(batch[..n]);
    } else {
      hide ContentsAt, InputBuffers.Contents.Complete;
      assert all[..0] == [] && batch[..0] == [];
      NoWrites(blocks, from);
    }
  }

  lemma NoWrites(blocks: Blocks, from: nat)
    requires AllBlocks(blocks)
    ensures var singles := InputBuffers.AllSingles([]);
            AllSingle(singles) && WritesBy(singles) == Writes(blocks, from, |Ids([])|)
  {
  }

  lemma NextWrites(blocks: Blocks, from: nat, a: nat, b: nat, all: seq<InputBuffers.Contents>, n: nat)
    requires AllBlocks(blocks) && 0 < n <= |all| && forall k :: 0 <= k < |all| ==> all[k].Complete()
    requires all[n - 1] == ContentsAt(blocks, from + a, b)
    requires var singles := InputBuffers.AllSingles(all[..n - 1]);
             AllSingle(singles) && WritesBy(singles) == Writes(blocks, from, a)
    ensures var singles := InputBuffers.AllSingles(all[..n]);
            AllSingle(singles) && WritesBy(singles) == Writes(blocks, from, a + b)
  {
    hide ContentsAt, AllSingle, InputBuffers.AllSingles, InputBuffers.Contents.Complete;
    BufferWrites(blocks, from + a, b);
    var before, last := InputBuffers.AllSingles(all[..n - 1]), InputBuffers.Singles(all[n - 1], b);
    assert all[..n][..n - 1] == all[..n - 1] && all[..n][n - 1] == all[n - 1] && |all[n - 1].infos| == b;
    LastSingles(all[..n]);
    Combined(blocks, from, a, b, WritesBy(before), WritesBy(last));
  }

  lemma Combined(blocks: Blocks, from: nat, a: nat, b: nat, first: seq<Write>, last: seq<Write>)
    requires AllBlocks(blocks) && first == Writes(blocks, from, a) && last == Writes(blocks, from + a, b)
    ensures first + last == Writes(blocks, from, a + b)
  {
    WritesJoin(blocks, from, a, b);
  }

  lemma LastIds(batch: seq<Buffer>)
    requires batch != []
    ensures |Ids(batch)| == |Ids(batch[..|batch| - 1])| + |batch[|batch| - 1].ids|
  {
    hide Ids;
    var n := |batch| - 1;
    assert batch == batch[..n] + [batch[n]];
    IdsAppend(batch[..n], [batch[n]]);
    IdsOfOne(batch[n]);
  }

  // The disk along a run.

  /** The number of blocks in the job in flight. */
  function InJob(s: Session): nat {
    if s.enqueued <= |s.queue| then |Ids(s.queue[..s.enqueued])| else 0
  }

  ghost predicate UnderJob(s: Session, blocks: Blocks, position: nat)
    requires AllBlocks(blocks)
  {
    exists j :: |s.past.written| <= j < |s.past.written| + InJob(s) && blocks(j).AsWrite().Covers(position)
  }

  /** The disks differ only under blocks of the job in flight. */
  ghost predicate DifferUnderJob(s: Session, blocks: Blocks, a: InputBuffers.Disk, b: InputBuffers.Disk)
    requires AllBlocks(blocks)
  {
    forall p: nat :: !UnderJob(s, blocks, p) ==> ByteAt(a.bytes, p) == ByteAt(b.bytes, p)
  }

  /** While a write job is in flight the disk changes only under its blocks; a job that finished with some statuses has
      left what a write job with these statuses leaves, over the disk it started from. */
  ghost predicate DiskStep(s: Session, step: Step, blocks: Blocks, before: InputBuffers.Disk, after: InputBuffers.Disk)
    requires AllBlocks(blocks) && CanTake(s, step)
  {
    if step.WriteFinished? then
      exists start: InputBuffers.Disk ::
        && DifferUnderJob(s, blocks, before, start)
        && WriteJobs.JobLeaves(
             JobContents(blocks, |s.past.written|, s.queue[..s.enqueued]), step.statuses, start, after)
    else DifferUnderJob(s, blocks, before, after)
  }

  ghost predicate IsDiskRun(run: seq<Session>, steps: seq<Step>, blocks: Blocks, disks: seq<InputBuffers.Disk>)
    requires AllBlocks(blocks) && IsRun(run, steps)
  {
    && |disks| == |run|
    && forall i :: 0 <= i < |steps| ==> DiskStep(run[i], steps[i], blocks, disks[i], disks[i + 1])
  }

  /** The step finishes a write job with an error for block `j`. */
  predicate FailsAt(s: Session, step: Step, j: nat) {
    step.WriteFinished? && var w := |s.past.written|; w <= j < w + |step.statuses| && step.statuses[j - w] != OK
  }

  predicate Failed(run: seq<Session>, steps: seq<Step>, i: nat, j: nat)
    requires IsRun(run, steps) && i < |run|
  {
    exists k :: 0 <= k < i && FailsAt(run[k], steps[k], j)
  }

  /** Of the blocks whose jobs have finished, the last one over the position, if any, was written. */
  ghost predicate LastIsWritten(run: seq<Session>, steps: seq<Step>, blocks: Blocks, i: nat, position: nat)
    requires AllBlocks(blocks) && IsRun(run, steps) && i < |run|
  {
    forall j :: 0 <= j && Failed(run, steps, i, j) && blocks(j).AsWrite().Covers(position) ==>
      exists later :: j < later < |run[i].past.written| && blocks(later).AsWrite().Covers(position)
  }

  // The job in flight stays what it is until it finishes.

  ghost predicate JobKept(s: Session, s': Session) {
    && s'.past.written == s.past.written
    && (s.enqueued > 0 ==>
          s'.enqueued == s.enqueued <= |s.queue| && s.enqueued <= |s'.queue|
              && Ids(s'.queue[..s.enqueued]) == Ids(s.queue[..s.enqueued]))
  }

  lemma KeptTwice(a: Session, b: Session, c: Session)
    requires JobKept(a, b) && JobKept(b, c)
    ensures JobKept(a, c)
  {
  }

  lemma ReplyKeepsJob(s: Session, fromFlush: bool)
    requires Base(s)
    ensures JobKept(s, s.TryReply(fromFlush))
  {
    hide Base, Session.TryReply;
    TryReplyKeeps(s, fromFlush);
    EnqueuedFit(s);
    var s' := s.TryReply(fromFlush);
    assert s'.queue[..s.enqueued] == s.queue[..s.enqueued];
  }

  lemma EnqueuedFit(s: Session)
    requires Base(s)
    ensures s.enqueued <= |s.queue|
  {
  }

  lemma FreezeKeepsJob(s: Session)
    requires s.input.Some? && s.enqueued <= |s.queue|
    ensures JobKept(s, s.Freeze())
  {
    assert s.Freeze().queue[..s.enqueued] == s.queue[..s.enqueued];
  }

  lemma StartKeepsJob(s: Session)
    requires s.enqueued <= |s.queue| && (s.job.Idle? ==> s.enqueued == 0)
    ensures JobKept(s, s.StartNext())
  {
    if !s.CanStart() {
      assert s.StartNext() == s;
    } else {
      assert s.StartNext().past == s.past;
    }
  }

  lemma WriteInputKeepsJob(s: Session)
    requires s.input.Some? && s.enqueued <= |s.queue| && (s.job.Idle? ==> s.enqueued == 0)
    ensures JobKept(s, s.WriteInput())
  {
    hide Session.StartNext, Ids;
    FreezeKeepsJob(s);
    StartKeepsJob(s.Freeze());
  }

  lemma ContinueKeepsJob(s: Session)
    requires Base(s) && (s.job.Idle? ==> s.enqueued == 0)
    ensures JobKept(s, s.Continue())
  {
    hide Base, Session.TryReply, Session.StartNext, Session.WriteInput, JobKept;
    var r := s.TryReply(false);
    ReplyKeepsJob(s, false);
    TryReplyKeeps(s, false);
    EnqueuedFit(r);
    StartKeepsJob(r);
    KeptTwice(s, r, r.StartNext());
    if r.input.Some? {
      WriteInputKeepsJob(r);
      KeptTwice(s, r, r.WriteInput());
    }
  }

  lemma PrepareKeepsJob(s: Session)
    requires Inv(s) && !s.closing
    ensures JobKept(s, s.Prepare())
  {
    hide Inv, Session.WriteInput, Ids;
    BaseHolds(s);
    EnqueuedFit(s);
    JobIs(s);
    if s.input.Some? {
      WriteInputKeepsJob(s);
    }
    var s0 := if s.input.Some? && s.input.value.Full() then s.WriteInput() else s;
    assert s.Prepare().queue == s0.queue && s.Prepare().enqueued == s0.enqueued && s.Prepare().past == s0.past;
  }

  lemma ProcessKeepsJob(s: Session, id: nat)
    requires Inv(s) && CanTake(s, ProcessBlock(id))
    ensures JobKept(s, s.Process(id))
  {
    hide Inv, Session.TryReply, Session.WriteInput, JobKept;
    var s1 := s.(input := Some(Landed(s.input.value, id)), past := s.past.(received := s.past.received + [id]));
    ReceivedKeeps(s, id);
    BaseHolds(s1);
    LandedKeepsJob(s, s1);
    ReplyKeepsJob(s1, false);
    KeptTwice(s, s1, s1.TryReply(false));
    ReplyKeeps(s1);
    var r := s1.TryReply(false);
    BaseHolds(r);
    EnqueuedFit(r);
    JobIs(r);
    if r.input.Some? {
      WriteInputKeepsJob(r);
      KeptTwice(s, r, r.WriteInput());
    }
  }

  lemma LandedKeepsJob(s: Session, s1: Session)
    requires Inv(s) && s1.queue == s.queue && s1.enqueued == s.enqueued && s1.past.written == s.past.written
    ensures JobKept(s, s1)
  {
  }

  lemma FlushKeepsJob(s: Session)
    requires Inv(s) && !s.closing
    ensures JobKept(s, s.Flush())
  {
    hide Inv, Session.TryReply, Session.StartNext, Session.Freeze, JobKept;
    BaseHolds(s);
    if s.batching {
      var r := s.TryReply(true);
      ReplyKeepsJob(s, true);
      TryReplyKeeps(s, true);
      EnqueuedFit(r);
      JobIs(r);
      if r.input.Some? {
        FreezeKeepsJob(r);
        KeptTwice(s, r, r.Freeze());
      }
      var r1 := if r.input.Some? && r.input.value.ids != [] && !r.input.value.updating then r.Freeze() else r;
      ReleaseKeepsJob(s, r, r1);
    } else {
      LandedKeepsJob(s, s);
    }
  }

  lemma ReleaseKeepsJob(s: Session, r: Session, r1: Session)
    requires JobKept(s, r1) && r.enqueued <= |r.queue| && (r.job.Idle? ==> r.enqueued == 0)
    requires r1 == r || (r.input.Some? && r1 == r.Freeze())
    ensures JobKept(s, r1.(batches := r1.batches + [r1.ready], ready := 0).StartNext())
  {
    hide Session.StartNext, Ids;
    var r2 := r1.(batches := r1.batches + [r1.ready], ready := 0);
    assert r1.enqueued == r.enqueued && r1.job == r.job && |r1.queue| >= |r.queue|;
    StartKeepsJob(r2);
  }

  lemma OpenKeepsJob(s: Session, status: Status, lock: bool)
    requires Inv(s) && CanTake(s, OpenFinished(status, lock))
    ensures JobKept(s, s.OpenDone(status, lock))
  {
    hide Inv, Session.Continue, Session.OpenDone, OpenAnswer, Told, JobKept;
    OpenJobIs(s);
    OpenDoneIs(s, status, lock);
    OpenAnswerIs(s, status, lock);
    OpenAnswered(s, status, lock);
    var s1 := OpenAnswer(s, status, lock);
    LandedKeepsJob(s, s1);
    BaseHolds(s1);
    if status == OK {
      ContinueKeepsJob(s1);
      KeptTwice(s, s1, s1.Continue());
    }
  }

  lemma SealKeepsJob(s: Session)
    requires Inv(s) && !s.closing
    ensures JobKept(s, s.TrySeal().0)
  {
    hide Inv, Session.WriteInput, AllReplied, Ids;
    BaseHolds(s);
    EnqueuedFit(s);
    JobIs(s);
    if s.input.Some? {
      WriteInputKeepsJob(s);
    }
  }

  lemma CloseKeepsJob(s: Session)
    requires Inv(s) && !s.closing
    ensures JobKept(s, s.DelayedClose())
  {
    BaseHolds(s);
    EnqueuedFit(s);
    if s.OpenInFlight() {
      hide Inv;
      assert s.DelayedClose() == s.(closing := true, pending := s.pending + 1, job := s.job.(callback := OnClose));
    } else {
      hide Inv, Session.DelayedClose, Session.DropUnreplied, Session.StartNext, JobKept;
      CloseIs(s);
      JobIs(s);
      DropKeepsJob(s);
      var s1 := s.DropUnreplied().(expectsFlush := false);
      StartKeepsJob(s1);
      KeptTwice(s, s1, s1.StartNext());
      PendingKeepsJob(s, Drained(s));
    }
  }

  lemma PendingKeepsJob(s: Session, s': Session)
    requires JobKept(s, s')
    ensures forall pending :: JobKept(s, s'.(pending := pending))
  {
  }

  lemma DropKeepsJob(s: Session)
    requires s.enqueued <= |s.queue|
    ensures var s1 := s.DropUnreplied().(expectsFlush := false);
            JobKept(s, s1) && s1.enqueued == s.enqueued <= |s1.queue| && s1.job == s.job
  {
    hide DropBack;
    var s1, kept := s.DropUnreplied(), Kept(s.queue, s.input);
    assert s1.queue == DropBack(kept, s.enqueued);
    DropBackKeeps(kept, s.enqueued);
    assert s1.queue[..s.enqueued] == kept[..s.enqueued] == s.queue[..s.enqueued];
  }

  lemma CloseFinishedKeepsJob(s: Session, status: Status, lock: bool, statuses: seq<Status>)
    requires Inv(s) && CanTake(s, CloseFinished(status, lock, statuses))
    ensures JobKept(s, s.CloseCallback(status, lock, statuses))
  {
    hide Inv, Session.CloseCallback, JobKept;
    ReplacedJobIs(s);
    CloseAnswerIs(s, status, lock, statuses);
    LandedKeepsJob(s, s.CloseCallback(status, lock, statuses));
  }

  lemma StepKeepsJob(s: Session, step: Step)
    requires Inv(s) && CanTake(s, step) && !step.WriteFinished?
    ensures JobKept(s, Apply(s, step))
  {
    hide Inv, Session.Prepare, Session.Process, Session.Flush, Session.OpenDone, Session.TrySeal, Session.TryReply;
    hide Session.DelayedClose, Session.CloseCallback, Told, JobKept;
    match step
    case PrepareBlock => PrepareKeepsJob(s);
    case ProcessBlock(id) => ProcessKeepsJob(s, id);
    case FlushData => FlushKeepsJob(s);
    case OpenFinished(status, lock) => OpenKeepsJob(s, status, lock);
    case Seal => SealKeepsJob(s);
    case LoopReply => BaseHolds(s); ReplyKeepsJob(s, false);
    case Close => CloseKeepsJob(s);
    case CloseFinished(status, lock, statuses) => CloseFinishedKeepsJob(s, status, lock, statuses);
    case ChangeCredits(_) => LandedKeepsJob(s, Apply(s, step));
    case ChainStatus(_, _) => LandedKeepsJob(s, Apply(s, step));
    case LeaveWriting(_) => LandedKeepsJob(s, Apply(s, step));
  }

  lemma FinishWrites(s: Session, statuses: seq<Status>)
    requires Inv(s) && CanTake(s, WriteFinished(statuses))
    ensures s.WriteDone(statuses).past.written == s.past.written + Ids(s.queue[..s.enqueued])
  {
    hide Inv, Session.SettleBatch, Session.Continue, Ids, LosesReplied;
    FinishKeeps(s, statuses);
    if s.closing {
      ClosingInput(s);
    }
    ContinueKeeps(s.Finish(statuses));
  }

  // The disk keeps up.

  /** At every position: the finished blocks over what was there before the session, except under the job in flight. */
  ghost predicate KeepsUp(s: Session, blocks: Blocks, position: nat, original: byte, onDisk: byte)
    requires AllBlocks(blocks)
  {
    !UnderJob(s, blocks, position) ==> onDisk == Newest(Writes(blocks, 0, |s.past.written|), position, original)
  }

  lemma OtherStepKeepsUp(s: Session, step: Step, blocks: Blocks, before: InputBuffers.Disk, after: InputBuffers.Disk,
      position: nat, original: byte)
    requires AllBlocks(blocks) && Inv(s) && CanTake(s, step) && !step.WriteFinished?
    requires DiskStep(s, step, blocks, before, after)
    requires KeepsUp(s, blocks, position, original, ByteAt(before.bytes, position))
    ensures KeepsUp(Apply(s, step), blocks, position, original, ByteAt(after.bytes, position))
  {
    hide Inv, Apply, Newest;
    StepKeepsJob(s, step);
    var s' := Apply(s, step);
    NoJobNoBlocks(s);
  }

  lemma NoJobNoBlocks(s: Session)
    ensures s.enqueued == 0 ==> InJob(s) == 0
  {
  }

  /** Of the writes, the last one over the position, if any, got the status OK. */
  ghost predicate LastIsOk(writes: seq<Write>, statuses: seq<Status>, position: nat)
    requires |statuses| == |writes|
  {
    forall n :: 0 <= n < |writes| && statuses[n] != OK && writes[n].Covers(position) ==>
      exists later :: n < later < |writes| && writes[later].Covers(position)
  }

  /** If the last block of a job over the position got the status OK, the position holds what all blocks leave. */
  lemma WrittenJob(contents: seq<InputBuffers.Contents>, statuses: seq<Status>, before: InputBuffers.Disk,
      after: InputBuffers.Disk, position: nat)
    requires (forall k :: 0 <= k < |contents| ==> contents[k].Complete())
        && WriteJobs.JobLeaves(contents, statuses, before, after)
    requires LastIsOk(WritesBy(InputBuffers.AllSingles(contents)), statuses, position)
    ensures AllSingle(InputBuffers.AllSingles(contents))
    ensures ByteAt(after.bytes, position)
         == Newest(WritesBy(InputBuffers.AllSingles(contents)), position, ByteAt(before.bytes, position))
  {
    hide Newest, LastIsOk;
    var writes := WritesBy(InputBuffers.AllSingles(contents));
    var written: nat, touched: nat :| written <= touched <= |writes| && WriteJobs.Report(statuses, written)
        && WriteJobs.Settles(writes, written, touched, before, after);
    UnwrittenElsewhere(writes, statuses, written, |writes|, position);
    ReadOverlay.SameWithout(writes[..written], writes, position, ByteAt(before.bytes, position));
  }

  lemma {:induction false} UnwrittenElsewhere(writes: seq<Write>, statuses: seq<Status>, written: nat, n: nat,
      position: nat)
    requires |statuses| == |writes| && WriteJobs.Report(statuses, written) && LastIsOk(writes, statuses, position)
    requires written <= n <= |writes| && forall j :: n <= j < |writes| ==> !writes[j].Covers(position)
    ensures forall j :: written <= j < |writes| ==> !writes[j].Covers(position)
    decreases n
  {
    if written < n {
      FailureAt(statuses, written, n - 1);
      UnwrittenElsewhere(writes, statuses, written, n - 1, position);
    }
  }

  lemma FailureAt(statuses: seq<Status>, written: nat, i: nat)
    requires WriteJobs.Report(statuses, written) && written <= i < |statuses|
    ensures statuses[i] != OK
  {
  }

  lemma FinishKeepsUp(s: Session, statuses: seq<Status>, blocks: Blocks, before: InputBuffers.Disk,
      after: InputBuffers.Disk, position: nat, original: byte)
    requires AllBlocks(blocks) && Inv(s) && CanTake(s, WriteFinished(statuses))
    requires DiskStep(s, WriteFinished(statuses), blocks, before, after)
    requires LastIsOk(Writes(blocks, |s.past.written|, |statuses|), statuses, position)
    requires !UnderJob(s, blocks, position) ==>
               KeepsUp(s, blocks, position, original, ByteAt(before.bytes, position))
    ensures KeepsUp(s.WriteDone(statuses), blocks, position, original, ByteAt(after.bytes, position))
  {
    hide LastIsOk, Inv, Session.WriteDone, Newest, JobContents, WriteJobs.JobLeaves, Ids, Block.AsWrite, Block.Valid;
    var batch, w := s.queue[..s.enqueued], |s.past.written|;
    var start: InputBuffers.Disk :| DifferUnderJob(s, blocks, before, start)
        && WriteJobs.JobLeaves(JobContents(blocks, w, batch), statuses, start, after);
    JobWrites(blocks, w, batch);
    WrittenJob(JobContents(blocks, w, batch), statuses, start, after, position);
    FinishWrites(s, statuses);
    Untouched(s, blocks, before, start, position, original);
    PatchedOver(blocks, w, |Ids(batch)|, |Ids(batch)|, position, original, ByteAt(start.bytes, position));
  }

  lemma Untouched(s: Session, blocks: Blocks, before: InputBuffers.Disk, start: InputBuffers.Disk, position: nat,
      original: byte)
    requires AllBlocks(blocks) && s.enqueued <= |s.queue| && DifferUnderJob(s, blocks, before, start)
    requires !UnderJob(s, blocks, position) ==>
               KeepsUp(s, blocks, position, original, ByteAt(before.bytes, position))
    ensures var w := |s.past.written|;
            (forall j :: w <= j < w + |Ids(s.queue[..s.enqueued])| ==> !blocks(j).AsWrite().Covers(position)) ==>
              ByteAt(start.bytes, position) == Newest(Writes(blocks, 0, w), position, original)
  {
    hide Newest, Ids, Block.AsWrite, Block.Valid;
  }

  // Blocks that failed.

  lemma FailedBefore(run: seq<Session>, steps: seq<Step>, i: nat, j: nat)
    requires IsRun(run, steps) && 0 < i < |run|
    ensures Failed(run, steps, i, j) <==> Failed(run, steps, i - 1, j) || FailsAt(run[i - 1], steps[i - 1], j)
  {
    hide Apply, CanTake, FailsAt;
    if Failed(run, steps, i, j) {
      var k :| 0 <= k < i && FailsAt(run[k], steps[k], j);
      if k < i - 1 {
        assert Failed(run, steps, i - 1, j);
      }
    }
    if Failed(run, steps, i - 1, j) {
      var k :| 0 <= k < i - 1 && FailsAt(run[k], steps[k], j);
      assert Failed(run, steps, i, j);
    }
  }

  /** As long as no job finishes, or if no block of the job that does is over the position. */
  lemma LastWasWritten(run: seq<Session>, steps: seq<Step>, blocks: Blocks, i: nat, position: nat)
    requires AllBlocks(blocks) && IsRun(run, steps) && 0 < i < |run| && LastIsWritten(run, steps, blocks, i, position)
    requires forall j :: |run[i - 1].past.written| <= j < |run[i].past.written| ==>
               !blocks(j).AsWrite().Covers(position)
    ensures LastIsWritten(run, steps, blocks, i - 1, position)
  {
    hide Apply, CanTake, FailsAt, Failed, Block.AsWrite, Block.Valid;
    forall j | 0 <= j && Failed(run, steps, i - 1, j) && blocks(j).AsWrite().Covers(position)
      ensures exists later :: j < later < |run[i - 1].past.written| && blocks(later).AsWrite().Covers(position)
    {
      FailedBefore(run, steps, i, j);
      var later :| j < later < |run[i].past.written| && blocks(later).AsWrite().Covers(position);
      assert later < |run[i - 1].past.written|;
    }
  }

  lemma LastInJob(run: seq<Session>, steps: seq<Step>, blocks: Blocks, i: nat, position: nat)
    requires AllBlocks(blocks) && IsRun(run, steps) && 0 < i < |run| && LastIsWritten(run, steps, blocks, i, position)
    requires steps[i - 1].WriteFinished?
        && |run[i].past.written| == |run[i - 1].past.written| + |steps[i - 1].statuses|
    ensures var statuses := steps[i - 1].statuses;
            LastIsOk(Writes(blocks, |run[i - 1].past.written|, |statuses|), statuses, position)
  {
    hide Apply, CanTake, Failed, Block.AsWrite, Block.Valid;
    var w, statuses := |run[i - 1].past.written|, steps[i - 1].statuses;
    var writes := Writes(blocks, w, |statuses|);
    forall n | 0 <= n < |writes| && statuses[n] != OK && writes[n].Covers(position)
      ensures exists later :: n < later < |writes| && writes[later].Covers(position)
    {
      assert FailsAt(run[i - 1], steps[i - 1], w + n) && writes[n] == blocks(w + n).AsWrite();
      FailedBefore(run, steps, i, w + n);
      var later :| w + n < later < |run[i].past.written| && blocks(later).AsWrite().Covers(position);
      assert writes[later - w] == blocks(w + (later - w)).AsWrite();
    }
  }

  lemma FinishedJob(s: Session, step: Step, blocks: Blocks, position: nat)
    requires AllBlocks(blocks) && Inv(s) && CanTake(s, step)
    ensures var s' := Apply(s, step);
            && |s'.past.written| == |s.past.written| + (if step.WriteFinished? then |step.statuses| else 0)
            && (step.WriteFinished? && !UnderJob(s, blocks, position) ==>
                  forall j :: |s.past.written| <= j < |s'.past.written| ==> !blocks(j).AsWrite().Covers(position))
  {
    hide Inv, Session.WriteDone, Ids, Block.AsWrite, Block.Valid;
    if step.WriteFinished? {
      FinishWrites(s, step.statuses);
    } else {
      StepKeepsJob(s, step);
    }
  }

  /** Along every run, at every position whose last finished block, if any, was written: the disk has the finished
      blocks over what was there before, except under the job in flight. */
  lemma {:induction false} DiskHasTheFinished(run: seq<Session>, steps: seq<Step>, blocks: Blocks,
      disks: seq<InputBuffers.Disk>, i: nat, position: nat)
    requires AllBlocks(blocks) && IsRun(run, steps) && IsDiskRun(run, steps, blocks, disks) && i < |run|
    requires LastIsWritten(run, steps, blocks, i, position)
    ensures KeepsUp(run[i], blocks, position, ByteAt(disks[0].bytes, position), ByteAt(disks[i].bytes, position))
  {
    hide Inv, Apply, CanTake, DiskStep, Newest, LastIsWritten, UnderJob, KeepsUp;
    if i == 0 {
      NothingWritten(run[0], blocks, position, ByteAt(disks[0].bytes, position));
    } else {
      var s, step, original := run[i - 1], steps[i - 1], ByteAt(disks[0].bytes, position);
      InvHolds(run, steps, i - 1);
      assert CanTake(s, step) && run[i - 1 + 1] == Apply(s, step);
      FinishedJob(s, step, blocks, position);
      if !step.WriteFinished? || !UnderJob(s, blocks, position) {
        LastWasWritten(run, steps, blocks, i, position);
        DiskHasTheFinished(run, steps, blocks, disks, i - 1, position);
      }
      assert DiskStep(s, step, blocks, disks[i - 1], disks[i - 1 + 1]);
      if step.WriteFinished? {
        LastInJob(run, steps, blocks, i, position);
        FinishKeepsUp(s, step.statuses, blocks, disks[i - 1], disks[i], position, original);
        FinishApplies(s, step);
      } else {
        OtherStepKeepsUp(s, step, blocks, disks[i - 1], disks[i], position, original);
      }
    }
  }

  lemma FinishApplies(s: Session, step: Step)
    requires CanTake(s, step) && step.WriteFinished?
    ensures Apply(s, step) == s.WriteDone(step.statuses)
  {
  }

  lemma NothingWritten(s: Session, blocks: Blocks, position: nat, original: byte)
    requires AllBlocks(blocks) && Init(s)
    ensures KeepsUp(s, blocks, position, original, original)
  {
  }

  /** Along every run, at every position whose last finished block, if any, was written and that no unacknowledged block
      of the job in flight reaches: a read at a served version returns what the acknowledged blocks, and no others,
      leave over what was there before the session. */
  lemma ReadsSeeTheAcknowledged(run: seq<Session>, steps: seq<Step>, blocks: Blocks, disks: seq<InputBuffers.Disk>,
      version: Option<nat>, i: nat, partVersion: nat, position: nat)
    requires AllBlocks(blocks) && IsRun(run, steps) && IsDiskRun(run, steps, blocks, disks) && i < |run|
    requires LastIsWritten(run, steps, blocks, i, position) && (version.None? || version.value == partVersion)
    requires var n := |run[i].past.written| + RepliedIn(Buffers(run[i].queue, run[i].input));
             forall j :: n <= j < |run[i].past.written| + InJob(run[i]) ==> !blocks(j).AsWrite().Covers(position)
    ensures var t, n := TrackedAt(run, steps, blocks, version, i),
                        |run[i].past.written| + RepliedIn(Buffers(run[i].queue, run[i].input));
            && |t.items| <= |Buffers(run[i].queue, run[i].input)|
            && ReadOverlay.AllSound(
                 Views(t, Buffers(run[i].queue, run[i].input), |run[i].past.written|, blocks, |t.items|))
            && SeenAt(run[i], t, blocks, partVersion, position, ByteAt(disks[i].bytes, position))
               == Newest(Writes(blocks, 0, n), position, ByteAt(disks[0].bytes, position))
            && (run[i].wire.state == WriteLast && !run[i].past.failed && run[i].past.openAnswered && !run[i].closing ==>
                  n <= |run[i].past.received| && run[i].wire.replies == Answers(run[i].past.received, n))
  {
    hide Inv, Apply, CanTake, TrackedAt, Newest, Ids, RepliedIn, DiskStep, SeenAt, Views, LastIsWritten;
    InvHolds(run, steps, i);
    BaseHolds(run[i]);
    EnqueuedFit(run[i]);
    DiskHasTheFinished(run, steps, blocks, disks, i, position);
    var original, onDisk := ByteAt(disks[0].bytes, position), ByteAt(disks[i].bytes, position);
    SameClaim(run[i], blocks, position, original, onDisk);
    ReadSeesExactlyTheAcknowledged(run, steps, blocks, version, i, partVersion, position, original, onDisk);
  }

  lemma SameClaim(s: Session, blocks: Blocks, position: nat, original: byte, onDisk: byte)
    requires AllBlocks(blocks) && s.enqueued <= |s.queue| && KeepsUp(s, blocks, position, original, onDisk)
    ensures DiskKeepsUp(s, blocks, position, original, onDisk)
  {
    hide Newest, Ids;
  }
}
