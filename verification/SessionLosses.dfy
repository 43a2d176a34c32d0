/** Blocks that were acknowledged and then failed in their write job: when the lock's end tells. */
module SessionLosses {
  import opened Common
  import opened WriteSessions
  import opened ReplyOrder
  import opened SessionInvariants
  import opened SessionSteps
  import opened SessionTheorems
  import opened ClosedSessions
  import opened AcknowledgedWrites

  /** A session acknowledges blocks before they are written only under a lock, which stays with it and which the open
      alone settles, and only if its chunk is not a standard one. */
  ghost predicate LockInv(early: bool, joined: bool, past: Past, queue: seq<Buffer>, input: Option<Buffer>) {
    && (joined ==> !past.openAnswered)
    && (!past.openAnswered ==> !past.BlockLost())
    && (!early ==> !past.BlockLost() && NoneReplied(Buffers(queue, input)))
  }

  ghost predicate Locked(s: Session) {
    LockInv(s.locked && !s.standard, s.joined, s.past, s.queue, s.input)
  }

  /** What instant replies, freezing and starting keep: only a locked session replies. */
  ghost predicate SameLock(s: Session, s': Session) {
    && s'.locked == s.locked && s'.standard == s.standard && s'.joined == s.joined && s'.past.lost == s.past.lost
    && s'.past.openAnswered == s.past.openAnswered && s'.past.unread == s.past.unread
    && (!(s.locked && !s.standard) && NoneReplied(Buffers(s.queue, s.input)) ==>
          NoneReplied(Buffers(s'.queue, s'.input)))
  }

  lemma SameLockKeeps(s: Session, s': Session)
    requires Locked(s) && SameLock(s, s')
    ensures Locked(s')
  {
  }

  lemma ReplyLock(s: Session, fromFlush: bool)
    ensures SameLock(s, s.TryReply(fromFlush))
  {
    hide Acknowledge, NoneReplied;
  }

  lemma StartLock(s: Session)
    ensures SameLock(s, s.StartNext())
  {
    hide NoneReplied, Session.StartNext;
    StartedFields(s);
  }

  lemma StartedFields(s: Session)
    ensures var r := s.StartNext();
            && r.queue == s.queue && r.input == s.input && r.locked == s.locked && r.standard == s.standard
            && r.joined == s.joined && r.past == s.past
  {
    if !s.CanStart() {
      assert s.StartNext() == s;
    }
  }

  lemma FreezeLock(s: Session)
    requires s.input.Some?
    ensures SameLock(s, s.Freeze())
  {
    hide NoneReplied;
    assert Buffers(s.Freeze().queue, s.Freeze().input) == Buffers(s.queue, s.input);
  }

  lemma WriteInputLock(s: Session)
    requires s.input.Some?
    ensures SameLock(s, s.WriteInput())
  {
    hide NoneReplied, Session.Freeze, Session.StartNext;
    FreezeLock(s);
    StartLock(s.Freeze());
  }

  lemma ContinueLock(s: Session)
    ensures SameLock(s, s.Continue())
  {
    hide NoneReplied, Session.TryReply, Session.StartNext, Session.WriteInput;
    var r := s.TryReply(false);
    ReplyLock(s, false);
    StartLock(r);
    if r.input.Some? {
      WriteInputLock(r);
    }
  }

  lemma PrepareLock(s: Session)
    ensures SameLock(s, s.Prepare())
  {
    hide NoneReplied, Session.WriteInput, Session.Prepare;
    if s.input.Some? {
      WriteInputLock(s);
    }
    var s0 := if s.input.Some? && s.input.value.Full() then s.WriteInput() else s;
    PreparedFields(s0, s);
    if NoneReplied(Buffers(s0.queue, s0.input)) {
      NoneWith(s0.queue, s0.input, s.Prepare().input.value);
    }
  }

  lemma PreparedFields(s0: Session, s: Session)
    requires s0 == if s.input.Some? && s.input.value.Full() then s.WriteInput() else s
    ensures var p := s.Prepare();
            && p.queue == s0.queue && p.locked == s0.locked && p.standard == s0.standard && p.joined == s0.joined
            && p.past == s0.past && p.input.Some?
            && p.input.value.replied == (if s0.input.Some? then s0.input.value.replied else 0)
  {
    hide Session.WriteInput;
    if s0.input.None? {
      assert s.Prepare().input.value.replied == 0;
    }
  }

  lemma ProcessLock(s: Session, id: nat)
    requires s.input.Some? && s.input.value.ids != []
    ensures SameLock(s, s.Process(id))
  {
    hide NoneReplied, Session.TryReply, Session.WriteInput;
    var s1 := s.(input := Some(Landed(s.input.value, id)), past := s.past.(received := s.past.received + [id]));
    if NoneReplied(Buffers(s.queue, s.input)) {
      NoneWith(s.queue, s.input, s1.input.value);
    }
    ReplyLock(s1, false);
    if s1.TryReply(false).input.Some? {
      WriteInputLock(s1.TryReply(false));
    }
  }

  lemma FlushLock(s: Session)
    ensures SameLock(s, s.Flush())
  {
    hide NoneReplied, Session.TryReply, Session.StartNext, Session.Freeze;
    var r := s.TryReply(true);
    ReplyLock(s, true);
    if r.input.Some? {
      FreezeLock(r);
    }
    var r1 := if r.input.Some? && r.input.value.ids != [] && !r.input.value.updating then r.Freeze() else r;
    StartLock(r1.(batches := r1.batches + [r1.ready], ready := 0));
  }

  lemma SealLock(s: Session)
    ensures SameLock(s, s.TrySeal().0)
  {
    hide NoneReplied, Session.WriteInput;
    if s.input.Some? {
      WriteInputLock(s);
    }
  }

  lemma CloseLock(s: Session)
    ensures SameLock(s, s.DelayedClose())
  {
    if s.OpenInFlight() {
      hide NoneReplied;
      assert s.DelayedClose() == s.(closing := true, pending := s.pending + 1, job := s.job.(callback := OnClose));
    } else {
      hide Session.DelayedClose, Drained, NoneReplied;
      CloseIs(s);
      DrainLock(s);
    }
  }

  lemma DrainLock(s: Session)
    ensures SameLock(s, Drained(s))
  {
    hide Session.DropUnreplied, Session.StartNext, NoneReplied;
    DropLock(s);
    StartLock(s.DropUnreplied().(expectsFlush := false));
  }

  lemma DropLock(s: Session)
    ensures SameLock(s, s.DropUnreplied())
  {
    hide DropBack, NoneReplied;
    var s' := s.DropUnreplied();
    if NoneReplied(Buffers(s.queue, s.input)) {
      NoneInQueue(s.queue, s.input);
      assert s'.queue == DropBack(s.queue, s.enqueued);
      NoneInPrefix(s'.queue, s.queue);
    }
  }

  lemma NoneInQueue(queue: seq<Buffer>, input: Option<Buffer>)
    requires NoneReplied(Buffers(queue, input))
    ensures NoneReplied(queue) && (input.Some? ==> input.value.replied == 0)
  {
    var all := Buffers(queue, input);
    if input.Some? {
      assert all[|queue|] == input.value;
    }
    assert forall i :: 0 <= i < |queue| ==> all[i] == queue[i];
  }

  lemma NoneInPrefix(r: seq<Buffer>, queue: seq<Buffer>)
    requires r <= queue && NoneReplied(queue)
    ensures NoneReplied(Buffers(r, None))
  {
  }

  // The jobs.

  lemma OpenAnswerLock(s: Session, status: Status, lock: bool)
    requires Inv(s) && Locked(s) && s.job.InFlight? && s.job.callback == OnOpen
    ensures var s' := OpenAnswer(s, status, lock);
            Locked(s') && s'.past.unread == s.past.unread && s'.standard == s.standard
  {
    hide Told, Inv, OpenAnswer;
    NothingYet(s);
    OpenAnswerIs(s, status, lock);
  }

  lemma NothingYet(s: Session)
    requires Inv(s)
    ensures s.job.InFlight? && s.job.callback == OnOpen ==> !s.past.openAnswered
    ensures !s.past.openAnswered ==> NoneReplied(Buffers(s.queue, s.input))
  {
  }

  lemma OpenLock(s: Session, status: Status, lock: bool)
    requires Inv(s) && Locked(s) && CanTake(s, OpenFinished(status, lock))
    ensures var s' := s.OpenDone(status, lock);
            Locked(s') && s'.past.unread == s.past.unread && s'.standard == s.standard
  {
    hide Inv, Locked, Session.OpenDone, OpenAnswer, Session.Continue;
    OpenJobIs(s);
    OpenDoneIs(s, status, lock);
    OpenAnswerLock(s, status, lock);
    ContinueLock(OpenAnswer(s, status, lock));
    if status == OK {
      SameLockKeeps(OpenAnswer(s, status, lock), s.OpenDone(status, lock));
    }
  }

  lemma {:induction false} NothingToLose(batch: seq<Buffer>, statuses: seq<Status>)
    requires NoneReplied(batch) && |statuses| == |Ids(batch)|
    ensures !LosesReplied(batch, statuses)
  {
    if batch != [] {
      NothingToLose(batch[1..], statuses[|batch[0].ids|..]);
    }
  }

  lemma FinishLock(s: Session, statuses: seq<Status>)
    requires Inv(s) && Locked(s) && CanTake(s, WriteFinished(statuses))
    ensures var s' := s.Finish(statuses);
            Locked(s') && s'.past.unread == s.past.unread && s'.standard == s.standard
  {
    hide Inv, Session.SettleBatch, LosesReplied, Ids;
    WritesAnswered(s);
    if !(s.locked && !s.standard) {
      NoneInQueue(s.queue, s.input);
      NothingToLose(s.queue[..s.enqueued], statuses);
      assert Buffers(s.queue[s.enqueued..], s.input) == Buffers(s.queue, s.input)[s.enqueued..];
    }
  }

  lemma WritesAnswered(s: Session)
    requires Inv(s) && s.Writing()
    ensures s.past.openAnswered
  {
  }

  lemma WriteLock(s: Session, statuses: seq<Status>)
    requires Inv(s) && Locked(s) && CanTake(s, WriteFinished(statuses))
    ensures var s' := s.WriteDone(statuses);
            Locked(s') && s'.past.unread == s.past.unread && s'.standard == s.standard
  {
    hide Inv, Session.SettleBatch, Session.Finish, Session.Continue, Ids;
    FinishLock(s, statuses);
    ContinueLock(s.Finish(statuses));
  }

  lemma CloseFinishedLock(s: Session, status: Status, lock: bool, statuses: seq<Status>)
    requires Inv(s) && Locked(s) && CanTake(s, CloseFinished(status, lock, statuses))
    ensures var s' := s.CloseCallback(status, lock, statuses); Locked(s') && s'.standard == s.standard
  {
    hide Inv, NoneReplied, Session.CloseCallback, Session.AfterClose, LosesReplied, Ids;
    NothingYet(s);
    ReplacedJobIs(s);
    CloseAnswerIs(s, status, lock, statuses);
    UnreadBlocks(s, status, lock, statuses);
  }

  /** Only a write job that the close took for the open one, with acknowledged blocks, adds to the unread losses. */
  lemma UnreadBlocks(s: Session, status: Status, lock: bool, statuses: seq<Status>)
    requires s.LeftStatuses(statuses)
    ensures var unread := s.CloseCallback(status, lock, statuses).past.unread;
            && (unread && !s.past.unread ==> s.enqueued > 0 && !NoneReplied(Buffers(s.queue, s.input)))
            && (s.past.unread ==> unread)
  {
    hide LosesReplied, Ids, Session.OpenedClosing, NoneReplied;
    if s.AfterClose(statuses).unread && !s.past.unread && NoneReplied(Buffers(s.queue, s.input)) {
      NoneInQueue(s.queue, s.input);
      NoneInBatch(s.queue, s.enqueued);
      NothingToLose(s.queue[..s.enqueued], statuses);
      assert false;
    }
  }

  lemma NoneInBatch(queue: seq<Buffer>, n: nat)
    requires NoneReplied(queue) && n <= |queue|
    ensures NoneReplied(queue[..n])
  {
  }

  lemma StepLock(s: Session, step: Step)
    requires Inv(s) && Locked(s) && CanTake(s, step)
    ensures Locked(Apply(s, step)) && Apply(s, step).standard == s.standard
    ensures !step.CloseFinished? ==> Apply(s, step).past.unread == s.past.unread
  {
    hide Inv, NoneReplied, Session.Prepare, Session.Process, Session.Flush, Session.OpenDone, Session.WriteDone,
        Session.TrySeal;
    hide Session.TryReply, Session.DelayedClose, Session.CloseCallback, Told;
    match step
    case PrepareBlock => PrepareLock(s);
    case ProcessBlock(id) => ProcessLock(s, id);
    case FlushData => FlushLock(s);
    case OpenFinished(status, lock) => OpenLock(s, status, lock);
    case WriteFinished(statuses) => WriteLock(s, statuses);
    case Seal => SealLock(s);
    case LoopReply => ReplyLock(s, false);
    case Close => CloseLock(s);
    case CloseFinished(status, lock, statuses) => CloseFinishedLock(s, status, lock, statuses);
    case ChangeCredits(_) =>
    case ChainStatus(_, _) =>
    case LeaveWriting(_) =>
  }

  lemma LockedAtFirst(s: Session)
    requires Init(s)
    ensures Locked(s) && !s.past.unread
  {
  }

  lemma {:induction false} LockedHolds(run: seq<Session>, steps: seq<Step>, i: nat)
    requires IsRun(run, steps) && i < |run|
    ensures Locked(run[i]) && run[i].standard == run[0].standard
  {
    hide Inv, Apply, CanTake, Locked, Init;
    if i == 0 {
      LockedAtFirst(run[0]);
    } else {
      LockedHolds(run, steps, i - 1);
      InvHolds(run, steps, i - 1);
      assert CanTake(run[i - 1], steps[i - 1]) && run[i - 1 + 1] == Apply(run[i - 1], steps[i - 1]);
      StepLock(run[i - 1], steps[i - 1]);
    }
  }

  // Statuses that the session never looked at.

  lemma UnreadStep(s: Session, step: Step)
    requires Inv(s) && Locked(s) && CanTake(s, step) && (s.past.unread ==> LeavesBuffers(s))
    ensures var s' := Apply(s, step); s'.past.unread ==> LeavesBuffers(s')
  {
    hide Inv, Locked, Apply, Session.CloseCallback, LeavesBuffers;
    StepLock(s, step);
    if s.past.unread {
      LeavesClosing(s);
      ClosingLeaves(s, step);
    } else if step.CloseFinished? && Apply(s, step).past.unread {
      UnreadAnswer(s, step);
      LeavesClosing(s);
      ClosingLeaves(s, step);
    }
  }

  lemma LeavesClosing(s: Session)
    requires LeavesBuffers(s)
    ensures s.closing
  {
  }

  lemma UnreadAnswer(s: Session, step: Step)
    requires Inv(s) && CanTake(s, step) && step.CloseFinished? && !s.past.unread && Apply(s, step).past.unread
    ensures LeavesBuffers(s)
  {
    hide Inv, Session.CloseCallback, NoneReplied;
    ReplacedJobIs(s);
    UnreadBlocks(s, step.status, step.lock, step.statuses);
  }

  lemma {:induction false} UnreadHolds(run: seq<Session>, steps: seq<Step>, i: nat)
    requires IsRun(run, steps) && i < |run|
    ensures run[i].past.unread ==> LeavesBuffers(run[i])
  {
    hide Inv, Apply, CanTake, Locked, LeavesBuffers, Init;
    if i == 0 {
      LockedAtFirst(run[0]);
    } else {
      UnreadHolds(run, steps, i - 1);
      InvHolds(run, steps, i - 1);
      LockedHolds(run, steps, i - 1);
      assert CanTake(run[i - 1], steps[i - 1]) && run[i - 1 + 1] == Apply(run[i - 1], steps[i - 1]);
      UnreadStep(run[i - 1], steps[i - 1]);
    }
  }

  lemma {:induction false} CloseCame(run: seq<Session>, steps: seq<Step>, i: nat) returns (k: nat)
    requires IsRun(run, steps) && i < |run| && run[i].closing
    ensures k < i && steps[k].Close?
  {
    hide Inv, Apply, CanTake;
    if i == 0 {
      assert false;
    } else if run[i - 1].closing {
      k := CloseCame(run, steps, i - 1);
    } else {
      k := i - 1;
      InvHolds(run, steps, k);
      assert CanTake(run[k], steps[k]) && run[k + 1] == Apply(run[k], steps[k]);
      OnlyClosesClose(run[k], steps[k]);
    }
  }

  /** Before `i` came a close that took the write job in flight for the open job, when no error was kept. */
  predicate ClosedUnread(run: seq<Session>, steps: seq<Step>, i: nat)
    requires IsRun(run, steps) && i < |run|
  {
    exists k :: 0 <= k < i && steps[k].Close? && TakesJobForOpen(run[k]) && run[k].untold == OK
  }

  lemma ClosedUnreadIffUntold(run: seq<Session>, steps: seq<Step>, i: nat)
    requires IsRun(run, steps) && i < |run| && run[i].past.BlockLost()
    ensures run[i].untold == OK <==> ClosedUnread(run, steps, i)
  {
    hide Inv, Apply, CanTake, LeavesBuffers, TakesJobForOpen;
    if run[i].untold == OK {
      InvHolds(run, steps, i);
      ToldAreUnread(run[i]);
      UnreadHolds(run, steps, i);
      LeavesClosing(run[i]);
      var k := CloseCame(run, steps, i);
      CloseDecides(run, steps, k, i);
    }
    if ClosedUnread(run, steps, i) {
      var k :| 0 <= k < i && steps[k].Close? && TakesJobForOpen(run[k]) && run[k].untold == OK;
      CloseDecides(run, steps, k, i);
    }
  }

  lemma ToldAreUnread(s: Session)
    requires Inv(s) && s.past.BlockLost() && s.untold == OK
    ensures s.past.unread
  {
  }

  /** Once a block acknowledged before its write job has failed in it, the session has a lock. It ends the lock with an
      error exactly if the close of the open chunk reports one, or no close came that took a write job in flight for
      the open job while no error was kept. */
  lemma LostBlockIsReported(run: seq<Session>, steps: seq<Step>, i: nat, closeStatus: Status)
    requires IsRun(run, steps) && i < |run| && run[i].past.BlockLost()
    ensures run[i].EndStatus(closeStatus).Some?
    ensures run[i].EndStatus(closeStatus).value != OK <==>
        (run[i].open && closeStatus != OK) || !ClosedUnread(run, steps, i)
  {
    hide Apply, CanTake, Inv, ClosedUnread;
    ClosedUnreadIffUntold(run, steps, i);
    LockedHolds(run, steps, i);
  }

  /** On a standard chunk no block is acknowledged before it is written, so none can be lost, and what a client at the
      end of the chain was told OK for are, in order, the first of the ids whose write jobs have finished. */
  lemma StandardChunksAnswerAfterWriting(run: seq<Session>, steps: seq<Step>, i: nat)
    requires IsRun(run, steps) && i < |run| && run[0].standard
    ensures RepliedIn(Buffers(run[i].queue, run[i].input)) == 0 && !run[i].past.BlockLost()
    ensures run[i].wire.state == WriteLast && !run[i].past.failed && run[i].wire.replies != [] ==>
              AnsweredAreWritten(run[i])
  {
    hide Inv, Apply, CanTake, Init;
    LockedHolds(run, steps, i);
    NoneCounts(Buffers(run[i].queue, run[i].input));
    if run[i].wire.state == WriteLast && !run[i].past.failed && run[i].wire.replies != [] {
      AnsweredAreWrittenIffNoneHeld(run, steps, i);
    }
  }

  /** A lock ends with OK exactly if no acknowledged block failed in a write job that the session looked at and the
      close of the chunk, if it is open, reports no error. */
  lemma LockEndsWithOkIff(run: seq<Session>, steps: seq<Step>, i: nat, closeStatus: Status)
    requires IsRun(run, steps) && i < |run|
    ensures run[i].EndStatus(closeStatus).Some? == run[i].locked
    ensures run[i].locked ==>
              (run[i].EndStatus(closeStatus).value == OK <==>
                 !run[i].past.lost && (run[i].open ==> closeStatus == OK))
  {
    hide Apply, CanTake, Init;
    InvHolds(run, steps, i);
  }

  /** One block with write id 0 is acknowledged, its write job starts, the connection closes, and the job fails: the
      lock ends with OK. */
  lemma SomeLossIsNotReported() returns (run: seq<Session>, steps: seq<Step>)
    ensures IsRun(run, steps) && |steps| == 5 && steps[3].Close? && run[5].pending == 0
    ensures run[5].past.BlockLost() && run[5].EndStatus(OK) == Some(OK)
  {
    hide Session.OpenDone, Session.Prepare, Session.Process;
    OpensAtOnce();
    Prepares();
    Processes();
    var closing := Mistaken().(closing := true, pending := 1, job := InFlight(0, OnClose));
    var end := closing.(pending := 0, job := InFlight(0, Called), past := Past([0], [], false, false, true, true));
    assert Mistaken().DelayedClose() == closing;
    FailsUnread(closing);
    run := [Started(), Opened(), Awaiting(), Mistaken(), closing, end];
    steps := [OpenFinished(OK, true), PrepareBlock, ProcessBlock(0), Close, CloseFinished(IO, false, [IO])];
  }

  lemma FailsUnread(s: Session)
    requires s == Mistaken().(closing := true, pending := 1, job := InFlight(0, OnClose))
    ensures s.LeftStatuses([IO])
    ensures s.CloseCallback(IO, false, [IO])
         == s.(pending := 0, job := InFlight(0, Called), past := Past([0], [], false, false, true, true))
  {
    assert s.queue[..1] == s.queue && Ids(s.queue) == [0] + Ids([]);
    var statuses := [IO];
    assert statuses[0] != OK;
    assert LosesReplied(s.queue[..1], statuses);
    assert s.AfterClose([IO]) == Past([0], [], false, false, true, true);
    assert s.OpenedClosing(IO, false) == s.(job := InFlight(0, Called));
  }
}
