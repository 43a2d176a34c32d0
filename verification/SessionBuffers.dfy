/** The buffers of a session: none ever holds more blocks than it has room for. */
module SessionBuffers {
  import opened Common
  import opened WriteSessions
  import opened SessionInvariants
  import opened SessionSteps
  import opened SessionTheorems

  predicate Fits(b: Buffer, maxBlocks: nat) {
    |b.ids| <= b.capacity <= maxBlocks
  }

  ghost predicate AllFit(queue: seq<Buffer>, maxBlocks: nat) {
    forall i :: 0 <= i < |queue| ==> Fits(queue[i], maxBlocks)
  }

  /** Every buffer has room for its blocks, and so will the next have. */
  ghost predicate Sized(s: Session) {
    && 1 <= s.nextCount <= s.maxBlocks && AllFit(s.queue, s.maxBlocks)
    && (s.input.Some? ==> Fits(s.input.value, s.maxBlocks))
  }

  ghost predicate SameSizes(s: Session, s': Session) {
    s'.maxBlocks == s.maxBlocks && (Sized(s) ==> Sized(s'))
  }

  lemma {:induction false} ReplyFromFits(queue: seq<Buffer>, enqueued: nat, k: nat, w: Wire, maxBlocks: nat)
    requires k <= |queue| && AllFit(queue, maxBlocks)
    ensures AllFit(ReplyFrom(queue, enqueued, k, w).queue, maxBlocks)
    decreases |queue| - k
  {
    hide ReplyBuffer, Repliable;
    if k < |queue| {
      if queue[k].replied == |queue[k].ids| {
        ReplyFromFits(queue, enqueued, k + 1, w, maxBlocks);
      } else if Repliable(queue[k], w.available) && enqueued < k + 1 {
        ReplyFromFits(queue[k := Replied(queue[k])], enqueued, k + 1, ReplyBuffer(w, queue[k]), maxBlocks);
      }
    }
  }

  lemma ReplyFitsIn(s: Session, fromFlush: bool)
    ensures SameSizes(s, s.TryReply(fromFlush))
  {
    hide ReplyFrom, ReplyBuffer, AllFit, Session.MayReplyInstantly;
    if AllFit(s.queue, s.maxBlocks) {
      ReplyFromFits(s.queue, s.enqueued, 0, s.wire, s.maxBlocks);
    }
    if s.MayReplyInstantly(fromFlush) {
      var a := Acknowledge(s.queue, s.input, s.enqueued, s.wire);
      assert s.TryReply(fromFlush) == s.(queue := a.queue, input := a.input, wire := a.wire);
    }
  }

  lemma StartFitsIn(s: Session)
    ensures SameSizes(s, s.StartNext())
  {
    hide AllFit;
    if !s.CanStart() {
      assert s.StartNext() == s;
    }
  }

  lemma FreezeFitsIn(s: Session)
    requires s.input.Some?
    ensures SameSizes(s, s.Freeze())
  {
  }

  lemma WriteInputFitsIn(s: Session)
    requires s.input.Some?
    ensures SameSizes(s, s.WriteInput()) && s.WriteInput().input == None
  {
    hide Sized, Session.StartNext;
    FreezeFitsIn(s);
    StartFitsIn(s.Freeze());
    StartLeavesInput(s.Freeze());
  }

  lemma StartLeavesInput(s: Session)
    ensures s.StartNext().input == s.input
  {
  }

  lemma ContinueFitsIn(s: Session)
    ensures SameSizes(s, s.Continue())
  {
    hide Sized, Session.TryReply, Session.StartNext, Session.WriteInput;
    var r := s.TryReply(false);
    ReplyFitsIn(s, false);
    StartFitsIn(r);
    if r.input.Some? {
      WriteInputFitsIn(r);
    }
  }

  /** A full input buffer is passed on before a block is added, so the block has room. */
  lemma PrepareFitsIn(s: Session)
    ensures SameSizes(s, s.Prepare())
  {
    hide Session.WriteInput, AllFit;
    if s.input.Some? {
      WriteInputFitsIn(s);
    }
    var s0 := if s.input.Some? && s.input.value.Full() then s.WriteInput() else s;
    if s0.input.None? {
      var b := Extended(Buffer([], 0, s0.nextCount, false));
      assert s.Prepare() == s0.(input := Some(b), nextCount := Min(2 * s0.nextCount, s.maxBlocks));
    } else {
      assert s.Prepare() == s0.(input := Some(Extended(s0.input.value)));
    }
  }

  lemma ProcessFitsIn(s: Session, id: nat)
    requires s.input.Some? && s.input.value.ids != []
    ensures SameSizes(s, s.Process(id))
  {
    hide AllFit, Session.TryReply, Session.WriteInput;
    var s1 := s.(input := Some(Landed(s.input.value, id)), past := s.past.(received := s.past.received + [id]));
    assert SameSizes(s, s1);
    hide Sized;
    ReplyFitsIn(s1, false);
    if s1.TryReply(false).input.Some? {
      WriteInputFitsIn(s1.TryReply(false));
    }
  }

  lemma FlushFitsIn(s: Session)
    ensures SameSizes(s, s.Flush())
  {
    hide AllFit, Session.TryReply, Session.StartNext, Session.Freeze;
    var r := s.TryReply(true);
    ReplyFitsIn(s, true);
    if r.input.Some? {
      FreezeFitsIn(r);
    }
    var r1 := if r.input.Some? && r.input.value.ids != [] && !r.input.value.updating then r.Freeze() else r;
    StartFitsIn(r1.(batches := r1.batches + [r1.ready], ready := 0));
  }

  lemma SealFitsIn(s: Session)
    ensures SameSizes(s, s.TrySeal().0)
  {
    hide AllFit, Session.WriteInput, AllReplied;
    if s.input.Some? {
      WriteInputFitsIn(s);
    }
  }

  lemma DropFitsIn(s: Session)
    ensures SameSizes(s, s.DropUnreplied().(expectsFlush := false))
  {
    hide DropBack;
    var kept := Kept(s.queue, s.input);
    assert s.DropUnreplied().queue == DropBack(kept, s.enqueued) <= kept;
    if Sized(s) {
      assert AllFit(kept, s.maxBlocks);
    }
  }

  lemma DrainFitsIn(s: Session)
    ensures SameSizes(s, Drained(s))
  {
    hide Sized, Session.DropUnreplied, Session.StartNext;
    DropFitsIn(s);
    StartFitsIn(s.DropUnreplied().(expectsFlush := false));
  }

  lemma CloseFitsIn(s: Session)
    ensures SameSizes(s, s.DelayedClose())
  {
    hide AllFit;
    if s.OpenInFlight() {
      assert s.DelayedClose() == s.(closing := true, pending := s.pending + 1, job := s.job.(callback := OnClose));
    } else {
      hide Session.DelayedClose, Drained;
      CloseIs(s);
      DrainFitsIn(s);
    }
  }

  lemma OpenFitsIn(s: Session, status: Status, lock: bool)
    requires s.job == InFlight(0, OnOpen)
    ensures SameSizes(s, s.OpenDone(status, lock))
  {
    hide AllFit, Session.OpenDone, OpenAnswer, Session.Continue, Told;
    OpenDoneIs(s, status, lock);
    OpenAnswerIs(s, status, lock);
    ContinueFitsIn(OpenAnswer(s, status, lock));
  }

  lemma FinishFitsIn(s: Session, statuses: seq<Status>)
    requires s.enqueued <= |s.queue| && |statuses| == |Ids(s.queue[..s.enqueued])|
    ensures SameSizes(s, s.Finish(statuses))
  {
    hide Session.SettleBatch, LosesReplied, Ids;
  }

  lemma WriteFitsIn(s: Session, statuses: seq<Status>)
    requires s.enqueued <= |s.queue| && |statuses| == |Ids(s.queue[..s.enqueued])|
    ensures SameSizes(s, s.WriteDone(statuses))
  {
    hide AllFit, Session.SettleBatch, Session.Finish, Session.Continue, Ids;
    FinishFitsIn(s, statuses);
    ContinueFitsIn(s.Finish(statuses));
  }

  lemma CloseFinishedFitsIn(s: Session, status: Status, lock: bool, statuses: seq<Status>)
    requires Inv(s) && CanTake(s, CloseFinished(status, lock, statuses))
    ensures SameSizes(s, s.CloseCallback(status, lock, statuses))
  {
    hide Inv, AllFit, Session.CloseCallback;
    ReplacedJobIs(s);
    CloseAnswerIs(s, status, lock, statuses);
  }

  lemma StepFitsIn(s: Session, step: Step)
    requires Inv(s) && CanTake(s, step)
    ensures SameSizes(s, Apply(s, step))
  {
    hide Inv, AllFit, Session.Prepare, Session.Process, Session.Flush, Session.OpenDone, Session.WriteDone,
        Session.TrySeal;
    hide Session.TryReply, Session.DelayedClose, Session.CloseCallback, Told;
    match step
    case PrepareBlock => PrepareFitsIn(s);
    case ProcessBlock(id) => ProcessFitsIn(s, id);
    case FlushData => FlushFitsIn(s);
    case OpenFinished(status, lock) => OpenJobIs(s); OpenFitsIn(s, status, lock);
    case WriteFinished(statuses) => WriteFitsIn(s, statuses);
    case Seal => SealFitsIn(s);
    case LoopReply => ReplyFitsIn(s, false);
    case Close => CloseFitsIn(s);
    case CloseFinished(status, lock, statuses) => CloseFinishedFitsIn(s, status, lock, statuses);
    case ChangeCredits(_) =>
    case ChainStatus(_, _) =>
    case LeaveWriting(_) =>
  }

  lemma {:induction false} SizedHolds(run: seq<Session>, steps: seq<Step>, i: nat)
    requires IsRun(run, steps) && i < |run|
    requires run[0].maxBlocks >= 1 && run[0].nextCount == Min(4, run[0].maxBlocks)
    ensures Sized(run[i]) && run[i].maxBlocks == run[0].maxBlocks
  {
    if i > 0 {
      hide Inv, Apply, CanTake, Sized, Init;
      SizedHolds(run, steps, i - 1);
      InvHolds(run, steps, i - 1);
      assert CanTake(run[i - 1], steps[i - 1]) && run[i - 1 + 1] == Apply(run[i - 1], steps[i - 1]);
      StepFitsIn(run[i - 1], steps[i - 1]);
    }
  }

  /** In every reachable state every buffer, queued or current, holds at most as many blocks as it was made for, and was
      made for at most as many as a write job may have. */
  lemma BuffersNeverOverflow(run: seq<Session>, steps: seq<Step>, i: nat)
    requires IsRun(run, steps) && i < |run|
    requires run[0].maxBlocks >= 1 && run[0].nextCount == Min(4, run[0].maxBlocks)
    ensures var all := Buffers(run[i].queue, run[i].input);
            forall k :: 0 <= k < |all| ==> |all[k].ids| <= all[k].capacity <= run[0].maxBlocks
  {
    hide Inv, Apply, CanTake, Init;
    SizedHolds(run, steps, i);
  }
}
