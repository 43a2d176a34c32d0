/** What the client was told is on its way to the disk or has been there: the durability of acknowledgements. */
module AcknowledgedWrites {
  import opened Common
  import opened WriteSessions
  import opened ReplyOrder
  import opened SessionInvariants
  import opened SessionSteps
  import opened SessionTheorems
  import opened ClosedSessions
  import opened WriteCredits

  /** Besides the open, no more was answered than was written or is replied in a buffer; exactly as much if a replied
      block is still in a buffer. */
  ghost predicate Backed(wire: Wire, past: Past, queue: seq<Buffer>, input: Option<Buffer>) {
    wire.state == WriteLast && !past.failed ==>
      var replied := RepliedIn(Buffers(queue, input));
      |wire.replies| <= 1 + |past.written| + replied && (replied > 0 ==> |wire.replies| == 1 + |past.written| + replied)
  }

  lemma OpenSessionIsBacked(wire: Wire, past: Past, job: Job, queue: seq<Buffer>, input: Option<Buffer>, enqueued: nat)
    requires ReplyInv(wire, past, false, queue, input) && OpenInv(job, queue, input, enqueued, past)
    ensures Backed(wire, past, queue, input)
  {
    if !past.openAnswered {
      NoneCounts(Buffers(queue, input));
    }
    if wire.state == WriteLast && !past.failed && past.openAnswered {
      OksAt(past.received[..|past.written| + RepliedIn(Buffers(queue, input))]);
    }
  }

  lemma CloseTellsNothing(s: Session)
    ensures s.DelayedClose().wire == s.wire && s.DelayedClose().past == s.past
  {
    if s.OpenInFlight() {
      assert s.DelayedClose().wire == s.wire && s.DelayedClose().past == s.past;
    } else {
      hide Session.DelayedClose, Session.DropUnreplied, Session.StartNext;
      CloseIs(s);
      DropTellsNothing(s);
      StartTellsNothing(s.DropUnreplied().(expectsFlush := false));
    }
  }

  lemma DropTellsNothing(s: Session)
    ensures s.DropUnreplied().wire == s.wire && s.DropUnreplied().past == s.past
  {
    hide DropBack;
  }

  lemma StartTellsNothing(s: Session)
    ensures s.StartNext().wire == s.wire && s.StartNext().past == s.past && s.StartNext().closing == s.closing
  {
  }

  lemma CloseIsBacked(s: Session)
    requires Inv(s) && !s.closing && Backed(s.wire, s.past, s.queue, s.input)
    ensures var s' := s.DelayedClose(); Backed(s'.wire, s'.past, s'.queue, s'.input)
  {
    hide Inv, RepliedIn, Session.DelayedClose;
    CloseFunds(s);
    CloseTellsNothing(s);
  }

  /** A write job moves its blocks from the buffers to the disk. */
  lemma FinishIsBacked(s: Session, statuses: seq<Status>)
    requires Inv(s) && CanTake(s, WriteFinished(statuses)) && s.closing && Backed(s.wire, s.past, s.queue, s.input)
    ensures var s' := s.Finish(statuses); Backed(s'.wire, s'.past, s'.queue, s'.input)
  {
    hide RepliedIn, Ids, Session.SettleBatch, LosesReplied, RepliedFirst, Sane, PastInv, ReplyInv, FlushInv, QueueOk,
        OrderInv;
    RestKeepsOrder(s.queue, s.input, s.enqueued);
    SettleBatchEffect(s, statuses);
  }

  lemma DrainIsBacked(s: Session, statuses: seq<Status>)
    requires Inv(s) && CanTake(s, WriteFinished(statuses)) && s.closing && Backed(s.wire, s.past, s.queue, s.input)
    ensures var s' := s.WriteDone(statuses); Backed(s'.wire, s'.past, s'.queue, s'.input)
  {
    hide Session.SettleBatch, Session.Continue, Ids, RepliedIn, Backed, Inv, LosesReplied;
    FinishIsBacked(s, statuses);
    ClosingFinishTells(s, statuses);
    ClosingInput(s);
    ContinueClosing(s.Finish(statuses));
  }

  lemma OpenIsBacked(s: Session, status: Status, lock: bool, statuses: seq<Status>)
    requires Backed(s.wire, s.past, s.queue, s.input) && s.job.InFlight? && s.job.writeId == 0
    requires s.LeftStatuses(statuses)
    ensures var s' := s.CloseCallback(status, lock, statuses); Backed(s'.wire, s'.past, s'.queue, s'.input)
  {
    hide RepliedIn, Session.CloseCallback;
    CloseAnswerIs(s, status, lock, statuses);
  }

  lemma ClosingIsBacked(s: Session, step: Step)
    requires Inv(s) && CanTake(s, step) && s.closing && Backed(s.wire, s.past, s.queue, s.input)
    ensures var s' := Apply(s, step); Backed(s'.wire, s'.past, s'.queue, s'.input)
  {
    hide Inv, RepliedIn, Session.WriteDone, Session.TryReply, Session.CloseCallback, Ids;
    match step
    case OpenFinished(_, _) =>
      OpenJobIs(s);
      assert false;
    case WriteFinished(statuses) =>
      DrainIsBacked(s, statuses);
    case LoopReply =>
      NoReplyClosing(s);
    case CloseFinished(status, lock, statuses) =>
      ReplacedJobIs(s);
      OpenIsBacked(s, status, lock, statuses);
    case ChangeCredits(_) =>
    case ChainStatus(_, _) =>
    case LeaveWriting(_) =>
  }

  lemma {:induction false} BackedHolds(run: seq<Session>, steps: seq<Step>, i: nat)
    requires IsRun(run, steps) && i < |run|
    ensures Backed(run[i].wire, run[i].past, run[i].queue, run[i].input)
  {
    hide Backed, Apply, Inv;
    InvHolds(run, steps, i);
    if !run[i].closing {
      RepliesAre(run[i]);
      OpenSessionIsBacked(run[i].wire, run[i].past, run[i].job, run[i].queue, run[i].input, run[i].enqueued);
    } else if i > 0 {
      var s, step := run[i - 1], steps[i - 1];
      BackedHolds(run, steps, i - 1);
      InvHolds(run, steps, i - 1);
      assert CanTake(s, step) && run[i - 1 + 1] == Apply(s, step);
      if s.closing {
        ClosingIsBacked(s, step);
      } else {
        OnlyClosesClose(s, step);
        CloseIsBacked(s);
      }
    }
  }

  lemma RepliesAre(s: Session)
    requires Inv(s)
    ensures ReplyInv(s.wire, s.past, s.closing, s.queue, s.input)
        && OpenInv(s.job, s.queue, s.input, s.enqueued, s.past)
  {
  }

  // Nothing but a close closes a session.

  lemma ReplyStaysOpen(s: Session, fromFlush: bool)
    ensures s.TryReply(fromFlush).closing == s.closing
  {
    hide Acknowledge;
  }

  lemma WriteStaysOpen(s: Session)
    requires s.input.Some?
    ensures s.Freeze().closing == s.WriteInput().closing == s.closing
  {
    hide Session.StartNext;
    StartTellsNothing(s.Freeze());
  }

  lemma ContinueStaysOpen(s: Session)
    ensures s.Continue().closing == s.closing
  {
    hide Session.TryReply, Session.StartNext, Session.WriteInput;
    var r := s.TryReply(false);
    ReplyStaysOpen(s, false);
    StartTellsNothing(r);
    if r.input.Some? {
      WriteStaysOpen(r);
    }
  }

  lemma PrepareStaysOpen(s: Session)
    ensures s.Prepare().closing == s.closing
  {
    hide Session.WriteInput;
    if s.input.Some? {
      WriteStaysOpen(s);
    }
  }

  lemma ProcessStaysOpen(s: Session, id: nat)
    requires s.input.Some? && s.input.value.ids != []
    ensures s.Process(id).closing == s.closing
  {
    hide Session.TryReply, Session.WriteInput;
    var s1 := s.(input := Some(Landed(s.input.value, id)), past := s.past.(received := s.past.received + [id]));
    ReplyStaysOpen(s1, false);
    if s1.TryReply(false).input.Some? {
      WriteStaysOpen(s1.TryReply(false));
    }
  }

  lemma FlushStaysOpen(s: Session)
    ensures s.Flush().closing == s.closing
  {
    hide Session.TryReply, Session.StartNext, Session.Freeze;
    var r := s.TryReply(true);
    ReplyStaysOpen(s, true);
    if r.input.Some? {
      WriteStaysOpen(r);
    }
    var r1 := if r.input.Some? && r.input.value.ids != [] && !r.input.value.updating then r.Freeze() else r;
    StartTellsNothing(r1.(batches := r1.batches + [r1.ready], ready := 0));
  }

  lemma OpenDoneStaysOpen(s: Session, status: Status, lock: bool)
    requires s.OpenInFlight()
    ensures s.OpenDone(status, lock).closing == s.closing
  {
    hide Session.Continue, Session.OpenDone, Told, OpenAnswer;
    OpenDoneIs(s, status, lock);
    OpenAnswerIs(s, status, lock);
    ContinueStaysOpen(OpenAnswer(s, status, lock));
  }

  lemma WriteDoneStaysOpen(s: Session, statuses: seq<Status>)
    requires CanTake(s, WriteFinished(statuses)) && !s.closing
    ensures !s.WriteDone(statuses).closing
  {
    hide Session.SettleBatch, Session.Continue, Ids, LosesReplied;
    ContinueStaysOpen(s.Finish(statuses));
  }

  lemma SealStaysOpen(s: Session)
    ensures s.TrySeal().0.closing == s.closing
  {
    hide Session.WriteInput;
    if s.input.Some? {
      WriteStaysOpen(s);
    }
  }

  lemma OnlyClosesClose(s: Session, step: Step)
    requires Inv(s) && CanTake(s, step) && !s.closing && Apply(s, step).closing
    ensures step.Close? && Apply(s, step) == s.DelayedClose()
  {
    hide Session.Prepare, Session.Process, Session.Flush, Session.OpenDone, Session.WriteDone, Session.TrySeal,
        Session.TryReply, Session.DelayedClose;
    hide Session.CloseCallback, Told, Ids, Inv;
    match step
    case PrepareBlock => PrepareStaysOpen(s);
    case ProcessBlock(id) => ProcessStaysOpen(s, id);
    case FlushData => FlushStaysOpen(s);
    case OpenFinished(status, lock) => OpenJobIs(s); OpenDoneStaysOpen(s, status, lock);
    case WriteFinished(statuses) => WriteDoneStaysOpen(s, statuses);
    case Seal => SealStaysOpen(s);
    case LoopReply => ReplyStaysOpen(s, false);
    case Close =>
    case CloseFinished(_, _, _) => ReplacedJobIs(s); assert false;
    case ChangeCredits(_) =>
    case ChainStatus(_, _) =>
    case LeaveWriting(_) =>
  }

  lemma WrittenInOrder(s: Session)
    requires Inv(s)
    ensures s.past.written <= s.past.received
  {
  }

  ghost predicate AnsweredAreWritten(s: Session) {
    exists n :: 0 <= n <= |s.past.written| && s.wire.replies == Answers(s.past.written, n)
  }

  /** In every reachable state the ids a client at the end of the chain was told OK for are, in order, the first of
      those whose write jobs have finished, exactly if no buffer holds an acknowledged block. */
  lemma AnsweredAreWrittenIffNoneHeld(run: seq<Session>, steps: seq<Step>, i: nat)
    requires IsRun(run, steps) && i < |run|
    requires run[i].wire.state == WriteLast && !run[i].past.failed && run[i].wire.replies != []
    ensures AnsweredAreWritten(run[i]) <==> !HoldsReplied(run[i])
  {
    hide Inv, Apply, CanTake;
    var s := run[i];
    BackedHolds(run, steps, i);
    if HoldsReplied(s) {
      SomeCount(Buffers(s.queue, s.input));
      forall n | 0 <= n <= |s.past.written|
        ensures s.wire.replies != Answers(s.past.written, n)
      {
        OksAt(s.past.written[..n]);
      }
    } else {
      NoneCounts(Buffers(s.queue, s.input));
      ClientHearsEachIdOnceInOrder(run, steps, i);
      var n :| 0 <= n <= |s.past.received| && s.wire.replies == Answers(s.past.received, n);
      OksAt(s.past.received[..n]);
      InvHolds(run, steps, i);
      WrittenInOrder(s);
      assert |s.wire.replies| == n + 1;
      assert s.past.received[..n] == s.past.written[..n];
      assert s.wire.replies == Answers(s.past.written, n);
    }
  }

  lemma {:induction false} SomeCount(buffers: seq<Buffer>)
    requires !NoneReplied(buffers)
    ensures RepliedIn(buffers) > 0
  {
    var i :| 0 <= i < |buffers| && buffers[i].replied != 0;
    IdsAround(buffers, i);
  }

  /** When a session is complete, the ids its client was told OK for are the first of those whose write jobs have
      finished. */
  lemma CompleteAnswersAreWritten(run: seq<Session>, steps: seq<Step>, i: nat)
    requires IsRun(run, steps) && i < |run| && run[i].Completed()
    requires run[i].wire.state == WriteLast && !run[i].past.failed && run[i].wire.replies != []
    ensures AnsweredAreWritten(run[i])
  {
    CompleteSessionIsWritten(run, steps, i);
    AnsweredAreWrittenIffNoneHeld(run, steps, i);
  }

  /** When a close has drained, so are they, exactly unless the close took a write job for the open job while a buffer
      held an acknowledged block. */
  lemma ClosedAnswersAreWritten(run: seq<Session>, steps: seq<Step>, k: nat, j: nat)
    requires IsRun(run, steps) && k < j < |run| && steps[k].Close? && run[j].pending == 0
    requires run[j].wire.state == WriteLast && !run[j].past.failed && run[j].wire.replies != []
    ensures AnsweredAreWritten(run[j]) <==> !(TakesJobForOpen(run[k]) && HoldsReplied(run[k]))
  {
    CloseAbandonsIffJobPassesForOpen(run, steps, k, j);
    AnsweredAreWrittenIffNoneHeld(run, steps, j);
  }
}
