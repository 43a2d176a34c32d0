/** What a write session guarantees over whole runs. */
module SessionTheorems {
  import opened Common
  import opened WriteSessions
  import opened ReplyOrder
  import opened SessionInvariants
  import opened SessionSteps

  /** A session just set up: its open job is on the way. */
  ghost predicate Init(s: Session) {
    && s.queue == [] && s.input.None? && s.job == InFlight(0, OnOpen) && s.enqueued == 0 && s.expectsFlush == s.batching
        && s.batches == [] && s.ready == 0
    && !s.open && !s.sealed && !s.closing && s.untold == OK && s.pending == 0
    && s.wire.replies == [] && s.wire.partial == {}
    && s.past == Past([], [], false, false, false, false)
  }

  ghost predicate IsRun(run: seq<Session>, steps: seq<Step>) {
    && |run| == |steps| + 1 && Init(run[0])
    && forall i :: 0 <= i < |steps| ==> CanTake(run[i], steps[i]) && run[i + 1] == Apply(run[i], steps[i])
  }

  lemma {:induction false} InvHolds(run: seq<Session>, steps: seq<Step>, i: nat)
    requires IsRun(run, steps) && i < |run|
    ensures Inv(run[i])
  {
    hide Inv, Apply, CanTake;
    if i == 0 {
      InitInv(run[0]);
    } else {
      InvHolds(run, steps, i - 1);
      assert CanTake(run[i - 1], steps[i - 1]) && run[i - 1 + 1] == Apply(run[i - 1], steps[i - 1]);
      StepKeepsInv(run[i - 1], steps[i - 1]);
    }
  }

  lemma InitInv(s: Session)
    requires Init(s)
    ensures Inv(s)
  {
  }

  // Acknowledgements.

  /** The replied blocks of all buffers are always the first ones received that are still in a buffer. */
  lemma RepliedBlocksComeFirst(run: seq<Session>, steps: seq<Step>, i: nat)
    requires IsRun(run, steps) && i < |run|
    ensures RepliedFirst(Buffers(run[i].queue, run[i].input)) && Sane(Buffers(run[i].queue, run[i].input))
  {
    hide Apply, CanTake;
    InvHolds(run, steps, i);
  }

  /** A client at the end of the chain hears OK for the open and then for each write id it sent, at most once, in
      the order it sent them and without gaps, until the first error or the close. */
  lemma ClientHearsEachIdOnceInOrder(run: seq<Session>, steps: seq<Step>, i: nat)
    requires IsRun(run, steps) && i < |run| && run[i].wire.state == WriteLast && !run[i].past.failed
        && run[i].wire.replies != []
    ensures exists n :: 0 <= n <= |run[i].past.received| && run[i].wire.replies == Answers(run[i].past.received, n)
  {
    hide Apply, CanTake;
    InvHolds(run, steps, i);
    AnswersExist(run[i].wire, run[i].past, run[i].closing, run[i].queue, run[i].input);
  }

  lemma AnswersExist(wire: Wire, past: Past, closing: bool, queue: seq<Buffer>, input: Option<Buffer>)
    requires ReplyInv(wire, past, closing, queue, input) && wire.state == WriteLast && !past.failed
        && wire.replies != []
    ensures exists n :: 0 <= n <= |past.received| && wire.replies == Answers(past.received, n)
  {
  }

  /** The first error is told for the first block not answered before it, and nothing was skipped. */
  lemma FirstErrorIsNextInOrder(run: seq<Session>, steps: seq<Step>, k: nat)
    requires IsRun(run, steps) && k < |steps| && steps[k].WriteFinished?
    requires run[k].wire.state == WriteLast && !run[k].past.failed && !run[k].closing && run[k + 1].past.failed
    ensures exists n, e :: 0 <= n < |run[k].past.received| && e != OK
              && run[k + 1].wire.replies == Answers(run[k].past.received, n) + [Reply(e, run[k].past.received[n])]
  {
    hide Inv, Apply;
    InvHolds(run, steps, k);
    assert CanTake(run[k], steps[k]) && run[k + 1] == Apply(run[k], steps[k]);
    FailureIs(run[k], steps[k].statuses);
  }

  lemma FailureIs(s: Session, statuses: seq<Status>)
    requires Inv(s) && CanTake(s, WriteFinished(statuses)) && s.wire.state == WriteLast && !s.past.failed && !s.closing
    requires Apply(s, WriteFinished(statuses)).past.failed
    ensures exists n, e :: 0 <= n < |s.past.received| && e != OK
              && Apply(s, WriteFinished(statuses)).wire.replies
                  == Answers(s.past.received, n) + [Reply(e, s.past.received[n])]
  {
    hide Inv, Session.Continue, Ids, RepliedIn, Settle, Answers, FirstError, Oks;
    FinishKeeps(s, statuses);
    if !s.SettleBatch(statuses).failed {
      ContinueKeeps(s.Finish(statuses));
      assert false;
    }
    var batch := s.queue[..s.enqueued];
    var ids, R, w := Ids(batch), RepliedIn(batch), s.wire.(available := s.wire.available + RepliedIn(batch));
    var k := AnswersBefore(s);
    SettleReplies(statuses, ids, R, w, s.untold);
    var e := FirstError(statuses, R);
    JobIsNext(s, R, e);
    AnswersExtend(s.past.received, k, |s.past.written| + e);
  }

  lemma AnswersBefore(s: Session) returns (k: nat)
    requires Inv(s) && s.wire.state == WriteLast && !s.past.failed && !s.closing && s.Writing()
        && s.enqueued <= |s.queue|
    ensures k == |s.past.written| + RepliedIn(Buffers(s.queue, s.input)) <= |s.past.received|
        && s.wire.replies == Answers(s.past.received, k)
    ensures RepliedIn(s.queue[..s.enqueued]) <= |Ids(s.queue[..s.enqueued])|
  {
    hide RepliedIn, Answers, PastInv, FlushInv, OrderInv, QueueOk;
    k := |s.past.written| + RepliedIn(Buffers(s.queue, s.input));
    RestKeepsOrder(s.queue, s.input, s.enqueued);
  }

  /** A block of the running job that is not replied is the next to be answered. */
  lemma JobIsNext(s: Session, R: nat, e: nat)
    requires Inv(s) && !s.closing && s.enqueued <= |s.queue|
        && R == RepliedIn(s.queue[..s.enqueued]) <= e < |Ids(s.queue[..s.enqueued])|
    ensures RepliedIn(Buffers(s.queue, s.input)) == R && |s.past.written| + e < |s.past.received|
    ensures s.past.received[|s.past.written| + e] == Ids(s.queue[..s.enqueued])[e]
    ensures s.past.received[|s.past.written| + R..|s.past.written| + e] == Ids(s.queue[..s.enqueued])[R..e]
  {
    hide RepliedIn, Answers, FlushInv, OrderInv, QueueOk, ReplyInv, Ids;
    RestKeepsOrder(s.queue, s.input, s.enqueued);
    PastWritten(s.past, s.queue, s.input, false, s.enqueued);
    var ids := Ids(s.queue[..s.enqueued]);
    assert s.past.received == s.past.written + ids + (Ids(s.queue[s.enqueued..]) + Finished(s.input));
  }

  // Sessions that end.

  /** What is replied of a complete session has been through its write job. */
  lemma CompleteSessionIsWritten(run: seq<Session>, steps: seq<Step>, i: nat)
    requires IsRun(run, steps) && i < |run| && run[i].Completed()
    ensures NoneReplied(Buffers(run[i].queue, run[i].input))
  {
    hide Apply, CanTake;
    InvHolds(run, steps, i);
  }

  /** Buffers dropped by a close hold no acknowledged block either. */
  lemma DroppedBuffersWereUnreplied(s: Session)
    requires Inv(s) && !s.closing && !s.OpenInFlight()
    ensures var kept := Kept(s.queue, s.input);
            && s.DropUnreplied().queue <= kept && NoneReplied(kept[|s.DropUnreplied().queue|..])
            && RepliedIn(kept) == RepliedIn(Buffers(s.queue, s.input))
  {
    hide RepliedIn, ReplyInv, PastInv, FlushInv, OrderInv, QueueOk, Ids;
    var kept := Kept(s.queue, s.input);
    assert s.DropUnreplied().queue == DropBack(kept, s.enqueued);
    DropBackKeeps(kept, s.enqueued);
    BuffersIds(s.queue, s.input);
    if s.input.Some? && s.input.value.replied > 0 {
      BuffersIds(s.queue, Some(WithoutUnfinished(s.input.value)));
    }
  }

  // Closing.

  predicate IsCallback(step: Step) {
    step.WriteFinished? || step.CloseFinished?
  }

  /** A callback of a closing session is on the way. */
  predicate Due(s: Session) {
    s.job.InFlight? && (s.job.callback == OnWrite || s.job.callback == OnClose)
  }

  function Callbacks(steps: seq<Step>): nat {
    if steps == [] then 0 else Callbacks(steps[..|steps| - 1]) + (if IsCallback(steps[|steps| - 1]) then 1 else 0)
  }

  lemma ClosingStep(s: Session, step: Step)
    requires Inv(s) && CanTake(s, step) && s.closing
    ensures Apply(s, step).closing && Apply(s, step).pending == s.pending - (if IsCallback(step) then 1 else 0)
  {
    hide Inv, Session.WriteDone, Session.TryReply, Session.CloseCallback, Ids, Told;
    match step
    case OpenFinished(_, _) =>
      OpenJobIs(s);
      assert false;
    case WriteFinished(statuses) =>
      ClosingWrite(s, statuses);
    case LoopReply =>
      NoReplyClosing(s);
    case CloseFinished(status, lock, statuses) =>
      ClosingAnswer(s, status, lock, statuses);
    case ChangeCredits(_) =>
    case ChainStatus(_, _) =>
    case LeaveWriting(_) =>
  }

  lemma ClosingWrite(s: Session, statuses: seq<Status>)
    requires Inv(s) && CanTake(s, WriteFinished(statuses)) && s.closing
    ensures s.WriteDone(statuses).closing && s.WriteDone(statuses).pending == s.pending - 1
  {
    hide Inv, Session.Continue, Session.SettleBatch, Ids, LosesReplied;
    ClosingFinishTells(s, statuses);
    FinishKeeps(s, statuses);
    ClosingInput(s);
    ContinueKeeps(s.Finish(statuses));
  }

  lemma ClosingAnswer(s: Session, status: Status, lock: bool, statuses: seq<Status>)
    requires Inv(s) && CanTake(s, CloseFinished(status, lock, statuses))
    ensures var s' := s.CloseCallback(status, lock, statuses); s'.closing == s.closing && s'.pending == s.pending - 1
  {
    hide Inv, Session.CloseCallback;
    ReplacedJobIs(s);
    CloseAnswerIs(s, status, lock, statuses);
  }

  lemma NoReplyClosing(s: Session)
    requires s.closing
    ensures s.TryReply(false) == s
  {
    hide Acknowledge;
  }

  lemma ReplacedJobIs(s: Session)
    requires Inv(s) && s.job.InFlight? && s.job.callback == OnClose
    ensures s.job.writeId == 0 && s.closing
  {
  }

  lemma ClosingInput(s: Session)
    requires Inv(s) && s.closing && s.Writing()
    ensures s.input.None? && !s.expectsFlush
  {
  }

  /** What a close adds to the connection's count is the number of callbacks that will come: after each the count is
      one less, and while it is positive one is due. */
  lemma {:induction false} CloseCountsCallbacks(run: seq<Session>, steps: seq<Step>, k: nat, j: nat)
    requires IsRun(run, steps) && k < j < |run| && steps[k].Close?
    ensures run[j].closing && run[j].pending + Callbacks(steps[k + 1..j]) == run[k + 1].pending && 0 <= run[j].pending
    ensures run[j].pending > 0 <==> Due(run[j])
    decreases j
  {
    hide Inv, Apply;
    InvHolds(run, steps, j);
    if j == k + 1 {
      assert CanTake(run[k], steps[k]) && run[k + 1] == Apply(run[k], steps[k]);
      InvHolds(run, steps, k);
      ClosesNow(run[k]);
      CloseApplies(run[k], steps[k]);
      assert steps[k + 1..j] == [];
    } else {
      CloseCountsCallbacks(run, steps, k, j - 1);
      InvHolds(run, steps, j - 1);
      assert CanTake(run[j - 1], steps[j - 1]) && run[j - 1 + 1] == Apply(run[j - 1], steps[j - 1]);
      ClosingStep(run[j - 1], steps[j - 1]);
      var more := steps[k + 1..j];
      assert more[..|more| - 1] == steps[k + 1..j - 1];
    }
    DueIs(run[j]);
  }

  lemma ClosesNow(s: Session)
    requires Inv(s) && !s.closing
    ensures s.DelayedClose().closing
  {
    if !s.OpenInFlight() {
      hide Inv, Session.DelayedClose, Drained;
      DrainStarts(s);
      CloseIs(s);
    }
  }

  lemma CloseApplies(s: Session, step: Step)
    requires CanTake(s, step) && step.Close?
    ensures Apply(s, step) == s.DelayedClose() && !s.closing
  {
  }

  lemma DueIs(s: Session)
    requires Inv(s) && s.closing
    ensures 0 <= s.pending && (s.pending > 0 <==> Due(s))
  {
  }

  // Flush batching.

  /** While flush batching is on, every queued buffer is enqueued, in a released batch or ready for the next flush,
      and a write job finds all buffers of its batch. */
  lemma FlushAccountsForEveryBuffer(run: seq<Session>, steps: seq<Step>, i: nat)
    requires IsRun(run, steps) && i < |run| && run[i].expectsFlush
    ensures |run[i].queue| == run[i].enqueued + Sum(run[i].batches) + run[i].ready
    ensures run[i].CanStart() ==>
        0 < run[i].batches[0] <= |run[i].queue| && run[i].StartNext().enqueued == run[i].batches[0]
  {
    hide Apply, CanTake;
    InvHolds(run, steps, i);
    if run[i].CanStart() {
      BatchIsAvailable(run[i]);
    }
  }

  /** A sealed session that batches has no buffer outside a released batch. */
  lemma SealedSessionHasNothingReady(run: seq<Session>, steps: seq<Step>, i: nat)
    requires IsRun(run, steps) && i < |run| && run[i].expectsFlush && run[i].sealed
    ensures run[i].ready == 0 && run[i].input.None? && |run[i].queue| == run[i].enqueued + Sum(run[i].batches)
  {
    hide Apply, CanTake;
    InvHolds(run, steps, i);
    SealedIs(run[i]);
  }

  lemma SealedIs(s: Session)
    requires Inv(s) && s.expectsFlush && s.sealed
    ensures s.ready == 0 && s.input.None? && |s.queue| == s.enqueued + Sum(s.batches)
  {
    ReadyAreUnreplied(s.queue, s.ready);
  }

  lemma ReadyAreUnreplied(queue: seq<Buffer>, ready: nat)
    requires QueueOk(queue) && ready <= |queue| && NoneReplied(queue[|queue| - ready..])
    ensures ready > 0 ==> !FullyReplied(queue[|queue| - ready])
  {
    if ready > 0 {
      assert queue[|queue| - ready] == queue[|queue| - ready..][0] && Complete(queue[|queue| - ready]);
    }
  }
}
