/** Write buffering credits: every block acknowledged early holds one, from its reply until its buffer is given back. */
module WriteCredits {
  import opened Common
  import opened WriteSessions
  import opened ReplyOrder
  import opened SessionInvariants
  import opened SessionSteps
  import opened SessionTheorems

  /** The credits available to the server and those the session holds. */
  function Funds(s: Session): int {
    s.wire.available + RepliedIn(Buffers(s.queue, s.input))
  }

  lemma ReplyFunds(s: Session, fromFlush: bool)
    requires Base(s)
    ensures Funds(s.TryReply(fromFlush)) == Funds(s)
    ensures s.wire.available >= 0 ==> s.TryReply(fromFlush).wire.available >= 0
  {
    hide Acknowledge, RepliedIn, PastInv, FlushInv, ReplyInv;
    if s.MayReplyInstantly(fromFlush) {
      AcknowledgeReplies(s.queue, s.input, s.enqueued, s.wire);
    }
  }

  lemma FreezeFunds(s: Session)
    requires s.input.Some?
    ensures Funds(s.Freeze()) == Funds(s) && Funds(s.WriteInput()) == Funds(s)
  {
    hide RepliedIn;
    assert Buffers(s.Freeze().queue, s.Freeze().input) == Buffers(s.queue, s.input);
    StartFunds(s.Freeze());
  }

  lemma StartFunds(s: Session)
    ensures Funds(s.StartNext()) == Funds(s)
  {
  }

  lemma ContinueFunds(s: Session)
    requires Base(s)
    ensures Funds(s.Continue()) == Funds(s)
  {
    hide Base, Funds, Session.TryReply, Session.StartNext, Session.WriteInput;
    ReplyFunds(s, false);
    var r := s.TryReply(false);
    StartFunds(r);
    if r.input.Some? {
      FreezeFunds(r);
    }
  }

  lemma PrepareFunds(s: Session)
    requires Inv(s) && CanTake(s, PrepareBlock)
    ensures Funds(s.Prepare()) == Funds(s)
  {
    hide Inv, RepliedIn, Session.WriteInput;
    if s.input.Some? {
      FreezeFunds(s);
      WriteInputKeeps(s);
    }
    var s0 := if s.input.Some? && s.input.value.Full() then s.WriteInput() else s;
    BuffersIds(s0.queue, s0.input);
    BuffersIds(s.Prepare().queue, s.Prepare().input);
  }

  lemma ProcessFunds(s: Session, id: nat)
    requires Inv(s) && CanTake(s, ProcessBlock(id))
    ensures Funds(s.Process(id)) == Funds(s)
  {
    hide Inv, RepliedIn, Session.WriteInput, Session.TryReply;
    var s1 := s.(input := Some(Landed(s.input.value, id)), past := s.past.(received := s.past.received + [id]));
    ReceivedKeeps(s, id);
    BuffersIds(s.queue, s.input);
    BuffersIds(s1.queue, s1.input);
    BaseHolds(s1);
    ReplyFunds(s1, false);
    if s1.TryReply(false).input.Some? {
      FreezeFunds(s1.TryReply(false));
    }
  }

  lemma FlushFunds(s: Session)
    requires Inv(s)
    ensures Funds(s.Flush()) == Funds(s)
  {
    hide Inv, RepliedIn, Session.TryReply, Session.StartNext;
    BaseHolds(s);
    ReplyFunds(s, true);
    var r := s.TryReply(true);
    if r.input.Some? {
      FreezeFunds(r);
    }
    var r1 := if r.input.Some? && r.input.value.ids != [] && !r.input.value.updating then r.Freeze() else r;
    StartFunds(r1.(batches := r1.batches + [r1.ready], ready := 0));
  }

  lemma WriteDoneFunds(s: Session, statuses: seq<Status>)
    requires Inv(s) && CanTake(s, WriteFinished(statuses))
    ensures Funds(s.WriteDone(statuses)) == Funds(s)
  {
    hide Inv, RepliedIn, Ids, Session.SettleBatch, Session.Continue, LosesReplied;
    FinishFunds(s, statuses);
    FinishKeeps(s, statuses);
    ContinueFunds(s.Finish(statuses));
  }

  lemma FinishFunds(s: Session, statuses: seq<Status>)
    requires Inv(s) && CanTake(s, WriteFinished(statuses))
    ensures Funds(s.Finish(statuses)) == Funds(s)
  {
    hide RepliedIn, Ids, Session.SettleBatch, LosesReplied, RepliedFirst, Sane, OrderInv, PastInv, ReplyInv, FlushInv,
        QueueOk;
    RestKeepsOrder(s.queue, s.input, s.enqueued);
    SettleBatchEffect(s, statuses);
  }

  lemma ToldFunds(w: Wire, status: Status, id: nat)
    ensures Told(w, status, id).available == w.available
  {
  }

  lemma OpenFunds(s: Session, status: Status, lock: bool)
    requires Inv(s) && CanTake(s, OpenFinished(status, lock))
    ensures Funds(s.OpenDone(status, lock)) == Funds(s)
  {
    hide Inv, RepliedIn, Session.Continue, Session.OpenDone, Told, OpenAnswer;
    OpenJobIs(s);
    OpenDoneIs(s, status, lock);
    OpenAnswerIs(s, status, lock);
    ToldFunds(s.wire, status, 0);
    OpenAnswered(s, status, lock);
    if status == OK {
      BaseHolds(OpenAnswer(s, status, lock));
      ContinueFunds(OpenAnswer(s, status, lock));
    }
  }

  lemma SealFunds(s: Session)
    ensures Funds(s.TrySeal().0) == Funds(s)
  {
    if s.input.Some? {
      FreezeFunds(s);
    }
  }

  lemma LeftFunds(kept: seq<Buffer>, left: seq<Buffer>)
    requires left <= kept && NoneReplied(kept[|left|..])
    ensures RepliedIn(left) == RepliedIn(kept)
  {
    assert kept == left + kept[|left|..];
    IdsAppend(left, kept[|left|..]);
    NoneCounts(kept[|left|..]);
  }

  lemma CloseFunds(s: Session)
    requires Inv(s) && !s.closing
    ensures Funds(s.DelayedClose()) == Funds(s)
  {
    if !s.OpenInFlight() {
      hide Inv, RepliedIn, DropBack, Session.StartNext;
      DroppedBuffersWereUnreplied(s);
      var kept, s1 := Kept(s.queue, s.input), s.DropUnreplied();
      LeftFunds(kept, s1.queue);
      assert Funds(s1) == Funds(s);
      StartFunds(s1.(expectsFlush := false));
    }
  }

  /** No step creates or loses a credit: what the session holds and what is available add up to the same. */
  lemma CreditsAreConserved(run: seq<Session>, steps: seq<Step>, i: nat)
    requires IsRun(run, steps) && i < |steps| && !steps[i].ChangeCredits?
    ensures run[i + 1].wire.available + RepliedIn(Buffers(run[i + 1].queue, run[i + 1].input))
         == run[i].wire.available + RepliedIn(Buffers(run[i].queue, run[i].input))
  {
    hide Inv;
    InvHolds(run, steps, i);
    var s, step := run[i], steps[i];
    assert CanTake(s, step) && run[i + 1] == Apply(s, step);
    StepFunds(s, step);
  }

  lemma StepFunds(s: Session, step: Step)
    requires Inv(s) && CanTake(s, step) && !step.ChangeCredits?
    ensures Funds(Apply(s, step)) == Funds(s)
  {
    hide Inv, Session.Prepare, Session.Process, Session.Flush, Session.OpenDone, Session.WriteDone, Session.TrySeal,
        Session.TryReply, Session.DelayedClose;
    hide Session.CloseCallback, Told;
    match step
    case PrepareBlock => PrepareFunds(s);
    case ProcessBlock(id) => ProcessFunds(s, id);
    case FlushData => FlushFunds(s);
    case OpenFinished(status, lock) => OpenFunds(s, status, lock);
    case WriteFinished(statuses) => WriteDoneFunds(s, statuses);
    case Seal => SealFunds(s);
    case LoopReply => BaseHolds(s); ReplyFunds(s, false);
    case Close => CloseFunds(s);
    case CloseFinished(status, lock, statuses) => ReplacedJobIs(s); CloseFinishedFunds(s, status, lock, statuses);
    case ChainStatus(status, id) => ToldFunds(s.wire, status, id);
    case LeaveWriting(_) =>
  }

  lemma CloseFinishedFunds(s: Session, status: Status, lock: bool, statuses: seq<Status>)
    requires s.job.InFlight? && s.job.writeId == 0 && s.LeftStatuses(statuses)
    ensures Funds(s.CloseCallback(status, lock, statuses)) == Funds(s)
  {
    hide Session.CloseCallback;
    CloseAnswerIs(s, status, lock, statuses);
  }
}
