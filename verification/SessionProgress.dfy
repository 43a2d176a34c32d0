/** A write session is never idle while there is something to write. */
module SessionProgress {
  import opened Common
  import opened WriteSessions
  import opened SessionInvariants
  import opened SessionSteps
  import opened SessionTheorems

  /** Without a job in flight, nothing waits: in batching mode no released batch, otherwise no buffer and no received
      block. */
  predicate NothingWaits(s: Session) {
    if s.expectsFlush then s.batches == [] else s.queue == [] && (s.input.None? || s.input.value.updating)
  }

  predicate Busy(s: Session) {
    !s.closing && !s.past.failed && s.job.Idle? ==> NothingWaits(s)
  }

  /** Replies change neither what is queued nor what is in flight. */
  lemma ReplyKeepsWork(s: Session, fromFlush: bool)
    requires Base(s)
    ensures var r := s.TryReply(fromFlush);
            && r.job == s.job && r.batches == s.batches && r.expectsFlush == s.expectsFlush && r.closing == s.closing
                && r.past == s.past
            && |r.queue| == |s.queue| && r.input.Some? == s.input.Some?
                && (r.input.Some? ==> r.input.value.updating == s.input.value.updating)
            && r.ready == s.ready && r.enqueued == s.enqueued && Base(r)
  {
    hide Base, Session.TryReply;
    TryReplyKeeps(s, fromFlush);
  }

  /** After `StartNext` a job is in flight unless there is nothing it could start. */
  lemma StartedUnlessNothing(s: Session)
    requires Base(s) && s.job.Idle? && !s.closing
    ensures var r := s.StartNext();
            && r.queue == s.queue && r.input == s.input && r.expectsFlush == s.expectsFlush && r.closing == s.closing
                && r.past == s.past
            && (r.job.Idle? ==> r.batches == s.batches && if s.expectsFlush then s.batches == [] else s.queue == [])
  {
    if s.expectsFlush && s.batches != [] {
      FlushStarts(s.batching, s.queue, s.batches, s.ready);
    }
  }

  lemma WriteInputWorks(s: Session)
    requires Base(s) && s.input.Some? && !s.input.value.updating && !s.closing && Busy(s) && !s.past.failed
    ensures Busy(s.WriteInput())
  {
    hide Base, Session.StartNext;
    FreezeKeeps(s);
    if s.job.Idle? {
      StartedUnlessNothing(s.Freeze());
    } else {
      NoStart(s.Freeze());
    }
  }

  lemma NoStart(s: Session)
    requires s.job.InFlight?
    ensures s.StartNext() == s
  {
  }

  lemma ContinueWorks(s: Session)
    requires Base(s) && s.job.Idle? && !s.closing
    ensures Busy(s.Continue())
  {
    hide Base, Session.TryReply, Session.StartNext;
    ReplyKeepsWork(s, false);
    var r := s.TryReply(false);
    StartedUnlessNothing(r);
    if r.CanStart() {
      assert s.Continue() == r.StartNext();
    } else {
      NothingToStart(r);
      if r.ShouldWriteInput() {
        FreezeKeeps(r);
        StartedUnlessNothing(r.Freeze());
        assert s.Continue() == r.Freeze().StartNext();
      } else {
        assert s.Continue() == r;
      }
    }
  }

  lemma NothingToStart(s: Session)
    requires Base(s) && s.job.Idle? && !s.CanStart()
    ensures if s.expectsFlush then s.batches == [] else s.queue == []
  {
    if s.expectsFlush && s.batches != [] {
      FlushStarts(s.batching, s.queue, s.batches, s.ready);
    }
  }

  lemma PrepareWorks(s: Session)
    requires Inv(s) && CanTake(s, PrepareBlock) && Busy(s)
    ensures Busy(s.Prepare())
  {
    hide Inv, Session.WriteInput;
    if s.input.Some? && s.input.value.Full() {
      BaseHolds(s);
      if !s.past.failed {
        WriteInputWorks(s);
      }
      WriteInputKeeps(s);
      StartedPast(s);
    }
  }

  lemma ProcessWorks(s: Session, id: nat)
    requires Inv(s) && CanTake(s, ProcessBlock(id)) && Busy(s)
    ensures Busy(s.Process(id))
  {
    hide Inv, Base, Session.TryReply, Session.WriteInput, Session.StartNext;
    var s1 := s.(input := Some(Landed(s.input.value, id)), past := s.past.(received := s.past.received + [id]));
    ReceivedKeeps(s, id);
    BaseHolds(s1);
    ReplyKeepsWork(s1, false);
    var r := s1.TryReply(false);
    if !s.past.failed {
      if r.ShouldWriteInput() {
        FreezeKeeps(r);
        if r.job.Idle? {
          StartedUnlessNothing(r.Freeze());
        } else {
          NoStart(r.Freeze());
        }
        WriteInputIs(r);
      }
      assert s.Process(id) == if r.ShouldWriteInput() then r.WriteInput() else r;
    } else {
      StartedPast(r);
      assert s.Process(id) == if r.ShouldWriteInput() then r.WriteInput() else r;
    }
  }

  lemma WriteInputIs(s: Session)
    requires s.input.Some?
    ensures s.WriteInput() == s.Freeze().StartNext()
  {
  }

  lemma StartedPast(s: Session)
    ensures s.input.Some? ==> s.WriteInput().past == s.past
  {
  }

  lemma FlushWorks(s: Session)
    requires Inv(s) && CanTake(s, FlushData) && Busy(s)
    ensures Busy(s.Flush())
  {
    hide Base, Session.TryReply, Session.StartNext, FreshInv;
    if s.batching {
      ReplyKeepsWork(s, true);
      var r := s.TryReply(true);
      var r1 := if r.input.Some? && r.input.value.ids != [] && !r.input.value.updating then r.Freeze() else r;
      if r.input.Some? && r.input.value.ids != [] && !r.input.value.updating {
        FreezeKeeps(r);
      }
      if r1.ready > 0 {
        var r2 := r1.(batches := r1.batches + [r1.ready], ready := 0);
        ReleasedKeeps(r1);
        if r2.job.Idle? {
          StartedUnlessNothing(r2);
        } else {
          NoStart(r2);
        }
        assert s.Flush() == r2.StartNext();
      }
    }
  }

  lemma ReleasedKeeps(s: Session)
    requires Base(s) && s.ready > 0 && s.expectsFlush
    ensures Base(s.(batches := s.batches + [s.ready], ready := 0))
  {
    hide QueueOk, InputOk, OrderInv, JobInv, PastInv, ReplyInv, OpenInv, SealInv, LostInv;
    SumAppend(s.batches, s.ready);
  }

  lemma OpenWorks(s: Session, status: Status, lock: bool)
    requires Inv(s) && CanTake(s, OpenFinished(status, lock))
    ensures Busy(s.OpenDone(status, lock))
  {
    hide Inv, Session.Continue, Session.OpenDone, Told, OpenAnswer;
    OpenJobIs(s);
    OpenDoneIs(s, status, lock);
    OpenAnswerIs(s, status, lock);
    OpenAnswered(s, status, lock);
    if status == OK {
      BaseHolds(OpenAnswer(s, status, lock));
      ContinueWorks(OpenAnswer(s, status, lock));
    }
  }

  lemma WriteWorks(s: Session, statuses: seq<Status>)
    requires Inv(s) && CanTake(s, WriteFinished(statuses))
    ensures Busy(s.WriteDone(statuses))
  {
    hide Inv, Session.Continue, Session.SettleBatch, Ids, LosesReplied;
    FinishKeeps(s, statuses);
    var s1 := s.Finish(statuses);
    if !s.closing && !s.SettleBatch(statuses).failed {
      ContinueWorks(s1);
    } else if s.closing {
      ClosingInput(s);
      ContinueKeeps(s1);
      assert s.WriteDone(statuses).closing;
    }
  }

  lemma SealWorks(s: Session)
    requires Inv(s) && CanTake(s, Seal) && Busy(s)
    ensures Busy(s.TrySeal().0)
  {
    hide Inv, Session.WriteInput, AllReplied;
    if s.input.Some? && !s.input.value.updating {
      BaseHolds(s);
      if !s.past.failed {
        WriteInputWorks(s);
      }
      StartedPast(s);
    }
  }

  lemma CloseFinishedWorks(s: Session, status: Status, lock: bool, statuses: seq<Status>)
    requires Inv(s) && CanTake(s, CloseFinished(status, lock, statuses)) && Busy(s)
    ensures Busy(s.CloseCallback(status, lock, statuses))
  {
    hide Inv, Session.CloseCallback;
    ReplacedJobIs(s);
    CloseAnswerIs(s, status, lock, statuses);
  }

  lemma StepKeepsBusy(s: Session, step: Step)
    requires Inv(s) && CanTake(s, step) && Busy(s)
    ensures Busy(Apply(s, step))
  {
    hide Inv, Session.Prepare, Session.Process, Session.Flush, Session.OpenDone, Session.WriteDone, Session.TrySeal,
        Session.TryReply, Session.DelayedClose, Session.CloseCallback;
    match step
    case PrepareBlock => PrepareWorks(s);
    case ProcessBlock(id) => ProcessWorks(s, id);
    case FlushData => FlushWorks(s);
    case OpenFinished(status, lock) => OpenWorks(s, status, lock);
    case WriteFinished(statuses) => WriteWorks(s, statuses);
    case Seal => SealWorks(s);
    case LoopReply => BaseHolds(s); ReplyKeepsWork(s, false);
    case Close => ClosesNow(s);
    case CloseFinished(status, lock, statuses) => CloseFinishedWorks(s, status, lock, statuses);
    case ChangeCredits(_) =>
    case ChainStatus(_, _) =>
    case LeaveWriting(_) =>
  }

  /** Until an error is told or the connection closes, a session whose open has answered always has a job in flight,
      or else has nothing to write: no queued buffer and no received block, or, batching, no released batch. */
  lemma {:induction false} NeverIdleWithWork(run: seq<Session>, steps: seq<Step>, i: nat)
    requires IsRun(run, steps) && i < |run|
    ensures Busy(run[i])
  {
    hide Inv, Apply, CanTake, Busy;
    if i == 0 {
      StartsBusy(run[0]);
    } else {
      NeverIdleWithWork(run, steps, i - 1);
      InvHolds(run, steps, i - 1);
      assert CanTake(run[i - 1], steps[i - 1]) && run[i - 1 + 1] == Apply(run[i - 1], steps[i - 1]);
      StepKeepsBusy(run[i - 1], steps[i - 1]);
    }
  }

  lemma StartsBusy(s: Session)
    requires Init(s)
    ensures Busy(s)
  {
  }
}
