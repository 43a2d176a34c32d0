/** What becomes of acknowledged blocks when the connection closes: all go through their write jobs, except when the
    close takes the write job in flight for the open job. */
module ClosedSessions {
  import opened Common
  import opened WriteSessions
  import opened ReplyOrder
  import opened SessionInvariants
  import opened SessionSteps
  import opened SessionTheorems

  /** A write job is in flight that the session takes for its open job: the last id of its first buffer is 0. */
  predicate TakesJobForOpen(s: Session) {
    s.Writing() && s.queue != [] && LastId(s.queue[0]) == 0
  }

  /** A buffer holds a block that was acknowledged and that no write job has settled. */
  ghost predicate HoldsReplied(s: Session) {
    !NoneReplied(Buffers(s.queue, s.input))
  }

  /** The buffers of a write job are left in a closing session that waits for no write job. */
  predicate LeavesBuffers(s: Session) {
    s.closing && s.enqueued > 0 && !s.Writing()
  }

  /** Nothing happened to the buffers, and no status of theirs was looked at. */
  predicate SameBuffers(s: Session, s': Session) {
    s'.queue == s.queue && s'.input == s.input && s'.past.written == s.past.written && s'.untold == s.untold
  }

  lemma CloseLeaves(s: Session)
    requires Inv(s) && !s.closing
    ensures s.DelayedClose().closing && (LeavesBuffers(s.DelayedClose()) <==> TakesJobForOpen(s))
    ensures TakesJobForOpen(s) ==> SameBuffers(s, s.DelayedClose())
  {
    if s.OpenInFlight() {
      assert s.DelayedClose() == s.(closing := true, pending := s.pending + 1, job := s.job.(callback := OnClose));
      JobsOf(s);
    } else {
      hide Inv, Session.DelayedClose, Drained;
      DrainStarts(s);
      CloseIs(s);
      NoEnqueued(Drained(s));
      JobsOf(s);
    }
  }

  lemma JobsOf(s: Session)
    requires Inv(s) && !s.closing
    ensures s.Writing() <==> s.enqueued > 0
    ensures TakesJobForOpen(s) <==> s.Writing() && s.OpenInFlight()
  {
  }

  lemma NoEnqueued(s: Session)
    requires Base(s)
    ensures s.queue == [] ==> s.enqueued == 0
  {
  }

  lemma DrainLeaves(s: Session, statuses: seq<Status>)
    requires Inv(s) && CanTake(s, WriteFinished(statuses)) && s.closing
    ensures s.WriteDone(statuses).closing && !LeavesBuffers(s.WriteDone(statuses))
  {
    hide Inv, Session.SettleBatch, Session.Continue, Ids, LosesReplied;
    ClosingFinishTells(s, statuses);
    ClosingInput(s);
    ContinueClosing(s.Finish(statuses));
  }

  lemma AnswerLeaves(s: Session, status: Status, lock: bool, statuses: seq<Status>)
    requires s.closing && s.job.InFlight? && s.job.callback == OnClose && s.job.writeId == 0
    requires s.LeftStatuses(statuses)
    ensures var s' := s.CloseCallback(status, lock, statuses);
            s'.closing && (LeavesBuffers(s') <==> LeavesBuffers(s)) && SameBuffers(s, s')
  {
    hide Session.CloseCallback;
    CloseAnswerIs(s, status, lock, statuses);
  }

  lemma ClosingLeaves(s: Session, step: Step)
    requires Inv(s) && CanTake(s, step) && s.closing
    ensures var s' := Apply(s, step);
            && s'.closing && (LeavesBuffers(s') <==> LeavesBuffers(s))
            && (LeavesBuffers(s) ==> SameBuffers(s, s'))
  {
    hide Inv, Session.WriteDone, Session.TryReply, Session.CloseCallback, Told, Ids;
    match step
    case OpenFinished(_, _) =>
      OpenJobIs(s);
      assert false;
    case WriteFinished(statuses) =>
      DrainLeaves(s, statuses);
    case LoopReply =>
      NoReplyClosing(s);
    case CloseFinished(status, lock, statuses) =>
      ReplacedJobIs(s);
      AnswerLeaves(s, status, lock, statuses);
    case ChangeCredits(_) =>
    case ChainStatus(_, _) =>
    case LeaveWriting(_) =>
  }

  lemma {:induction false} CloseDecides(run: seq<Session>, steps: seq<Step>, k: nat, j: nat)
    requires IsRun(run, steps) && k < j < |run| && steps[k].Close?
    ensures run[j].closing && (LeavesBuffers(run[j]) <==> TakesJobForOpen(run[k]))
    ensures TakesJobForOpen(run[k]) ==> SameBuffers(run[k], run[j])
    decreases j
  {
    hide Inv, Apply, TakesJobForOpen, LeavesBuffers;
    InvHolds(run, steps, j - 1);
    assert CanTake(run[j - 1], steps[j - 1]) && run[j - 1 + 1] == Apply(run[j - 1], steps[j - 1]);
    if j == k + 1 {
      CloseApplies(run[k], steps[k]);
      CloseLeaves(run[k]);
    } else {
      CloseDecides(run, steps, k, j - 1);
      ClosingLeaves(run[j - 1], steps[j - 1]);
    }
  }

  lemma DrainedHolds(s: Session)
    requires Inv(s) && s.closing && s.pending == 0
    ensures HoldsReplied(s) ==> LeavesBuffers(s)
  {
  }

  /** A close whose callbacks have all come has left an acknowledged block behind exactly if, when it came, a write job
      was in flight whose first buffer's last id was 0 and some buffer held an acknowledged block. Then all
      buffers are still as they were at the close: the statuses of that job were never looked at, further
      buffers had no job, and the status kept for the lock's end is the old one. */
  lemma CloseAbandonsIffJobPassesForOpen(run: seq<Session>, steps: seq<Step>, k: nat, j: nat)
    requires IsRun(run, steps) && k < j < |run| && steps[k].Close? && run[j].pending == 0
    ensures HoldsReplied(run[j]) <==> TakesJobForOpen(run[k]) && HoldsReplied(run[k])
    ensures HoldsReplied(run[j]) ==> SameBuffers(run[k], run[j])
  {
    hide Inv, Apply, CanTake;
    CloseDecides(run, steps, k, j);
    InvHolds(run, steps, j);
    DrainedHolds(run[j]);
  }

  // A run that abandons a block.

  /** A session just set up that will join a lock, at the end of a chain and with credits to reply at once. */
  function Started(): Session {
    Session(false, false, 10, [], None, 4, InFlight(0, OnOpen), 0, false, [], 0, false, false, true, false, false, OK,
        0,
            Wire(WriteLast, [], {}, 10), Past([], [], false, false, false, false))
  }

  function Opened(): Session {
    Started().(job := Idle, open := true, locked := true, joined := false,
        wire := Wire(WriteLast, [Reply(OK, 0)], {}, 10),
               past := Past([], [], false, false, true, false))
  }

  function Awaiting(): Session {
    Opened().(input := Some(Buffer([0], 0, 4, true)), nextCount := 8)
  }

  /** The block landed, was acknowledged, and its write job is in flight. */
  function Mistaken(): Session {
    Awaiting().(queue := [Buffer([0], 1, 4, false)], input := None, job := InFlight(0, OnWrite), enqueued := 1,
                wire := Wire(WriteLast, [Reply(OK, 0), Reply(OK, 0)], {}, 9),
                past := Past([0], [], false, false, true, false))
  }

  lemma OpensAtOnce()
    ensures Started().OpenDone(OK, true) == Opened()
  {
    var s := Opened();
    assert [] + [Reply(OK, 0)] == [Reply(OK, 0)];
    assert OpenAnswer(Started(), OK, true) == s;
    OpenDoneIs(Started(), OK, true);
    assert ReplyFrom([], 0, 0, s.wire) == Replying([], s.wire, true);
    assert s.TryReply(false) == s;
  }

  lemma Prepares()
    ensures Opened().Prepare() == Awaiting()
  {
    assert [] + [0] == [0];
  }

  lemma LandsAtOnce()
    ensures Acknowledge([], Some(Buffer([0], 0, 4, false)), 0, Opened().wire)
         == Acknowledged([], Some(Buffer([0], 1, 4, false)), Mistaken().wire)
  {
    assert [0][0..] == [0] && [0][1..] == [];
    assert Told(Wire(WriteLast, [Reply(OK, 0)], {}, 9), OK, 0) == Mistaken().wire;
  }

  lemma Processes()
    ensures Awaiting().Process(0) == Mistaken()
  {
    hide Acknowledge;
    assert Landed(Awaiting().input.value, 0) == Buffer([0], 0, 4, false) && [] + [0] == [0];
    LandsAtOnce();
    var r := Awaiting().(input := Some(Buffer([0], 0, 4, false)),
        past := Past([0], [], false, false, true, false)).TryReply(false);
    assert [] + [r.input.value] == [r.input.value];
  }

  /** One block with write id 0 is acknowledged, and the connection closes while its write job waits to be run: the
      job is disabled, and the lock ends with OK. */
  lemma SomeCloseAbandonsABlock() returns (run: seq<Session>, steps: seq<Step>)
    ensures IsRun(run, steps) && |steps| == 5 && steps[3].Close? && run[5].pending == 0
    ensures HoldsReplied(run[5]) && run[5].past.written == [] && run[5].EndStatus(OK) == Some(OK)
  {
    hide Session.OpenDone, Session.Prepare, Session.Process;
    OpensAtOnce();
    Prepares();
    Processes();
    var closing := Mistaken().(closing := true, pending := 1, job := InFlight(0, OnClose));
    var end := closing.(pending := 0, job := InFlight(0, Called));
    assert Mistaken().DelayedClose() == closing;
    assert closing.CloseCallback(NOTDONE, false, []) == end;
    run := [Started(), Opened(), Awaiting(), Mistaken(), closing, end];
    steps := [OpenFinished(OK, true), PrepareBlock, ProcessBlock(0), Close, CloseFinished(NOTDONE, false, [])];
    assert Buffers(end.queue, end.input)[0].replied == 1;
  }
}
