/** A client connection that closes while write sessions still have work in flight. */
module WriteConnections {
  import opened WriteSessions
  import opened SessionInvariants
  import opened SessionSteps
  import opened SessionTheorems
  import opened ClosedSessions

  function Total(sessions: seq<Session>): int {
    if sessions == [] then 0 else sessions[0].pending + Total(sessions[1..])
  }

  lemma {:induction false} TotalUpdate(sessions: seq<Session>, i: nat, s: Session)
    requires i < |sessions|
    ensures Total(sessions[i := s]) == Total(sessions) - sessions[i].pending + s.pending
  {
    if i > 0 {
      TotalUpdate(sessions[1..], i - 1, s);
      assert sessions[i := s][1..] == sessions[1..][i - 1 := s];
    }
  }

  /** The session closes and keeps its invariants. */
  ghost predicate Draining(s: Session) {
    Inv(s) && s.closing
  }

  lemma {:induction false} TotalIsZero(sessions: seq<Session>)
    requires forall i :: 0 <= i < |sessions| ==> sessions[i].pending >= 0
    ensures Total(sessions) >= 0
    ensures Total(sessions) == 0 <==> forall i :: 0 <= i < |sessions| ==> sessions[i].pending == 0
  {
    if sessions != [] {
      TotalIsZero(sessions[1..]);
      assert forall i :: 1 <= i < |sessions| ==> sessions[i] == sessions[1..][i - 1];
    }
  }

  /** Closed exactly when no session waits for a callback; then an acknowledged block is left only in a session whose
      close took a write job for the open job. */
  lemma ClosedWhenDrained(sessions: seq<Session>)
    requires forall i :: 0 <= i < |sessions| ==> Draining(sessions[i])
    ensures Total(sessions) >= 0
    ensures Total(sessions) == 0 <==> forall i :: 0 <= i < |sessions| ==> !Due(sessions[i])
    ensures Total(sessions) == 0 ==> AllDrained(sessions)
  {
    hide Inv, HoldsReplied, LeavesBuffers;
    forall i | 0 <= i < |sessions|
      ensures sessions[i].pending >= 0 && (sessions[i].pending > 0 <==> Due(sessions[i]))
      ensures sessions[i].pending == 0 ==> HoldsReplied(sessions[i]) ==> LeavesBuffers(sessions[i])
    {
      assert Draining(sessions[i]);
      DueIs(sessions[i]);
      if sessions[i].pending == 0 {
        DrainedHolds(sessions[i]);
      }
    }
    TotalIsZero(sessions);
  }

  ghost predicate AllDrained(sessions: seq<Session>) {
    forall i :: 0 <= i < |sessions| ==> HoldsReplied(sessions[i]) ==> LeavesBuffers(sessions[i])
  }

  class Connection {
    var sessions: seq<Session>
    var pendingWriteJobs: int
    var closed: bool

    ghost predicate Closing()
      reads this
    {
      && (forall i :: 0 <= i < |sessions| ==> Draining(sessions[i]))
      && pendingWriteJobs == Total(sessions) && (closed <==> pendingWriteJobs == 0)
    }

    /** The write branch of closeJobs. */
    method CloseJobs()
      requires pendingWriteJobs == 0 && !closed && forall i :: 0 <= i < |sessions| ==>
          Inv(sessions[i]) && !sessions[i].closing
      modifies this
      ensures Closing() && |sessions| == old(|sessions|)
      ensures forall i :: 0 <= i < |sessions| ==> sessions[i] == old(sessions)[i].DelayedClose()
      ensures forall i :: 0 <= i < |sessions| ==> LeavesBuffers(sessions[i]) == TakesJobForOpen(old(sessions)[i])
    {
      hide Inv, Session.DelayedClose, LeavesBuffers, TakesJobForOpen;
      ghost var before := sessions;
      var i := 0;
      while i < |sessions|
        invariant 0 <= i <= |sessions| == |before| && !closed
        invariant forall j :: 0 <= j < i ==> sessions[j] == before[j].DelayedClose() && Draining(sessions[j])
        invariant forall j :: 0 <= j < i ==> LeavesBuffers(sessions[j]) == TakesJobForOpen(before[j])
        invariant forall j :: i <= j < |before| ==> sessions[j] == before[j]
        invariant pendingWriteJobs == Total(sessions[..i])
      {
        var s := sessions[i];
        CloseKeeps(s);
        CloseLeaves(s);
        var s' := s.DelayedClose();
        ghost var done := sessions[..i];
        sessions := sessions[i := s'];
        pendingWriteJobs := pendingWriteJobs + s'.pending;
        TotalAppend(done, s');
        assert sessions[..i + 1] == done + [s'];
        i := i + 1;
      }
      assert sessions[..i] == sessions;
      if pendingWriteJobs == 0 {
        closed := true;
      }
    }

    /** The callback of a session's job, and the check whether it was the last. */
    method Callback(i: nat, step: Step)
      requires Closing() && !closed && i < |sessions| && CanTake(sessions[i], step) && IsCallback(step)
      modifies this
      ensures Closing() && sessions == old(sessions)[i := Apply(old(sessions)[i], step)]
          && pendingWriteJobs == old(pendingWriteJobs) - 1
      ensures closed <==> forall j :: 0 <= j < |sessions| ==> !Due(sessions[j])
      ensures forall j :: 0 <= j < |sessions| ==> LeavesBuffers(sessions[j]) == LeavesBuffers(old(sessions)[j])
      ensures closed ==> AllDrained(sessions)
    {
      hide Inv, Apply, CanTake, Due, LeavesBuffers, AllDrained;
      var s := sessions[i];
      assert Draining(s);
      StepKeepsInv(s, step);
      ClosingStep(s, step);
      ClosingLeaves(s, step);
      TotalUpdate(sessions, i, Apply(s, step));
      sessions := sessions[i := Apply(s, step)];
      pendingWriteJobs := pendingWriteJobs - 1;
      if pendingWriteJobs == 0 {
        closed := true;
      }
      ClosedWhenDrained(sessions);
    }
  }

  lemma {:induction false} TotalAppend(sessions: seq<Session>, s: Session)
    ensures Total(sessions + [s]) == Total(sessions) + s.pending
  {
    if sessions != [] {
      TotalAppend(sessions[1..], s);
      assert (sessions + [s])[1..] == sessions[1..] + [s];
    }
  }
}
