/** A write session whose open finds another version than its own ends no lock, whatever happens afterwards. */
module LockSessions {
  import opened Common
  import opened ChunkLocks
  import opened LockProtocol
  import opened LockFates

  // What a step does to the sessions.

  function SessionsAfter(s: State, step: Step): map<nat, Session>
    requires CanTake(s, step)
  {
    match step
    case Setup(sid, part, version) =>
      s.sessions[sid := if s.core.identityMode then Opening(part, version, s.core.Reserves(part, version))
                        else Settled(part, version, s.core.Joins(part, version), true)]
    case RunOpen(sid) =>
      var Opening(part, version, reserved) := s.sessions[sid];
      s.sessions[sid := if part in s.parts && s.parts[part] == version
                        then Opened(part, version, reserved, s.core.Joins(part, version), true)
                        else Opened(part, version, reserved, 0, false)]
    case Adopt(sid, _) =>
      var Opened(part, version, _, joined, matched) := s.sessions[sid];
      s.sessions[sid := Settled(part, version, joined, matched)]
    case EndSession(sid, _, _) => s.sessions - {sid}
    case _ => s.sessions
  }

  function UsedAfter(s: State, step: Step): set<nat> {
    if step.Setup? then s.usedSessions + {step.session} else s.usedSessions
  }

  lemma {:induction false} DetachSessions(s: State, listener: nat, target: nat, order: seq<Part>, callback: nat)
    requires target in s.core.nextId && InTheTable(s.core.table, order)
    ensures var s' := DetachEach(s, listener, target, order, callback);
            s'.sessions == s.sessions && s'.usedSessions == s.usedSessions
    decreases |order|
  {
    if order != [] {
      DetachSessions(DetachOne(s, listener, target, order[0], callback), listener, target, order[1..], callback);
    }
  }

  lemma StartSessions(s: State, p: Part, owner: nat, version: nat, l: nat, callback: nat, f: nat)
    requires l in s.core.nextId
    ensures var s' := InstallLock(ReplaceLock(s, p, owner, version, f), p, owner, version, l, callback);
            s'.sessions == s.sessions && s'.usedSessions == s.usedSessions
  {
    hide Relocated;
  }

  lemma SetupSessions(s: State, sid: nat, p: Part, version: nat)
    requires CanTake(s, Setup(sid, p, version))
    ensures var s' := SetupSession(s, sid, p, version);
            && s'.sessions == SessionsAfter(s, Setup(sid, p, version))
            && s'.usedSessions == UsedAfter(s, Setup(sid, p, version))
  {
    hide Core.Reserve, Core.Reserves, Core.Enforce, Core.Joins, Joined;
    var s' := SetupSession(s, sid, p, version);
    if s.core.identityMode {
      assert s'.sessions == s.sessions[sid := Opening(p, version, s.core.Reserves(p, version))];
      assert s'.usedSessions == s.usedSessions + {sid};
    } else {
      assert s'.sessions == s.sessions[sid := Settled(p, version, s.core.Joins(p, version), true)];
      assert s'.usedSessions == s.usedSessions + {sid};
    }
  }

  lemma OpenSessions(s: State, sid: nat)
    requires CanTake(s, RunOpen(sid))
    ensures var s' := OpenSession(s, sid, s.sessions[sid]);
            s'.sessions == SessionsAfter(s, RunOpen(sid)) && s'.usedSessions == s.usedSessions
  {
    hide Core.Enforce, Core.Joins, Joined;
    var s', session := OpenSession(s, sid, s.sessions[sid]), s.sessions[sid];
    if session.part in s.parts && s.parts[session.part] == session.version {
      assert s'.sessions == SessionsAfter(s, RunOpen(sid));
      assert s'.usedSessions == s.usedSessions;
    } else {
      assert s'.sessions == SessionsAfter(s, RunOpen(sid));
      assert s'.usedSessions == s.usedSessions;
    }
  }

  lemma AdoptSessions(s: State, sid: nat, f: nat)
    requires CanTake(s, Adopt(sid, f))
    ensures var s' := AdoptLock(s, sid, s.sessions[sid], f);
            s'.sessions == SessionsAfter(s, Adopt(sid, f)) && s'.usedSessions == s.usedSessions
  {
    hide Relocated, Core.Unblocked, Core.Unreserve;
  }

  lemma CloseSessions(s: State, sid: nat, status: Status, f: nat)
    requires CanTake(s, EndSession(sid, status, f))
    ensures var s' := CloseSession(s, sid, s.sessions[sid], status, f);
            s'.sessions == SessionsAfter(s, EndSession(sid, status, f)) && s'.usedSessions == s.usedSessions
  {
    hide Relocated;
  }

  lemma EraseSessions(s: State, p: Part, owner: nat, f: nat)
    requires CanTake(s, EraseLock(p, owner, f))
    ensures var s' := Apply(s, EraseLock(p, owner, f)); s'.sessions == s.sessions && s'.usedSessions == s.usedSessions
  {
    hide Relocated;
  }

  lemma ActSessions(s: State, lock: nat, act: Act)
    requires lock in s.locks
    ensures SameSessions(s, Perform(s, lock, act))
  {
  }

  lemma DeliverSessions(s: State, ref: JobRef)
    ensures SameSessions(s, DeliverStatus(s, ref))
  {
  }

  lemma ReceiveSessions(s: State, r: Request, f: nat)
    ensures SameSessions(s, ReceiveRequest(s, r, f))
  {
  }

  ghost predicate SameSessions(s: State, s': State) {
    s'.sessions == s.sessions && s'.usedSessions == s.usedSessions
  }

  lemma FlightSessions(s: State, f: nat)
    requires f in s.flights
    ensures CanTake(s, AddHead(f)) ==> SameSessions(s, EnqueueHead(s, f, s.flights[f]))
    ensures CanTake(s, UndeferHead(f)) ==> SameSessions(s, UncountHead(s, f, s.flights[f]))
    ensures CanTake(s, AddStraight(f)) ==> SameSessions(s, EnqueueStraight(s, f, s.flights[f].request))
  {
  }

  lemma StepSessions(s: State, step: Step)
    requires CanTake(s, step)
    ensures Apply(s, step).sessions == SessionsAfter(s, step) && Apply(s, step).usedSessions == UsedAfter(s, step)
  {
    hide AdoptLock, CloseSession, ReceiveRequest, Perform, InstallLock, ReplaceLock, DetachEach, RenewEach, TakeOut;
    hide OpenSession, SetupSession, DeliverStatus, EnqueueHead, EnqueueStraight, UncountHead;
    match step
    case RunOpen(sid) => OpenSessions(s, sid);
    case Setup(sid, p, version) => SetupSessions(s, sid, p, version);
    case StartLock(p, owner, version, l, callback, epoch, f) =>
      if s.core.StartVerdict(p, owner, version, s.core.Resolve(l), epoch) == Installed {
        StartSessions(s, p, owner, version, s.core.Resolve(l), callback, f);
      }
    case Adopt(sid, f) => AdoptSessions(s, sid, f);
    case EndSession(sid, status, f) => CloseSessions(s, sid, status, f);
    case Detach(l, target, order, callback) =>
      DetachSessions(s.(core := s.core.NextEpoch(l)), l, target, order, callback);
    case ActBefore(f) => ActSessions(s, s.flights[f].lock, s.flights[f].before);
    case ActAfter(f) => ActSessions(s, s.flights[f].lock, s.flights[f].after);
    case Deliver(ref) => DeliverSessions(s, ref);
    case Receive(p, l, operation, stamp, f) =>
      ReceiveSessions(s, Request(s.nextRequest, p, s.core.Resolve(l), operation, stamp), f);
    case EraseLock(p, owner, f) => EraseSessions(s, p, owner, f);
    case AddHead(f) => FlightSessions(s, f);
    case UndeferHead(f) => FlightSessions(s, f);
    case AddStraight(f) => FlightSessions(s, f);
    case Allocate(_) =>
    case EnableIdentityMode =>
    case StorePart(_, _) =>
    case FollowVersion(_, _, _) =>
    case RenewCallbacks(_, _, _) =>
    case Answer(_, _) =>
  }

  // Who ended locks.

  ghost predicate EndedALock(s: State, sid: nat) {
    exists lock :: lock in s.fates && s.fates[lock].Ended? && s.fates[lock].session == sid
  }

  /** Only the end of a session can make it one that ended a lock. */
  lemma EndsByItself(s: State, step: Step, sid: nat)
    requires CanTake(s, step) && EndedALock(Apply(s, step), sid) && !EndedALock(s, sid)
    ensures step.EndSession? && step.session == sid && s.sessions[sid].lock != 0
  {
    hide Apply, CanTake;
    StepFates(s, step);
  }

  /** A session that ended a lock is gone for good. */
  lemma {:induction false} EndersAreGone(run: seq<State>, steps: seq<Step>, i: nat, sid: nat)
    requires IsRun(run, steps) && i < |run|
    ensures sid in run[i].sessions ==> sid in run[i].usedSessions
    ensures EndedALock(run[i], sid) ==> sid in run[i].usedSessions && sid !in run[i].sessions
  {
    if i > 0 {
      hide Apply, EndedALock;
      var s, step := run[i - 1], steps[i - 1];
      EndersAreGone(run, steps, i - 1, sid);
      assert CanTake(s, step) && run[i - 1 + 1] == Apply(s, step);
      StepSessions(s, step);
      if EndedALock(run[i], sid) && !EndedALock(s, sid) {
        EndsByItself(s, step, sid);
      }
    }
  }

  /** The session joined no lock and will join none. */
  ghost predicate Lockless(s: State, sid: nat) {
    && sid in s.usedSessions && !EndedALock(s, sid)
    && (sid in s.sessions ==>
          || (s.sessions[sid].Opened? && s.sessions[sid].joined == 0)
          || (s.sessions[sid].Settled? && s.sessions[sid].lock == 0))
  }

  lemma StepStaysLockless(s: State, step: Step, sid: nat)
    requires CanTake(s, step) && Lockless(s, sid)
    ensures Lockless(Apply(s, step), sid)
  {
    hide Apply, EndedALock;
    StepSessions(s, step);
    if EndedALock(Apply(s, step), sid) {
      EndsByItself(s, step, sid);
    }
  }

  /** The open of the session finds no stored part, or one at another version than the session's. */
  predicate OpenIsRefused(s: State, step: Step, sid: nat) {
    && step == RunOpen(sid) && sid in s.sessions && s.sessions[sid].Opening?
    && !(s.sessions[sid].part in s.parts && s.parts[s.sessions[sid].part] == s.sessions[sid].version)
  }

  lemma {:induction false} StaysLockless(run: seq<State>, steps: seq<Step>, k: nat, i: nat, sid: nat)
    requires IsRun(run, steps) && k < i < |run| && OpenIsRefused(run[k], steps[k], sid)
    ensures Lockless(run[i], sid)
    decreases i
  {
    hide Apply, EndedALock;
    var s, step := run[i - 1], steps[i - 1];
    assert CanTake(s, step) && run[i - 1 + 1] == Apply(s, step);
    if i == k + 1 {
      EndersAreGone(run, steps, k, sid);
      StepSessions(s, step);
      if EndedALock(run[i], sid) {
        EndsByItself(s, step, sid);
      }
    } else {
      StaysLockless(run, steps, k, i - 1, sid);
      StepStaysLockless(s, step, sid);
    }
  }

  /** A session whose open finds another version ends no lock at all, neither the one it reserved nor any later one. */
  lemma RefusedSessionEndsNoLock(run: seq<State>, steps: seq<Step>, k: nat, i: nat, sid: nat, lock: nat)
    requires IsRun(run, steps) && k < |steps| && i < |run| && OpenIsRefused(run[k], steps[k], sid)
    requires lock in run[i].fates && run[i].fates[lock].Ended?
    ensures run[i].fates[lock].session != sid
  {
    hide Apply, CanTake;
    if k < i {
      StaysLockless(run, steps, k, i, sid);
    } else {
      FateIsFinal(run, steps, i, k);
      EndersAreGone(run, steps, k, sid);
      assert lock in run[k].fates;
    }
  }
}
