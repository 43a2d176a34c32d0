/** What the owner of a lock is told at its end, and over which connection. */
module LockNotices {
  import opened Common
  import opened ChunkLocks
  import opened LockProtocol
  import opened LockInvariants
  import opened LockSteps
  import opened LockTheorems
  import opened LockWaits

  // The status.

  /** The session's end takes a lock out of the table: its own one in identity mode. */
  predicate EndsLock(s: State, step: Step, lock: nat) {
    && step.EndSession? && step.session in s.sessions && s.sessions[step.session].Settled?
    && var Settled(p, _, own, _) := s.sessions[step.session];
       && own != 0 && p in s.core.table && s.core.table[p].identity == lock && (s.core.identityMode ==> own == lock)
  }

  /** A lock on its way out, whose job is posted with the status or is going to be. */
  ghost predicate EndsWith(s: State, lock: nat, ref: JobRef, status: Status) {
    && lock in s.locks && s.locks[lock].ref == ref
    && match s.locks[lock].place
       case InTable => false
       case Leaving(f) => ref !in s.posted && f in s.flights && s.flights[f].Batch? && s.flights[f].lock == lock
           && s.flights[f].before == Nothing && s.flights[f].after == Notify(ref, status)
       case Announced => ref in s.posted && s.posted[ref] == status
       case Gone => true
  }

  /** Nothing happened to the lock, its posting or its flight. */
  ghost predicate SameEnd(s: State, s': State, lock: nat, ref: JobRef) {
    && lock in s.locks && lock in s'.locks && s'.locks[lock] == s.locks[lock]
    && (ref in s'.posted <==> ref in s.posted) && (ref in s.posted ==> s'.posted[ref] == s.posted[ref])
    && (s.locks[lock].place.Leaving? && s.locks[lock].place.flight in s.flights
          && s.flights[s.locks[lock].place.flight].Batch? ==>
          var f := s.locks[lock].place.flight;
          f in s'.flights && s'.flights[f].Batch? && s'.flights[f].lock == s.flights[f].lock
              && s'.flights[f].before == s.flights[f].before && s'.flights[f].after == s.flights[f].after)
  }

  lemma SameEndsWith(s: State, s': State, lock: nat, ref: JobRef, status: Status)
    requires EndsWith(s, lock, ref, status) && SameEnd(s, s', lock, ref)
    ensures EndsWith(s', lock, ref, status)
  {
  }

  lemma TakeOutEnd(s: State, p: Part, f: nat, fate: Fate, before: Act, after: Act, lock: nat, ref: JobRef)
    requires p in s.core.table && f !in s.flights && lock in s.locks && s.core.table[p].identity != lock
    ensures SameEnd(s, TakeOut(s, p, f, fate, before, after), lock, ref)
  {
    hide Relocated;
  }

  lemma InstallEnd(s: State, p: Part, owner: nat, version: nat, l: nat, callback: nat, f: nat, lock: nat, ref: JobRef)
    requires l in s.core.nextId && f !in s.flights && lock in s.locks && lock != s.core.nextIdentity
    requires p in s.core.table ==> s.core.table[p].identity != lock
    ensures SameEnd(s, InstallLock(ReplaceLock(s, p, owner, version, f), p, owner, version, l, callback), lock, ref)
  {
    hide Relocated;
  }

  lemma AdoptEnd(s: State, sid: nat, session: Session, f: nat, lock: nat, ref: JobRef)
    requires session.Opened? && f !in s.flights && lock in s.locks
    ensures SameEnd(s, AdoptLock(s, sid, session, f), lock, ref)
  {
    hide Relocated, Core.Unblocked, Core.Unreserve;
  }

  lemma SetupEnd(s: State, sid: nat, p: Part, version: nat, lock: nat, ref: JobRef)
    requires lock in s.locks
    ensures SameEnd(s, SetupSession(s, sid, p, version), lock, ref)
  {
    hide Core.Reserve, Core.Reserves, Core.Enforce, Core.Joins, Joined, SameEnd;
    var s' := SetupSession(s, sid, p, version);
    if s.core.identityMode {
      assert s'.locks == s.locks && s'.posted == s.posted && s'.flights == s.flights;
    } else {
      assert s'.locks == s.locks && s'.posted == s.posted && s'.flights == s.flights;
    }
    Unchanged(s, s', lock, ref);
  }

  lemma Unchanged(s: State, s': State, lock: nat, ref: JobRef)
    requires s'.locks == s.locks && s'.posted == s.posted && lock in s.locks
    requires s'.flights == s.flights || exists f: nat, r :: f !in s.flights && s'.flights == s.flights[f := Straight(r)]
    ensures SameEnd(s, s', lock, ref)
  {
  }

  lemma OpenEnd(s: State, sid: nat, session: Session, lock: nat, ref: JobRef)
    requires session.Opening? && lock in s.locks
    ensures SameEnd(s, OpenSession(s, sid, session), lock, ref)
  {
    hide Core.Enforce, Core.Joins, Joined;
    var s' := OpenSession(s, sid, session);
    assert s'.locks == s.locks && s'.posted == s.posted && s'.flights == s.flights;
  }

  lemma ReceiveEnd(s: State, r: Request, f: nat, lock: nat, ref: JobRef)
    requires f !in s.flights && lock in s.locks
    ensures SameEnd(s, ReceiveRequest(s, r, f), lock, ref)
  {
    hide Core.Park, SameEnd;
    var s' := ReceiveRequest(s, r, f);
    if s.core.Holds(r.part) {
      assert s'.locks == s.locks && s'.posted == s.posted && s'.flights == s.flights;
    } else {
      assert s'.locks == s.locks && s'.posted == s.posted && s'.flights == s.flights[f := Straight(r)];
    }
    Unchanged(s, s', lock, ref);
  }

  lemma {:induction false} DetachEnd(s: State, listener: nat, target: nat, order: seq<Part>, callback: nat, lock: nat,
      ref: JobRef)
    requires target in s.core.nextId && InTheTable(s.core.table, order) && lock in s.locks
    requires forall p :: p in s.core.table ==> s.core.table[p].identity != lock
    ensures SameEnd(s, DetachEach(s, listener, target, order, callback), lock, ref)
    decreases |order|
  {
    if order != [] {
      DetachEnd(DetachOne(s, listener, target, order[0], callback), listener, target, order[1..], callback, lock, ref);
    }
  }

  lemma HeadEnd(s: State, f: nat, lock: nat, ref: JobRef)
    requires f in s.flights && s.flights[f].Batch? && s.flights[f].todo != [] && s.flights[f].todo[0].id in s.requests
    requires lock in s.locks
    ensures s.flights[f].todo[0].listener in s.core.nextId ==>
              SameEnd(s, EnqueueHead(s, f, s.flights[f]), lock, ref)
    ensures SameEnd(s, UncountHead(s, f, s.flights[f]), lock, ref)
  {
  }

  lemma StraightEnd(s: State, f: nat, lock: nat, ref: JobRef)
    requires f in s.flights && s.flights[f].Straight? && s.flights[f].request.listener in s.core.nextId
        && s.flights[f].request.id in s.requests && lock in s.locks
    ensures SameEnd(s, EnqueueStraight(s, f, s.flights[f].request), lock, ref)
  {
  }

  lemma DeliverEnd(s: State, delivered: JobRef, lock: nat, ref: JobRef, status: Status)
    requires EndsWith(s, lock, ref, status) && delivered in s.posted
    requires delivered in s.core.jobs && s.core.jobs[delivered].LockJob? && s.core.jobs[delivered].identity == lock ==>
               delivered == ref
    requires delivered == ref && s.locks[lock].place.Announced? ==>
               ref in s.core.jobs && s.core.jobs[ref].LockJob? && s.core.jobs[ref].identity == lock
    ensures EndsWith(DeliverStatus(s, delivered), lock, ref, status)
  {
    hide Core.DropJob;
    var s' := DeliverStatus(s, delivered);
    assert s'.flights == s.flights && s'.posted == s.posted - {delivered};
    if delivered in s.core.jobs && s.core.jobs[delivered].LockJob? && s.core.jobs[delivered].identity in s.locks {
      var i := s.core.jobs[delivered].identity;
      assert s'.locks == s.locks[i := s.locks[i].(place := Gone)];
    } else {
      assert s'.locks == s.locks;
    }
  }

  lemma AnswerEnd(s: State, answered: JobRef, given: Status, lock: nat, ref: JobRef, status: Status)
    requires EndsWith(s, lock, ref, status) && (!s.locks[lock].place.Gone? ==> answered != ref)
    ensures EndsWith(s.(queue := s.queue - {answered}, posted := s.posted[answered := given]), lock, ref, status)
  {
  }

  /** The flight of the lock comes to its notice. */
  lemma OwnActEnd(s: State, f: nat, lock: nat, ref: JobRef, status: Status)
    requires EndsWith(s, lock, ref, status) && s.locks[lock].place == Leaving(f)
    ensures EndsWith(Perform(s, lock, s.flights[f].after).(flights := s.flights - {f}), lock, ref, status)
  {
  }

  lemma OtherActEnd(s: State, s1: State, flights: map<nat, Flight>, lock: nat, ref: JobRef, status: Status)
    requires EndsWith(s, lock, ref, status) && s1.flights == s.flights
    requires lock in s1.locks && s1.locks[lock] == s.locks[lock]
    requires !s.locks[lock].place.Gone? ==>
               (ref in s1.posted <==> ref in s.posted) && (ref in s.posted ==> s1.posted[ref] == s.posted[ref])
    requires s.locks[lock].place.Leaving? ==>
               var f := s.locks[lock].place.flight; f in flights && flights[f] == s.flights[f]
    ensures EndsWith(s1.(flights := flights), lock, ref, status)
  {
  }

  /** What a flight does to the job of a lock, it does to the one it left with. */
  lemma ActsOnItsOwn(s: State, f: nat, act: Act, lock: nat)
    requires Inv(s) && f in s.flights && s.flights[f].Batch? && act != Nothing
    requires act == s.flights[f].before || act == s.flights[f].after
    requires lock in s.locks && s.locks[lock].place != Leaving(f)
    ensures s.flights[f].lock in s.locks && s.flights[f].lock != lock
    ensures !s.locks[lock].place.Gone? && !s.locks[lock].place.InTable? && act.Notify? ==> act.ref != s.locks[lock].ref
  {
    hide IdsInv, EntryInv, IdentityInv, QueueInv, PostedInv, FateInv, TallyInv, RightfulInv;
    hide NumberInv, ParkedInv, TransitInv, LogInv, DeferredInv, GuardInv, HoldersInv, SessionInv;
    var other := s.flights[f].lock;
    assert ActsOn(act, s.locks, s.fates, other, f);
  }

  lemma ActBeforeEnd(s: State, f: nat, lock: nat, ref: JobRef, status: Status)
    requires Inv(s) && CanTake(s, ActBefore(f)) && EndsWith(s, lock, ref, status)
    ensures EndsWith(Apply(s, ActBefore(f)), lock, ref, status)
  {
    hide Inv, Perform, SameEnd;
    var act := s.flights[f].before;
    ActsOnItsOwn(s, f, act, lock);
    OtherLock(s, s.flights[f].lock, act, lock, ref);
    var flights := s.flights[f := s.flights[f].(before := Nothing)];
    OtherActEnd(s, Perform(s, s.flights[f].lock, act), flights, lock, ref, status);
  }

  lemma ActAfterEnd(s: State, f: nat, lock: nat, ref: JobRef, status: Status)
    requires Inv(s) && CanTake(s, ActAfter(f)) && EndsWith(s, lock, ref, status)
    ensures EndsWith(Apply(s, ActAfter(f)), lock, ref, status)
  {
    hide Inv, Perform, SameEnd;
    var act := s.flights[f].after;
    if s.locks[lock].place == Leaving(f) {
      OwnActEnd(s, f, lock, ref, status);
    } else if act == Nothing {
      NothingPerformed(s, s.flights[f].lock);
      OtherActEnd(s, s, s.flights - {f}, lock, ref, status);
    } else {
      ActsOnItsOwn(s, f, act, lock);
      OtherLock(s, s.flights[f].lock, act, lock, ref);
      OtherActEnd(s, Perform(s, s.flights[f].lock, act), s.flights - {f}, lock, ref, status);
    }
  }

  lemma NothingPerformed(s: State, lock: nat)
    requires lock in s.locks
    ensures Perform(s, lock, Nothing) == s
  {
  }

  lemma OtherLock(s: State, other: nat, act: Act, lock: nat, ref: JobRef)
    requires other in s.locks && lock in s.locks && other != lock
    ensures var s' := Perform(s, other, act);
            && s'.flights == s.flights && lock in s'.locks && s'.locks[lock] == s.locks[lock]
            && ((act.Notify? ==> act.ref != ref) ==>
                  (ref in s'.posted <==> ref in s.posted) && (ref in s.posted ==> s'.posted[ref] == s.posted[ref]))
  {
  }

  lemma OutOfTable(s: State, lock: nat)
    requires Inv(s) && lock in s.locks && !s.locks[lock].place.InTable?
    ensures lock < s.core.nextIdentity && forall p :: p in s.core.table ==> s.core.table[p].identity != lock
  {
  }

  lemma LockJobsAreNotQueued(s: State, lock: nat, ref: JobRef)
    requires Inv(s) && lock in s.locks && !s.locks[lock].place.Gone? && s.locks[lock].ref == ref
    ensures ref !in s.queue && ref in s.core.jobs && s.core.jobs[ref].LockJob? && s.core.jobs[ref].identity == lock
  {
    hide IdsInv, EntryInv, IdentityInv, PostedInv, LeavingInv, FateInv, TallyInv, RightfulInv;
    hide NumberInv, ParkedInv, TransitInv, LogInv, DeferredInv, GuardInv, HoldersInv, SessionInv;
  }

  lemma LockJobIsAtItsRef(s: State, delivered: JobRef, lock: nat)
    requires Inv(s) && delivered in s.core.jobs && s.core.jobs[delivered].LockJob?
        && s.core.jobs[delivered].identity == lock
    ensures lock in s.locks && !s.locks[lock].place.Gone? && s.locks[lock].ref == delivered
  {
    hide IdsInv, EntryInv, IdentityInv, QueueInv, PostedInv, LeavingInv, FateInv, TallyInv, RightfulInv;
    hide NumberInv, ParkedInv, TransitInv, LogInv, DeferredInv, GuardInv, HoldersInv, SessionInv;
  }

  lemma OutIs(s: State, lock: nat, ref: JobRef, status: Status)
    requires EndsWith(s, lock, ref, status)
    ensures lock in s.locks && !s.locks[lock].place.InTable? && s.locks[lock].ref == ref
  {
  }

  lemma JobStepEnd(s: State, step: Step, lock: nat, ref: JobRef, status: Status)
    requires Inv(s) && CanTake(s, step) && EndsWith(s, lock, ref, status) && (step.Answer? || step.Deliver?)
    ensures EndsWith(Apply(s, step), lock, ref, status)
  {
    hide Inv, EndsWith, DeliverStatus;
    OutIs(s, lock, ref, status);
    if !s.locks[lock].place.Gone? {
      LockJobsAreNotQueued(s, lock, ref);
    }
    match step
    case Answer(answered, given) => AnswerEnd(s, answered, given, lock, ref, status);
    case Deliver(delivered) =>
      if delivered in s.core.jobs && s.core.jobs[delivered].LockJob? && s.core.jobs[delivered].identity == lock {
        LockJobIsAtItsRef(s, delivered, lock);
      }
      DeliverEnd(s, delivered, lock, ref, status);
  }

  lemma TableStepEnd(s: State, step: Step, lock: nat, ref: JobRef)
    requires CanTake(s, step) && lock in s.locks && lock < s.core.nextIdentity
    requires forall p :: p in s.core.table ==> s.core.table[p].identity != lock
    requires step.StartLock? || step.EndSession? || step.EraseLock? || step.Detach?
    ensures SameEnd(s, Apply(s, step), lock, ref)
  {
    hide SameEnd, TakeOut, InstallLock, ReplaceLock, DetachEach;
    Unchanged(s, s, lock, ref);
    match step
    case StartLock(p, owner, version, l, callback, epoch, f) =>
      InstallEnd(s, p, owner, version, s.core.Resolve(l), callback, f, lock, ref);
    case EndSession(sid, status, f) => CloseEnd(s, sid, s.sessions[sid], status, f, lock, ref);
    case EraseLock(p, owner, f) =>
      if p in s.core.table {
        TakeOutEnd(s, p, f, Erased(owner, s.core.identityMode), Nothing, Drop(s.core.table[p].lockJob), lock, ref);
      }
    case Detach(l, target, order, callback) =>
      var s1 := s.(core := s.core.NextEpoch(l));
      DetachEnd(s1, l, target, order, callback, lock, ref);
      SameEndOf(s, s1, DetachEach(s1, l, target, order, callback), lock, ref);
  }

  lemma SameEndOf(s: State, s1: State, s': State, lock: nat, ref: JobRef)
    requires SameEnd(s1, s', lock, ref) && s1.locks == s.locks && s1.posted == s.posted && s1.flights == s.flights
    ensures SameEnd(s, s', lock, ref)
  {
  }

  lemma CloseEnd(s: State, sid: nat, session: Session, status: Status, f: nat, lock: nat, ref: JobRef)
    requires session.Settled? && f !in s.flights && lock in s.locks
    requires forall p :: p in s.core.table ==> s.core.table[p].identity != lock
    ensures SameEnd(s, CloseSession(s, sid, session, status, f), lock, ref)
  {
    hide SameEnd, TakeOut;
    var closed := s.(sessions := s.sessions - {sid});
    if session.lock != 0 && s.core.MayRelease(session.part, None, Some(session.lock)) {
      var fate, act := Ended(sid, s.core.identityMode), Notify(s.core.table[session.part].lockJob, status);
      TakeOutEnd(closed, session.part, f, fate, Nothing, act, lock, ref);
      SameEndOf(s, closed, TakeOut(closed, session.part, f, fate, Nothing, act), lock, ref);
    } else {
      Unchanged(s, closed, lock, ref);
    }
  }

  lemma QuietStepEnd(s: State, step: Step, lock: nat, ref: JobRef)
    requires CanTake(s, step) && lock in s.locks
    requires !(step.StartLock? || step.EndSession? || step.EraseLock? || step.Detach?)
        && !(step.Answer? || step.Deliver? || step.ActBefore? || step.ActAfter?)
    ensures SameEnd(s, Apply(s, step), lock, ref)
  {
    hide SameEnd, AdoptLock, SetupSession, OpenSession, ReceiveRequest, EnqueueHead, EnqueueStraight, UncountHead,
        RenewEach;
    match step
    case Receive(p, l, operation, stamp, f) =>
      ReceiveEnd(s, Request(s.nextRequest, p, s.core.Resolve(l), operation, stamp), f, lock, ref);
    case Setup(sid, p, version) => SetupEnd(s, sid, p, version, lock, ref);
    case RunOpen(sid) => OpenEnd(s, sid, s.sessions[sid], lock, ref);
    case Adopt(sid, f) => AdoptEnd(s, sid, s.sessions[sid], f, lock, ref);
    case AddHead(f) => HeadEnd(s, f, lock, ref);
    case UndeferHead(f) => HeadEnd(s, f, lock, ref);
    case AddStraight(f) => StraightEnd(s, f, lock, ref);
    case Allocate(_) => Unchanged(s, Apply(s, step), lock, ref);
    case EnableIdentityMode => Unchanged(s, Apply(s, step), lock, ref);
    case StorePart(_, _) => Unchanged(s, Apply(s, step), lock, ref);
    case FollowVersion(_, _, _) => Unchanged(s, Apply(s, step), lock, ref);
    case RenewCallbacks(_, _, _) => Unchanged(s, Apply(s, step), lock, ref);
  }

  lemma StepEnd(s: State, step: Step, lock: nat, ref: JobRef, status: Status)
    requires Inv(s) && CanTake(s, step) && EndsWith(s, lock, ref, status)
    ensures EndsWith(Apply(s, step), lock, ref, status)
  {
    hide Inv, Apply, EndsWith, SameEnd;
    OutIs(s, lock, ref, status);
    if step.Answer? || step.Deliver? {
      JobStepEnd(s, step, lock, ref, status);
    } else if step.ActBefore? {
      ActBeforeEnd(s, step.flight, lock, ref, status);
    } else if step.ActAfter? {
      ActAfterEnd(s, step.flight, lock, ref, status);
    } else {
      if step.StartLock? || step.EndSession? || step.EraseLock? || step.Detach? {
        OutOfTable(s, lock);
        TableStepEnd(s, step, lock, ref);
      } else {
        QuietStepEnd(s, step, lock, ref);
      }
      SameEndsWith(s, Apply(s, step), lock, ref, status);
    }
  }

  lemma EndBegins(s: State, step: Step, lock: nat)
    requires Inv(s) && CanTake(s, step) && EndsLock(s, step, lock)
    ensures var ref := s.core.table[s.sessions[step.session].part].lockJob;
            EndsWith(Apply(s, step), lock, ref, step.status)
  {
    hide IdsInv, QueueInv, LeavingInv, FateInv, TallyInv, RightfulInv, Relocated;
    hide NumberInv, ParkedInv, TransitInv, LogInv, DeferredInv, GuardInv, HoldersInv, SessionInv;
    EntryIs(s.core.table, s.locks, s.core.nextIdentity, s.core.jobs, s.sessions[step.session].part);
  }

  lemma {:induction false} EndStays(run: seq<State>, steps: seq<Step>, k: nat, i: nat, lock: nat)
    requires IsRun(run, steps) && k < i < |run| && EndsLock(run[k], steps[k], lock)
    ensures var ref := run[k].core.table[run[k].sessions[steps[k].session].part].lockJob;
            EndsWith(run[i], lock, ref, steps[k].status)
    decreases i
  {
    hide Inv, Apply, EndsWith, Init, CanTake;
    InvHolds(run, steps, i - 1);
    assert CanTake(run[i - 1], steps[i - 1]) && run[i - 1 + 1] == Apply(run[i - 1], steps[i - 1]);
    if i == k + 1 {
      EndBegins(run[k], steps[k], lock);
    } else {
      EndStays(run, steps, k, i - 1, lock);
      StepEnd(run[i - 1], steps[i - 1], lock,
          run[k].core.table[run[k].sessions[steps[k].session].part].lockJob, steps[k].status);
    }
  }

  /** The owner of a lock that a session ended is told the status the session ended with. */
  lemma NoticeCarriesTheEndStatus(run: seq<State>, steps: seq<Step>, k: nat, i: nat, lock: nat, ref: JobRef)
    requires IsRun(run, steps) && k < i < |steps| && EndsLock(run[k], steps[k], lock) && steps[i] == Deliver(ref)
    requires ref in run[i].core.jobs && run[i].core.jobs[ref].LockJob? && run[i].core.jobs[ref].identity == lock
    ensures ref in run[i].posted && run[i].posted[ref] == steps[k].status
  {
    hide Inv, Apply, Init;
    assert CanTake(run[i], steps[i]);
    InvHolds(run, steps, i);
    EndStays(run, steps, k, i, lock);
    LockJobIsAtItsRef(run[i], ref, lock);
    PostedLocksAreAnnounced(run[i], ref);
  }

  lemma PostedLocksAreAnnounced(s: State, ref: JobRef)
    requires Inv(s) && ref in s.posted && ref in s.core.jobs && s.core.jobs[ref].LockJob?
    ensures s.core.jobs[ref].identity in s.locks && s.locks[s.core.jobs[ref].identity].place.Announced?
  {
    hide IdsInv, EntryInv, IdentityInv, QueueInv, LeavingInv, FateInv, TallyInv, RightfulInv;
    hide NumberInv, ParkedInv, TransitInv, LogInv, DeferredInv, GuardInv, HoldersInv, SessionInv;
  }

  // The connection.

  /** Where the notice of a lock goes: the listener its lock job is on, and the callback of that job. */
  datatype Reach = Reach(listener: nat, callback: nat)

  function ReachOf(core: Core, p: Part): Option<Reach> {
    if p in core.table && core.table[p].lockJob in core.jobs && core.jobs[core.table[p].lockJob].LockJob?
    then Some(Reach(core.table[p].lockJob.listener, core.jobs[core.table[p].lockJob].callback)) else None
  }

  lemma ReachIs(s: State, p: Part)
    requires Inv(s) && p in s.core.table
    ensures ReachOf(s.core, p).Some? && s.core.table[p].lockJob in s.core.jobs
    ensures s.core.jobs[s.core.table[p].lockJob].LockJob?
    ensures s.core.jobs[s.core.table[p].lockJob].identity == s.core.table[p].identity
    ensures forall q :: q in s.core.table && q != p ==> s.core.table[q].lockJob != s.core.table[p].lockJob
    ensures forall l :: l in s.core.nextId ==> JobRef(l, s.core.nextId[l]) !in s.core.jobs
  {
    hide QueueInv, PostedInv, LeavingInv, FateInv, TallyInv, RightfulInv;
    hide NumberInv, ParkedInv, TransitInv, LogInv, DeferredInv, GuardInv, HoldersInv, SessionInv;
    EntryIs(s.core.table, s.locks, s.core.nextIdentity, s.core.jobs, p);
  }

  /** The jobs still in the table are as they were. */
  ghost predicate JobsAgree(jobs: map<JobRef, TableJob>, jobs': map<JobRef, TableJob>) {
    forall ref :: ref in jobs && ref in jobs' ==> jobs'[ref] == jobs[ref]
  }

  lemma SameReach(core: Core, core': Core, p: Part)
    requires JobsAgree(core.jobs, core'.jobs) && ReachOf(core, p).Some? && ReachOf(core', p).Some?
    requires core'.table[p].lockJob == core.table[p].lockJob
    ensures ReachOf(core', p) == ReachOf(core, p)
  {
  }

  lemma EnqueueAgrees(s: State, r: Request, lock: nat)
    requires r.listener in s.core.nextId && JobRef(r.listener, s.core.nextId[r.listener]) !in s.core.jobs
    ensures JobsAgree(s.core.jobs, Enqueue(s, r, lock).core.jobs)
  {
  }

  lemma DropsAgree(s: State, lock: nat, act: Act, ref: JobRef)
    ensures lock in s.locks ==> JobsAgree(s.core.jobs, Perform(s, lock, act).core.jobs)
    ensures JobsAgree(s.core.jobs, DeliverStatus(s, ref).core.jobs)
  {
  }

  lemma SessionsAgree(s: State, step: Step)
    requires CanTake(s, step) && (step.Setup? || step.RunOpen? || step.Adopt? || step.EndSession? || step.EraseLock?)
    ensures Apply(s, step).core.jobs == s.core.jobs
  {
    hide SetupSession, OpenSession, AdoptLock, CloseSession, TakeOut;
    match step
    case Setup(sid, p, version) => SetupCore(s, sid, p, version);
    case RunOpen(sid) => OpenCore(s, sid, s.sessions[sid]);
    case Adopt(sid, f) => AdoptJobs(s, sid, s.sessions[sid], f);
    case EndSession(sid, status, f) => CloseJobs(s, sid, s.sessions[sid], status, f);
    case EraseLock(p, owner, f) =>
      if s.core.MayRelease(p, Some(owner), None) {
        TakeOutJobs(s, p, f, Erased(owner, s.core.identityMode), Nothing, Drop(s.core.table[p].lockJob));
      }
  }

  lemma AdoptJobs(s: State, sid: nat, session: Session, f: nat)
    requires session.Opened?
    ensures AdoptLock(s, sid, session, f).core.jobs == s.core.jobs
  {
    hide Relocated, Core.Unblocked;
  }

  lemma TakeOutJobs(s: State, p: Part, f: nat, fate: Fate, before: Act, after: Act)
    requires p in s.core.table
    ensures TakeOut(s, p, f, fate, before, after).core.jobs == s.core.jobs
  {
    hide Relocated;
  }

  lemma CloseJobs(s: State, sid: nat, session: Session, status: Status, f: nat)
    requires session.Settled?
    ensures CloseSession(s, sid, session, status, f).core.jobs == s.core.jobs
  {
    hide TakeOut;
    if session.lock != 0 && s.core.MayRelease(session.part, None, Some(session.lock)) {
      TakeOutJobs(s.(sessions := s.sessions - {sid}), session.part, f, Ended(sid, s.core.identityMode), Nothing,
          Notify(s.core.table[session.part].lockJob, status));
    }
  }

  lemma ReceiveJobs(s: State, r: Request, f: nat)
    ensures ReceiveRequest(s, r, f).core.jobs == s.core.jobs
  {
  }

  /** The step touches no job. */
  predicate LeavesJobs(step: Step) {
    step.Receive? || step.UndeferHead? || step.Allocate? || step.EnableIdentityMode? || step.StorePart?
        || step.FollowVersion? || step.Answer?
  }

  lemma OthersAgree(s: State, step: Step)
    requires CanTake(s, step) && LeavesJobs(step)
    ensures Apply(s, step).core.jobs == s.core.jobs
  {
    if step.Receive? {
      hide ReceiveRequest;
      ReceiveJobs(s, Request(s.nextRequest, step.part, s.core.Resolve(step.listener), step.operation, step.stamp),
          step.flight);
    }
  }

  lemma StepAgrees(s: State, step: Step)
    requires Inv(s) && CanTake(s, step) && !step.StartLock? && !step.Detach? && !step.RenewCallbacks?
    ensures JobsAgree(s.core.jobs, Apply(s, step).core.jobs)
  {
    hide Inv, JobsAgree;
    FreshRefs(s);
    StillAgree(s.core.jobs);
    if step.Setup? || step.RunOpen? || step.Adopt? || step.EndSession? || step.EraseLock? {
      hide Apply, CanTake;
      SessionsAgree(s, step);
    } else if LeavesJobs(step) {
      hide Apply, CanTake;
      OthersAgree(s, step);
    } else {
      hide Perform, DeliverStatus, Enqueue;
      match step
      case ActBefore(f) => DropsAgree(s, s.flights[f].lock, s.flights[f].before, JobRef(0, 0));
      case ActAfter(f) => DropsAgree(s, s.flights[f].lock, s.flights[f].after, JobRef(0, 0));
      case Deliver(ref) => DropsAgree(s, 0, Nothing, ref);
      case AddHead(f) => EnqueueAgrees(s, s.flights[f].todo[0], s.flights[f].lock);
      case AddStraight(f) => EnqueueAgrees(s, s.flights[f].request, 0);
    }
  }

  lemma StillAgree(jobs: map<JobRef, TableJob>)
    ensures JobsAgree(jobs, jobs)
  {
  }

  lemma FreshRefs(s: State)
    requires Inv(s)
    ensures forall l :: l in s.core.nextId ==> JobRef(l, s.core.nextId[l]) !in s.core.jobs
  {
  }

  lemma DetachOneReach(s: State, listener: nat, target: nat, q: Part, callback: nat, p: Part)
    requires Inv(s) && target in s.core.nextId && q in s.core.table && p in s.core.table && listener != target
    ensures var now, later := ReachOf(s.core, p), ReachOf(DetachOne(s, listener, target, q, callback).core, p);
            && now.Some?
            && later == if q == p && now.value.listener == listener then Some(Reach(target, callback)) else now
  {
    hide Inv;
    ReachIs(s, p);
    ReachIs(s, q);
  }

  lemma {:induction false} DetachReach(s: State, listener: nat, target: nat, order: seq<Part>, callback: nat, p: Part)
    requires Inv(s) && target in s.core.nextId && InTheTable(s.core.table, order) && p in s.core.table
        && listener != target
    ensures var now, later := ReachOf(s.core, p), ReachOf(DetachEach(s, listener, target, order, callback).core, p);
            && now.Some?
            && later == if p in order && now.value.listener == listener then Some(Reach(target, callback)) else now
    decreases |order|
  {
    hide Inv, DetachOne, ReachOf;
    if order != [] {
      DetachOneReach(s, listener, target, order[0], callback, p);
      DetachOneKeeps(s, listener, target, order[0], callback);
      DetachReach(DetachOne(s, listener, target, order[0], callback), listener, target, order[1..], callback, p);
      assert p in order <==> p == order[0] || p in order[1..];
    } else {
      ReachIs(s, p);
    }
  }

  lemma RenewOneReach(s: State, listener: nat, q: Part, callback: nat, p: Part)
    requires Inv(s) && q in s.core.table && p in s.core.table
    ensures var now, later := ReachOf(s.core, p), ReachOf(s.core.RenewCallback(q, listener, callback), p);
            && now.Some?
            && later == if q == p && now.value.listener == listener then Some(Reach(listener, callback)) else now
  {
    hide Inv;
    ReachIs(s, p);
    ReachIs(s, q);
  }

  lemma {:induction false} RenewReach(s: State, listener: nat, order: seq<Part>, callback: nat, p: Part)
    requires Inv(s) && InTheTable(s.core.table, order) && p in s.core.table
    ensures var now, later := ReachOf(s.core, p), ReachOf(RenewEach(s.core, listener, order, callback), p);
            && now.Some?
            && later == if p in order && now.value.listener == listener then Some(Reach(listener, callback)) else now
    decreases |order|
  {
    hide Inv, ReachOf;
    if order != [] {
      RenewOneReach(s, listener, order[0], callback, p);
      RenewOneKeeps(s, order[0], listener, callback);
      var s1 := s.(core := s.core.RenewCallback(order[0], listener, callback));
      RenewReach(s1, listener, order[1..], callback, p);
      assert p in order <==> p == order[0] || p in order[1..];
    } else {
      ReachIs(s, p);
    }
  }

  lemma StartReach(s: State, p: Part, owner: nat, version: nat, l: nat, callback: nat, f: nat, q: Part)
    requires l in s.core.nextId && JobRef(l, s.core.nextId[l]) !in s.core.jobs
    requires q in s.core.table ==> s.core.table[q].lockJob in s.core.jobs
    ensures var core' := InstallLock(ReplaceLock(s, p, owner, version, f), p, owner, version, l, callback).core;
            ReachOf(core', q) == if q == p then Some(Reach(l, callback)) else ReachOf(s.core, q)
  {
    hide Relocated;
  }

  /** Where the notice of the lock goes after a step that leaves one on the part. */
  function ReachAfter(s: State, step: Step, p: Part): Option<Reach> {
    var now := ReachOf(s.core, p);
    if Starts(s, step) && step.part == p then Some(Reach(s.core.Resolve(step.listener), step.callback))
    else if now.None? then None
    else if step.Detach? && p in step.order && now.value.listener == step.listener
    then Some(Reach(step.target, step.callback))
    else if step.RenewCallbacks? && p in step.order && now.value.listener == step.listener
    then Some(Reach(step.listener, step.callback))
    else now
  }

  lemma StartIs(s: State, step: Step)
    requires CanTake(s, step) && step.StartLock?
    ensures var l := s.core.Resolve(step.listener);
            Apply(s, step) == if Starts(s, step)
              then InstallLock(ReplaceLock(s, step.part, step.owner, step.version, step.flight), step.part, step.owner,
                               step.version, l, step.callback)
              else s
  {
    hide InstallLock, ReplaceLock;
  }

  lemma StartStepReach(s: State, step: Step, p: Part)
    requires Inv(s) && CanTake(s, step) && step.StartLock? && p in Apply(s, step).core.table
    ensures ReachOf(Apply(s, step).core, p) == ReachAfter(s, step, p)
  {
    hide Inv, Apply, InstallLock, ReplaceLock, Starts, ReachOf;
    StartIs(s, step);
    if p in s.core.table {
      ReachIs(s, p);
    } else {
      assert ReachOf(s.core, p) == None by { NoReach(s.core, p); }
    }
    FreshRefs(s);
    StartReach(s, step.part, step.owner, step.version, s.core.Resolve(step.listener), step.callback, step.flight, p);
  }

  lemma NoReach(core: Core, p: Part)
    requires p !in core.table
    ensures ReachOf(core, p) == None
  {
  }

  lemma MoveStepReach(s: State, step: Step, p: Part)
    requires Inv(s) && CanTake(s, step) && (step.Detach? || step.RenewCallbacks?) && p in s.core.table
    ensures ReachOf(Apply(s, step).core, p) == ReachAfter(s, step, p)
  {
    hide Inv, DetachEach, RenewEach;
    var s1 := s.(core := s.core.NextEpoch(step.listener));
    ModeUnseen(s, s.core.identityMode, s.core.NextEpoch(step.listener).epochs, s.parts);
    assert ReachOf(s1.core, p) == ReachOf(s.core, p);
    if step.Detach? {
      DetachReach(s1, step.listener, step.target, step.order, step.callback, p);
    } else {
      RenewReach(s1, step.listener, step.order, step.callback, p);
    }
  }

  lemma OtherStepReach(s: State, step: Step, p: Part)
    requires Inv(s) && CanTake(s, step) && Inv(Apply(s, step)) && p in Apply(s, step).core.table
    requires !step.StartLock? && !step.Detach? && !step.RenewCallbacks?
    ensures p in s.core.table && ReachOf(Apply(s, step).core, p) == ReachOf(s.core, p)
  {
    hide Inv, Apply, CanTake, ReachOf, JobsAgree;
    StepStays(s, step);
    ReachIs(s, p);
    ReachIs(Apply(s, step), p);
    StepAgrees(s, step);
    SameReach(s.core, Apply(s, step).core, p);
  }

  /** Where the notice of a lock goes changes only when the lock is started, to the connection that started it, and when
      that connection closes: then to the listener its lock is moved to, or to the callback set in place of the old. */
  lemma NoticesAreDirected(run: seq<State>, steps: seq<Step>, i: nat, p: Part)
    requires IsRun(run, steps) && i < |steps| && p in run[i + 1].core.table
    ensures ReachOf(run[i + 1].core, p).Some? && ReachOf(run[i + 1].core, p) == ReachAfter(run[i], steps[i], p)
  {
    hide Inv, Init, Apply, ReachOf;
    var s, step := run[i], steps[i];
    InvHolds(run, steps, i);
    InvHolds(run, steps, i + 1);
    assert CanTake(s, step) && run[i + 1] == Apply(s, step);
    ReachIs(run[i + 1], p);
    if step.StartLock? {
      StartStepReach(s, step, p);
    } else if step.Detach? || step.RenewCallbacks? {
      StepView(s, step, p);
      MoveStepReach(s, step, p);
    } else {
      OtherStepReach(s, step, p);
      ReachIs(s, p);
    }
  }
}
