/** How locks end, and which sessions may end them, over whole runs. */
module LockFates {
  import opened Common
  import opened ChunkLocks
  import opened LockProtocol
  import opened LockInvariants
  import opened LockSteps

  /** reservedOpens is exactly the number of sessions that hold the lock's identity and have not settled,
      so it is never negative and the last of them to settle brings it to zero. */
  lemma ReservationsCountOpenSessions(run: seq<State>, steps: seq<Step>, i: nat, p: Part)
    requires IsRun(run, steps) && i < |run| && p in run[i].core.table
    ensures run[i].core.table[p].reserved == |Holders(run[i].sessions, run[i].core.table[p].identity)|
  {
    hide Apply, CanTake;
    InvHolds(run, steps, i);
    HeldBy(run[i].core.table, run[i].sessions, p);
  }

  lemma HeldBy(table: map<Part, Entry>, sessions: map<nat, Session>, p: Part)
    requires HoldersInv(table, sessions) && p in table
    ensures table[p].reserved == |Holders(sessions, table[p].identity)|
  {
  }

  // One end per lock.

  /** The fate a step decides, if it ends the lock of a part. */
  datatype Ending = NoEnding | EndingOf(part: Part, fate: Fate)

  function EndingBy(s: State, step: Step): Ending {
    match step
    case StartLock(p, owner, version, l, _, epoch, _) =>
      if s.core.StartVerdict(p, owner, version, s.core.Resolve(l), epoch) == Installed && p in s.core.table
      then EndingOf(p, Replaced(owner, version, s.core.table[p].version)) else NoEnding
    case EndSession(sid, _, _) =>
      if sid in s.sessions && s.sessions[sid].Settled? && s.sessions[sid].lock != 0
          && s.core.MayRelease(s.sessions[sid].part, None, Some(s.sessions[sid].lock))
      then EndingOf(s.sessions[sid].part, Ended(sid, s.core.identityMode)) else NoEnding
    case EraseLock(p, owner, _) => if s.core.MayRelease(p, Some(owner), None)
        then EndingOf(p, Erased(owner, s.core.identityMode)) else NoEnding
    case _ => NoEnding
  }

  ghost predicate FatesAfter(s: State, ending: Ending, fates: map<nat, Fate>) {
    match ending
    case NoEnding => fates == s.fates
    case EndingOf(p, fate) => p in s.core.table && fates == s.fates[s.core.table[p].identity := fate]
  }

  lemma {:induction false} DetachKeepsFates(s: State, listener: nat, target: nat, order: seq<Part>, callback: nat)
    requires target in s.core.nextId && InTheTable(s.core.table, order)
    ensures var s' := DetachEach(s, listener, target, order, callback); s'.fates == s.fates && s'.joins == s.joins
    decreases |order|
  {
    if order != [] {
      DetachKeepsFates(DetachOne(s, listener, target, order[0], callback), listener, target, order[1..], callback);
    }
  }

  lemma StartFates(s: State, p: Part, owner: nat, version: nat, l: nat, callback: nat, f: nat)
    requires l in s.core.nextId
    ensures var s' := InstallLock(ReplaceLock(s, p, owner, version, f), p, owner, version, l, callback);
            s'.fates == if p in s.core.table then s.fates[s.core.table[p].identity := Replaced(owner, version,
                s.core.table[p].version)] else s.fates
  {
    hide Relocated;
  }

  lemma CloseFates(s: State, sid: nat, status: Status, f: nat)
    requires sid in s.sessions && s.sessions[sid].Settled?
    ensures FatesAfter(s, EndingBy(s, EndSession(sid, status, f)),
        CloseSession(s, sid, s.sessions[sid], status, f).fates)
  {
    hide Relocated;
  }

  lemma OpenFates(s: State, sid: nat, session: Session)
    requires session.Opening?
    ensures OpenSession(s, sid, session).fates == s.fates
  {
    hide Core.Enforce, Core.Joins, Joined;
    if session.part in s.parts && s.parts[session.part] == session.version {
      assert OpenSession(s, sid, session).fates == s.fates;
    }
  }

  lemma AdoptFates(s: State, sid: nat, session: Session, f: nat)
    requires session.Opened?
    ensures AdoptLock(s, sid, session, f).fates == s.fates
  {
    hide Relocated, Core.Unblocked, Core.Unreserve;
  }

  lemma SetupFates(s: State, sid: nat, p: Part, version: nat)
    ensures SetupSession(s, sid, p, version).fates == s.fates
  {
    if s.core.identityMode {
      assert SetupSession(s, sid, p, version).fates == s.fates;
    }
  }

  lemma JobFates(s: State, lock: nat, act: Act, ref: JobRef)
    ensures lock in s.locks ==> Perform(s, lock, act).fates == s.fates
    ensures DeliverStatus(s, ref).fates == s.fates
  {
  }

  lemma StepFates(s: State, step: Step)
    requires CanTake(s, step)
    ensures FatesAfter(s, EndingBy(s, step), Apply(s, step).fates)
  {
    hide AdoptLock, CloseSession, ReceiveRequest, Perform, InstallLock, ReplaceLock, DetachEach, RenewEach;
    hide OpenSession, SetupSession, DeliverStatus, TakeOut, EnqueueHead, EnqueueStraight, UncountHead;
    match step
    case StartLock(p, owner, version, l, callback, epoch, f) =>
      if s.core.StartVerdict(p, owner, version, s.core.Resolve(l), epoch) == Installed {
        StartFates(s, p, owner, version, s.core.Resolve(l), callback, f);
      }
    case EndSession(sid, status, f) => CloseFates(s, sid, status, f);
    case Detach(l, target, order, callback) => DetachKeepsFates(s.(core := s.core.NextEpoch(l)), l, target, order,
        callback);
    case ActBefore(f) => JobFates(s, s.flights[f].lock, s.flights[f].before, JobRef(0, 0));
    case ActAfter(f) => JobFates(s, s.flights[f].lock, s.flights[f].after, JobRef(0, 0));
    case Deliver(ref) => JobFates(s, 0, Nothing, ref);
    case Setup(sid, p, version) => SetupFates(s, sid, p, version);
    case RunOpen(sid) => OpenFates(s, sid, s.sessions[sid]);
    case Adopt(sid, f) => AdoptFates(s, sid, s.sessions[sid], f);
    case Receive(p, l, operation, stamp, f) => ReceiveFates(s,
        Request(s.nextRequest, p, s.core.Resolve(l), operation, stamp), f);
    case EraseLock(p, owner, f) => EraseFates(s, p, owner, f);
    case AddHead(f) => FlightFates(s, f);
    case UndeferHead(f) => FlightFates(s, f);
    case AddStraight(f) => FlightFates(s, f);
    case Allocate(_) =>
    case EnableIdentityMode =>
    case StorePart(_, _) =>
    case FollowVersion(_, _, _) =>
    case RenewCallbacks(_, _, _) =>
    case Answer(_, _) =>
  }

  lemma FlightFates(s: State, f: nat)
    requires f in s.flights
    ensures CanTake(s, AddHead(f)) ==>
        EnqueueHead(s, f, s.flights[f]).fates == s.fates && EnqueueHead(s, f, s.flights[f]).joins == s.joins
    ensures CanTake(s, UndeferHead(f)) ==>
        UncountHead(s, f, s.flights[f]).fates == s.fates && UncountHead(s, f, s.flights[f]).joins == s.joins
    ensures CanTake(s, AddStraight(f)) ==>
              EnqueueStraight(s, f, s.flights[f].request).fates == s.fates
                  && EnqueueStraight(s, f, s.flights[f].request).joins == s.joins
  {
  }

  lemma EraseFates(s: State, p: Part, owner: nat, f: nat)
    requires f !in s.flights
    ensures FatesAfter(s, EndingBy(s, EraseLock(p, owner, f)), Apply(s, EraseLock(p, owner, f)).fates)
  {
    hide Relocated;
  }

  lemma ReceiveFates(s: State, r: Request, f: nat)
    ensures ReceiveRequest(s, r, f).fates == s.fates
  {
  }

  lemma EndingIsNew(s: State, step: Step)
    requires Inv(s) && EndingBy(s, step).EndingOf? && EndingBy(s, step).part in s.core.table
    ensures s.core.table[EndingBy(s, step).part].identity !in s.fates
  {
    hide QueueInv, PostedInv, LeavingInv, TallyInv, RightfulInv, IdsInv, EndingBy;
    hide NumberInv, ParkedInv, TransitInv, LogInv, DeferredInv, GuardInv, HoldersInv, SessionInv;
    EntryIs(s.core.table, s.locks, s.core.nextIdentity, s.core.jobs, EndingBy(s, step).part);
    FateIs(s.locks, s.fates, s.core.table[EndingBy(s, step).part].identity);
  }

  ghost predicate Extends(fates: map<nat, Fate>, fates': map<nat, Fate>) {
    forall i :: i in fates ==> i in fates' && fates'[i] == fates[i]
  }

  /** The fate of a lock is decided once. */
  lemma {:induction false} FateIsFinal(run: seq<State>, steps: seq<Step>, i: nat, j: nat)
    requires IsRun(run, steps) && i <= j < |run|
    ensures Extends(run[i].fates, run[j].fates)
    decreases j - i
  {
    hide Inv, Apply, CanTake, EndingBy;
    if i < j {
      FateIsFinal(run, steps, i, j - 1);
      InvHolds(run, steps, j - 1);
      var s, step := run[j - 1], steps[j - 1];
      assert CanTake(s, step) && run[j - 1 + 1] == Apply(s, step);
      StepFates(s, step);
      if EndingBy(s, step).EndingOf? {
        EndingIsNew(s, step);
      }
    }
  }

  /** Every lock is announced or dropped at most once and never both, and its callback is called at most once
      and only after it was announced. A lock erased or replaced is never announced, one ended by a session
      never dropped. */
  lemma EndsAreExclusive(run: seq<State>, steps: seq<Step>, i: nat, lock: nat)
    requires IsRun(run, steps) && i < |run|
    ensures run[i].notices[lock] + run[i].drops[lock] <= 1 && run[i].calls[lock] <= run[i].notices[lock]
    ensures run[i].notices[lock] == 1 ==> EndedBy(run[i].fates, lock)
    ensures run[i].drops[lock] == 1 ==> lock in run[i].fates && !run[i].fates[lock].Ended?
  {
    hide Apply, CanTake;
    InvHolds(run, steps, i);
    TallyIs(run[i].locks, run[i].fates, run[i].notices, run[i].drops, run[i].calls, lock);
  }

  lemma TallyIs(locks: map<nat, LockRecord>, fates: map<nat, Fate>, notices: multiset<nat>, drops: multiset<nat>,
      calls: multiset<nat>, i: nat)
    requires TallyInv(locks, fates, notices, drops, calls)
    ensures notices[i] == Once(EndedBy(fates, i) && i in locks && (locks[i].place.Announced? || locks[i].place.Gone?))
    ensures drops[i] == Once(i in fates && !fates[i].Ended? && i in locks && locks[i].place.Gone?)
    ensures calls[i] == Once(EndedBy(fates, i) && i in locks && locks[i].place.Gone?)
  {
  }

  /** Once all flights have landed and all statuses are received, every lock that is not in the table had its
      callback called exactly once if a session ended it, and its job dropped exactly once otherwise. */
  lemma QuietLocksAreSettled(run: seq<State>, steps: seq<Step>, i: nat, lock: nat)
    requires IsRun(run, steps) && i < |run| && run[i].flights == map[] && run[i].posted == map[] && lock in run[i].locks
    ensures (exists p :: p in run[i].core.table && run[i].core.table[p].identity == lock) <==> lock !in run[i].fates
    ensures run[i].calls[lock] == run[i].notices[lock] == Once(EndedBy(run[i].fates, lock))
    ensures run[i].drops[lock] == Once(lock in run[i].fates && !run[i].fates[lock].Ended?)
  {
    hide Inv, Apply, CanTake;
    InvHolds(run, steps, i);
    QuietIs(run[i], lock);
  }

  lemma QuietIs(s: State, lock: nat)
    requires s.flights == map[] && s.posted == map[] && lock in s.locks && Inv(s)
    ensures (exists p :: p in s.core.table && s.core.table[p].identity == lock) <==> lock !in s.fates
    ensures s.calls[lock] == s.notices[lock] == Once(EndedBy(s.fates, lock))
    ensures s.drops[lock] == Once(lock in s.fates && !s.fates[lock].Ended?)
  {
    hide QueueInv, TallyInv, RightfulInv, IdsInv, LockJobInv;
    hide NumberInv, ParkedInv, TransitInv, LogInv, DeferredInv, GuardInv, HoldersInv, SessionInv;
    TallyIs(s.locks, s.fates, s.notices, s.drops, s.calls, lock);
    FateIs(s.locks, s.fates, lock);
    if lock !in s.fates {
      assert s.core.table[s.locks[lock].part].identity == lock;
    }
  }

  // Who may end a lock.

  /** The step at which a session joined a lock: the open, with the versions of session, stored part and, in identity
      mode, lock all equal; or, under Master, the setup. */
  predicate JoinsAt(s: State, step: Step, lock: nat, sid: nat) {
    || (&& step == RunOpen(sid) && sid in s.sessions && s.sessions[sid].Opening?
        && var session := s.sessions[sid];
           && session.part in s.parts && s.parts[session.part] == session.version
           && session.part in s.core.table && s.core.table[session.part].identity == lock
           && (s.core.identityMode ==> s.core.table[session.part].version == session.version))
    || (step.Setup? && step.session == sid && !s.core.identityMode && step.part in s.core.table
        && s.core.table[step.part].identity == lock)
  }

  ghost predicate OnlyNewJoin(s: State, step: Step, joins: set<Join>) {
    forall j :: j in joins && j !in s.joins ==> JoinsAt(s, step, j.lock, j.session)
  }

  lemma OpenJoins(s: State, sid: nat)
    requires sid in s.sessions && s.sessions[sid].Opening?
    ensures OnlyNewJoin(s, RunOpen(sid), OpenSession(s, sid, s.sessions[sid]).joins)
  {
    var session := s.sessions[sid];
    var joins := OpenSession(s, sid, session).joins;
    assert joins == s.joins || (session.part in s.parts && s.parts[session.part] == session.version
        && joins == Joined(s.joins, s.core.Joins(session.part, session.version), sid));
  }

  lemma SetupJoins(s: State, sid: nat, p: Part, version: nat)
    ensures OnlyNewJoin(s, Setup(sid, p, version), SetupSession(s, sid, p, version).joins)
  {
    if s.core.identityMode {
      assert SetupSession(s, sid, p, version).joins == s.joins;
    } else {
      assert SetupSession(s, sid, p, version).joins == Joined(s.joins, s.core.Joins(p, version), sid);
    }
  }

  lemma StartJoins(s: State, p: Part, owner: nat, version: nat, l: nat, callback: nat, f: nat)
    requires l in s.core.nextId
    ensures InstallLock(ReplaceLock(s, p, owner, version, f), p, owner, version, l, callback).joins == s.joins
  {
    hide Relocated;
  }

  lemma CloseJoins(s: State, sid: nat, session: Session, status: Status, f: nat)
    ensures session.Settled? ==> CloseSession(s, sid, session, status, f).joins == s.joins
    ensures session.Opened? ==> AdoptLock(s, sid, session, f).joins == s.joins
  {
    hide Relocated, Core.Unblocked, Core.Unreserve;
  }

  lemma JobJoins(s: State, lock: nat, act: Act, ref: JobRef)
    ensures lock in s.locks ==> Perform(s, lock, act).joins == s.joins
    ensures DeliverStatus(s, ref).joins == s.joins
  {
  }

  lemma ReceiveJoins(s: State, r: Request, f: nat)
    ensures ReceiveRequest(s, r, f).joins == s.joins
  {
  }

  lemma StepJoins(s: State, step: Step)
    requires CanTake(s, step)
    ensures OnlyNewJoin(s, step, Apply(s, step).joins)
  {
    hide AdoptLock, CloseSession, ReceiveRequest, Perform, InstallLock, ReplaceLock, DetachEach, RenewEach;
    hide OpenSession, SetupSession, DeliverStatus, JoinsAt, EnqueueHead, EnqueueStraight, UncountHead;
    match step
    case RunOpen(sid) => OpenJoins(s, sid);
    case Setup(sid, p, version) => SetupJoins(s, sid, p, version);
    case StartLock(p, owner, version, l, callback, epoch, f) =>
      if s.core.StartVerdict(p, owner, version, s.core.Resolve(l), epoch) == Installed {
        StartJoins(s, p, owner, version, s.core.Resolve(l), callback, f);
      }
    case Adopt(sid, f) => CloseJoins(s, sid, s.sessions[sid], 0, f);
    case EndSession(sid, status, f) => CloseJoins(s, sid, s.sessions[sid], status, f);
    case Detach(l, target, order, callback) => DetachKeepsFates(s.(core := s.core.NextEpoch(l)), l, target, order,
        callback);
    case ActBefore(f) => JobJoins(s, s.flights[f].lock, s.flights[f].before, JobRef(0, 0));
    case ActAfter(f) => JobJoins(s, s.flights[f].lock, s.flights[f].after, JobRef(0, 0));
    case Deliver(ref) => JobJoins(s, 0, Nothing, ref);
    case Receive(p, l, operation, stamp, f) => ReceiveJoins(s,
        Request(s.nextRequest, p, s.core.Resolve(l), operation, stamp), f);
    case EraseLock(_, _, _) =>
    case AddHead(f) => FlightFates(s, f);
    case UndeferHead(f) => FlightFates(s, f);
    case AddStraight(f) => FlightFates(s, f);
    case Allocate(_) =>
    case EnableIdentityMode =>
    case StorePart(_, _) =>
    case FollowVersion(_, _, _) =>
    case RenewCallbacks(_, _, _) =>
    case Answer(_, _) =>
  }

  lemma {:induction false} JoinHasItsStep(run: seq<State>, steps: seq<Step>, i: nat, lock: nat, sid: nat)
      returns (k: nat)
    requires IsRun(run, steps) && i < |run| && Join(lock, sid) in run[i].joins
    ensures k < i && JoinsAt(run[k], steps[k], lock, sid)
  {
    hide Apply, CanTake, JoinsAt;
    var s, step := run[i - 1], steps[i - 1];
    if Join(lock, sid) in s.joins {
      k := JoinHasItsStep(run, steps, i - 1, lock, sid);
    } else {
      assert CanTake(s, step) && run[i - 1 + 1] == Apply(s, step);
      StepJoins(s, step);
      k := i - 1;
    }
  }

  /** In identity mode, a session ends only a lock that it joined, by an open after the stored version was compared with
      its own, or at its setup if that was under Master; a server erases only its own lock; a lock gives way only to a
      newer one of another server. */
  lemma LocksEndRightfully(run: seq<State>, steps: seq<Step>, i: nat, lock: nat)
    requires IsRun(run, steps) && i < |run| && lock in run[i].fates
    ensures lock in run[i].locks
    ensures match run[i].fates[lock]
            case Ended(sid, strict) => strict ==> exists k :: 0 <= k < i && JoinsAt(run[k], steps[k], lock, sid)
            case Erased(who, strict) => strict ==> who == run[i].locks[lock].owner
            case Replaced(who, newer, older) => who != run[i].locks[lock].owner && older < newer
  {
    hide Apply, CanTake, JoinsAt;
    InvHolds(run, steps, i);
    RightfulIs(run[i].locks, run[i].fates, run[i].joins, lock);
    var fate := run[i].fates[lock];
    if fate.Ended? && fate.strict {
      var k := JoinHasItsStep(run, steps, i, lock, fate.session);
    }
  }

  lemma RightfulIs(locks: map<nat, LockRecord>, fates: map<nat, Fate>, joins: set<Join>, lock: nat)
    requires RightfulInv(locks, fates, joins) && lock in fates
    ensures lock in locks
    ensures match fates[lock]
            case Ended(sid, strict) => strict ==> Join(lock, sid) in joins
            case Erased(who, strict) => strict ==> who == locks[lock].owner
            case Replaced(who, newer, older) => who != locks[lock].owner && older < newer
  {
  }
}
