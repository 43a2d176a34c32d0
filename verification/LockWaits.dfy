/** Which requests wait behind a lock, and what a lock is, over whole runs: told by the steps taken, not by the lock
    table. */
module LockWaits {
  import opened Common
  import opened ChunkLocks
  import opened LockProtocol
  import opened LockInvariants
  import opened LockSteps
  import opened LockRequests
  import opened LockFates
  import opened LockSessions
  import opened LockTheorems

  /** The lock of one part: who it belongs to, whether a session joined it, and what waits behind it. */
  datatype View =
    View(identity: nat, owner: nat, version: nat, joined: bool, reserved: int, pending: seq<Request>)

  function ViewOf(table: map<Part, Entry>, p: Part): Option<View> {
    if p !in table then None
    else
      var e := table[p];
      Some(View(e.identity, e.owner, e.version, e.writeInit, e.reserved, e.pending))
  }

  /** The lock of the part after a step. */
  function ViewAfter(s: State, step: Step, p: Part): Option<View>
    requires CanTake(s, step)
  {
    var v := ViewOf(s.core.table, p);
    match step
    case StartLock(q, owner, version, l, _, epoch, _) =>
      if q == p && (epoch.None? || epoch.value == s.core.Epoch(s.core.Resolve(l)))
          && (v.None? || (s.core.identityMode && v.value.owner != owner && v.value.version < version))
      then Some(View(s.core.nextIdentity, owner, version, false, 0, [])) else v
    case _ => if v.None? then None else Left(s, step, p, v.value)
  }

  /** The lock of the part after a step that starts none there. */
  function Left(s: State, step: Step, p: Part, v: View): Option<View>
    requires CanTake(s, step)
  {
    match step
    case Receive(q, l, operation, stamp, _) =>
      if q == p && (v.joined || v.reserved > 0)
      then Some(v.(pending := v.pending + [Request(s.nextRequest, p, s.core.Resolve(l), operation, stamp)]))
      else Some(v)
    case Setup(_, q, version) =>
      if q == p && !s.core.identityMode then Some(v.(joined := true))
      else if q == p && v.version == version then Some(v.(reserved := v.reserved + 1))
      else Some(v)
    case RunOpen(sid) =>
      var Opening(q, version, _) := s.sessions[sid];
      if q == p && p in s.parts && s.parts[p] == version && (s.core.identityMode ==> v.version == version)
      then Some(v.(joined := true)) else Some(v)
    case Adopt(sid, _) =>
      var Opened(q, _, reserved, _, _) := s.sessions[sid];
      if q == p && v.identity == reserved
      then Some(v.(reserved := v.reserved - 1, pending := if v.joined || v.reserved > 1 then v.pending else []))
      else Some(v)
    case EndSession(sid, _, _) =>
      var Settled(q, _, lock, _) := s.sessions[sid];
      if q == p && lock != 0 && (s.core.identityMode ==> v.identity == lock) then None else Some(v)
    case EraseLock(q, owner, _) => if q == p && (s.core.identityMode ==> v.owner == owner) then None else Some(v)
    case FollowVersion(q, owner, version) =>
      if q == p && s.core.identityMode && v.owner == owner then Some(v.(version := version)) else Some(v)
    case _ => Some(v)
  }

  // Each critical section, for one part.

  lemma ParkView(core: Core, r: Request, p: Part)
    requires r.part in core.table
    ensures var v, v' := ViewOf(core.table, p), ViewOf(core.Park(r).table, p);
            v' == if r.part == p then Some(v.value.(pending := v.value.pending + [r])) else v
  {
  }

  lemma EnforceView(core: Core, q: Part, version: nat, p: Part)
    requires q in core.table ==> core.table[q].identity != 0
    ensures var v, v' := ViewOf(core.table, p), ViewOf(core.Enforce(q, version).table, p);
            v' == if q == p && v.Some? && (core.identityMode ==> v.value.version == version)
            then Some(v.value.(joined := true)) else v
  {
  }

  lemma ReserveView(core: Core, q: Part, version: nat, p: Part)
    requires q in core.table ==> core.table[q].identity != 0
    ensures var v, v' := ViewOf(core.table, p), ViewOf(core.Reserve(q, version).table, p);
            v' == if q == p && v.Some? && v.value.version == version
            then Some(v.value.(reserved := v.value.reserved + 1)) else v
  {
  }

  lemma UnreserveView(core: Core, q: Part, identity: nat, p: Part)
    requires q in core.table ==> core.table[q].identity != 0
    ensures var v, v' := ViewOf(core.table, p), ViewOf(core.Unreserve(q, identity).table, p);
            v' == if q == p && v.Some? && v.value.identity == identity
            then Some(v.value.(reserved := v.value.reserved - 1,
                               pending := if v.value.joined || v.value.reserved > 1 then v.value.pending else []))
            else v
  {
  }

  lemma FollowView(core: Core, q: Part, owner: nat, version: nat, p: Part)
    ensures var v, v' := ViewOf(core.table, p), ViewOf(core.Follow(q, owner, version).table, p);
            v' == if q == p && v.Some? && core.identityMode && v.value.owner == owner
            then Some(v.value.(version := version)) else v
  {
  }

  lemma TakeOutView(s: State, q: Part, f: nat, fate: Fate, before: Act, after: Act, p: Part)
    requires q in s.core.table
    ensures ViewOf(TakeOut(s, q, f, fate, before, after).core.table, p)
         == if q == p then None else ViewOf(s.core.table, p)
  {
    hide Relocated;
  }

  lemma InstallView(s: State, q: Part, owner: nat, version: nat, l: nat, callback: nat, f: nat, p: Part)
    requires l in s.core.nextId
    ensures ViewOf(InstallLock(ReplaceLock(s, q, owner, version, f), q, owner, version, l, callback).core.table, p)
         == if q == p then Some(View(s.core.nextIdentity, owner, version, false, 0, [])) else ViewOf(s.core.table, p)
  {
    hide Relocated;
  }

  lemma {:induction false} DetachView(s: State, listener: nat, target: nat, order: seq<Part>, callback: nat, p: Part)
    requires target in s.core.nextId && InTheTable(s.core.table, order)
    ensures ViewOf(DetachEach(s, listener, target, order, callback).core.table, p) == ViewOf(s.core.table, p)
    decreases |order|
  {
    if order != [] {
      DetachView(DetachOne(s, listener, target, order[0], callback), listener, target, order[1..], callback, p);
    }
  }

  lemma FlightView(s: State, lock: nat, act: Act, ref: JobRef)
    ensures lock in s.locks ==> Perform(s, lock, act).core.table == s.core.table
    ensures DeliverStatus(s, ref).core.table == s.core.table
  {
  }

  lemma IdentitiesArePositive(s: State, p: Part)
    requires Inv(s)
    ensures p in s.core.table ==> 1 <= s.core.table[p].identity < s.core.nextIdentity
  {
  }

  lemma ReceiveView(s: State, r: Request, f: nat, p: Part)
    ensures var v, v' := ViewOf(s.core.table, p), ViewOf(ReceiveRequest(s, r, f).core.table, p);
            v' == if r.part == p && v.Some? && (v.value.joined || v.value.reserved > 0)
                  then Some(v.value.(pending := v.value.pending + [r])) else v
  {
    hide Core.Park;
    if s.core.Holds(r.part) {
      ParkView(s.core, r, p);
    }
  }

  lemma SetupView(s: State, sid: nat, q: Part, version: nat, p: Part)
    requires Inv(s) && CanTake(s, Setup(sid, q, version))
    ensures ViewOf(SetupSession(s, sid, q, version).core.table, p) == ViewAfter(s, Setup(sid, q, version), p)
  {
    hide Inv, Core.Reserve, Core.Enforce, SetupSession;
    IdentitiesArePositive(s, q);
    SetupCore(s, sid, q, version);
    if s.core.identityMode {
      ReserveView(s.core, q, version, p);
    } else {
      EnforceView(s.core, q, version, p);
    }
  }

  lemma SetupCore(s: State, sid: nat, q: Part, version: nat)
    ensures SetupSession(s, sid, q, version).core
         == if s.core.identityMode then s.core.Reserve(q, version) else s.core.Enforce(q, version)
  {
    hide Core.Reserve, Core.Enforce, Core.Joins, Core.Reserves, Joined;
  }

  lemma OpenView(s: State, sid: nat, p: Part)
    requires Inv(s) && CanTake(s, RunOpen(sid))
    ensures ViewOf(OpenSession(s, sid, s.sessions[sid]).core.table, p) == ViewAfter(s, RunOpen(sid), p)
  {
    hide Inv, Core.Enforce, OpenSession;
    var Opening(q, version, _) := s.sessions[sid];
    IdentitiesArePositive(s, q);
    EnforceView(s.core, q, version, p);
    OpenCore(s, sid, s.sessions[sid]);
  }

  lemma OpenCore(s: State, sid: nat, session: Session)
    requires session.Opening?
    ensures OpenSession(s, sid, session).core
         == if session.part in s.parts && s.parts[session.part] == session.version
            then s.core.Enforce(session.part, session.version) else s.core
  {
    hide Core.Enforce, Core.Joins, Joined;
  }

  lemma AdoptView(s: State, sid: nat, f: nat, p: Part)
    requires Inv(s) && CanTake(s, Adopt(sid, f))
    ensures ViewOf(AdoptLock(s, sid, s.sessions[sid], f).core.table, p) == ViewAfter(s, Adopt(sid, f), p)
  {
    hide Inv, Core.Unreserve, Core.Unblocked, Relocated;
    var Opened(q, _, reserved, _, _) := s.sessions[sid];
    IdentitiesArePositive(s, q);
    UnreserveView(s.core, q, reserved, p);
  }

  lemma CloseView(s: State, sid: nat, status: Status, f: nat, p: Part)
    requires CanTake(s, EndSession(sid, status, f))
    ensures ViewOf(CloseSession(s, sid, s.sessions[sid], status, f).core.table, p)
         == ViewAfter(s, EndSession(sid, status, f), p)
  {
    hide CloseSession;
    CloseTable(s, sid, s.sessions[sid], status, f, p);
  }

  lemma CloseTable(s: State, sid: nat, session: Session, status: Status, f: nat, p: Part)
    requires session.Settled?
    ensures ViewOf(CloseSession(s, sid, session, status, f).core.table, p)
         == if session.part == p && session.lock != 0 && s.core.MayRelease(session.part, None, Some(session.lock))
            then None else ViewOf(s.core.table, p)
  {
    hide TakeOut, Core.MayRelease;
    if session.lock != 0 && s.core.MayRelease(session.part, None, Some(session.lock)) {
      Releasable(s.core, session.part, session.lock);
      TakeOutView(s.(sessions := s.sessions - {sid}), session.part, f, Ended(sid, s.core.identityMode), Nothing,
          Notify(s.core.table[session.part].lockJob, status), p);
    }
  }

  lemma Releasable(core: Core, p: Part, lock: nat)
    requires core.MayRelease(p, None, Some(lock))
    ensures p in core.table
  {
  }

  lemma StartView(s: State, step: Step, p: Part)
    requires CanTake(s, step) && step.StartLock?
    ensures ViewOf(Apply(s, step).core.table, p) == ViewAfter(s, step, p)
  {
    hide InstallLock, ReplaceLock;
    var l := s.core.Resolve(step.listener);
    if s.core.StartVerdict(step.part, step.owner, step.version, l, step.epoch) == Installed {
      InstallView(s, step.part, step.owner, step.version, l, step.callback, step.flight, p);
    }
  }

  lemma EraseView(s: State, step: Step, p: Part)
    requires CanTake(s, step) && step.EraseLock?
    ensures ViewOf(Apply(s, step).core.table, p) == ViewAfter(s, step, p)
  {
    hide TakeOut;
    var q := step.part;
    if s.core.MayRelease(q, Some(step.owner), None) {
      var fate, act := Erased(step.owner, s.core.identityMode), Drop(s.core.table[q].lockJob);
      TakeOutView(s, q, step.flight, fate, Nothing, act, p);
    }
  }

  /** The step does not look at the lock table. */
  predicate IsPlain(step: Step) {
    !(step.Receive? || step.StartLock? || step.Setup? || step.RunOpen? || step.Adopt? || step.EndSession?
      || step.EraseLock? || step.FollowVersion?)
  }

  lemma PlainView(s: State, step: Step, p: Part)
    requires CanTake(s, step) && IsPlain(step)
    ensures ViewOf(Apply(s, step).core.table, p) == ViewOf(s.core.table, p)
  {
    hide ViewOf, Perform, DeliverStatus, DetachEach, RenewEach;
    match step
    case Detach(l, target, order, callback) =>
      DetachView(s.(core := s.core.NextEpoch(l)), l, target, order, callback, p);
    case RenewCallbacks(l, order, callback) => RenewKeepsTable(s.core.NextEpoch(l), l, order, callback);
    case ActBefore(f) => FlightView(s, s.flights[f].lock, s.flights[f].before, JobRef(0, 0));
    case ActAfter(f) => FlightView(s, s.flights[f].lock, s.flights[f].after, JobRef(0, 0));
    case Deliver(ref) => FlightView(s, 0, Nothing, ref);
    case Allocate(_) =>
    case EnableIdentityMode =>
    case StorePart(_, _) =>
    case AddHead(_) =>
    case UndeferHead(_) =>
    case AddStraight(_) =>
    case Answer(_, _) =>
  }

  lemma PlainAfter(s: State, step: Step, p: Part)
    requires CanTake(s, step) && IsPlain(step)
    ensures ViewAfter(s, step, p) == ViewOf(s.core.table, p)
  {
    hide ViewOf;
  }

  lemma ReceiveFollows(s: State, step: Step, p: Part)
    requires CanTake(s, step) && step.Receive?
    ensures ViewOf(Apply(s, step).core.table, p) == ViewAfter(s, step, p)
  {
    hide ReceiveRequest;
    ReceiveView(s, Request(s.nextRequest, step.part, s.core.Resolve(step.listener), step.operation, step.stamp),
        step.flight, p);
  }

  lemma FollowFollows(s: State, step: Step, p: Part)
    requires CanTake(s, step) && step.FollowVersion?
    ensures ViewOf(Apply(s, step).core.table, p) == ViewAfter(s, step, p)
  {
    hide Core.Follow;
    FollowView(s.core, step.part, step.owner, step.version, p);
  }

  lemma SessionStepIs(s: State, step: Step)
    requires CanTake(s, step)
    ensures step.Setup? ==> Apply(s, step) == SetupSession(s, step.session, step.part, step.version)
    ensures step.RunOpen? ==> Apply(s, step) == OpenSession(s, step.session, s.sessions[step.session])
    ensures step.Adopt? ==> Apply(s, step) == AdoptLock(s, step.session, s.sessions[step.session], step.flight)
    ensures step.EndSession? ==>
              Apply(s, step) == CloseSession(s, step.session, s.sessions[step.session], step.status, step.flight)
  {
    hide OpenSession, AdoptLock, CloseSession, SetupSession;
  }

  lemma StepView(s: State, step: Step, p: Part)
    requires Inv(s) && CanTake(s, step)
    ensures ViewOf(Apply(s, step).core.table, p) == ViewAfter(s, step, p)
  {
    hide Inv, Apply, ViewOf, ViewAfter, OpenSession, AdoptLock, CloseSession, SetupSession;
    SessionStepIs(s, step);
    match step
    case Receive(_, _, _, _, _) => ReceiveFollows(s, step, p);
    case StartLock(_, _, _, _, _, _, _) => StartView(s, step, p);
    case Setup(sid, q, version) => SetupView(s, sid, q, version, p);
    case RunOpen(sid) => OpenView(s, sid, p);
    case Adopt(sid, f) => AdoptView(s, sid, f, p);
    case EndSession(sid, status, f) => CloseView(s, sid, status, f, p);
    case EraseLock(_, _, _) => EraseView(s, step, p);
    case FollowVersion(_, _, _) => FollowFollows(s, step, p);
    case _ =>
      PlainView(s, step, p);
      PlainAfter(s, step, p);
  }

  // Identities.

  lemma TakeOutKeepsIdentity(s: State, p: Part, f: nat, fate: Fate, before: Act, after: Act)
    requires p in s.core.table
    ensures TakeOut(s, p, f, fate, before, after).core.nextIdentity == s.core.nextIdentity
  {
    hide Relocated;
  }

  lemma InstallTakesIdentity(s: State, p: Part, owner: nat, version: nat, l: nat, callback: nat, f: nat)
    requires l in s.core.nextId
    ensures InstallLock(ReplaceLock(s, p, owner, version, f), p, owner, version, l, callback).core.nextIdentity
         == s.core.nextIdentity + 1
  {
    hide Relocated;
  }

  lemma SetupKeepsIdentity(s: State, sid: nat, p: Part, version: nat)
    ensures SetupSession(s, sid, p, version).core.nextIdentity == s.core.nextIdentity
  {
    hide SetupSession;
    SetupCore(s, sid, p, version);
  }

  lemma OpenKeepsIdentity(s: State, sid: nat, session: Session)
    requires session.Opening?
    ensures OpenSession(s, sid, session).core.nextIdentity == s.core.nextIdentity
  {
    hide OpenSession;
    OpenCore(s, sid, session);
  }

  lemma AdoptKeepsIdentity(s: State, sid: nat, session: Session, f: nat)
    requires session.Opened?
    ensures AdoptLock(s, sid, session, f).core.nextIdentity == s.core.nextIdentity
  {
    hide Relocated, Core.Unblocked;
  }

  lemma CloseKeepsIdentity(s: State, sid: nat, session: Session, status: Status, f: nat)
    requires session.Settled?
    ensures CloseSession(s, sid, session, status, f).core.nextIdentity == s.core.nextIdentity
  {
    hide TakeOut;
    if session.lock != 0 && s.core.MayRelease(session.part, None, Some(session.lock)) {
      var fate, act := Ended(sid, s.core.identityMode), Notify(s.core.table[session.part].lockJob, status);
      TakeOutKeepsIdentity(s.(sessions := s.sessions - {sid}), session.part, f, fate, Nothing, act);
    }
  }

  lemma ReceiveKeepsIdentity(s: State, r: Request, f: nat)
    ensures ReceiveRequest(s, r, f).core.nextIdentity == s.core.nextIdentity
  {
  }

  lemma FlightKeepsIdentity(s: State, lock: nat, act: Act, ref: JobRef)
    ensures lock in s.locks ==> Perform(s, lock, act).core.nextIdentity == s.core.nextIdentity
    ensures DeliverStatus(s, ref).core.nextIdentity == s.core.nextIdentity
  {
  }

  lemma PlainKeepsIdentity(s: State, step: Step)
    requires CanTake(s, step) && IsPlain(step)
    ensures Apply(s, step).core.nextIdentity == s.core.nextIdentity
  {
    hide Perform, DeliverStatus, DetachEach, RenewEach;
    match step
    case Detach(l, target, order, callback) =>
      DetachKeepsIdentity(s.(core := s.core.NextEpoch(l)), l, target, order, callback);
    case RenewCallbacks(l, order, callback) => RenewKeepsIdentity(s.core.NextEpoch(l), l, order, callback);
    case ActBefore(f) => FlightKeepsIdentity(s, s.flights[f].lock, s.flights[f].before, JobRef(0, 0));
    case ActAfter(f) => FlightKeepsIdentity(s, s.flights[f].lock, s.flights[f].after, JobRef(0, 0));
    case Deliver(ref) => FlightKeepsIdentity(s, 0, Nothing, ref);
    case _ =>
  }

  lemma IdentityGrows(s: State, step: Step)
    requires CanTake(s, step)
    ensures s.core.nextIdentity <= Apply(s, step).core.nextIdentity
  {
    if IsPlain(step) {
      hide Apply;
      PlainKeepsIdentity(s, step);
    } else {
      hide TakeOut, OpenSession, AdoptLock, CloseSession, SetupSession, ReceiveRequest, InstallLock, ReplaceLock;
      match step
      case Receive(q, l, operation, stamp, f) =>
        ReceiveKeepsIdentity(s, Request(s.nextRequest, q, s.core.Resolve(l), operation, stamp), f);
      case StartLock(q, owner, version, l, callback, epoch, f) =>
        InstallTakesIdentity(s, q, owner, version, s.core.Resolve(l), callback, f);
      case Setup(sid, q, version) => SetupKeepsIdentity(s, sid, q, version);
      case RunOpen(sid) => OpenKeepsIdentity(s, sid, s.sessions[sid]);
      case Adopt(sid, f) => AdoptKeepsIdentity(s, sid, s.sessions[sid], f);
      case EndSession(sid, status, f) => CloseKeepsIdentity(s, sid, s.sessions[sid], status, f);
      case EraseLock(q, owner, f) =>
        if s.core.MayRelease(q, Some(owner), None) {
          TakeOutKeepsIdentity(s, q, f, Erased(owner, s.core.identityMode), Nothing, Drop(s.core.table[q].lockJob));
        }
      case FollowVersion(_, _, _) =>
    }
  }

  lemma {:induction false} DetachKeepsIdentity(s: State, listener: nat, target: nat, order: seq<Part>, callback: nat)
    requires target in s.core.nextId && InTheTable(s.core.table, order)
    ensures DetachEach(s, listener, target, order, callback).core.nextIdentity == s.core.nextIdentity
    decreases |order|
  {
    if order != [] {
      DetachKeepsIdentity(DetachOne(s, listener, target, order[0], callback), listener, target, order[1..], callback);
    }
  }

  lemma {:induction false} RenewKeepsIdentity(core: Core, listener: nat, order: seq<Part>, callback: nat)
    requires InTheTable(core.table, order)
    ensures RenewEach(core, listener, order, callback).nextIdentity == core.nextIdentity
    decreases |order|
  {
    if order != [] {
      RenewKeepsIdentity(core.RenewCallback(order[0], listener, callback), listener, order[1..], callback);
    }
  }

  lemma {:induction false} IdentitiesGrow(run: seq<State>, steps: seq<Step>, i: nat, j: nat)
    requires IsRun(run, steps) && i <= j < |run|
    ensures run[i].core.nextIdentity <= run[j].core.nextIdentity
    decreases j - i
  {
    hide Apply, CanTake;
    if i < j {
      IdentitiesGrow(run, steps, i, j - 1);
      assert CanTake(run[j - 1], steps[j - 1]) && run[j - 1 + 1] == Apply(run[j - 1], steps[j - 1]);
      IdentityGrows(run[j - 1], steps[j - 1]);
    }
  }

  // Joined locks.

  /** At the step a session joins the lock. */
  ghost predicate SomeJoins(s: State, step: Step, lock: nat) {
    exists sid :: JoinsAt(s, step, lock, sid)
  }

  /** A session joined the lock before the state. */
  ghost predicate JoinedBefore(run: seq<State>, steps: seq<Step>, i: nat, lock: nat)
    requires IsRun(run, steps) && i < |run|
  {
    exists k :: 0 <= k < i && SomeJoins(run[k], steps[k], lock)
  }

  lemma JoinIsOfAnOldLock(run: seq<State>, steps: seq<Step>, i: nat, lock: nat)
    requires IsRun(run, steps) && i < |run| && JoinedBefore(run, steps, i, lock)
    ensures 1 <= lock < run[i].core.nextIdentity
  {
    hide Apply, CanTake, Inv, Init, SomeJoins;
    var k :| 0 <= k < i && SomeJoins(run[k], steps[k], lock);
    InvHolds(run, steps, k);
    IdentitiesGrow(run, steps, k, i);
    var p := JoinedPart(run[k], steps[k], lock);
    IdentitiesArePositive(run[k], p);
  }

  lemma JoinedPart(s: State, step: Step, lock: nat) returns (p: Part)
    requires SomeJoins(s, step, lock)
    ensures p in s.core.table && s.core.table[p].identity == lock
  {
    var sid :| JoinsAt(s, step, lock, sid);
    p := if step.RunOpen? then s.sessions[sid].part else step.part;
  }

  lemma JoinedEarlier(run: seq<State>, steps: seq<Step>, i: nat, lock: nat)
    requires IsRun(run, steps) && 0 < i < |run|
    ensures JoinedBefore(run, steps, i, lock) <==>
              JoinedBefore(run, steps, i - 1, lock) || SomeJoins(run[i - 1], steps[i - 1], lock)
  {
    hide Apply, CanTake, SomeJoins, Init;
    if JoinedBefore(run, steps, i, lock) {
      var k :| 0 <= k < i && SomeJoins(run[k], steps[k], lock);
      if k < i - 1 {
        assert JoinedBefore(run, steps, i - 1, lock);
      }
    }
    if JoinedBefore(run, steps, i - 1, lock) {
      var k :| 0 <= k < i - 1 && SomeJoins(run[k], steps[k], lock);
      assert JoinedBefore(run, steps, i, lock);
    }
  }

  /** A step that leaves a lock in the table: it is joined afterwards if it was or if the step joined it. */
  lemma JoinShows(s: State, step: Step, p: Part)
    requires Inv(s) && CanTake(s, step) && p in s.core.table && ViewAfter(s, step, p).Some?
    requires ViewAfter(s, step, p).value.identity == s.core.table[p].identity
    ensures ViewAfter(s, step, p).value.joined <==>
              s.core.table[p].writeInit || SomeJoins(s, step, s.core.table[p].identity)
  {
    hide Inv;
    IdentitiesArePositive(s, p);
    OnePartPerIdentity(s, p);
    var lock := s.core.table[p].identity;
    if step.Setup? {
      assert SomeJoins(s, step, lock) ==> !s.core.identityMode && step.part == p;
      if !s.core.identityMode && step.part == p {
        assert JoinsAt(s, step, lock, step.session);
      }
    } else if step.RunOpen? {
      OpenShows(s, step.session, p);
    } else {
      OthersShowNothing(s, step, p);
    }
  }

  lemma OpenShows(s: State, sid: nat, p: Part)
    requires CanTake(s, RunOpen(sid)) && p in s.core.table
    requires forall q :: q in s.core.table && s.core.table[q].identity == s.core.table[p].identity ==> q == p
    ensures ViewAfter(s, RunOpen(sid), p).value.joined <==>
              s.core.table[p].writeInit || SomeJoins(s, RunOpen(sid), s.core.table[p].identity)
  {
    var lock := s.core.table[p].identity;
    if JoinsAt(s, RunOpen(sid), lock, sid) {
      assert SomeJoins(s, RunOpen(sid), lock);
    }
  }

  lemma OthersShowNothing(s: State, step: Step, p: Part)
    requires CanTake(s, step) && p in s.core.table && ViewAfter(s, step, p).Some? && !step.Setup? && !step.RunOpen?
    requires ViewAfter(s, step, p).value.identity == s.core.table[p].identity < s.core.nextIdentity
    ensures ViewAfter(s, step, p).value.joined == s.core.table[p].writeInit && forall lock :: !SomeJoins(s, step, lock)
  {
  }

  lemma OnePartPerIdentity(s: State, p: Part)
    requires Inv(s) && p in s.core.table
    ensures forall q :: q in s.core.table && s.core.table[q].identity == s.core.table[p].identity ==> q == p
  {
  }

  lemma EmptyAtFirst(s: State)
    requires Init(s)
    ensures s.core.table == map[]
  {
  }

  /** A lock bears the mark that makes requests wait exactly if a session has joined it. */
  lemma {:induction false} MarkedIffJoined(run: seq<State>, steps: seq<Step>, i: nat, p: Part)
    requires IsRun(run, steps) && i < |run| && p in run[i].core.table
    ensures run[i].core.table[p].writeInit <==> JoinedBefore(run, steps, i, run[i].core.table[p].identity)
  {
    hide Apply, CanTake, Inv, SomeJoins, ViewAfter, JoinedBefore, Init;
    if i == 0 {
      EmptyAtFirst(run[0]);
      assert false;
    } else {
      var s, step, lock := run[i - 1], steps[i - 1], run[i].core.table[p].identity;
      InvHolds(run, steps, i - 1);
      assert CanTake(s, step) && run[i - 1 + 1] == Apply(s, step);
      StepView(s, step, p);
      JoinedEarlier(run, steps, i, lock);
      if p in s.core.table && s.core.table[p].identity == lock {
        MarkedIffJoined(run, steps, i - 1, p);
        JoinShows(s, step, p);
      } else {
        NewLocksAreFree(s, step, p);
        if JoinedBefore(run, steps, i - 1, lock) {
          JoinIsOfAnOldLock(run, steps, i - 1, lock);
        }
      }
    }
  }

  /** A lock that was not there before the step is new, and nobody has joined it. */
  lemma NewLocksAreFree(s: State, step: Step, p: Part)
    requires CanTake(s, step) && ViewAfter(s, step, p).Some?
    requires p !in s.core.table || s.core.table[p].identity != ViewAfter(s, step, p).value.identity
    ensures step.StartLock? && ViewAfter(s, step, p).value.identity == s.core.nextIdentity
    ensures !ViewAfter(s, step, p).value.joined && forall lock :: !SomeJoins(s, step, lock)
  {
  }

  // Reserved locks.

  /** At the step the setup of a session reserves the lock: it is in the table, at the session's version. */
  predicate ReservesAt(s: State, step: Step, lock: nat, sid: nat) {
    step.Setup? && step.session == sid && s.core.identityMode && step.part in s.core.table
        && s.core.table[step.part].identity == lock && s.core.table[step.part].version == step.version
  }

  /** The session has not settled yet, and holds the lock it reserved. */
  predicate HoldsLock(s: State, sid: nat, lock: nat) {
    sid in s.sessions && Unsettled(s.sessions[sid]) && s.sessions[sid].reserved == lock
  }

  lemma SetupHolds(s: State, step: Step, sid: nat, lock: nat)
    requires Inv(s) && CanTake(s, step) && step.Setup? && step.session == sid && lock != 0
    ensures HoldsLock(Apply(s, step), sid, lock) <==> ReservesAt(s, step, lock, sid)
    ensures sid in Apply(s, step).usedSessions
  {
    hide Inv, Apply;
    StepSessions(s, step);
    IdentitiesArePositive(s, step.part);
  }

  lemma OthersHold(s: State, step: Step, sid: nat, lock: nat)
    requires CanTake(s, step) && !(step.Setup? && step.session == sid)
    ensures HoldsLock(Apply(s, step), sid, lock) ==> HoldsLock(s, sid, lock)
    ensures HoldsLock(s, sid, lock) ==>
              HoldsLock(Apply(s, step), sid, lock) || (step.Adopt? && step.session == sid)
    ensures sid in s.usedSessions ==> sid in Apply(s, step).usedSessions
  {
    hide Apply, Core.Joins, Core.Reserves;
    StepSessions(s, step);
  }

  lemma {:induction false} HolderReserved(run: seq<State>, steps: seq<Step>, i: nat, sid: nat, lock: nat)
      returns (k: nat)
    requires IsRun(run, steps) && i < |run| && HoldsLock(run[i], sid, lock) && lock != 0
    ensures k < i && ReservesAt(run[k], steps[k], lock, sid)
  {
    hide Apply, CanTake, Inv, HoldsLock, ReservesAt, Init;
    if i == 0 {
      NobodyHoldsAtFirst(run[0], sid, lock);
      assert false;
    } else {
      var s, step := run[i - 1], steps[i - 1];
      InvHolds(run, steps, i - 1);
      assert CanTake(s, step) && run[i - 1 + 1] == Apply(s, step);
      if step.Setup? && step.session == sid {
        SetupHolds(s, step, sid, lock);
        k := i - 1;
      } else {
        OthersHold(s, step, sid, lock);
        k := HolderReserved(run, steps, i - 1, sid, lock);
      }
    }
  }

  lemma NobodyHoldsAtFirst(s: State, sid: nat, lock: nat)
    requires Init(s)
    ensures !HoldsLock(s, sid, lock)
  {
  }

  lemma {:induction false} ReserverHolds(run: seq<State>, steps: seq<Step>, k: nat, i: nat, sid: nat, lock: nat)
    requires IsRun(run, steps) && k < i < |run| && ReservesAt(run[k], steps[k], lock, sid) && lock != 0
    requires forall j :: k < j < i ==> !(steps[j].Adopt? && steps[j].session == sid)
    ensures HoldsLock(run[i], sid, lock) && sid in run[i].usedSessions
    decreases i
  {
    hide Apply, Inv, HoldsLock, Init;
    var s, step := run[i - 1], steps[i - 1];
    InvHolds(run, steps, i - 1);
    assert CanTake(s, step) && run[i - 1 + 1] == Apply(s, step);
    if i == k + 1 {
      SetupHolds(s, step, sid, lock);
    } else {
      ReserverHolds(run, steps, k, i - 1, sid, lock);
      OthersHold(s, step, sid, lock);
    }
  }

  /** Before the state a session reserved the lock, and it has not settled since. */
  ghost predicate ReservedUntil(run: seq<State>, steps: seq<Step>, i: nat, lock: nat)
    requires IsRun(run, steps) && i < |run|
  {
    exists k, sid :: 0 <= k < i && ReservesAt(run[k], steps[k], lock, sid) && Unadopted(steps, k, i, sid)
  }

  predicate Unadopted(steps: seq<Step>, k: nat, i: nat, sid: nat)
    requires i <= |steps|
  {
    forall j :: k < j < i ==> !(steps[j].Adopt? && steps[j].session == sid)
  }

  lemma {:induction false} HoldersHaveNotAdopted(run: seq<State>, steps: seq<Step>, k: nat, i: nat, sid: nat, lock: nat)
    requires IsRun(run, steps) && k < i < |run| && ReservesAt(run[k], steps[k], lock, sid) && lock != 0
    requires HoldsLock(run[i], sid, lock)
    ensures Unadopted(steps, k, i, sid)
    decreases i
  {
    hide Apply, Inv, HoldsLock, Init;
    if k < i - 1 {
      var s, step := run[i - 1], steps[i - 1];
      InvHolds(run, steps, i - 1);
      assert CanTake(s, step) && run[i - 1 + 1] == Apply(s, step);
      UsedStays(run, steps, k, i - 1, sid);
      OthersHold(s, step, sid, lock);
      HoldersHaveNotAdopted(run, steps, k, i - 1, sid, lock);
      if step.Adopt? && step.session == sid {
        AdoptSettles(s, step, lock);
      }
    }
  }

  lemma AdoptSettles(s: State, step: Step, lock: nat)
    requires CanTake(s, step) && step.Adopt?
    ensures !HoldsLock(Apply(s, step), step.session, lock)
  {
    hide Apply;
    StepSessions(s, step);
  }

  lemma {:induction false} UsedStays(run: seq<State>, steps: seq<Step>, k: nat, i: nat, sid: nat)
    requires IsRun(run, steps) && k < i < |run| && steps[k].Setup? && steps[k].session == sid
    ensures sid in run[i].usedSessions
    decreases i
  {
    hide Apply, CanTake, Init;
    assert CanTake(run[i - 1], steps[i - 1]) && run[i - 1 + 1] == Apply(run[i - 1], steps[i - 1]);
    StepSessions(run[i - 1], steps[i - 1]);
    if k < i - 1 {
      UsedStays(run, steps, k, i - 1, sid);
    }
  }

  lemma SomeHolder(s: State, p: Part) returns (sid: nat)
    requires Inv(s) && p in s.core.table && s.core.table[p].reserved > 0
    ensures HoldsLock(s, sid, s.core.table[p].identity)
  {
    HeldBy(s.core.table, s.sessions, p);
    var holders := Holders(s.sessions, s.core.table[p].identity);
    assert holders != {};
    sid :| sid in holders;
  }

  lemma HolderCounts(s: State, p: Part, sid: nat)
    requires Inv(s) && p in s.core.table && HoldsLock(s, sid, s.core.table[p].identity)
    ensures s.core.table[p].reserved > 0
  {
    HeldBy(s.core.table, s.sessions, p);
    var holders := Holders(s.sessions, s.core.table[p].identity);
    assert sid in holders;
  }

  /** The count of reservations is positive exactly if such a session is there. */
  lemma CountedIffReserved(run: seq<State>, steps: seq<Step>, i: nat, p: Part)
    requires IsRun(run, steps) && i < |run| && p in run[i].core.table
    ensures run[i].core.table[p].reserved > 0 <==> ReservedUntil(run, steps, i, run[i].core.table[p].identity)
  {
    hide Apply, CanTake, Inv, HoldsLock, ReservesAt, Init, Unadopted;
    var lock := run[i].core.table[p].identity;
    InvHolds(run, steps, i);
    IdentitiesArePositive(run[i], p);
    if run[i].core.table[p].reserved > 0 {
      var sid := SomeHolder(run[i], p);
      var k := HolderReserved(run, steps, i, sid, lock);
      HoldersHaveNotAdopted(run, steps, k, i, sid, lock);
    }
    if ReservedUntil(run, steps, i, lock) {
      var k, sid :| 0 <= k < i && ReservesAt(run[k], steps[k], lock, sid) && Unadopted(steps, k, i, sid);
      Spelled(steps, k, i, sid);
      ReserverHolds(run, steps, k, i, sid, lock);
      HolderCounts(run[i], p, sid);
    }
  }

  lemma Spelled(steps: seq<Step>, k: nat, i: nat, sid: nat)
    requires i <= |steps| && Unadopted(steps, k, i, sid)
    ensures forall j :: k < j < i ==> !(steps[j].Adopt? && steps[j].session == sid)
  {
  }

  // Who waits.

  /** A request waits behind the lock of its part exactly if a session has joined that lock, or has reserved it and not
      settled yet; it then waits behind all that wait already. Otherwise it goes straight on. */
  lemma RequestsWaitIffHeld(run: seq<State>, steps: seq<Step>, i: nat)
    requires IsRun(run, steps) && i < |steps| && steps[i].Receive?
    ensures var p, r := steps[i].part, Received(run[i], steps[i]);
            if p in run[i].core.table && var lock := run[i].core.table[p].identity;
               (JoinedBefore(run, steps, i, lock) || ReservedUntil(run, steps, i, lock))
            then At(run[i + 1], r, PendingSpot(p, |run[i].core.table[p].pending|))
            else At(run[i + 1], r, FlightSpot(steps[i].flight, 0)) && run[i + 1].flights[steps[i].flight].Straight?
  {
    hide Apply, CanTake, Inv, Init, JoinedBefore, ReservedUntil;
    var p := steps[i].part;
    InvHolds(run, steps, i);
    assert CanTake(run[i], steps[i]) && run[i + 1] == Apply(run[i], steps[i]);
    if p in run[i].core.table {
      MarkedIffJoined(run, steps, i, p);
      CountedIffReserved(run, steps, i, p);
    }
    ReceiveDecides(run[i], steps[i]);
  }

  lemma ReceiveDecides(s: State, step: Step)
    requires CanTake(s, step) && step.Receive?
    ensures var s', p, r := Apply(s, step), step.part, Received(s, step);
            if p in s.core.table && (s.core.table[p].writeInit || s.core.table[p].reserved > 0)
            then At(s', r, PendingSpot(p, |s.core.table[p].pending|))
            else At(s', r, FlightSpot(step.flight, 0)) && s'.flights[step.flight].Straight?
  {
    hide ReceiveRequest;
    var r := Received(s, step);
    if s.core.Holds(step.part) {
      ReceiveView(s, r, step.flight, step.part);
    } else {
      StraightAhead(s, r, step.flight);
    }
  }

  lemma StraightAhead(s: State, r: Request, f: nat)
    requires !s.core.Holds(r.part)
    ensures ReceiveRequest(s, r, f).flights == s.flights[f := Straight(r)]
  {
    hide Core.Holds;
  }

  /** Requests behind a lock that a session has joined stay there, in their order, until the lock leaves the table. */
  lemma {:induction false} JoinedLocksKeepRequests(run: seq<State>, steps: seq<Step>, i: nat, j: nat, p: Part)
    requires IsRun(run, steps) && i <= j < |run| && p in run[i].core.table && p in run[j].core.table
    requires run[j].core.table[p].identity == run[i].core.table[p].identity
    requires JoinedBefore(run, steps, i, run[i].core.table[p].identity)
    ensures run[i].core.table[p].pending <= run[j].core.table[p].pending
    decreases j
  {
    hide Apply, CanTake, Inv, Init, JoinedBefore, ViewAfter;
    if i < j {
      var s, step, lock := run[j - 1], steps[j - 1], run[i].core.table[p].identity;
      InvHolds(run, steps, j - 1);
      assert CanTake(s, step) && run[j - 1 + 1] == Apply(s, step);
      StepView(s, step, p);
      OldLocksStay(run, steps, i, j, p);
      JoinedStays(run, steps, i, j - 1, lock);
      JoinedLocksKeepRequests(run, steps, i, j - 1, p);
      MarkedIffJoined(run, steps, j - 1, p);
      JoinedKeep(s, step, p);
    }
  }

  lemma JoinedKeep(s: State, step: Step, p: Part)
    requires CanTake(s, step) && p in s.core.table && s.core.table[p].writeInit && ViewAfter(s, step, p).Some?
    requires ViewAfter(s, step, p).value.identity == s.core.table[p].identity < s.core.nextIdentity
    ensures s.core.table[p].pending <= ViewAfter(s, step, p).value.pending
  {
  }

  lemma JoinedStays(run: seq<State>, steps: seq<Step>, i: nat, j: nat, lock: nat)
    requires IsRun(run, steps) && i <= j < |run| && JoinedBefore(run, steps, i, lock)
    ensures JoinedBefore(run, steps, j, lock)
  {
    hide Apply, CanTake, Init, SomeJoins;
  }

  /** A lock in the table at both states was there in between. */
  lemma OldLocksStay(run: seq<State>, steps: seq<Step>, i: nat, j: nat, p: Part)
    requires IsRun(run, steps) && i < j < |run| && p in run[i].core.table && p in run[j].core.table
    requires run[j].core.table[p].identity == run[i].core.table[p].identity
    ensures p in run[j - 1].core.table && run[j - 1].core.table[p].identity == run[i].core.table[p].identity
    ensures run[i].core.table[p].identity < run[j - 1].core.nextIdentity
  {
    hide Apply, CanTake, Inv, Init, ViewAfter;
    var s, step := run[j - 1], steps[j - 1];
    InvHolds(run, steps, i);
    InvHolds(run, steps, j - 1);
    assert CanTake(s, step) && run[j - 1 + 1] == Apply(s, step);
    StepView(s, step, p);
    IdentitiesArePositive(run[i], p);
    IdentitiesGrow(run, steps, i, j - 1);
    if p !in s.core.table || s.core.table[p].identity != run[j].core.table[p].identity {
      NewLocksAreFree(s, step, p);
    }
  }

  // What a lock is.

  /** The version of a lock of the owner, started with one, after the steps: that of the last change its owner announced
      in identity mode. */
  function VersionAfter(run: seq<State>, steps: seq<Step>, from: nat, i: nat, p: Part, owner: nat, version: nat): nat
    requires IsRun(run, steps) && from <= i < |run|
    decreases i
  {
    if i == from then version
    else if run[i - 1].core.identityMode && steps[i - 1].FollowVersion? && steps[i - 1].part == p
        && steps[i - 1].owner == owner then steps[i - 1].version
    else VersionAfter(run, steps, from, i - 1, p, owner, version)
  }

  /** Whether a start takes effect: it comes over the current connection, and the part has no lock or, in identity mode,
      an older one of another server. */
  predicate Starts(s: State, step: Step) {
    && step.StartLock? && (step.epoch.None? || step.epoch.value == s.core.Epoch(s.core.Resolve(step.listener)))
    && (step.part in s.core.table ==>
          && s.core.identityMode && s.core.table[step.part].owner != step.owner
          && s.core.table[step.part].version < step.version)
  }

  /** Every lock in the table was started there by its owner, under a new identity, and has the version its owner
      announced last. */
  lemma {:induction false} LocksAreAsStarted(run: seq<State>, steps: seq<Step>, i: nat, p: Part) returns (k: nat)
    requires IsRun(run, steps) && i < |run| && p in run[i].core.table
    ensures k < i && Starts(run[k], steps[k]) && steps[k].part == p && steps[k].owner == run[i].core.table[p].owner
    ensures run[i].core.table[p].identity == run[k].core.nextIdentity
    ensures run[i].core.table[p].version
         == VersionAfter(run, steps, k + 1, i, p, run[i].core.table[p].owner, steps[k].version)
  {
    hide Apply, Inv, Init, ViewAfter;
    if i == 0 {
      EmptyAtFirst(run[0]);
      assert false;
    } else {
      var s, step := run[i - 1], steps[i - 1];
      InvHolds(run, steps, i - 1);
      assert CanTake(s, step) && run[i - 1 + 1] == Apply(s, step);
      StepView(s, step, p);
      StartedOrLeft(s, step, p);
      if Starts(s, step) && step.part == p {
        k := i - 1;
      } else {
        k := LocksAreAsStarted(run, steps, i - 1, p);
      }
    }
  }

  lemma StartedOrLeft(s: State, step: Step, p: Part)
    requires CanTake(s, step) && ViewAfter(s, step, p).Some?
    ensures var v := ViewAfter(s, step, p).value;
            if Starts(s, step) && step.part == p then
              v == View(s.core.nextIdentity, step.owner, step.version, false, 0, [])
            else
              && p in s.core.table && v.identity == s.core.table[p].identity && v.owner == s.core.table[p].owner
              && v.version == if s.core.identityMode && step.FollowVersion? && step.part == p && step.owner == v.owner
                              then step.version else s.core.table[p].version
  {
  }

  /** A start takes effect exactly so, giving the part a new lock; otherwise it changes nothing. */
  lemma StartTakesEffectIff(run: seq<State>, steps: seq<Step>, i: nat)
    requires IsRun(run, steps) && i < |steps| && steps[i].StartLock?
    ensures !Starts(run[i], steps[i]) ==> run[i + 1] == run[i]
    ensures Starts(run[i], steps[i]) ==>
              ViewOf(run[i + 1].core.table, steps[i].part)
                  == Some(View(run[i].core.nextIdentity, steps[i].owner, steps[i].version, false, 0, []))
  {
    hide Inv, Init, InstallLock, ReplaceLock;
    InvHolds(run, steps, i);
    StepView(run[i], steps[i], steps[i].part);
    assert CanTake(run[i], steps[i]) && run[i + 1] == Apply(run[i], steps[i]);
  }
}
