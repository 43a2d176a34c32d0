/** What becomes of the requests that wait behind locks, over whole runs. */
module LockRequests {
  import opened Common
  import opened ChunkLocks
  import opened LockProtocol
  import opened LockInvariants
  import opened LockSteps

  // What a step does to requests.

  datatype Change =
    | Same
    | Arrives(request: Request, place: Where)
    | Lifts(part: Part, flight: nat)
    | HeadGoesIn(flight: nat)
    | HeadIsDone(flight: nat)
    | GoesStraight(flight: nat)

  function ChangeOf(s: State, step: Step): Change {
    match step
    case Receive(p, l, operation, stamp, f) =>
      Arrives(Request(s.nextRequest, p, s.core.Resolve(l), operation, stamp),
              if s.core.Holds(p) then Parked(s.core.table[p].identity) else Direct(f))
    case StartLock(p, owner, version, l, _, epoch, f) =>
      if s.core.StartVerdict(p, owner, version, s.core.Resolve(l), epoch) == Installed && p in s.core.table
          then Lifts(p, f) else Same
    case Adopt(sid, f) =>
      if sid in s.sessions && s.sessions[sid].Opened?
          && s.core.Unblocked(s.sessions[sid].part, s.sessions[sid].reserved) != []
      then Lifts(s.sessions[sid].part, f) else Same
    case EndSession(sid, _, f) =>
      if sid in s.sessions && s.sessions[sid].Settled? && s.sessions[sid].lock != 0
          && s.core.MayRelease(s.sessions[sid].part, None, Some(s.sessions[sid].lock))
      then Lifts(s.sessions[sid].part, f) else Same
    case EraseLock(p, owner, f) => if s.core.MayRelease(p, Some(owner), None) then Lifts(p, f) else Same
    case AddHead(f) => HeadGoesIn(f)
    case UndeferHead(f) => HeadIsDone(f)
    case AddStraight(f) => GoesStraight(f)
    case _ => Same
  }

  /** A flight keeps its lock while it lasts. */
  ghost predicate FlightsKeep(flights: map<nat, Flight>, flights': map<nat, Flight>) {
    forall f :: f in flights && f in flights' ==>
        flights[f].Batch? == flights'[f].Batch? && (flights[f].Batch? ==> flights'[f].lock == flights[f].lock)
  }

  ghost predicate Effect(s: State, change: Change, requests: map<nat, RequestRecord>, log: seq<LogEntry>,
      flights: map<nat, Flight>) {
    match change
    case Same => requests == s.requests && log == s.log
    case Arrives(r, place) => requests == s.requests[r.id := RequestRecord(r, place)] && log == s.log
    case Lifts(p, f) =>
      && p in s.core.table && f !in s.flights && requests == Relocated(s.requests, s.core.table[p].pending, f)
          && log == s.log
      && f in flights && Carries(flights, f, s.core.table[p].identity) && Unadded(flights[f]) == s.core.table[p].pending
    case HeadGoesIn(f) =>
      && ReadyToAdd(s, f) && s.flights[f].todo[0].id in s.requests
      && requests == Placed(s.requests, s.flights[f].todo[0].id, Finishing(f))
          && log == s.log + [LogEntry(s.flights[f].todo[0], s.flights[f].lock)]
    case HeadIsDone(f) =>
      && f in s.flights && s.flights[f].Batch? && s.flights[f].added && s.flights[f].todo != []
          && s.flights[f].todo[0].id in s.requests
      && requests == Placed(s.requests, s.flights[f].todo[0].id, Done) && log == s.log
    case GoesStraight(f) =>
      && f in s.flights && s.flights[f].Straight? && s.flights[f].request.id in s.requests
      && requests == Placed(s.requests, s.flights[f].request.id, Done)
          && log == s.log + [LogEntry(s.flights[f].request, 0)]
  }

  ghost function Placed(requests: map<nat, RequestRecord>, id: nat, place: Where): map<nat, RequestRecord>
    requires id in requests
  {
    requests[id := requests[id].(place := place)]
  }

  predicate Carries(flights: map<nat, Flight>, f: nat, lock: nat) {
    f in flights && flights[f].Batch? && flights[f].lock == lock
  }

  /** The requests of a flight that are not in the queue yet. */
  function Unadded(flight: Flight): seq<Request> {
    if flight.Straight? then []
    else if flight.added && flight.todo != [] then flight.todo[1..] else flight.todo
  }

  lemma TakeOutEffect(s: State, p: Part, f: nat, fate: Fate, before: Act, after: Act)
    requires p in s.core.table && f !in s.flights
    ensures var s' := TakeOut(s, p, f, fate, before, after);
            Effect(s, Lifts(p, f), s'.requests, s'.log, s'.flights) && FlightsKeep(s.flights, s'.flights)
  {
  }

  lemma StartChange(s: State, p: Part, owner: nat, version: nat, l: nat, callback: nat, f: nat)
    requires l in s.core.nextId && f !in s.flights
    ensures var s' := InstallLock(ReplaceLock(s, p, owner, version, f), p, owner, version, l, callback);
            Effect(s, if p in s.core.table then Lifts(p, f) else Same, s'.requests, s'.log, s'.flights)
                && FlightsKeep(s.flights, s'.flights)
  {
    hide Effect, FlightsKeep, TakeOut;
    if p in s.core.table {
      TakeOutEffect(s, p, f, Replaced(owner, version, s.core.table[p].version), Drop(s.core.table[p].lockJob), Nothing);
    } else {
      NoChange(s, s.flights);
    }
  }

  lemma NoChange(s: State, flights: map<nat, Flight>)
    requires FlightsKeep(s.flights, flights)
    ensures Effect(s, Same, s.requests, s.log, flights) && FlightsKeep(s.flights, s.flights)
  {
  }

  lemma AdoptChange(s: State, sid: nat, f: nat)
    requires sid in s.sessions && s.sessions[sid].Opened? && f !in s.flights
    ensures var s' := AdoptLock(s, sid, s.sessions[sid], f);
            Effect(s, ChangeOf(s, Adopt(sid, f)), s'.requests, s'.log, s'.flights) && FlightsKeep(s.flights, s'.flights)
  {
    var session := s.sessions[sid];
    var s' := AdoptLock(s, sid, session, f);
    var batch := s.core.Unblocked(session.part, session.reserved);
    if batch == [] {
      assert s'.flights == s.flights && s'.requests == s.requests && s'.log == s.log;
    } else {
      assert s'.flights == s.flights[f := Batch(session.reserved, Nothing, batch, false, Nothing)];
      assert s'.requests == Relocated(s.requests, batch, f) && s'.log == s.log;
    }
  }

  lemma CloseChange(s: State, sid: nat, status: Status, f: nat)
    requires sid in s.sessions && s.sessions[sid].Settled? && f !in s.flights
    ensures var s' := CloseSession(s, sid, s.sessions[sid], status, f);
            Effect(s, ChangeOf(s, EndSession(sid, status, f)), s'.requests, s'.log, s'.flights)
                && FlightsKeep(s.flights, s'.flights)
  {
    hide Effect, FlightsKeep, TakeOut;
    var Settled(p, _, lock, _) := s.sessions[sid];
    if lock != 0 && s.core.MayRelease(p, None, Some(lock)) {
      var closed := s.(sessions := s.sessions - {sid});
      TakeOutEffect(closed, p, f, Ended(sid, s.core.identityMode), Nothing, Notify(s.core.table[p].lockJob, status));
      EffectOfParts(closed, s, Lifts(p, f), TakeOut(closed, p, f, Ended(sid, s.core.identityMode), Nothing,
          Notify(s.core.table[p].lockJob, status)));
    } else {
      StillKept(s.flights);
      NoChange(s, s.flights);
    }
  }

  lemma StillKept(flights: map<nat, Flight>)
    ensures FlightsKeep(flights, flights)
  {
  }

  lemma EffectOfParts(s1: State, s2: State, change: Change, s': State)
    requires s1.requests == s2.requests && s1.log == s2.log && s1.flights == s2.flights && s1.core == s2.core
    requires Effect(s1, change, s'.requests, s'.log, s'.flights)
    ensures Effect(s2, change, s'.requests, s'.log, s'.flights)
  {
  }

  lemma ReceiveChange(s: State, p: Part, l: nat, r: Request, f: nat)
    requires r.part == p && f !in s.flights
    ensures var s' := ReceiveRequest(s, r, f);
            && Effect(s, Arrives(r, if s.core.Holds(p) then Parked(s.core.table[p].identity) else Direct(f)),
                s'.requests, s'.log, s'.flights)
            && FlightsKeep(s.flights, s'.flights)
  {
  }

  lemma FlightChange(s: State, f: nat)
    requires f in s.flights && s.flights[f].Batch?
    ensures FlightsKeep(s.flights, s.flights[f := s.flights[f].(before := Nothing)])
        && FlightsKeep(s.flights, s.flights - {f})
  {
  }

  lemma PerformUntouched(s: State, lock: nat, act: Act)
    requires lock in s.locks
    ensures Untouched(s, Perform(s, lock, act))
  {
  }

  lemma {:induction false} DetachChange(s: State, listener: nat, target: nat, order: seq<Part>, callback: nat)
    requires target in s.core.nextId && InTheTable(s.core.table, order)
    ensures var s' := DetachEach(s, listener, target, order, callback);
            s'.requests == s.requests && s'.log == s.log && s'.flights == s.flights
    decreases |order|
  {
    if order != [] {
      DetachChange(DetachOne(s, listener, target, order[0], callback), listener, target, order[1..], callback);
    }
  }

  lemma HeadChange(s: State, f: nat)
    requires f in s.flights && s.flights[f].Batch? && s.flights[f].todo != [] && s.flights[f].todo[0].id in s.requests
    ensures s.flights[f].added ==>
              var s' := UncountHead(s, f, s.flights[f]);
              Effect(s, HeadIsDone(f), s'.requests, s'.log, s'.flights) && FlightsKeep(s.flights, s'.flights)
    ensures ReadyToAdd(s, f) && s.flights[f].todo[0].listener in s.core.nextId ==>
              var s' := EnqueueHead(s, f, s.flights[f]);
              Effect(s, HeadGoesIn(f), s'.requests, s'.log, s'.flights) && FlightsKeep(s.flights, s'.flights)
  {
  }

  lemma StraightChange(s: State, f: nat)
    requires f in s.flights && s.flights[f].Straight? && s.flights[f].request.listener in s.core.nextId
        && s.flights[f].request.id in s.requests
    ensures var s' := EnqueueStraight(s, f, s.flights[f].request);
            Effect(s, GoesStraight(f), s'.requests, s'.log, s'.flights) && FlightsKeep(s.flights, s'.flights)
  {
  }

  ghost predicate Untouched(s: State, s': State) {
    s'.requests == s.requests && s'.log == s.log && s'.flights == s.flights
  }

  lemma OpenUntouched(s: State, sid: nat)
    requires sid in s.sessions && s.sessions[sid].Opening?
    ensures Untouched(s, OpenSession(s, sid, s.sessions[sid]))
  {
  }

  lemma SetupUntouched(s: State, sid: nat, p: Part, version: nat)
    ensures Untouched(s, SetupSession(s, sid, p, version))
  {
    if s.core.identityMode {
      assert Untouched(s, SetupSession(s, sid, p, version));
    } else {
      assert Untouched(s, SetupSession(s, sid, p, version));
    }
  }

  lemma DeliverUntouched(s: State, ref: JobRef)
    ensures Untouched(s, DeliverStatus(s, ref))
  {
    if ref in s.core.jobs {
      if s.core.jobs[ref].LockJob? {
        assert Untouched(s, DeliverStatus(s, ref));
      }
    }
  }

  lemma PlainChange(s: State, step: Step)
    requires CanTake(s, step)
    requires step.Allocate? || step.EnableIdentityMode? || step.StorePart? || step.FollowVersion?
        || step.RenewCallbacks? || step.Answer?
    ensures Untouched(s, Apply(s, step))
  {
  }

  /** Every step changes the requests and the log as its kind says. */
  lemma StepChange(s: State, step: Step)
    requires CanTake(s, step)
    ensures var s' := Apply(s, step);
            Effect(s, ChangeOf(s, step), s'.requests, s'.log, s'.flights) && FlightsKeep(s.flights, s'.flights)
  {
    hide Effect, FlightsKeep, TakeOut, AdoptLock, CloseSession, ReceiveRequest, Perform, InstallLock, ReplaceLock,
        DetachEach, RenewEach;
    hide OpenSession, SetupSession, EnqueueHead, EnqueueStraight, UncountHead, DeliverStatus;
    StillKept(s.flights);
    NoChange(s, s.flights);
    match step
    case Receive(p, l, operation, stamp, f) => ReceiveChange(s, p, l,
        Request(s.nextRequest, p, s.core.Resolve(l), operation, stamp), f);
    case StartLock(p, owner, version, l, callback, epoch, f) =>
      if s.core.StartVerdict(p, owner, version, s.core.Resolve(l), epoch) == Installed {
        StartChange(s, p, owner, version, s.core.Resolve(l), callback, f);
      }
    case Adopt(sid, f) => AdoptChange(s, sid, f);
    case EndSession(sid, status, f) => CloseChange(s, sid, status, f);
    case EraseLock(p, owner, f) =>
      if s.core.MayRelease(p, Some(owner), None) {
        TakeOutEffect(s, p, f, Erased(owner, s.core.identityMode), Nothing, Drop(s.core.table[p].lockJob));
      }
    case Detach(l, target, order, callback) => DetachChange(s.(core := s.core.NextEpoch(l)), l, target, order,
        callback);
    case ActBefore(f) => PerformUntouched(s, s.flights[f].lock, s.flights[f].before); FlightChange(s, f); NoChange(s,
        s.flights[f := s.flights[f].(before := Nothing)]);
    case ActAfter(f) => PerformUntouched(s, s.flights[f].lock, s.flights[f].after); FlightChange(s, f); NoChange(s,
        s.flights - {f});
    case AddHead(f) => HeadChange(s, f);
    case UndeferHead(f) => HeadChange(s, f);
    case AddStraight(f) => StraightChange(s, f);
    case Allocate(_) => PlainChange(s, step);
    case EnableIdentityMode => PlainChange(s, step);
    case StorePart(_, _) => PlainChange(s, step);
    case Setup(sid, p, version) => SetupUntouched(s, sid, p, version);
    case RunOpen(sid) => OpenUntouched(s, sid);
    case FollowVersion(_, _, _) => PlainChange(s, step);
    case RenewCallbacks(_, _, _) => PlainChange(s, step);
    case Answer(_, _) => PlainChange(s, step);
    case Deliver(ref) => DeliverUntouched(s, ref);
  }

  // Conservation.

  /** Where a request can be: parked behind a lock, carried by a flight, or entered into the queue. */
  datatype Spot = PendingSpot(part: Part, index: nat) | FlightSpot(flight: nat, index: nat) | LogSpot(index: nat)

  predicate At(s: State, r: Request, spot: Spot) {
    match spot
    case PendingSpot(p, i) => p in s.core.table && i < |s.core.table[p].pending| && s.core.table[p].pending[i] == r
    case FlightSpot(f, i) =>
      f in s.flights && if s.flights[f].Straight? then i == 0 && s.flights[f].request == r
                        else i < |Unadded(s.flights[f])| && Unadded(s.flights[f])[i] == r
    case LogSpot(i) => i < |s.log| && s.log[i].request == r
  }

  /** The record of a request agrees with every spot it is at. */
  ghost predicate PlaceOf(s: State, spot: Spot, place: Where) {
    match spot
    case PendingSpot(p, _) => p in s.core.table && place == Parked(s.core.table[p].identity)
    case FlightSpot(f, _) => f in s.flights && place == if s.flights[f].Straight? then Direct(f) else InTransit(f)
    case LogSpot(_) => place.Done? || place.Finishing?
  }

  lemma SpotHasRecord(s: State, r: Request, spot: Spot)
    requires Inv(s) && At(s, r, spot)
    ensures r.id in s.requests && s.requests[r.id].request == r && PlaceOf(s, spot, s.requests[r.id].place)
  {
    hide IdsInv, EntryInv, IdentityInv, LockJobInv, QueueInv, PostedInv, LeavingInv, FateInv, TallyInv, RightfulInv;
    hide NumberInv, DeferredInv, GuardInv, HoldersInv, SessionInv;
    match spot
    case PendingSpot(p, i) => assert AllAt(s.core.table[p].pending, s.requests, Parked(s.core.table[p].identity));
    case FlightSpot(f, i) => assert FlightHolds(s.flights[f], f, s.requests);
    case LogSpot(i) => assert Reached(s.requests, s.log[i].request);
  }

  lemma ParkedOnce(table: map<Part, Entry>, locks: map<nat, LockRecord>, requests: map<nat, RequestRecord>, p: Part,
      i: nat, q: Part, j: nat)
    requires EntryInv(table, locks) && ParkedInv(table, locks, requests) && p in table && q in table
        && table[p].identity == table[q].identity
    requires i < |table[p].pending| && j < |table[q].pending| && table[p].pending[i] == table[q].pending[j]
    ensures p == q && i == j
  {
    assert Sorted(table[p].pending);
  }

  lemma CarriedOnce(flight: Flight, f: nat, requests: map<nat, RequestRecord>, i: nat, j: nat)
    requires FlightHolds(flight, f, requests) && i < |Unadded(flight)| && j < |Unadded(flight)|
        && Unadded(flight)[i] == Unadded(flight)[j]
    ensures i == j
  {
  }

  lemma SpotsAgree(s: State, r: Request, a: Spot, b: Spot)
    requires Inv(s) && At(s, r, a) && At(s, r, b)
    ensures a == b
  {
    hide IdsInv, EntryInv, IdentityInv, LockJobInv, QueueInv, PostedInv, LeavingInv, FateInv, TallyInv, RightfulInv;
    hide NumberInv, ParkedInv, LogInv, DeferredInv, GuardInv, HoldersInv, SessionInv;
    SpotHasRecord(s, r, a);
    SpotHasRecord(s, r, b);
    match a
    case PendingSpot(p, i) => ParkedOnce(s.core.table, s.locks, s.requests, p, i, b.part, b.index);
    case FlightSpot(f, i) =>
      if s.flights[f].Batch? {
        CarriedOnce(s.flights[f], f, s.requests, i, b.index);
      }
    case LogSpot(i) => LoggedOnce(s.log, s.requests, i, b.index);
  }

  lemma LoggedOnce(log: seq<LogEntry>, requests: map<nat, RequestRecord>, i: nat, j: nat)
    requires LogInv(log, requests) && i < |log| && j < |log| && log[i].request == log[j].request
    ensures i == j
  {
  }

  lemma RecordHasSpot(s: State, id: nat) returns (spot: Spot)
    requires Inv(s) && id in s.requests
    ensures At(s, s.requests[id].request, spot) && PlaceOf(s, spot, s.requests[id].place)
  {
    hide IdsInv, IdentityInv, LockJobInv, QueueInv, PostedInv, LeavingInv, FateInv, TallyInv, RightfulInv;
    hide NumberInv, DeferredInv, GuardInv, HoldersInv, SessionInv;
    var r := s.requests[id].request;
    assert HeldByFlight(s.requests[id], s.flights);
    match s.requests[id].place
    case Parked(lock) =>
      assert ParkedAt(s.core.table, s.locks, lock, r);
      var p := s.locks[lock].part;
      var i :| 0 <= i < |s.core.table[p].pending| && s.core.table[p].pending[i] == r;
      spot := PendingSpot(p, i);
    case InTransit(f) =>
      var i :| 0 <= i < |s.flights[f].todo| && s.flights[f].todo[i] == r;
      spot := FlightSpot(f, if s.flights[f].added then i - 1 else i);
    case Direct(f) => spot := FlightSpot(f, 0);
    case Finishing(_) =>
      assert Logged(s.log, r);
      var i :| 0 <= i < |s.log| && s.log[i].request == r;
      spot := LogSpot(i);
    case Done =>
      assert Logged(s.log, r);
      var i :| 0 <= i < |s.log| && s.log[i].request == r;
      spot := LogSpot(i);
  }

  ghost predicate Remembers(requests: map<nat, RequestRecord>, r: Request) {
    r.id in requests && requests[r.id].request == r
  }

  lemma EffectRemembers(s: State, change: Change, requests: map<nat, RequestRecord>, log: seq<LogEntry>,
      flights: map<nat, Flight>, r: Request)
    requires Effect(s, change, requests, log, flights) && (change.Arrives? ==> change.request.id !in s.requests)
    ensures Remembers(s.requests, r) ==> Remembers(requests, r)
    ensures change.Arrives? ==> Remembers(requests, change.request)
  {
    match change
    case Same =>
    case Arrives(_, _) =>
    case Lifts(_, _) =>
    case HeadGoesIn(f) =>
    case HeadIsDone(f) =>
    case GoesStraight(f) =>
  }

  lemma NextIsNew(s: State)
    requires Inv(s)
    ensures s.nextRequest !in s.requests
  {
  }

  lemma StepRemembers(s: State, step: Step, r: Request)
    requires Inv(s) && CanTake(s, step)
    ensures Remembers(s.requests, r) ==> Remembers(Apply(s, step).requests, r)
    ensures ChangeOf(s, step).Arrives? ==> Remembers(Apply(s, step).requests, ChangeOf(s, step).request)
  {
    hide Inv, Apply, CanTake, Effect, Remembers, FlightsKeep;
    StepChange(s, step);
    NextIsNew(s);
    var s' := Apply(s, step);
    EffectRemembers(s, ChangeOf(s, step), s'.requests, s'.log, s'.flights, r);
  }

  /** The request a step received. */
  function Received(s: State, step: Step): Request
    requires step.Receive?
  {
    Request(s.nextRequest, step.part, s.core.Resolve(step.listener), step.operation, step.stamp)
  }

  lemma {:induction false} StaysOnRecord(run: seq<State>, steps: seq<Step>, k: nat, i: nat)
    requires IsRun(run, steps) && k < i < |run| && steps[k].Receive?
    ensures Remembers(run[i].requests, Received(run[k], steps[k]))
    decreases i
  {
    hide Inv, Apply, CanTake, Remembers;
    InvHolds(run, steps, i - 1);
    assert CanTake(run[i - 1], steps[i - 1]) && run[i - 1 + 1] == Apply(run[i - 1], steps[i - 1]);
    StepRemembers(run[i - 1], steps[i - 1], Received(run[k], steps[k]));
    if k < i - 1 {
      StaysOnRecord(run, steps, k, i - 1);
    }
  }

  /** From the step that receives it on, a request is at exactly one spot, with the listener and the stamp it
      was received with: it is never lost, never duplicated and entered into the queue at most once. */
  lemma RequestsAreConserved(run: seq<State>, steps: seq<Step>, k: nat, i: nat)
    requires IsRun(run, steps) && k < i < |run| && steps[k].Receive?
    ensures var r := Received(run[k], steps[k]);
            && (exists spot :: At(run[i], r, spot))
            && (forall a, b :: At(run[i], r, a) && At(run[i], r, b) ==> a == b)
  {
    hide Inv, Apply, CanTake, At;
    var r := Received(run[k], steps[k]);
    StaysOnRecord(run, steps, k, i);
    InvHolds(run, steps, i);
    var spot := RecordHasSpot(run[i], r.id);
    forall a, b | At(run[i], r, a) && At(run[i], r, b)
      ensures a == b
    {
      SpotsAgree(run[i], r, a, b);
    }
  }

  /** Entering the queue is final: the log only grows. */
  lemma {:induction false} LogOnlyGrows(run: seq<State>, steps: seq<Step>, i: nat, j: nat)
    requires IsRun(run, steps) && i <= j < |run|
    ensures run[i].log <= run[j].log
    decreases j - i
  {
    hide Inv, Apply, CanTake;
    if i < j {
      LogOnlyGrows(run, steps, i, j - 1);
      assert CanTake(run[j - 1], steps[j - 1]) && run[j - 1 + 1] == Apply(run[j - 1], steps[j - 1]);
      StepChange(run[j - 1], steps[j - 1]);
    }
  }

  // Counting.

  /** A listener's count of deferred jobs is the number of its requests that wait; once it is zero, no lock
      and no flight of a lock holds a request of the listener. */
  lemma DeferredCountIsExact(run: seq<State>, steps: seq<Step>, i: nat, l: nat)
    requires IsRun(run, steps) && i < |run|
    ensures run[i].core.Deferred(l) == |Waiting(run[i].requests, l)|
    ensures run[i].core.Deferred(l) == 0 ==>
              forall r, spot :: At(run[i], r, spot) && r.listener == l ==>
                spot.LogSpot? || (spot.FlightSpot? && run[i].flights[spot.flight].Straight?)
  {
    hide Inv, Apply, CanTake;
    InvHolds(run, steps, i);
    CountIs(run[i], l);
    forall r, spot | At(run[i], r, spot) && r.listener == l && run[i].core.Deferred(l) == 0
      ensures spot.LogSpot? || (spot.FlightSpot? && run[i].flights[spot.flight].Straight?)
    {
      SpotHasRecord(run[i], r, spot);
      assert r.id !in Waiting(run[i].requests, l);
    }
  }

  lemma CountIs(s: State, l: nat)
    requires Inv(s)
    ensures s.core.Deferred(l) == |Waiting(s.requests, l)|
  {
    hide IdsInv, EntryInv, IdentityInv, LockJobInv, QueueInv, PostedInv, LeavingInv, FateInv, TallyInv, RightfulInv;
    hide NumberInv, ParkedInv, TransitInv, LogInv, GuardInv, HoldersInv, SessionInv;
    assert s.core.Deferred(l) == Count(s.core.deferred, l);
  }

  /** Requests wait only behind a lock that a session joined or reserved. */
  lemma OnlyHeldLocksMakeWait(run: seq<State>, steps: seq<Step>, i: nat, p: Part)
    requires IsRun(run, steps) && i < |run| && p in run[i].core.table && run[i].core.table[p].pending != []
    ensures run[i].core.Holds(p)
  {
    hide IsRun;
    InvHolds(run, steps, i);
    HeldIs(run[i].core);
  }

  lemma HeldIs(core: Core)
    requires GuardInv(core.table)
    ensures forall p :: p in core.table && core.table[p].pending != [] ==> core.Holds(p)
  {
  }
}
