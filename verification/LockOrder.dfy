/** The order in which requests that waited behind one lock enter the queue. They do so in the order they
    were received, unless a batch leaves the lock while an earlier batch of it is still on its way. */
module LockOrder {
  import opened Common
  import opened Fencing
  import JobPools
  import opened ChunkLocks
  import opened LockProtocol
  import opened LockInvariants
  import opened LockSteps
  import opened LockRequests

  /** The requests that waited behind the lock entered the queue in the order they were received. */
  ghost predicate InOrder(log: seq<LogEntry>, lock: nat) {
    forall i, j :: 0 <= i < j < |log| && log[i].lock == lock && log[j].lock == lock ==>
        log[i].request.id < log[j].request.id
  }

  predicate OnItsWay(flights: map<nat, Flight>, lock: nat, f: nat) {
    Carries(flights, f, lock) && Unadded(flights[f]) != []
  }

  /** The step takes requests from the lock while others of it, taken earlier, are not in the queue yet. */
  ghost predicate Overtakes(s: State, step: Step, lock: nat) {
    && ChangeOf(s, step).Lifts?
    && var p := ChangeOf(s, step).part;
       p in s.core.table && s.core.table[p].identity == lock && s.core.table[p].pending != []
           && exists f :: OnItsWay(s.flights, lock, f)
  }

  ghost predicate Travels(record: RequestRecord, flights: map<nat, Flight>, lock: nat) {
    record.place.InTransit? && Carries(flights, record.place.flight, lock)
  }

  ghost predicate Behind(record: RequestRecord, flights: map<nat, Flight>, lock: nat) {
    record.place == Parked(lock) || Travels(record, flights, lock)
  }

  ghost predicate OrderInv(log: seq<LogEntry>, requests: map<nat, RequestRecord>, flights: map<nat, Flight>,
      lock: nat) {
    && InOrder(log, lock)
    && (forall i, id ::
          0 <= i < |log| && log[i].lock == lock && id in requests && Behind(requests[id], flights, lock) ==>
            log[i].request.id < id)
    && (forall a, b ::
          a in requests && b in requests && Travels(requests[a], flights, lock) && requests[b].place == Parked(lock) ==>
            a < b)
    && (forall a, b ::
          a in requests && b in requests && Travels(requests[a], flights, lock)
          && Travels(requests[b], flights, lock) ==>
            requests[a].place == requests[b].place)
  }

  lemma OrderAfterFlights(log: seq<LogEntry>, requests: map<nat, RequestRecord>, flights: map<nat, Flight>,
      flights': map<nat, Flight>, lock: nat)
    requires OrderInv(log, requests, flights, lock) && TransitInv(flights, requests) && FlightsKeep(flights, flights')
    ensures OrderInv(log, requests, flights', lock)
  {
    forall id | id in requests
      ensures Travels(requests[id], flights', lock) ==> Travels(requests[id], flights, lock)
    {
      assert HeldByFlight(requests[id], flights);
    }
  }

  lemma OrderAfterArrival(log: seq<LogEntry>, requests: map<nat, RequestRecord>, flights: map<nat, Flight>, lock: nat,
                          nextRequest: nat, nextId: map<nat, nat>, r: Request, place: Where)
    requires OrderInv(log, requests, flights, lock) && NumberInv(requests, nextRequest, nextId) && LogInv(log, requests)
    requires r.id == nextRequest && (place.Parked? || place.Direct?)
    ensures OrderInv(log, requests[r.id := RequestRecord(r, place)], flights, lock)
  {
    forall i | 0 <= i < |log|
      ensures log[i].request.id < nextRequest
    {
      assert Reached(requests, log[i].request);
    }
  }

  /** A request that does not wait behind the lock, or no longer does, changes its place. */
  lemma OrderAfterPlacing(log: seq<LogEntry>, requests: map<nat, RequestRecord>, flights: map<nat, Flight>, lock: nat,
      id: nat, place: Where)
    requires OrderInv(log, requests, flights, lock) && id in requests && (place.Done? || place.Finishing?)
    ensures OrderInv(log, Placed(requests, id, place), flights, lock)
  {
  }

  lemma OrderAfterEntering(log: seq<LogEntry>, requests: map<nat, RequestRecord>, flights: map<nat, Flight>, lock: nat,
      entry: LogEntry)
    requires OrderInv(log, requests, flights, lock)
    requires entry.lock == lock ==>
               && (forall i :: 0 <= i < |log| && log[i].lock == lock ==> log[i].request.id < entry.request.id)
               && (forall id :: id in requests && Behind(requests[id], flights, lock) ==> entry.request.id < id)
    ensures OrderInv(log + [entry], requests, flights, lock)
  {
  }

  /** The head of a flight came before everything else that still waits behind the flight's lock. */
  lemma HeadIsFirst(log: seq<LogEntry>, requests: map<nat, RequestRecord>, flights: map<nat, Flight>, nextRequest: nat,
      nextId: map<nat, nat>, f: nat, lock: nat, id: nat)
    requires OrderInv(log, requests, flights, lock) && TransitInv(flights, requests)
        && NumberInv(requests, nextRequest, nextId)
    requires Carries(flights, f, lock) && flights[f].todo != [] && !flights[f].added
    requires id in requests && Behind(requests[id], flights, lock) && id != flights[f].todo[0].id
    ensures flights[f].todo[0].id < id
    ensures flights[f].todo[0].id in requests && Travels(requests[flights[f].todo[0].id], flights, lock)
  {
    HeadIsHeld(flights[f], f, requests);
    assert Travels(requests[flights[f].todo[0].id], flights, lock);
    if requests[id].place != Parked(lock) {
      assert HeldByFlight(requests[id], flights);
      assert requests[id].place == InTransit(f);
      var i :| 0 <= i < |flights[f].todo| && flights[f].todo[i] == requests[id].request;
    }
  }

  lemma OrderAfterHead(log: seq<LogEntry>, requests: map<nat, RequestRecord>, flights: map<nat, Flight>,
      nextRequest: nat, nextId: map<nat, nat>, f: nat, lock: nat)
    requires OrderInv(log, requests, flights, lock) && TransitInv(flights, requests)
        && NumberInv(requests, nextRequest, nextId)
    requires f in flights && flights[f].Batch? && flights[f].todo != [] && !flights[f].added
    ensures var r := flights[f].todo[0];
            r.id in requests && OrderInv(log + [LogEntry(r, flights[f].lock)], Placed(requests, r.id, Finishing(f)),
                flights, lock)
  {
    var r := flights[f].todo[0];
    HeadIsHeld(flights[f], f, requests);
    OrderAfterPlacing(log, requests, flights, lock, r.id, Finishing(f));
    var requests' := Placed(requests, r.id, Finishing(f));
    if flights[f].lock == lock {
      assert Behind(requests[r.id], flights, lock);
      forall id | id in requests' && Behind(requests'[id], flights, lock)
        ensures r.id < id
      {
        HeadIsFirst(log, requests, flights, nextRequest, nextId, f, lock, id);
      }
    }
    OrderAfterEntering(log, requests', flights, lock, LogEntry(r, flights[f].lock));
  }

  lemma OrderAfterLift(s: State, p: Part, f: nat, flights': map<nat, Flight>, lock: nat)
    requires EntryInv(s.core.table, s.locks) && ParkedInv(s.core.table, s.locks, s.requests)
        && TransitInv(s.flights, s.requests)
    requires NumberInv(s.requests, s.nextRequest, s.core.nextId)
    requires OrderInv(s.log, s.requests, s.flights, lock) && p in s.core.table && f !in s.flights
    requires FlightsKeep(s.flights, flights') && Carries(flights', f, s.core.table[p].identity)
    requires s.core.table[p].identity == lock && s.core.table[p].pending != [] ==>
        forall g :: !OnItsWay(s.flights, lock, g)
    ensures OrderInv(s.log, Relocated(s.requests, s.core.table[p].pending, f), flights', lock)
  {
    var batch, requests := s.core.table[p].pending, s.requests;
    var requests' := Relocated(requests, batch, f);
    forall id | id in requests
      ensures Behind(requests'[id], flights', lock) ==> Behind(requests[id], s.flights, lock)
      ensures Travels(requests'[id], flights', lock) && requests[id].request !in batch ==>
          Travels(requests[id], s.flights, lock)
      ensures requests[id].request in batch ==> requests[id].place == Parked(s.core.table[p].identity)
    {
      assert HeldByFlight(requests[id], s.flights);
      if requests[id].request in batch {
        var i :| 0 <= i < |batch| && batch[i] == requests[id].request;
        assert AllAt(batch, requests, Parked(s.core.table[p].identity));
      }
    }
    if s.core.table[p].identity == lock && batch != [] {
      forall id | id in requests'
        ensures requests'[id].place != Parked(lock)
        ensures Travels(requests'[id], flights', lock) ==> requests'[id].place == InTransit(f)
      {
        if requests[id].place == Parked(lock) {
          assert ParkedAt(s.core.table, s.locks, lock, requests[id].request);
        } else if requests[id].request !in batch && Travels(requests[id], s.flights, lock) {
          assert HeldByFlight(requests[id], s.flights);
          assert OnItsWay(s.flights, lock, requests[id].place.flight);
        }
      }
    }
  }

  lemma EffectKeepsOrder(s: State, step: Step, lock: nat, s': State)
    requires EntryInv(s.core.table, s.locks) && ParkedInv(s.core.table, s.locks, s.requests)
        && TransitInv(s.flights, s.requests)
    requires NumberInv(s.requests, s.nextRequest, s.core.nextId) && LogInv(s.log, s.requests)
    requires lock != 0 && OrderInv(s.log, s.requests, s.flights, lock) && !Overtakes(s, step, lock)
    requires Effect(s, ChangeOf(s, step), s'.requests, s'.log, s'.flights) && FlightsKeep(s.flights, s'.flights)
    ensures OrderInv(s'.log, s'.requests, s'.flights, lock)
  {
    hide EntryInv, ParkedInv, TransitInv, NumberInv, LogInv, OrderInv, FlightsKeep, Carries, OnItsWay;
    match ChangeOf(s, step)
    case Same => OrderAfterFlights(s.log, s.requests, s.flights, s'.flights, lock);
    case Arrives(r, place) =>
      OrderAfterFlights(s.log, s.requests, s.flights, s'.flights, lock);
      OrderAfterArrival(s.log, s.requests, s'.flights, lock, s.nextRequest, s.core.nextId, r, place);
    case Lifts(p, f) => OrderAfterLift(s, p, f, s'.flights, lock);
    case HeadGoesIn(f) =>
      OrderAfterHead(s.log, s.requests, s.flights, s.nextRequest, s.core.nextId, f, lock);
      OrderAfterFlightsLater(s, s'.log, s'.requests, s'.flights, f, lock);
    case HeadIsDone(f) =>
      OrderAfterFlights(s.log, s.requests, s.flights, s'.flights, lock);
      OrderAfterPlacing(s.log, s.requests, s'.flights, lock, s.flights[f].todo[0].id, Done);
    case GoesStraight(f) =>
      OrderAfterFlights(s.log, s.requests, s.flights, s'.flights, lock);
      OrderAfterPlacing(s.log, s.requests, s'.flights, lock, s.flights[f].request.id, Done);
      OrderAfterEntering(s.log, s'.requests, s'.flights, lock, LogEntry(s.flights[f].request, 0));
  }

  /** As `OrderAfterFlights`, when the head of a flight has just entered the queue. */
  lemma OrderAfterFlightsLater(s: State, log: seq<LogEntry>, requests: map<nat, RequestRecord>,
      flights': map<nat, Flight>, f: nat, lock: nat)
    requires OrderInv(log, requests, s.flights, lock) && TransitInv(s.flights, s.requests)
        && FlightsKeep(s.flights, flights')
    requires exists id :: id in s.requests && requests == Placed(s.requests, id, Finishing(f))
    ensures OrderInv(log, requests, flights', lock)
  {
    forall id | id in requests
      ensures Travels(requests[id], flights', lock) ==> Travels(requests[id], s.flights, lock)
    {
      assert HeldByFlight(s.requests[id], s.flights);
    }
  }

  lemma StepKeepsOrder(s: State, step: Step, lock: nat)
    requires Inv(s) && CanTake(s, step) && lock != 0 && OrderInv(s.log, s.requests, s.flights, lock)
        && !Overtakes(s, step, lock)
    ensures var s' := Apply(s, step); OrderInv(s'.log, s'.requests, s'.flights, lock)
  {
    hide Apply, CanTake, Effect, OrderInv, Overtakes, FlightsKeep;
    hide EntryInv, ParkedInv, TransitInv, NumberInv, LogInv;
    StepChange(s, step);
    EffectKeepsOrder(s, step, lock, Apply(s, step));
  }

  lemma {:induction false} OrderHolds(run: seq<State>, steps: seq<Step>, i: nat, lock: nat)
    requires IsRun(run, steps) && i < |run| && lock != 0
    requires forall k :: 0 <= k < i ==> !Overtakes(run[k], steps[k], lock)
    ensures OrderInv(run[i].log, run[i].requests, run[i].flights, lock)
  {
    hide Inv, Apply, CanTake, Overtakes;
    if i > 0 {
      OrderHolds(run, steps, i - 1, lock);
      InvHolds(run, steps, i - 1);
      assert CanTake(run[i - 1], steps[i - 1]) && run[i - 1 + 1] == Apply(run[i - 1], steps[i - 1]);
      StepKeepsOrder(run[i - 1], steps[i - 1], lock);
    }
  }

  /** Without overtaking, what waited behind a lock enters the queue in the order it was received. */
  lemma ArrivalOrderIsKept(run: seq<State>, steps: seq<Step>, i: nat, lock: nat)
    requires IsRun(run, steps) && i < |run| && lock != 0
    requires forall k :: 0 <= k < i ==> !Overtakes(run[k], steps[k], lock)
    ensures InOrder(run[i].log, lock)
  {
    hide Apply, CanTake, Overtakes;
    OrderHolds(run, steps, i, lock);
  }

  // The converse.

  ghost predicate Path(states: seq<State>, steps: seq<Step>) {
    && |states| == |steps| + 1
    && forall i :: 0 <= i < |steps| ==> CanTake(states[i], steps[i]) && states[i + 1] == Apply(states[i], steps[i])
  }

  lemma PathsJoin(a: seq<State>, steps1: seq<Step>, b: seq<State>, steps2: seq<Step>)
    requires Path(a, steps1) && Path(b, steps2) && a[|a| - 1] == b[0]
    ensures Path(a + b[1..], steps1 + steps2) && (a + b[1..])[|a + b[1..]| - 1] == b[|b| - 1]
  {
    hide CanTake, Apply;
    var states, steps := a + b[1..], steps1 + steps2;
    forall i | 0 <= i < |steps|
      ensures CanTake(states[i], steps[i]) && states[i + 1] == Apply(states[i], steps[i])
    {
      if i < |steps1| {
        assert CanTake(a[i], steps1[i]) && a[i + 1] == Apply(a[i], steps1[i]);
      } else {
        var j := i - |steps1|;
        assert CanTake(b[j], steps2[j]) && b[j + 1] == Apply(b[j], steps2[j]);
      }
    }
  }

  /** What a flight still has to do before it adds its next request. */
  ghost function Chores(flight: Flight): nat
    requires flight.Batch?
  {
    Once(flight.before != Nothing) + Once(flight.added)
  }

  ghost predicate Next(s: State, s': State, f: nat) {
    && f in s.flights && f in s'.flights && s.flights[f].Batch? && s'.flights[f].Batch?
        && s'.flights == s.flights[f := s'.flights[f]]
    && s'.flights[f].lock == s.flights[f].lock
  }

  lemma AddEffect(s: State, f: nat)
    requires ReadyToAdd(s, f) && s.flights[f].todo[0].listener in s.core.nextId && s.flights[f].todo[0].id in s.requests
    ensures CanTake(s, AddHead(f)) && Apply(s, AddHead(f)) == EnqueueHead(s, f, s.flights[f])
    ensures var s' := EnqueueHead(s, f, s.flights[f]);
            Next(s, s', f) && s'.log == s.log + [LogEntry(Unadded(s.flights[f])[0], s.flights[f].lock)]
  {
  }

  lemma ReadyCanAdd(s: State, f: nat)
    requires Inv(s) && ReadyToAdd(s, f)
    ensures CanTake(s, AddHead(f)) && Inv(Apply(s, AddHead(f)))
    ensures var s' := Apply(s, AddHead(f));
            Next(s, s', f) && s'.log == s.log + [LogEntry(Unadded(s.flights[f])[0], s.flights[f].lock)]
  {
    hide Inv, CanTake, Apply, EnqueueHead, Next;
    HeadCanEnter(s, f);
    AddEffect(s, f);
    StepKeepsInv(s, AddHead(f));
  }

  lemma HeadCanEnter(s: State, f: nat)
    requires Inv(s) && ReadyToAdd(s, f)
    ensures s.flights[f].todo[0].listener in s.core.nextId && s.flights[f].todo[0].id in s.requests
  {
    hide EntryInv, ParkedInv, LogInv, IdsInv, LockJobInv, QueueInv, PostedInv, LeavingInv, FateInv, TallyInv,
        RightfulInv, DeferredInv, HoldersInv, SessionInv;
    HeadIsHeld(s.flights[f], f, s.requests);
  }

  lemma DropEffect(s: State, f: nat)
    requires f in s.flights && s.flights[f].Batch? && s.flights[f].before != Nothing && s.flights[f].lock in s.locks
    ensures CanTake(s, ActBefore(f))
    ensures var s' := Apply(s, ActBefore(f));
            s'.flights == s.flights[f := s.flights[f].(before := Nothing)] && s'.log == s.log
  {
    hide Perform;
    PerformUntouched(s, s.flights[f].lock, s.flights[f].before);
  }

  lemma UndeferEffect(s: State, f: nat)
    requires f in s.flights && s.flights[f].Batch? && s.flights[f].added && s.flights[f].todo != []
        && s.flights[f].todo[0].id in s.requests
    ensures CanTake(s, UndeferHead(f))
    ensures var s' := Apply(s, UndeferHead(f));
            s'.flights == s.flights[f := s.flights[f].(todo := s.flights[f].todo[1..], added := false)]
                && s'.log == s.log
  {
  }

  lemma ChoreCanBeDone(s: State, f: nat) returns (step: Step)
    requires Inv(s) && f in s.flights && s.flights[f].Batch? && Unadded(s.flights[f]) != [] && !ReadyToAdd(s, f)
    ensures CanTake(s, step) && Inv(Apply(s, step))
    ensures var s' := Apply(s, step);
            && Next(s, s', f) && s'.log == s.log && Unadded(s'.flights[f]) == Unadded(s.flights[f])
                && Chores(s'.flights[f]) < Chores(s.flights[f])
  {
    hide Inv, CanTake, Apply;
    ChorePossible(s, f);
    if s.flights[f].before != Nothing {
      step := ActBefore(f);
      DropEffect(s, f);
    } else {
      step := UndeferHead(f);
      UndeferEffect(s, f);
    }
    StepKeepsInv(s, step);
  }

  lemma ChorePossible(s: State, f: nat)
    requires Inv(s) && f in s.flights && s.flights[f].Batch? && Unadded(s.flights[f]) != []
    ensures s.flights[f].lock in s.locks && s.flights[f].todo[0].id in s.requests
  {
    hide EntryInv, ParkedInv, LogInv, IdsInv, LockJobInv, QueueInv, PostedInv, FateInv, TallyInv, RightfulInv,
        DeferredInv, HoldersInv, SessionInv;
    HeadIsHeld(s.flights[f], f, s.requests);
  }

  /** A flight with requests left can be taken to the point where its next one is in the queue. */
  lemma {:induction false} AddNext(s: State, f: nat) returns (states: seq<State>, steps: seq<Step>)
    requires Inv(s) && f in s.flights && s.flights[f].Batch? && Unadded(s.flights[f]) != []
    ensures Path(states, steps) && states[0] == s
    ensures var s' := states[|states| - 1];
            && Inv(s') && Next(s, s', f) && s'.log == s.log + [LogEntry(Unadded(s.flights[f])[0], s.flights[f].lock)]
    decreases Chores(s.flights[f])
  {
    hide Inv, CanTake, Apply;
    if ReadyToAdd(s, f) {
      ReadyCanAdd(s, f);
      states, steps := [s, Apply(s, AddHead(f))], [AddHead(f)];
    } else {
      var step := ChoreCanBeDone(s, f);
      var s1 := Apply(s, step);
      assert Path([s, s1], [step]);
      var more, moreSteps := AddNext(s1, f);
      PathsJoin([s, s1], [step], more, moreSteps);
      states, steps := [s, s1] + more[1..], [step] + moreSteps;
    }
  }

  /** Two batches of one lock on their way can enter the queue in the wrong order. */
  lemma TwoBatchesCanCross(s: State, f: nat, g: nat, lock: nat) returns (states: seq<State>, steps: seq<Step>)
    requires Inv(s) && f != g && OnItsWay(s.flights, lock, f) && OnItsWay(s.flights, lock, g)
    ensures Path(states, steps) && states[0] == s && !InOrder(states[|states| - 1].log, lock)
  {
    hide Inv, CanTake, Apply;
    var a, b := Unadded(s.flights[f])[0], Unadded(s.flights[g])[0];
    NumbersDiffer(s, f, g);
    var first, second := if a.id < b.id then g else f, if a.id < b.id then f else g;
    var states1, steps1 := AddNext(s, first);
    var s1 := states1[|states1| - 1];
    assert s1.flights[second] == s.flights[second];
    var states2, steps2 := AddNext(s1, second);
    PathsJoin(states1, steps1, states2, steps2);
    states, steps := states1 + states2[1..], steps1 + steps2;
    var log := states[|states| - 1].log;
    assert log[|s.log|] == LogEntry(if a.id < b.id then b else a, lock)
        && log[|s.log| + 1] == LogEntry(if a.id < b.id then a else b, lock);
  }

  lemma NumbersDiffer(s: State, f: nat, g: nat)
    requires Inv(s) && f != g && f in s.flights && g in s.flights && Unadded(s.flights[f]) != []
        && Unadded(s.flights[g]) != []
    ensures Unadded(s.flights[f])[0].id != Unadded(s.flights[g])[0].id
  {
    hide Inv;
    SpotHasRecord(s, Unadded(s.flights[f])[0], FlightSpot(f, 0));
    SpotHasRecord(s, Unadded(s.flights[g])[0], FlightSpot(g, 0));
  }

  /** Any run that ends in an overtaking step can be continued to one that breaks the order. */
  lemma OvertakingCanBreakOrder(run: seq<State>, steps: seq<Step>, k: nat, lock: nat)
    requires IsRun(run, steps) && k < |steps| && Overtakes(run[k], steps[k], lock)
    ensures exists more: seq<State>, moreSteps: seq<Step> ::
        Path(more, moreSteps) && more[0] == run[k + 1] && !InOrder(more[|more| - 1].log, lock)
  {
    hide Inv, CanTake, Apply;
    assert CanTake(run[k], steps[k]) && run[k + 1] == Apply(run[k], steps[k]);
    InvHolds(run, steps, k + 1);
    var f :| OnItsWay(run[k].flights, lock, f);
    StepChange(run[k], steps[k]);
    var g := ChangeOf(run[k], steps[k]).flight;
    LiftKeepsOthers(run[k], steps[k], f);
    var more, moreSteps := TwoBatchesCanCross(run[k + 1], f, g, lock);
  }

  /** A step that takes requests from a lock leaves the other flights as they are. */
  lemma LiftKeepsOthers(s: State, step: Step, f: nat)
    requires CanTake(s, step) && ChangeOf(s, step).Lifts? && f in s.flights
    ensures f in Apply(s, step).flights && Apply(s, step).flights[f] == s.flights[f]
  {
  }

  // A run whose last step overtakes: one server's lock, two write sessions whose opens find another
  // version, and a request parked behind each of the two reservations.

  const START: seq<Step> := [EnableIdentityMode, StartLock(7, 1, 1, 0, 0, None, 0)]

  function ReserveAndRelease(sid: nat, stamp: Stamp): seq<Step> {
    [Setup(sid, 7, 1), Receive(7, 0, JobPools.Delete, stamp, sid), RunOpen(sid), Adopt(sid, sid)]
  }

  /** The lock is in the table, unjoined and unreserved; `count` requests were received. */
  ghost predicate Idle(s: State, count: nat) {
    && s.core.identityMode && 0 in s.core.nextId && s.parts == map[] && s.nextRequest == count + 1
    && s.core.table == map[7 := LockEntry([], 0)]
  }

  lemma FirstLock(s: State) returns (states: seq<State>)
    requires Init(s) && s.parts == map[]
    ensures Path(states, START) && states[0] == s
    ensures Idle(states[2], 0) && states[2].usedSessions == {} && states[2].flights == map[]
  {
    var s1 := Apply(s, EnableIdentityMode);
    var s2 := Apply(s1, START[1]);
    assert s1.core.StartVerdict(7, 1, 1, 0, None) == Installed;
    assert s2 == InstallLock(s1, 7, 1, 1, 0, 0);
    states := [s, s1, s2];
  }

  function LockEntry(pending: seq<Request>, reserved: int): Entry {
    Entry(JobRef(0, 1), pending, false, reserved, 1, 1, 1)
  }

  lemma RoundSetup(s: State, sid: nat) returns (s1: State)
    requires s.core.identityMode && s.core.table == map[7 := LockEntry([], 0)] && sid !in s.usedSessions
    ensures CanTake(s, Setup(sid, 7, 1)) && s1 == Apply(s, Setup(sid, 7, 1))
    ensures s1 == s.(core := s.core.(table := map[7 := LockEntry([], 1)]),
                     sessions := s.sessions[sid := Opening(7, 1, 1)], usedSessions := s.usedSessions + {sid})
  {
    s1 := Apply(s, Setup(sid, 7, 1));
    assert s.core.Reserves(7, 1) == 1;
  }

  lemma ParkedNow(core: Core, r: Request)
    requires core.table == map[7 := LockEntry([], 1)] && r.part == 7
    ensures core.Park(r) == core.(table := map[7 := LockEntry([r], 1)], deferred := core.Park(r).deferred)
  {
    assert [] + [r] == [r];
  }

  lemma RoundReceive(s: State, sid: nat, stamp: Stamp) returns (s1: State)
    requires s.core.table == map[7 := LockEntry([], 1)] && 0 in s.core.nextId && sid !in s.flights
    ensures var step := Receive(7, 0, JobPools.Delete, stamp, sid); CanTake(s, step) && s1 == Apply(s, step)
    ensures s1.core == s.core.(table := map[7 := LockEntry([Request(s.nextRequest, 7, 0, JobPools.Delete, stamp)], 1)],
        deferred := s1.core.deferred)
    ensures s1 == s.(core := s1.core, requests := s1.requests, nextRequest := s.nextRequest + 1)
  {
    var r := Request(s.nextRequest, 7, 0, JobPools.Delete, stamp);
    s1 := Apply(s, Receive(7, 0, JobPools.Delete, stamp, sid));
    assert s.core.Holds(7) && s.core.Resolve(0) == 0;
    assert s1 == ReceiveRequest(s, r, sid);
    ParkedNow(s.core, r);
    hide Core.Park;
    assert s1.core == s.core.Park(r);
  }

  lemma RoundOpen(s: State, sid: nat) returns (s1: State)
    requires sid in s.sessions && s.sessions[sid] == Opening(7, 1, 1) && s.parts == map[]
    ensures CanTake(s, RunOpen(sid)) && s1 == Apply(s, RunOpen(sid))
    ensures s1 == s.(sessions := s.sessions[sid := Opened(7, 1, 1, 0, false)])
  {
    s1 := Apply(s, RunOpen(sid));
  }

  lemma RoundAdopt(s: State, sid: nat, r: Request) returns (s1: State)
    requires sid in s.sessions && s.sessions[sid] == Opened(7, 1, 1, 0, false)
        && s.core.table == map[7 := LockEntry([r], 1)] && sid !in s.flights
    ensures CanTake(s, Adopt(sid, sid)) && s1 == Apply(s, Adopt(sid, sid))
        && ChangeOf(s, Adopt(sid, sid)) == Lifts(7, sid)
    ensures s1 == s.(core := s.core.(table := map[7 := LockEntry([], 0)]), sessions := s1.sessions,
        requests := s1.requests,
                     flights := s.flights[sid := Batch(1, Nothing, [r], false, Nothing)])
  {
    s1 := Apply(s, Adopt(sid, sid));
    assert s.core.Unblocked(7, 1) == [r];
    assert s1.core == s.core.Unreserve(7, 1);
  }

  /** One session reserves the lock, a request is parked, the session's open fails and the reservation ends. */
  lemma Round(s: State, count: nat, sid: nat, stamp: Stamp) returns (states: seq<State>)
    requires Idle(s, count) && sid !in s.usedSessions && sid !in s.flights
    ensures Path(states, ReserveAndRelease(sid, stamp)) && states[0] == s && Idle(states[4], count + 1)
    ensures var r := Request(count + 1, 7, 0, JobPools.Delete, stamp);
            && states[3].flights == s.flights
                && states[4].flights == s.flights[sid := Batch(1, Nothing, [r], false, Nothing)]
            && states[3].core.table == map[7 := LockEntry([r], 1)] && states[4].usedSessions == s.usedSessions + {sid}
    ensures ChangeOf(states[3], Adopt(sid, sid)) == Lifts(7, sid)
  {
    hide CanTake, Apply, ChangeOf;
    var s1 := RoundSetup(s, sid);
    var s2 := RoundReceive(s1, sid, stamp);
    var s3 := RoundOpen(s2, sid);
    var s4 := RoundAdopt(s3, sid, Request(count + 1, 7, 0, JobPools.Delete, stamp));
    states := [s, s1, s2, s3, s4];
  }

  /** Arrival order does not hold in every run: this one overtakes, and so can be continued to break it. */
  lemma SomeRunOvertakes(s: State, stamp: Stamp) returns (run: seq<State>, steps: seq<Step>)
    requires Init(s) && s.parts == map[]
    ensures IsRun(run, steps) && run[0] == s && |steps| == 10 && Overtakes(run[9], steps[9], 1)
  {
    hide CanTake, Apply, Idle, ChangeOf;
    var states0 := FirstLock(s);
    var states1 := Round(states0[2], 0, 1, stamp);
    PathsJoin(states0, START, states1, ReserveAndRelease(1, stamp));
    run, steps := states0 + states1[1..], START + ReserveAndRelease(1, stamp);
    var states2 := Round(states1[4], 1, 2, stamp);
    PathsJoin(run, steps, states2, ReserveAndRelease(2, stamp));
    run, steps := run + states2[1..], steps + ReserveAndRelease(2, stamp);
    assert run[9] == states2[3] && steps[9] == Adopt(2, 2);
    assert OnItsWay(states2[3].flights, 1, 1);
  }
}
