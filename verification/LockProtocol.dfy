/** The chunk lock manager as a protocol. Each critical section is one atomic step; operations that
    release the mutex half-way continue as flights, which interleave with everything else. */
module LockProtocol {
  import opened Common
  import opened Fencing
  import JobPools
  import opened ChunkLocks

  /** What a flight still does with the lock job of the lock it took out of the table. */
  datatype Act = Nothing | Notify(ref: JobRef, status: Status) | Drop(ref: JobRef)

  /** An operation past its critical section: first `before`, then the deferred requests one by one
      (each added, then uncounted), then `after`. A straight request found no lock to wait behind. */
  datatype Flight =
    | Batch(lock: nat, before: Act, todo: seq<Request>, added: bool, after: Act)
    | Straight(request: Request)

  /** A write session, as far as locks are concerned. `matched` says that the stored version and the session's agreed
      when the chunk was opened, or that nobody compared them, as under Master. */
  datatype Session =
    | Opening(part: Part, version: nat, reserved: nat)
    | Opened(part: Part, version: nat, reserved: nat, joined: nat, matched: bool)
    | Settled(part: Part, version: nat, lock: nat, matched: bool)

  // History, read by no step.

  /** How a lock left the table. `strict` tells whether identity mode was on. */
  datatype Fate =
    | Ended(session: nat, strict: bool)
    | Erased(who: nat, strict: bool)
    | Replaced(who: nat, newVersion: nat, oldVersion: nat)

  datatype LockPlace = InTable | Leaving(flight: nat) | Announced | Gone

  datatype LockRecord = LockRecord(part: Part, owner: nat, ref: JobRef, place: LockPlace)

  /** A session joined a lock. */
  datatype Join = Join(lock: nat, session: nat)

  datatype Where = Parked(lock: nat) | InTransit(flight: nat) | Finishing(flight: nat) | Direct(flight: nat) | Done

  datatype RequestRecord = RequestRecord(request: Request, place: Where)

  /** A request entering the job queue, with the lock it had waited behind, 0 for none. */
  datatype LogEntry = LogEntry(request: Request, lock: nat)

  datatype State = State(
    core: Core,
    flights: map<nat, Flight>,
    sessions: map<nat, Session>,
    parts: map<Part, nat>,            // the stored version of every part
    queue: set<JobRef>,               // plain jobs queued or with a worker
    posted: map<JobRef, Status>,      // statuses not yet received
    // History:
    locks: map<nat, LockRecord>,      // every lock ever installed, by identity
    fates: map<nat, Fate>,            // how a lock left the table
    joins: set<Join>,
    notices: multiset<nat>,           // statuses sent for a lock's job
    drops: multiset<nat>,             // lock jobs dropped silently
    calls: multiset<nat>,             // callbacks of lock jobs called
    requests: map<nat, RequestRecord>,
    nextRequest: nat,
    log: seq<LogEntry>,
    everQueued: set<JobRef>,
    usedSessions: set<nat>)

  ghost predicate Init(s: State) {
    && s.core == Core(false, map[], map[], 1, map[], map[0 := 1], map[])
    && s.flights == map[] && s.sessions == map[] && s.queue == {} && s.posted == map[]
    && s.locks == map[] && s.fates == map[] && s.joins == {} && s.notices == multiset{} && s.drops == multiset{}
        && s.calls == multiset{}
    && s.requests == map[] && s.nextRequest == 1 && s.log == [] && s.everQueued == {} && s.usedSessions == {}
  }

  datatype Step =
    | Allocate(listener: nat)
    | EnableIdentityMode
    | StorePart(part: Part, stored: Option<nat>)
    | Receive(part: Part, listener: nat, operation: JobPools.Operation, stamp: Stamp, flight: nat)
    | StartLock(part: Part, owner: nat, version: nat, listener: nat, callback: nat, epoch: Option<nat>, flight: nat)
    | Setup(session: nat, part: Part, version: nat)
    | RunOpen(session: nat)
    | Adopt(session: nat, flight: nat)
    | EndSession(session: nat, status: Status, flight: nat)
    | EraseLock(part: Part, owner: nat, flight: nat)
    | FollowVersion(part: Part, owner: nat, version: nat)
    | Detach(listener: nat, target: nat, order: seq<Part>, callback: nat)
    | RenewCallbacks(listener: nat, order: seq<Part>, callback: nat)
    | ActBefore(flight: nat)
    | AddHead(flight: nat)
    | UndeferHead(flight: nat)
    | ActAfter(flight: nat)
    | AddStraight(flight: nat)
    | Answer(ref: JobRef, status: Status)
    | Deliver(ref: JobRef)

  predicate CanTake(s: State, step: Step) {
    match step
    case Allocate(listener) => listener < MAX_CONNECTIONS && listener !in s.core.nextId
    case EnableIdentityMode => true
    case StorePart(_, _) => true
    case Receive(_, _, _, _, f) => f !in s.flights && 0 in s.core.nextId
    case StartLock(_, _, _, _, _, _, f) => f !in s.flights && 0 in s.core.nextId
    case Setup(sid, _, _) => sid !in s.usedSessions
    case RunOpen(sid) => sid in s.sessions && s.sessions[sid].Opening?
    case Adopt(sid, f) => sid in s.sessions && s.sessions[sid].Opened? && f !in s.flights
    case EndSession(sid, _, f) => sid in s.sessions && s.sessions[sid].Settled? && f !in s.flights
    case EraseLock(_, _, f) => f !in s.flights
    case FollowVersion(_, _, _) => true
    case Detach(listener, target, order, _) =>
      listener != target && listener in s.core.nextId && target in s.core.nextId && InTheTable(s.core.table, order)
    case RenewCallbacks(_, order, _) => InTheTable(s.core.table, order)
    case ActBefore(f) => f in s.flights && s.flights[f].Batch? && s.flights[f].before != Nothing
        && s.flights[f].lock in s.locks
    case AddHead(f) => ReadyToAdd(s, f) && s.flights[f].todo[0].listener in s.core.nextId
        && s.flights[f].todo[0].id in s.requests
    case UndeferHead(f) => f in s.flights && s.flights[f].Batch? && s.flights[f].added && s.flights[f].todo != []
        && s.flights[f].todo[0].id in s.requests
    case ActAfter(f) => f in s.flights && s.flights[f].Batch? && s.flights[f].before == Nothing
        && s.flights[f].todo == [] && s.flights[f].lock in s.locks
    case AddStraight(f) => f in s.flights && s.flights[f].Straight? && s.flights[f].request.listener in s.core.nextId
        && s.flights[f].request.id in s.requests
    case Answer(ref, _) => ref in s.queue
    case Deliver(ref) => ref in s.posted
  }

  predicate InTheTable(table: map<Part, Entry>, order: seq<Part>) {
    forall i :: 0 <= i < |order| ==> order[i] in table
  }

  predicate ReadyToAdd(s: State, f: nat) {
    f in s.flights && s.flights[f].Batch? && s.flights[f].before == Nothing && s.flights[f].todo != []
        && !s.flights[f].added
  }

  function Apply(s: State, step: Step): State
    requires CanTake(s, step)
  {
    match step
    case Allocate(listener) => s.(core := s.core.(nextId := s.core.nextId[listener := 1]))
    case EnableIdentityMode => s.(core := s.core.(identityMode := true))
    case StorePart(part, version) => s.(parts := if version.Some? then s.parts[part := version.value]
        else s.parts - {part})
    case Receive(part, listener, operation, stamp, f) =>
      ReceiveRequest(s, Request(s.nextRequest, part, s.core.Resolve(listener), operation, stamp), f)
    case StartLock(part, owner, version, listener, callback, epoch, f) =>
      var l := s.core.Resolve(listener);
      if s.core.StartVerdict(part, owner, version, l, epoch) != Installed then s
      else InstallLock(ReplaceLock(s, part, owner, version, f), part, owner, version, l, callback)
    case Setup(sid, part, version) => SetupSession(s, sid, part, version)
    case RunOpen(sid) => OpenSession(s, sid, s.sessions[sid])
    case Adopt(sid, f) => AdoptLock(s, sid, s.sessions[sid], f)
    case EndSession(sid, status, f) => CloseSession(s, sid, s.sessions[sid], status, f)
    case EraseLock(part, owner, f) =>
      if !s.core.MayRelease(part, Some(owner), None) then s
      else TakeOut(s, part, f, Erased(owner, s.core.identityMode), Nothing, Drop(s.core.table[part].lockJob))
    case FollowVersion(part, owner, version) => s.(core := s.core.Follow(part, owner, version))
    case Detach(listener, target, order, callback) =>
      DetachEach(s.(core := s.core.NextEpoch(listener)), listener, target, order, callback)
    case RenewCallbacks(listener, order,
        callback) => s.(core := RenewEach(s.core.NextEpoch(listener), listener, order, callback))
    case ActBefore(f) => Perform(s, s.flights[f].lock,
        s.flights[f].before).(flights := s.flights[f := s.flights[f].(before := Nothing)])
    case AddHead(f) => EnqueueHead(s, f, s.flights[f])
    case UndeferHead(f) => UncountHead(s, f, s.flights[f])
    case ActAfter(f) => Perform(s, s.flights[f].lock, s.flights[f].after).(flights := s.flights - {f})
    case AddStraight(f) => EnqueueStraight(s, f, s.flights[f].request)
    case Answer(ref, status) => s.(queue := s.queue - {ref}, posted := s.posted[ref := status])
    case Deliver(ref) => DeliverStatus(s, ref)
  }

  // addJobIfNotLocked

  function ReceiveRequest(s: State, r: Request, f: nat): State {
    if s.core.Holds(r.part) then
      s.(core := s.core.Park(r),
         requests := s.requests[r.id := RequestRecord(r, Parked(s.core.table[r.part].identity))],
         nextRequest := s.nextRequest + 1)
    else
      s.(flights := s.flights[f := Straight(r)],
         requests := s.requests[r.id := RequestRecord(r, Direct(f))],
         nextRequest := s.nextRequest + 1)
  }

  /** addJob of a request, from a flight: the job is in the table and in the queue. */
  function Enqueue(s: State, r: Request, lock: nat): State
    requires r.listener in s.core.nextId
  {
    var ref := JobRef(r.listener, s.core.nextId[r.listener]);
    s.(core := s.core.AddPlain(r),
       queue := s.queue + {ref},
       everQueued := s.everQueued + {ref},
       log := s.log + [LogEntry(r, lock)])
  }

  function EnqueueStraight(s: State, f: nat, r: Request): State
    requires r.listener in s.core.nextId && r.id in s.requests
  {
    Enqueue(s, r, 0).(flights := s.flights - {f}, requests := s.requests[r.id := s.requests[r.id].(place := Done)])
  }

  function EnqueueHead(s: State, f: nat, flight: Flight): State
    requires flight.Batch? && flight.todo != [] && flight.todo[0].listener in s.core.nextId
        && flight.todo[0].id in s.requests
  {
    var r := flight.todo[0];
    Enqueue(s, r, flight.lock).(flights := s.flights[f := flight.(added := true)],
                                requests := s.requests[r.id := s.requests[r.id].(place := Finishing(f))])
  }

  function UncountHead(s: State, f: nat, flight: Flight): State
    requires flight.Batch? && flight.todo != [] && flight.todo[0].id in s.requests
  {
    var r := flight.todo[0];
    s.(core := s.core.Undefer(r.listener),
       flights := s.flights[f := flight.(todo := flight.todo[1..], added := false)],
       requests := s.requests[r.id := s.requests[r.id].(place := Done)])
  }

  // startChunkLock

  /** An older lock of another server leaves the table; its lock job is dropped, then its requests go ahead. */
  function ReplaceLock(s: State, part: Part, owner: nat, version: nat, f: nat): State {
    if part !in s.core.table then s
    else TakeOut(s, part, f, Replaced(owner, version, s.core.table[part].version), Drop(s.core.table[part].lockJob),
        Nothing)
  }

  function InstallLock(s: State, part: Part, owner: nat, version: nat, listener: nat, callback: nat): State
    requires listener in s.core.nextId
  {
    var ref := JobRef(listener, s.core.nextId[listener]);
    s.(core := s.core.Install(part, owner, version, listener, callback),
       locks := s.locks[s.core.nextIdentity := LockRecord(part, owner, ref, InTable)])
  }

  /** The lock of the part leaves the table; its deferred requests leave with the flight. */
  function TakeOut(s: State, part: Part, f: nat, fate: Fate, before: Act, after: Act): State
    requires part in s.core.table
  {
    var entry := s.core.table[part];
    s.(core := s.core.Release(part),
       flights := s.flights[f := Batch(entry.identity, before, entry.pending, false, after)],
       locks := if entry.identity in s.locks
           then s.locks[entry.identity := s.locks[entry.identity].(place := Leaving(f))] else s.locks,
       fates := s.fates[entry.identity := fate],
       requests := Relocated(s.requests, entry.pending, f))
  }

  /** The requests of a batch are in transit now. */
  function Relocated(requests: map<nat, RequestRecord>, batch: seq<Request>, f: nat): map<nat, RequestRecord> {
    map id | id in requests ::
      if requests[id].request in batch then requests[id].(place := InTransit(f)) else requests[id]
  }

  // Write sessions

  function Joined(joins: set<Join>, lock: nat, sid: nat): set<Join> {
    if lock == 0 then joins else joins + {Join(lock, sid)}
  }

  /** setup: reserves a lock of the same version in identity mode; joins whatever lock there is under Master. */
  function SetupSession(s: State, sid: nat, part: Part, version: nat): State {
    if s.core.identityMode then
      s.(core := s.core.Reserve(part, version),
         sessions := s.sessions[sid := Opening(part, version, s.core.Reserves(part, version))],
         usedSessions := s.usedSessions + {sid})
    else
      s.(core := s.core.Enforce(part, version),
         sessions := s.sessions[sid := Settled(part, version, s.core.Joins(part, version), true)],
         joins := Joined(s.joins, s.core.Joins(part, version), sid),
         usedSessions := s.usedSessions + {sid})
  }

  /** The open job: with the part in hand and its version right, it joins the lock. */
  function OpenSession(s: State, sid: nat, session: Session): State
    requires session.Opening?
  {
    var Opening(part, version, reserved) := session;
    if part in s.parts && s.parts[part] == version then
      s.(core := s.core.Enforce(part, version),
         sessions := s.sessions[sid := Opened(part, version, reserved, s.core.Joins(part, version), true)],
         joins := Joined(s.joins, s.core.Joins(part, version), sid))
    else
      s.(sessions := s.sessions[sid := Opened(part, version, reserved, 0, false)])
  }

  /** adoptJoinedLock: the session takes the lock its open joined and releases its reservation. */
  function AdoptLock(s: State, sid: nat, session: Session, f: nat): State
    requires session.Opened?
  {
    var Opened(part, version, reserved, joined, matched) := session;
    var batch := s.core.Unblocked(part, reserved);
    s.(core := s.core.Unreserve(part, reserved),
       sessions := s.sessions[sid := Settled(part, version, joined, matched)],
       flights := if batch == [] then s.flights else s.flights[f := Batch(reserved, Nothing, batch, false, Nothing)],
       requests := if batch == [] then s.requests else Relocated(s.requests, batch, f))
  }

  /** cleanup: a session that joined a lock ends it. */
  function CloseSession(s: State, sid: nat, session: Session, status: Status, f: nat): State
    requires session.Settled?
  {
    var Settled(part, version, lock, matched) := session;
    var closed := s.(sessions := s.sessions - {sid});
    if lock == 0 || !s.core.MayRelease(part, None, Some(lock)) then closed
    else TakeOut(closed, part, f, Ended(sid, s.core.identityMode), Nothing, Notify(s.core.table[part].lockJob, status))
  }

  // Lock jobs

  /** The parts of `order` whose lock job is on the listener, one after the other. */
  function DetachEach(s: State, listener: nat, target: nat, order: seq<Part>, callback: nat): State
    requires target in s.core.nextId && InTheTable(s.core.table, order)
    decreases |order|
  {
    if order == [] then s
    else DetachEach(DetachOne(s, listener, target, order[0], callback), listener, target, order[1..], callback)
  }

  function DetachOne(s: State, listener: nat, target: nat, part: Part, callback: nat): (s': State)
    requires target in s.core.nextId && part in s.core.table
    ensures target in s'.core.nextId && forall p :: p in s'.core.table <==> p in s.core.table
  {
    var entry := s.core.table[part];
    if entry.lockJob.listener != listener || entry.lockJob !in s.core.jobs || !s.core.jobs[entry.lockJob].LockJob?
        then s
    else
      var ref := JobRef(target, s.core.nextId[target]);
      s.(core := s.core.MoveLock(part, target, callback),
         locks := if entry.identity in s.locks then s.locks[entry.identity := s.locks[entry.identity].(ref := ref)]
             else s.locks)
  }

  function RenewEach(core: Core, listener: nat, order: seq<Part>, callback: nat): Core
    requires InTheTable(core.table, order)
    decreases |order|
  {
    if order == [] then core else RenewEach(core.RenewCallback(order[0], listener, callback), listener, order[1..],
        callback)
  }

  /** sendStatus of the lock job, or dropLockJob. */
  function Perform(s: State, lock: nat, act: Act): State
    requires lock in s.locks
  {
    match act
    case Nothing => s
    case Notify(ref, status) =>
      s.(posted := s.posted[ref := status],
         locks := s.locks[lock := s.locks[lock].(place := Announced)],
         notices := s.notices + multiset{lock})
    case Drop(ref) =>
      s.(core := s.core.DropJob(ref),
         locks := s.locks[lock := s.locks[lock].(place := Gone)],
         drops := s.drops + multiset{lock})
  }

  /** processCompletedJobs: the job leaves the table and its callback is called. */
  function DeliverStatus(s: State, ref: JobRef): State {
    var received := s.(posted := s.posted - {ref});
    if ref !in s.core.jobs then received
    else
      var job := s.core.jobs[ref];
      received.(core := s.core.DropJob(ref),
                locks := if job.LockJob? && job.identity in s.locks
                         then s.locks[job.identity := s.locks[job.identity].(place := Gone)] else s.locks,
                calls := if job.LockJob? then s.calls + multiset{job.identity} else s.calls)
  }

  /** A run: states joined by the steps taken. */
  ghost predicate IsRun(run: seq<State>, steps: seq<Step>) {
    && |run| == |steps| + 1 && Init(run[0])
    && forall i :: 0 <= i < |steps| ==> CanTake(run[i], steps[i]) && run[i + 1] == Apply(run[i], steps[i])
  }
}
