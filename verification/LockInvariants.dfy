/** What every step of the chunk lock manager keeps. The invariants are stated over the components
    they constrain. */
module LockInvariants {
  import opened Common
  import opened ChunkLocks
  import opened LockProtocol

  // Locks and lock jobs.

  ghost predicate Issued(nextId: map<nat, nat>, ref: JobRef) {
    ref.listener in nextId && 1 <= ref.id < nextId[ref.listener]
  }

  ghost predicate IdsInv(nextId: map<nat, nat>, jobs: map<JobRef, TableJob>, everQueued: set<JobRef>) {
    && (forall l :: l in nextId ==> nextId[l] >= 1)
    && (forall ref :: ref in jobs ==> Issued(nextId, ref))
    && (forall ref :: ref in everQueued ==> Issued(nextId, ref))
  }

  /** The table holds exactly the locks on record as being in it, under their lock jobs. */
  ghost predicate EntryInv(table: map<Part, Entry>, locks: map<nat, LockRecord>) {
    && (forall p :: p in table ==>
        table[p].identity in locks
        && locks[table[p].identity] == LockRecord(p, table[p].owner, table[p].lockJob, InTable))
    && (forall i :: i in locks && locks[i].place.InTable? ==>
        locks[i].part in table && table[locks[i].part].identity == i)
  }

  ghost predicate IdentityInv(locks: map<nat, LockRecord>, nextIdentity: nat) {
    nextIdentity >= 1 && forall i :: i in locks ==> 1 <= i < nextIdentity
  }

  /** Every lock not gone has its own lock job, and every lock job belongs to such a lock. */
  ghost predicate LockJobInv(jobs: map<JobRef, TableJob>, locks: map<nat, LockRecord>) {
    && (forall i :: i in locks && !locks[i].place.Gone? ==>
          locks[i].ref in jobs && jobs[locks[i].ref].LockJob? && jobs[locks[i].ref].identity == i)
    && (forall ref :: ref in jobs && jobs[ref].LockJob? ==>
          jobs[ref].identity in locks && !locks[jobs[ref].identity].place.Gone? && locks[jobs[ref].identity].ref == ref)
  }

  /** A lock job is never queued. */
  ghost predicate QueueInv(jobs: map<JobRef, TableJob>, queue: set<JobRef>, everQueued: set<JobRef>) {
    && queue <= everQueued
    && (forall ref :: ref in queue ==> ref in jobs)
    && (forall ref :: ref in everQueued && ref in jobs ==> jobs[ref].PlainJob?)
  }

  ghost predicate PostedInv(posted: map<JobRef, Status>, jobs: map<JobRef, TableJob>, locks: map<nat, LockRecord>,
      queue: set<JobRef>) {
    && (forall ref :: ref in posted ==> ref in jobs && ref !in queue)
    && (forall ref :: ref in posted && jobs[ref].LockJob? ==>
        jobs[ref].identity in locks && locks[jobs[ref].identity].place.Announced?)
    && (forall i :: i in locks && locks[i].place.Announced? ==> locks[i].ref in posted)
  }

  ghost predicate ActsOn(act: Act, locks: map<nat, LockRecord>, fates: map<nat, Fate>, lock: nat, f: nat) {
    && lock in locks && locks[lock].place == Leaving(f) && lock in fates
    && match act
       case Nothing => true
       case Notify(ref, _) => ref == locks[lock].ref && fates[lock].Ended?
       case Drop(ref) => ref == locks[lock].ref && !fates[lock].Ended?
  }

  /** A lock out of the table is acted on once, by the flight it left with. */
  ghost predicate LeavingInv(flights: map<nat, Flight>, locks: map<nat, LockRecord>, fates: map<nat, Fate>) {
    && (forall f :: f in flights && flights[f].Batch? ==> flights[f].lock in locks)
    && (forall f :: f in flights && flights[f].Batch? && flights[f].before != Nothing ==>
          ActsOn(flights[f].before, locks, fates, flights[f].lock, f) && flights[f].after == Nothing)
    && (forall f :: f in flights && flights[f].Batch? && flights[f].after != Nothing ==>
          ActsOn(flights[f].after, locks, fates, flights[f].lock, f))
    && (forall i :: i in locks && locks[i].place.Leaving? ==>
          CarriedBy(flights, locks[i].place.flight, i))
  }

  ghost predicate CarriedBy(flights: map<nat, Flight>, f: nat, lock: nat) {
    f in flights && flights[f].Batch? && flights[f].lock == lock
        && (flights[f].before != Nothing || flights[f].after != Nothing)
  }

  ghost function Once(b: bool): nat {
    if b then 1 else 0
  }

  ghost predicate FateInv(locks: map<nat, LockRecord>, fates: map<nat, Fate>) {
    && (forall i :: i in fates ==> i in locks)
    && (forall i :: i in locks ==> (i in fates <==> !locks[i].place.InTable?))
    && (forall i :: i in locks && locks[i].place.Announced? ==> i in fates && fates[i].Ended?)
  }

  ghost predicate NoticesInv(locks: map<nat, LockRecord>, fates: map<nat, Fate>, notices: multiset<nat>) {
    forall i :: notices[i] == Once(EndedBy(fates, i) && i in locks
        && (locks[i].place.Announced? || locks[i].place.Gone?))
  }

  ghost predicate DropsInv(locks: map<nat, LockRecord>, fates: map<nat, Fate>, drops: multiset<nat>) {
    forall i :: drops[i] == Once(i in fates && !fates[i].Ended? && i in locks && locks[i].place.Gone?)
  }

  ghost predicate CallsInv(locks: map<nat, LockRecord>, fates: map<nat, Fate>, calls: multiset<nat>) {
    forall i :: calls[i] == Once(EndedBy(fates, i) && i in locks && locks[i].place.Gone?)
  }

  /** How often a lock's notice was sent, its job dropped and its callback called follows from its fate. */
  ghost predicate TallyInv(locks: map<nat, LockRecord>, fates: map<nat, Fate>, notices: multiset<nat>,
      drops: multiset<nat>, calls: multiset<nat>) {
    NoticesInv(locks, fates, notices) && DropsInv(locks, fates, drops) && CallsInv(locks, fates, calls)
  }

  ghost predicate EndedBy(fates: map<nat, Fate>, lock: nat) {
    lock in fates && fates[lock].Ended?
  }

  /** In identity mode a lock is ended by a session that joined it, erased by its owner, or replaced by a newer lock
      of another owner. */
  ghost predicate RightfulInv(locks: map<nat, LockRecord>, fates: map<nat, Fate>, joins: set<Join>) {
    && (forall i :: i in fates ==> i in locks)
    && (forall i :: i in fates && fates[i].Ended? && fates[i].strict ==> Join(i, fates[i].session) in joins)
    && (forall i :: i in fates && fates[i].Erased? && fates[i].strict ==> fates[i].who == locks[i].owner)
    && (forall i :: i in fates && fates[i].Replaced? ==>
        fates[i].who != locks[i].owner && fates[i].oldVersion < fates[i].newVersion)
  }

  // Requests.

  ghost predicate NumberInv(requests: map<nat, RequestRecord>, nextRequest: nat, nextId: map<nat, nat>) {
    && nextRequest >= 1
    && (forall id :: id in requests ==>
        1 <= id < nextRequest && requests[id].request.id == id && requests[id].request.listener in nextId)
    && (forall id :: 1 <= id < nextRequest ==> id in requests)
  }

  ghost predicate Sorted(batch: seq<Request>) {
    forall i, j :: 0 <= i < j < |batch| ==> batch[i].id < batch[j].id
  }

  /** Every request of the batch is on record at the place. */
  ghost predicate AllAt(batch: seq<Request>, requests: map<nat, RequestRecord>, place: Where) {
    forall i :: 0 <= i < |batch| ==> batch[i].id in requests && requests[batch[i].id] == RequestRecord(batch[i], place)
  }

  ghost predicate ParkedInv(table: map<Part, Entry>, locks: map<nat, LockRecord>, requests: map<nat, RequestRecord>) {
    && (forall p :: p in table ==>
        AllAt(table[p].pending, requests, Parked(table[p].identity)) && Sorted(table[p].pending))
    && (forall id :: id in requests && requests[id].place.Parked? ==>
          ParkedAt(table, locks, requests[id].place.lock, requests[id].request))
  }

  ghost predicate ParkedAt(table: map<Part, Entry>, locks: map<nat, LockRecord>, lock: nat, r: Request) {
    lock in locks && locks[lock].part in table && table[locks[lock].part].identity == lock
        && r in table[locks[lock].part].pending
  }

  /** The requests of a flight: the head may be in the queue already and only still counted. */
  ghost predicate FlightHolds(flight: Flight, f: nat, requests: map<nat, RequestRecord>) {
    match flight
    case Straight(r) => r.id in requests && requests[r.id] == RequestRecord(r, Direct(f))
    case Batch(_, _, todo, added, _) =>
      && Sorted(todo) && (added ==> todo != [])
      && if added then todo[0].id in requests && requests[todo[0].id] == RequestRecord(todo[0], Finishing(f))
          && AllAt(todo[1..], requests, InTransit(f))
         else AllAt(todo, requests, InTransit(f))
  }

  /** The converse: where a record says a request is, it is. */
  ghost predicate HeldByFlight(record: RequestRecord, flights: map<nat, Flight>) {
    match record.place
    case Direct(f) => f in flights && flights[f] == Straight(record.request)
    case InTransit(f) => f in flights && flights[f].Batch? && record.request in flights[f].todo
        && !(flights[f].added && flights[f].todo != [] && flights[f].todo[0] == record.request)
    case Finishing(f) => f in flights && flights[f].Batch? && flights[f].added && flights[f].todo != []
        && flights[f].todo[0] == record.request
    case _ => true
  }

  ghost predicate TransitInv(flights: map<nat, Flight>, requests: map<nat, RequestRecord>) {
    && (forall f :: f in flights ==> FlightHolds(flights[f], f, requests))
    && (forall id :: id in requests ==> HeldByFlight(requests[id], flights))
  }

  ghost predicate Logged(log: seq<LogEntry>, r: Request) {
    exists i :: 0 <= i < |log| && log[i].request == r
  }

  ghost predicate Reached(requests: map<nat, RequestRecord>, r: Request) {
    r.id in requests && requests[r.id].request == r && (requests[r.id].place.Done? || requests[r.id].place.Finishing?)
  }

  /** The log holds exactly the requests that reached the queue, each once and as received. */
  ghost predicate LogInv(log: seq<LogEntry>, requests: map<nat, RequestRecord>) {
    && (forall i :: 0 <= i < |log| ==> Reached(requests, log[i].request))
    && (forall i, j :: 0 <= i < j < |log| ==> log[i].request.id != log[j].request.id)
    && (forall id :: id in requests && (requests[id].place.Done? || requests[id].place.Finishing?) ==>
        Logged(log, requests[id].request))
  }

  predicate Waits(place: Where) {
    place.Parked? || place.InTransit? || place.Finishing?
  }

  ghost function Waiting(requests: map<nat, RequestRecord>, listener: nat): set<nat> {
    set id | id in requests && Waits(requests[id].place) && requests[id].request.listener == listener
  }

  function Count(deferred: map<nat, int>, listener: nat): int {
    if listener in deferred then deferred[listener] else 0
  }

  /** deferredJobs counts the requests parked or in transit. */
  ghost predicate DeferredInv(deferred: map<nat, int>, requests: map<nat, RequestRecord>) {
    forall l: nat :: Count(deferred, l) == |Waiting(requests, l)|
  }

  /** Nothing waits behind an entry with neither a joined session nor a reservation. */
  ghost predicate GuardInv(table: map<Part, Entry>) {
    forall p :: p in table && table[p].pending != [] ==> table[p].writeInit || table[p].reserved > 0
  }

  // Sessions.

  predicate Unsettled(session: Session) {
    session.Opening? || session.Opened?
  }

  ghost function Holders(sessions: map<nat, Session>, lock: nat): set<nat> {
    set sid | sid in sessions && Unsettled(sessions[sid]) && sessions[sid].reserved == lock
  }

  /** reservedOpens is the number of unsettled sessions that hold the lock's identity. */
  ghost predicate HoldersInv(table: map<Part, Entry>, sessions: map<nat, Session>) {
    forall p :: p in table ==> table[p].reserved == |Holders(sessions, table[p].identity)|
  }

  ghost predicate SessionInv(sessions: map<nat, Session>, locks: map<nat, LockRecord>, joins: set<Join>,
      usedSessions: set<nat>) {
    && (forall sid :: sid in sessions ==> sid in usedSessions)
    && (forall sid :: sid in sessions && Unsettled(sessions[sid]) && sessions[sid].reserved != 0 ==>
          sessions[sid].reserved in locks && locks[sessions[sid].reserved].part == sessions[sid].part)
    && (forall sid :: sid in sessions && sessions[sid].Opened? && sessions[sid].joined != 0 ==>
          sessions[sid].matched && Join(sessions[sid].joined, sid) in joins)
    && (forall sid :: sid in sessions && sessions[sid].Settled? && sessions[sid].lock != 0 ==>
          sessions[sid].matched && Join(sessions[sid].lock, sid) in joins)
    && (forall j :: j in joins ==> j.lock in locks)
  }

  ghost predicate LockSide(s: State) {
    && IdsInv(s.core.nextId, s.core.jobs, s.everQueued)
    && EntryInv(s.core.table, s.locks)
    && IdentityInv(s.locks, s.core.nextIdentity)
    && LockJobInv(s.core.jobs, s.locks)
    && QueueInv(s.core.jobs, s.queue, s.everQueued)
    && PostedInv(s.posted, s.core.jobs, s.locks, s.queue)
    && LeavingInv(s.flights, s.locks, s.fates)
    && FateInv(s.locks, s.fates)
    && TallyInv(s.locks, s.fates, s.notices, s.drops, s.calls)
    && RightfulInv(s.locks, s.fates, s.joins)
  }

  ghost predicate RequestSide(s: State) {
    && NumberInv(s.requests, s.nextRequest, s.core.nextId)
    && ParkedInv(s.core.table, s.locks, s.requests)
    && TransitInv(s.flights, s.requests)
    && LogInv(s.log, s.requests)
    && DeferredInv(s.core.deferred, s.requests)
    && GuardInv(s.core.table)
  }

  ghost predicate SessionSide(s: State) {
    && HoldersInv(s.core.table, s.sessions)
    && SessionInv(s.sessions, s.locks, s.joins, s.usedSessions)
  }

  ghost predicate Inv(s: State) {
    LockSide(s) && RequestSide(s) && SessionSide(s) && 0 in s.core.nextId
  }

  // A lock changing its place.

  ghost function Moved(locks: map<nat, LockRecord>, i: nat, place: LockPlace): map<nat, LockRecord>
    requires i in locks
  {
    locks[i := locks[i].(place := place)]
  }

  lemma EntryLeaves(table: map<Part, Entry>, locks: map<nat, LockRecord>, p: Part, f: nat)
    requires EntryInv(table, locks) && p in table
    ensures EntryInv(table - {p}, Moved(locks, table[p].identity, Leaving(f)))
  {
  }

  lemma EntryElsewhere(table: map<Part, Entry>, locks: map<nat, LockRecord>, i: nat, place: LockPlace)
    requires EntryInv(table, locks) && i in locks && !locks[i].place.InTable? && !place.InTable?
    ensures EntryInv(table, Moved(locks, i, place))
  {
  }

  lemma JobsUnmoved(jobs: map<JobRef, TableJob>, locks: map<nat, LockRecord>, nextIdentity: nat, i: nat,
      place: LockPlace)
    requires LockJobInv(jobs, locks) && IdentityInv(locks, nextIdentity) && i in locks && !locks[i].place.Gone?
        && !place.Gone?
    ensures LockJobInv(jobs, Moved(locks, i, place)) && IdentityInv(Moved(locks, i, place), nextIdentity)
  {
  }

  lemma JobGoes(jobs: map<JobRef, TableJob>, locks: map<nat, LockRecord>, nextIdentity: nat, i: nat)
    requires LockJobInv(jobs, locks) && IdentityInv(locks, nextIdentity) && i in locks && !locks[i].place.Gone?
    ensures LockJobInv(jobs - {locks[i].ref}, Moved(locks, i, Gone)) && IdentityInv(Moved(locks, i, Gone), nextIdentity)
  {
  }

  lemma PostedUnmoved(posted: map<JobRef, Status>, jobs: map<JobRef, TableJob>, locks: map<nat, LockRecord>,
      queue: set<JobRef>, i: nat, place: LockPlace)
    requires PostedInv(posted, jobs, locks, queue) && i in locks && !locks[i].place.Announced? && !place.Announced?
    ensures PostedInv(posted, jobs, Moved(locks, i, place), queue)
  {
  }

  lemma PostedNotified(posted: map<JobRef, Status>, jobs: map<JobRef, TableJob>, locks: map<nat, LockRecord>,
      queue: set<JobRef>, i: nat, status: Status)
    requires PostedInv(posted, jobs, locks, queue) && LockJobInv(jobs, locks) && i in locks && locks[i].place.Leaving?
        && locks[i].ref !in queue
    ensures PostedInv(posted[locks[i].ref := status], jobs, Moved(locks, i, Announced), queue)
        && locks[i].ref !in posted
  {
  }

  lemma PostedDropped(posted: map<JobRef, Status>, jobs: map<JobRef, TableJob>, locks: map<nat, LockRecord>,
      queue: set<JobRef>, i: nat)
    requires PostedInv(posted, jobs, locks, queue) && LockJobInv(jobs, locks) && i in locks && locks[i].place.Leaving?
    ensures PostedInv(posted, jobs - {locks[i].ref}, Moved(locks, i, Gone), queue)
  {
  }

  lemma PostedDelivered(posted: map<JobRef, Status>, jobs: map<JobRef, TableJob>, locks: map<nat, LockRecord>,
      queue: set<JobRef>, i: nat)
    requires PostedInv(posted, jobs, locks, queue) && LockJobInv(jobs, locks) && i in locks && locks[i].place.Announced?
    ensures PostedInv(posted - {locks[i].ref}, jobs - {locks[i].ref}, Moved(locks, i, Gone), queue)
  {
  }

  lemma LeavingStarts(flights: map<nat, Flight>, locks: map<nat, LockRecord>, fates: map<nat, Fate>, i: nat, f: nat,
      fate: Fate, flight: Flight)
    requires LeavingInv(flights, locks, fates) && FateInv(locks, fates) && i in locks && locks[i].place.InTable?
        && f !in flights
    requires flight.Batch? && flight.lock == i
    requires if fate.Ended? then flight.before == Nothing && flight.after.Notify? && flight.after.ref == locks[i].ref
             else
               || (flight.before == Drop(locks[i].ref) && flight.after == Nothing)
               || (flight.before == Nothing && flight.after == Drop(locks[i].ref))
    ensures LeavingInv(flights[f := flight], Moved(locks, i, Leaving(f)), fates[i := fate])
  {
  }

  lemma LeavingEnds(flights: map<nat, Flight>, locks: map<nat, LockRecord>, fates: map<nat, Fate>, i: nat,
      place: LockPlace)
    requires LeavingInv(flights, locks, fates) && i in locks && locks[i].place.Leaving?
        && (place.Announced? || place.Gone?)
    ensures var f := locks[i].place.flight;
            && f in flights && flights[f].Batch?
            && LeavingInv(flights[f := flights[f].(before := Nothing, after := Nothing)], Moved(locks, i, place), fates)
            && LeavingInv(flights - {f}, Moved(locks, i, place), fates)
  {
    assert CarriedBy(flights, locks[i].place.flight, i);
  }

  lemma LeavingElsewhere(flights: map<nat, Flight>, locks: map<nat, LockRecord>, fates: map<nat, Fate>, i: nat)
    requires LeavingInv(flights, locks, fates) && i in locks && locks[i].place.Announced?
    ensures LeavingInv(flights, Moved(locks, i, Gone), fates)
  {
  }

  lemma FateLeaves(locks: map<nat, LockRecord>, fates: map<nat, Fate>, i: nat, f: nat, fate: Fate)
    requires FateInv(locks, fates) && i in locks && locks[i].place.InTable?
    ensures FateInv(Moved(locks, i, Leaving(f)), fates[i := fate])
  {
  }

  lemma FateMoves(locks: map<nat, LockRecord>, fates: map<nat, Fate>, i: nat, place: LockPlace)
    requires FateInv(locks, fates) && i in locks && !locks[i].place.InTable? && !place.InTable?
        && (place.Announced? ==> EndedBy(fates, i))
    ensures FateInv(Moved(locks, i, place), fates)
  {
  }

  lemma NoticesLeave(locks: map<nat, LockRecord>, fates: map<nat, Fate>, notices: multiset<nat>, i: nat, f: nat,
      fate: Fate)
    requires NoticesInv(locks, fates, notices) && i !in fates && i in locks
    ensures NoticesInv(Moved(locks, i, Leaving(f)), fates[i := fate], notices)
  {
  }

  lemma DropsLeave(locks: map<nat, LockRecord>, fates: map<nat, Fate>, drops: multiset<nat>, i: nat, f: nat, fate: Fate)
    requires DropsInv(locks, fates, drops) && i !in fates && i in locks
    ensures DropsInv(Moved(locks, i, Leaving(f)), fates[i := fate], drops)
  {
  }

  lemma CallsLeave(locks: map<nat, LockRecord>, fates: map<nat, Fate>, calls: multiset<nat>, i: nat, f: nat, fate: Fate)
    requires CallsInv(locks, fates, calls) && i !in fates && i in locks
    ensures CallsInv(Moved(locks, i, Leaving(f)), fates[i := fate], calls)
  {
  }

  lemma TallyLeaves(locks: map<nat, LockRecord>, fates: map<nat, Fate>, notices: multiset<nat>, drops: multiset<nat>,
      calls: multiset<nat>, i: nat, f: nat, fate: Fate)
    requires TallyInv(locks, fates, notices, drops, calls) && i !in fates && i in locks && locks[i].place.InTable?
    ensures TallyInv(Moved(locks, i, Leaving(f)), fates[i := fate], notices, drops, calls)
  {
    hide NoticesInv, DropsInv, CallsInv;
    NoticesLeave(locks, fates, notices, i, f, fate);
    DropsLeave(locks, fates, drops, i, f, fate);
    CallsLeave(locks, fates, calls, i, f, fate);
  }

  lemma TallyNotified(locks: map<nat, LockRecord>, fates: map<nat, Fate>, notices: multiset<nat>, drops: multiset<nat>,
      calls: multiset<nat>, i: nat)
    requires TallyInv(locks, fates, notices, drops, calls) && i in locks && locks[i].place.Leaving? && EndedBy(fates, i)
    ensures TallyInv(Moved(locks, i, Announced), fates, notices + multiset{i}, drops, calls)
  {
  }

  lemma TallyDropped(locks: map<nat, LockRecord>, fates: map<nat, Fate>, notices: multiset<nat>, drops: multiset<nat>,
      calls: multiset<nat>, i: nat)
    requires TallyInv(locks, fates, notices, drops, calls) && i in locks && locks[i].place.Leaving? && i in fates
        && !EndedBy(fates, i)
    ensures TallyInv(Moved(locks, i, Gone), fates, notices, drops + multiset{i}, calls)
  {
  }

  lemma TallyCalled(locks: map<nat, LockRecord>, fates: map<nat, Fate>, notices: multiset<nat>, drops: multiset<nat>,
      calls: multiset<nat>, i: nat)
    requires TallyInv(locks, fates, notices, drops, calls) && i in locks && locks[i].place.Announced?
        && EndedBy(fates, i)
    ensures TallyInv(Moved(locks, i, Gone), fates, notices, drops, calls + multiset{i})
  {
  }

  /** The fate of a lock is one its present state and the fate's author allow. */
  ghost predicate Rightful(fate: Fate, entry: Entry, joins: set<Join>) {
    match fate
    case Ended(sid, strict) => strict ==> Join(entry.identity, sid) in joins
    case Erased(who, strict) => strict ==> who == entry.owner
    case Replaced(who, newer, older) => who != entry.owner && older < newer
  }

  lemma RightfulLeaves(table: map<Part, Entry>, locks: map<nat, LockRecord>, fates: map<nat, Fate>, joins: set<Join>,
      p: Part, f: nat, fate: Fate)
    requires RightfulInv(locks, fates, joins) && EntryInv(table, locks) && p in table && Rightful(fate, table[p], joins)
    ensures RightfulInv(Moved(locks, table[p].identity, Leaving(f)), fates[table[p].identity := fate], joins)
  {
  }

  lemma RightfulMoves(locks: map<nat, LockRecord>, fates: map<nat, Fate>, joins: set<Join>, i: nat, place: LockPlace)
    requires RightfulInv(locks, fates, joins) && i in locks
    ensures RightfulInv(Moved(locks, i, place), fates, joins)
  {
  }

  lemma SessionsSeeNoMove(sessions: map<nat, Session>, locks: map<nat, LockRecord>, joins: set<Join>,
      usedSessions: set<nat>, i: nat, place: LockPlace)
    requires SessionInv(sessions, locks, joins, usedSessions) && i in locks
    ensures SessionInv(sessions, Moved(locks, i, place), joins, usedSessions)
  {
  }

  lemma ParkedSeesNoMove(table: map<Part, Entry>, locks: map<nat, LockRecord>, requests: map<nat, RequestRecord>,
      i: nat, place: LockPlace)
    requires ParkedInv(table, locks, requests) && i in locks
    ensures ParkedInv(table, Moved(locks, i, place), requests)
  {
    forall id | id in requests && requests[id].place.Parked?
      ensures ParkedAt(table, Moved(locks, i, place), requests[id].place.lock, requests[id].request)
    {
      assert ParkedAt(table, locks, requests[id].place.lock, requests[id].request);
    }
  }

  // Requests changing their place.

  /** The batch is a lock's whole parked list, as the records have it. */
  lemma RelocatedAt(requests: map<nat, RequestRecord>, nextRequest: nat, nextId: map<nat, nat>, batch: seq<Request>,
      lock: nat, f: nat)
    requires NumberInv(requests, nextRequest, nextId) && AllAt(batch, requests, Parked(lock))
    ensures var requests' := Relocated(requests, batch, f);
            && AllAt(batch, requests', InTransit(f)) && NumberInv(requests', nextRequest, nextId)
            && (forall id :: id in requests' <==> id in requests)
            && (forall id :: id in requests && requests[id].request !in batch ==> requests'[id] == requests[id])
            && (forall id :: id in requests && requests[id].request in batch ==>
                  requests[id].place == Parked(lock)
                      && requests'[id] == RequestRecord(requests[id].request, InTransit(f)))
  {
    forall id | id in requests && requests[id].request in batch
      ensures requests[id].place == Parked(lock)
    {
      var i :| 0 <= i < |batch| && batch[i] == requests[id].request;
    }
  }

  lemma ParkedLeaves(table: map<Part, Entry>, locks: map<nat, LockRecord>, requests: map<nat, RequestRecord>,
      nextRequest: nat,
                     nextId: map<nat, nat>, p: Part, f: nat)
    requires ParkedInv(table, locks, requests) && EntryInv(table, locks) && NumberInv(requests, nextRequest, nextId)
        && p in table
    ensures ParkedInv(table - {p}, Moved(locks, table[p].identity, Leaving(f)),
        Relocated(requests, table[p].pending, f))
  {
    var lock := table[p].identity;
    RelocatedAt(requests, nextRequest, nextId, table[p].pending, lock, f);
    var requests' := Relocated(requests, table[p].pending, f);
    forall q | q in table - {p}
      ensures AllAt(table[q].pending, requests', Parked(table[q].identity))
    {
      OthersUntouched(table, requests, table[p].pending, p, q, f);
    }
    forall id | id in requests' && requests'[id].place.Parked?
      ensures ParkedAt(table - {p}, Moved(locks, lock, Leaving(f)), requests'[id].place.lock, requests'[id].request)
    {
      assert ParkedAt(table, locks, requests[id].place.lock, requests[id].request);
    }
  }

  lemma OthersUntouched(table: map<Part, Entry>, requests: map<nat, RequestRecord>, batch: seq<Request>, p: Part,
      q: Part, f: nat)
    requires p in table && q in table && table[q].identity != table[p].identity
    requires AllAt(batch, requests, Parked(table[p].identity))
        && AllAt(table[q].pending, requests, Parked(table[q].identity))
    ensures AllAt(table[q].pending, Relocated(requests, batch, f), Parked(table[q].identity))
  {
    forall i | 0 <= i < |table[q].pending|
      ensures table[q].pending[i] !in batch
    {
    }
  }

  /** The lock stays in the table, its parked requests leave. */
  lemma ParkedEmptied(table: map<Part, Entry>, locks: map<nat, LockRecord>, requests: map<nat, RequestRecord>,
      nextRequest: nat,
                      nextId: map<nat, nat>, p: Part, f: nat, entry: Entry)
    requires ParkedInv(table, locks, requests) && EntryInv(table, locks) && NumberInv(requests, nextRequest, nextId)
        && p in table
    requires entry.identity == table[p].identity && entry.pending == []
    ensures ParkedInv(table[p := entry], locks, Relocated(requests, table[p].pending, f))
  {
    var lock := table[p].identity;
    RelocatedAt(requests, nextRequest, nextId, table[p].pending, lock, f);
    var requests' := Relocated(requests, table[p].pending, f);
    forall q | q in table && q != p
      ensures AllAt(table[q].pending, requests', Parked(table[q].identity))
    {
      OthersUntouched(table, requests, table[p].pending, p, q, f);
    }
    forall id | id in requests' && requests'[id].place.Parked?
      ensures ParkedAt(table[p := entry], locks, requests'[id].place.lock, requests'[id].request)
    {
      assert ParkedAt(table, locks, requests[id].place.lock, requests[id].request);
    }
  }

  /** An entry changes in nothing that concerns parked requests. */
  lemma ParkedSame(table: map<Part, Entry>, locks: map<nat, LockRecord>, requests: map<nat, RequestRecord>, p: Part,
      entry: Entry)
    requires ParkedInv(table, locks, requests) && p in table && entry.identity == table[p].identity
        && entry.pending == table[p].pending
    ensures ParkedInv(table[p := entry], locks, requests)
  {
    forall id | id in requests && requests[id].place.Parked?
      ensures ParkedAt(table[p := entry], locks, requests[id].place.lock, requests[id].request)
    {
      assert ParkedAt(table, locks, requests[id].place.lock, requests[id].request);
    }
  }

  /** A request not parked before changes its place to another where it is not parked. */
  lemma ParkedElsewhere(table: map<Part, Entry>, locks: map<nat, LockRecord>, requests: map<nat, RequestRecord>,
      id: nat, record: RequestRecord)
    requires ParkedInv(table, locks, requests) && (id in requests ==> !requests[id].place.Parked?)
        && !record.place.Parked?
    ensures ParkedInv(table, locks, requests[id := record])
  {
    forall id1 | id1 in requests && requests[id1].place.Parked?
      ensures ParkedAt(table, locks, requests[id1].place.lock, requests[id1].request)
    {
    }
  }

  lemma ParkedAdds(table: map<Part, Entry>, locks: map<nat, LockRecord>, requests: map<nat, RequestRecord>,
      nextRequest: nat,
                   nextId: map<nat, nat>, r: Request)
    requires ParkedInv(table, locks, requests) && EntryInv(table, locks) && NumberInv(requests, nextRequest, nextId)
    requires r.part in table && r.id == nextRequest
    ensures var entry := table[r.part];
            ParkedInv(table[r.part := entry.(pending := entry.pending + [r])], locks,
                requests[r.id := RequestRecord(r, Parked(entry.identity))])
  {
    var entry := table[r.part];
    var table' := table[r.part := entry.(pending := entry.pending + [r])];
    var requests' := requests[r.id := RequestRecord(r, Parked(entry.identity))];
    assert r.id !in requests;
    forall id | id in requests' && requests'[id].place.Parked?
      ensures ParkedAt(table', locks, requests'[id].place.lock, requests'[id].request)
    {
      if id != r.id {
        assert ParkedAt(table, locks, requests[id].place.lock, requests[id].request);
      } else {
        assert locks[entry.identity].part == r.part;
        assert r in table'[r.part].pending;
      }
    }
  }

  lemma TransitArrives(flights: map<nat, Flight>, requests: map<nat, RequestRecord>, nextRequest: nat, nextId: map<nat,
      nat>,
                       f: nat, flight: Flight, lock: nat)
    requires TransitInv(flights, requests) && NumberInv(requests, nextRequest, nextId) && f !in flights
    requires flight.Batch? && !flight.added && Sorted(flight.todo) && AllAt(flight.todo, requests, Parked(lock))
    ensures TransitInv(flights[f := flight], Relocated(requests, flight.todo, f))
  {
    RelocatedAt(requests, nextRequest, nextId, flight.todo, lock, f);
    var requests' := Relocated(requests, flight.todo, f);
    forall g | g in flights
      ensures FlightHolds(flights[g], g, requests')
    {
      FlightUnaffected(flights[g], g, requests, requests');
    }
    forall id | id in requests'
      ensures HeldByFlight(requests'[id], flights[f := flight])
    {
      assert HeldByFlight(requests[id], flights);
    }
  }

  /** A flight is not concerned by changes to parked or unknown requests. */
  lemma FlightUnaffected(flight: Flight, g: nat, requests: map<nat, RequestRecord>, requests': map<nat, RequestRecord>)
    requires FlightHolds(flight, g, requests)
    requires forall id :: id in requests && requests[id].place in {InTransit(g), Finishing(g), Direct(g)} ==>
        id in requests' && requests'[id] == requests[id]
    ensures FlightHolds(flight, g, requests')
  {
  }

  lemma TransitAdds(flights: map<nat, Flight>, requests: map<nat, RequestRecord>, r: Request, lock: nat, f: nat)
    requires TransitInv(flights, requests) && r.id !in requests
    ensures TransitInv(flights, requests[r.id := RequestRecord(r, Parked(lock))])
    ensures f !in flights ==> TransitInv(flights[f := Straight(r)], requests[r.id := RequestRecord(r, Direct(f))])
  {
    forall g | g in flights
      ensures FlightHolds(flights[g], g, requests[r.id := RequestRecord(r, Parked(lock))])
      ensures FlightHolds(flights[g], g, requests[r.id := RequestRecord(r, Direct(f))])
    {
      FlightUnaffected(flights[g], g, requests, requests[r.id := RequestRecord(r, Parked(lock))]);
      FlightUnaffected(flights[g], g, requests, requests[r.id := RequestRecord(r, Direct(f))]);
    }
    if f !in flights {
      forall id | id in requests
        ensures HeldByFlight(requests[id], flights[f := Straight(r)])
      {
        assert HeldByFlight(requests[id], flights);
      }
    }
  }

  /** A flight's acts are none of its requests' business. */
  lemma TransitSameTodo(flights: map<nat, Flight>, requests: map<nat, RequestRecord>, f: nat, flight: Flight)
    requires TransitInv(flights, requests) && f in flights && flights[f].Batch? && flight.Batch?
    requires flight.todo == flights[f].todo && flight.added == flights[f].added
    ensures TransitInv(flights[f := flight], requests)
  {
    forall id | id in requests
      ensures HeldByFlight(requests[id], flights[f := flight])
    {
      assert HeldByFlight(requests[id], flights);
    }
  }

  lemma TransitLands(flights: map<nat, Flight>, requests: map<nat, RequestRecord>, f: nat)
    requires TransitInv(flights, requests) && f in flights && flights[f].Batch? && flights[f].todo == []
    ensures TransitInv(flights - {f}, requests)
  {
    assert FlightHolds(flights[f], f, requests);
    forall id | id in requests
      ensures HeldByFlight(requests[id], flights - {f})
    {
      assert HeldByFlight(requests[id], flights);
    }
  }

  lemma TransitStraightDone(flights: map<nat, Flight>, requests: map<nat, RequestRecord>, nextRequest: nat,
      nextId: map<nat, nat>, f: nat)
    requires TransitInv(flights, requests) && NumberInv(requests, nextRequest, nextId) && f in flights
        && flights[f].Straight?
    ensures var r := flights[f].request;
            && r.id in requests && requests[r.id] == RequestRecord(r, Direct(f))
            && TransitInv(flights - {f}, requests[r.id := RequestRecord(r, Done)])
  {
    var r := flights[f].request;
    assert FlightHolds(flights[f], f, requests);
    var requests' := requests[r.id := RequestRecord(r, Done)];
    forall g | g in flights - {f}
      ensures FlightHolds(flights[g], g, requests')
    {
      FlightUnaffected(flights[g], g, requests, requests');
    }
    forall id | id in requests'
      ensures HeldByFlight(requests'[id], flights - {f})
    {
      if id != r.id {
        assert HeldByFlight(requests[id], flights);
      }
    }
  }

  lemma HeadIsHeld(flight: Flight, f: nat, requests: map<nat, RequestRecord>)
    requires flight.Batch? && flight.todo != [] && FlightHolds(flight, f, requests)
    ensures var r := flight.todo[0];
            r.id in requests && requests[r.id] == RequestRecord(r, if flight.added then Finishing(f) else InTransit(f))
    ensures forall i :: 0 < i < |flight.todo| ==> flight.todo[i] != flight.todo[0]
  {
  }

  lemma TransitHeadAdded(flights: map<nat, Flight>, requests: map<nat, RequestRecord>, nextRequest: nat,
      nextId: map<nat, nat>, f: nat)
    requires TransitInv(flights, requests) && NumberInv(requests, nextRequest, nextId) && f in flights
        && flights[f].Batch? && flights[f].todo != [] && !flights[f].added
    ensures var r := flights[f].todo[0];
            && r.id in requests && requests[r.id] == RequestRecord(r, InTransit(f))
            && TransitInv(flights[f := flights[f].(added := true)], requests[r.id := RequestRecord(r, Finishing(f))])
  {
    var flight := flights[f];
    HeadIsHeld(flight, f, requests);
    var r := flight.todo[0];
    var flights' := flights[f := flight.(added := true)];
    var requests' := requests[r.id := RequestRecord(r, Finishing(f))];
    assert FlightHolds(flights'[f], f, requests') by {
      assert AllAt(flight.todo[1..], requests', InTransit(f));
    }
    forall g | g in flights && g != f
      ensures FlightHolds(flights[g], g, requests')
    {
      FlightUnaffected(flights[g], g, requests, requests');
    }
    forall id | id in requests'
      ensures HeldByFlight(requests'[id], flights')
    {
      if id != r.id {
        assert HeldByFlight(requests[id], flights);
        if requests[id].place == InTransit(f) {
          assert requests[id].request != r;
        }
      }
    }
  }

  lemma TransitHeadDone(flights: map<nat, Flight>, requests: map<nat, RequestRecord>, nextRequest: nat,
      nextId: map<nat, nat>, f: nat)
    requires TransitInv(flights, requests) && NumberInv(requests, nextRequest, nextId)
    requires f in flights && flights[f].Batch? && flights[f].todo != [] && flights[f].added
    ensures var r := flights[f].todo[0];
            && r.id in requests && requests[r.id] == RequestRecord(r, Finishing(f))
            && TransitInv(flights[f := flights[f].(todo := flights[f].todo[1..], added := false)],
                requests[r.id := RequestRecord(r, Done)])
  {
    var flight := flights[f];
    HeadIsHeld(flight, f, requests);
    var r := flight.todo[0];
    var rest := flight.(todo := flight.todo[1..], added := false);
    var flights' := flights[f := rest];
    var requests' := requests[r.id := RequestRecord(r, Done)];
    assert FlightHolds(rest, f, requests');
    forall g | g in flights && g != f
      ensures FlightHolds(flights[g], g, requests')
    {
      FlightUnaffected(flights[g], g, requests, requests');
    }
    forall id | id in requests'
      ensures HeldByFlight(requests'[id], flights')
    {
      if id != r.id {
        assert HeldByFlight(requests[id], flights);
        assert requests[id].request != r;
      }
    }
  }

  // The log.

  lemma LogSeesNoRelocation(log: seq<LogEntry>, requests: map<nat, RequestRecord>, nextRequest: nat, nextId: map<nat,
      nat>,
                            batch: seq<Request>, lock: nat, f: nat)
    requires LogInv(log, requests) && NumberInv(requests, nextRequest, nextId) && AllAt(batch, requests, Parked(lock))
    ensures LogInv(log, Relocated(requests, batch, f))
  {
    RelocatedAt(requests, nextRequest, nextId, batch, lock, f);
    var requests' := Relocated(requests, batch, f);
    forall i | 0 <= i < |log|
      ensures Reached(requests', log[i].request)
    {
      assert Reached(requests, log[i].request);
    }
    forall id | id in requests' && (requests'[id].place.Done? || requests'[id].place.Finishing?)
      ensures Logged(log, requests'[id].request)
    {
      assert Logged(log, requests[id].request);
    }
  }

  lemma LogSeesNoArrival(log: seq<LogEntry>, requests: map<nat, RequestRecord>, r: Request, place: Where)
    requires LogInv(log, requests) && r.id !in requests && (place.Parked? || place.Direct?)
    ensures LogInv(log, requests[r.id := RequestRecord(r, place)])
  {
    forall i | 0 <= i < |log|
      ensures Reached(requests[r.id := RequestRecord(r, place)], log[i].request)
    {
      assert Reached(requests, log[i].request);
    }
  }

  lemma LogGrows(log: seq<LogEntry>, requests: map<nat, RequestRecord>, r: Request, lock: nat, place: Where)
    requires LogInv(log, requests) && r.id in requests && requests[r.id].request == r
    requires !requests[r.id].place.Done? && !requests[r.id].place.Finishing? && (place.Done? || place.Finishing?)
    ensures LogInv(log + [LogEntry(r, lock)], requests[r.id := RequestRecord(r, place)])
  {
    var log' := log + [LogEntry(r, lock)];
    var requests' := requests[r.id := RequestRecord(r, place)];
    forall i | 0 <= i < |log|
      ensures Reached(requests', log[i].request) && log[i].request.id != r.id
    {
      assert Reached(requests, log[i].request);
    }
    forall id | id in requests' && (requests'[id].place.Done? || requests'[id].place.Finishing?)
      ensures Logged(log', requests'[id].request)
    {
      if id == r.id {
        assert log'[|log|].request == r;
      } else {
        var i :| 0 <= i < |log| && log[i].request == requests[id].request;
        assert log'[i].request == requests[id].request;
      }
    }
  }

  lemma LogFinishes(log: seq<LogEntry>, requests: map<nat, RequestRecord>, r: Request)
    requires LogInv(log, requests) && r.id in requests && requests[r.id].request == r && requests[r.id].place.Finishing?
    ensures LogInv(log, requests[r.id := RequestRecord(r, Done)])
  {
    assert Logged(log, r);
    forall i | 0 <= i < |log|
      ensures Reached(requests[r.id := RequestRecord(r, Done)], log[i].request)
    {
      assert Reached(requests, log[i].request);
    }
  }

  // The count of deferred requests.

  lemma DeferredSame(deferred: map<nat, int>, requests: map<nat, RequestRecord>, requests': map<nat, RequestRecord>)
    requires DeferredInv(deferred, requests)
    requires forall id :: id in requests' <==> id in requests
    requires forall id :: id in requests ==>
        requests'[id].request == requests[id].request && (Waits(requests'[id].place) <==> Waits(requests[id].place))
    ensures DeferredInv(deferred, requests')
  {
    forall l: nat
      ensures Waiting(requests', l) == Waiting(requests, l)
    {
    }
  }

  lemma DeferredArrives(deferred: map<nat, int>, requests: map<nat, RequestRecord>, r: Request, lock: nat)
    requires DeferredInv(deferred, requests) && r.id !in requests
    ensures DeferredInv(deferred[r.listener := Count(deferred, r.listener) + 1],
        requests[r.id := RequestRecord(r, Parked(lock))])
  {
    var requests' := requests[r.id := RequestRecord(r, Parked(lock))];
    forall l: nat
      ensures l == r.listener ==> Waiting(requests', l) == Waiting(requests, l) + {r.id}
      ensures l != r.listener ==> Waiting(requests', l) == Waiting(requests, l)
    {
    }
  }

  lemma DeferredPassed(deferred: map<nat, int>, requests: map<nat, RequestRecord>, r: Request, f: nat)
    requires DeferredInv(deferred, requests) && r.id !in requests
    ensures DeferredInv(deferred, requests[r.id := RequestRecord(r, Direct(f))])
  {
    forall l: nat
      ensures Waiting(requests[r.id := RequestRecord(r, Direct(f))], l) == Waiting(requests, l)
    {
    }
  }

  lemma DeferredDone(deferred: map<nat, int>, requests: map<nat, RequestRecord>, r: Request)
    requires DeferredInv(deferred, requests) && r.id in requests && requests[r.id].request == r
        && Waits(requests[r.id].place)
    ensures DeferredInv(deferred[r.listener := Count(deferred, r.listener) - 1],
        requests[r.id := RequestRecord(r, Done)])
  {
    var requests' := requests[r.id := RequestRecord(r, Done)];
    forall l: nat
      ensures Waiting(requests', l) == Waiting(requests, l) - (if l == r.listener then {r.id} else {})
    {
    }
    assert r.id in Waiting(requests, r.listener);
  }

  // Job tables.

  /** A listener hands out its next id. */
  lemma IdsGrow(nextId: map<nat, nat>, jobs: map<JobRef, TableJob>, everQueued: set<JobRef>, l: nat, job: TableJob)
    requires IdsInv(nextId, jobs, everQueued) && l in nextId
    ensures var ref := JobRef(l, nextId[l]);
            && ref !in jobs && ref !in everQueued
            && IdsInv(nextId[l := nextId[l] + 1], jobs[ref := job], everQueued)
            && IdsInv(nextId[l := nextId[l] + 1], jobs[ref := job], everQueued + {ref})
  {
  }

  lemma IdsShrink(nextId: map<nat, nat>, jobs: map<JobRef, TableJob>, everQueued: set<JobRef>, ref: JobRef)
    requires IdsInv(nextId, jobs, everQueued)
    ensures IdsInv(nextId, jobs - {ref}, everQueued)
  {
  }

  lemma PlainAdded(jobs: map<JobRef, TableJob>, locks: map<nat, LockRecord>, queue: set<JobRef>,
      everQueued: set<JobRef>,
                   posted: map<JobRef, Status>, ref: JobRef, r: Request)
    requires LockJobInv(jobs, locks) && QueueInv(jobs, queue, everQueued) && PostedInv(posted, jobs, locks, queue)
    requires ref !in jobs && ref !in everQueued
    ensures LockJobInv(jobs[ref := PlainJob(r)], locks)
    ensures QueueInv(jobs[ref := PlainJob(r)], queue + {ref}, everQueued + {ref})
    ensures PostedInv(posted, jobs[ref := PlainJob(r)], locks, queue + {ref})
  {
  }

  lemma QueueJobGoes(jobs: map<JobRef, TableJob>, queue: set<JobRef>, everQueued: set<JobRef>, ref: JobRef)
    requires QueueInv(jobs, queue, everQueued) && ref !in queue
    ensures QueueInv(jobs - {ref}, queue, everQueued)
  {
  }

  lemma LockJobNotQueued(jobs: map<JobRef, TableJob>, locks: map<nat, LockRecord>, queue: set<JobRef>,
      everQueued: set<JobRef>, i: nat)
    requires LockJobInv(jobs, locks) && QueueInv(jobs, queue, everQueued) && i in locks && !locks[i].place.Gone?
    ensures locks[i].ref !in queue && locks[i].ref !in everQueued && locks[i].ref in jobs && jobs[locks[i].ref].LockJob?
  {
  }

  lemma PlainDelivered(jobs: map<JobRef, TableJob>, locks: map<nat, LockRecord>, queue: set<JobRef>,
      posted: map<JobRef, Status>, ref: JobRef)
    requires LockJobInv(jobs, locks) && PostedInv(posted, jobs, locks, queue) && ref in posted && jobs[ref].PlainJob?
    ensures LockJobInv(jobs - {ref}, locks) && PostedInv(posted - {ref}, jobs - {ref}, locks, queue)
  {
  }

  lemma PlainAnswered(jobs: map<JobRef, TableJob>, locks: map<nat, LockRecord>, queue: set<JobRef>,
      everQueued: set<JobRef>,
                      posted: map<JobRef, Status>, ref: JobRef, status: Status)
    requires LockJobInv(jobs, locks) && QueueInv(jobs, queue, everQueued) && PostedInv(posted, jobs, locks, queue)
        && ref in queue
    ensures QueueInv(jobs, queue - {ref}, everQueued) && PostedInv(posted[ref := status], jobs, locks, queue - {ref})
  {
  }

  // A new lock.

  lemma LockInstalled(table: map<Part, Entry>, locks: map<nat, LockRecord>, nextIdentity: nat, jobs: map<JobRef,
      TableJob>,
                      p: Part, entry: Entry, callback: nat)
    requires EntryInv(table, locks) && IdentityInv(locks, nextIdentity) && LockJobInv(jobs, locks)
    requires p !in table && entry.identity == nextIdentity && entry.lockJob !in jobs
    ensures var locks' := locks[nextIdentity := LockRecord(p, entry.owner, entry.lockJob, InTable)];
            && EntryInv(table[p := entry], locks') && IdentityInv(locks', nextIdentity + 1)
            && LockJobInv(jobs[entry.lockJob := LockJob(nextIdentity, callback)], locks')
  {
  }

  lemma InstalledUnseen(locks: map<nat, LockRecord>, fates: map<nat, Fate>, joins: set<Join>,
      flights: map<nat, Flight>, i: nat, record: LockRecord)
    requires i !in locks && record.place.InTable?
    requires LeavingInv(flights, locks, fates) && FateInv(locks, fates) && RightfulInv(locks, fates, joins)
    ensures LeavingInv(flights, locks[i := record], fates) && FateInv(locks[i := record], fates)
        && RightfulInv(locks[i := record], fates, joins)
  {
  }

  lemma InstalledUntallied(locks: map<nat, LockRecord>, fates: map<nat, Fate>, notices: multiset<nat>,
      drops: multiset<nat>, calls: multiset<nat>, i: nat, record: LockRecord)
    requires i !in locks && record.place.InTable? && i !in fates
    requires TallyInv(locks, fates, notices, drops, calls)
    ensures TallyInv(locks[i := record], fates, notices, drops, calls)
  {
  }

  lemma InstalledUnposted(posted: map<JobRef, Status>, jobs: map<JobRef, TableJob>, locks: map<nat, LockRecord>,
      queue: set<JobRef>, everQueued: set<JobRef>,
                          i: nat, record: LockRecord, job: TableJob)
    requires PostedInv(posted, jobs, locks, queue) && QueueInv(jobs, queue, everQueued)
    requires i !in locks && record.place.InTable? && record.ref !in jobs && record.ref !in everQueued
    ensures PostedInv(posted, jobs[record.ref := job], locks[i := record], queue)
        && QueueInv(jobs[record.ref := job], queue, everQueued)
  {
  }

  lemma InstalledUnparked(table: map<Part, Entry>, locks: map<nat, LockRecord>, requests: map<nat, RequestRecord>,
      p: Part, entry: Entry, record: LockRecord)
    requires ParkedInv(table, locks, requests) && GuardInv(table) && p !in table && entry.pending == []
        && entry.identity !in locks
    ensures ParkedInv(table[p := entry], locks[entry.identity := record], requests) && GuardInv(table[p := entry])
  {
    forall id | id in requests && requests[id].place.Parked?
      ensures ParkedAt(table[p := entry], locks[entry.identity := record], requests[id].place.lock,
          requests[id].request)
    {
      assert ParkedAt(table, locks, requests[id].place.lock, requests[id].request);
    }
  }

  lemma InstalledUnreserved(table: map<Part, Entry>, sessions: map<nat, Session>, locks: map<nat, LockRecord>,
      joins: set<Join>, usedSessions: set<nat>,
                            p: Part, entry: Entry, record: LockRecord)
    requires HoldersInv(table, sessions) && SessionInv(sessions, locks, joins, usedSessions)
    requires entry.identity !in locks && entry.identity != 0 && entry.reserved == 0
    ensures HoldersInv(table[p := entry], sessions)
        && SessionInv(sessions, locks[entry.identity := record], joins, usedSessions)
  {
    assert Holders(sessions, entry.identity) == {};
  }

  // A lock's own entry changing.

  lemma EntrySame(table: map<Part, Entry>, locks: map<nat, LockRecord>, p: Part, entry: Entry)
    requires EntryInv(table, locks) && p in table
    requires entry.lockJob == table[p].lockJob && entry.identity == table[p].identity && entry.owner == table[p].owner
    ensures EntryInv(table[p := entry], locks)
  {
  }

  lemma HoldersSame(table: map<Part, Entry>, sessions: map<nat, Session>, p: Part, entry: Entry)
    requires HoldersInv(table, sessions) && p in table && entry.identity == table[p].identity
        && entry.reserved == table[p].reserved
    ensures HoldersInv(table[p := entry], sessions)
  {
  }

  lemma HoldersTakenOut(table: map<Part, Entry>, sessions: map<nat, Session>, p: Part)
    requires HoldersInv(table, sessions) && GuardInv(table)
    ensures HoldersInv(table - {p}, sessions) && GuardInv(table - {p})
  {
  }

  lemma HoldersPlus(sessions: map<nat, Session>, sid: nat, session: Session, lock: nat)
    requires sid !in sessions && session.Opening?
    ensures |Holders(sessions[sid := session], lock)| == |Holders(sessions, lock)| + Once(session.reserved == lock)
  {
    assert Holders(sessions[sid := session], lock) == Holders(sessions, lock) + (if session.reserved == lock then {sid}
        else {});
  }

  /** A session not yet known starts; it may hold the lock of one entry. */
  lemma HoldersStart(table: map<Part, Entry>, locks: map<nat, LockRecord>, sessions: map<nat, Session>, sid: nat,
      p: Part, session: Session)
    requires HoldersInv(table, sessions) && EntryInv(table, locks) && p in table && sid !in sessions
    requires session.Opening? && session.reserved == table[p].identity
    ensures HoldersInv(table[p := table[p].(reserved := table[p].reserved + 1)], sessions[sid := session])
  {
    forall q | q in table
      ensures |Holders(sessions[sid := session], table[q].identity)| == table[q].reserved + Once(q == p)
    {
      HoldersPlus(sessions, sid, session, table[q].identity);
    }
  }

  /** A session that holds no lock of the table comes, changes or goes. */
  lemma HoldersUnchanged(table: map<Part, Entry>, sessions: map<nat, Session>, sessions': map<nat, Session>)
    requires HoldersInv(table, sessions)
    requires forall p :: p in table ==> Holders(sessions', table[p].identity) == Holders(sessions, table[p].identity)
    ensures HoldersInv(table, sessions')
  {
  }

  lemma HoldersStartNone(table: map<Part, Entry>, locks: map<nat, LockRecord>, nextIdentity: nat,
      sessions: map<nat, Session>, sid: nat, session: Session)
    requires HoldersInv(table, sessions) && EntryInv(table, locks) && IdentityInv(locks, nextIdentity)
        && sid !in sessions
    requires session.Settled? || (session.Opening? && session.reserved == 0)
    ensures HoldersInv(table, sessions[sid := session])
  {
    forall p | p in table
      ensures Holders(sessions[sid := session], table[p].identity) == Holders(sessions, table[p].identity)
    {
    }
    HoldersUnchanged(table, sessions, sessions[sid := session]);
  }

  lemma HoldersOpen(table: map<Part, Entry>, sessions: map<nat, Session>, sid: nat, session: Session)
    requires HoldersInv(table, sessions) && sid in sessions && sessions[sid].Opening? && session.Opened?
        && session.reserved == sessions[sid].reserved
    ensures HoldersInv(table, sessions[sid := session])
  {
    forall p | p in table
      ensures Holders(sessions[sid := session], table[p].identity) == Holders(sessions, table[p].identity)
    {
    }
    HoldersUnchanged(table, sessions, sessions[sid := session]);
  }

  lemma HoldersClose(table: map<Part, Entry>, sessions: map<nat, Session>, sid: nat)
    requires HoldersInv(table, sessions) && sid in sessions && sessions[sid].Settled?
    ensures HoldersInv(table, sessions - {sid})
  {
    forall p | p in table
      ensures Holders(sessions - {sid}, table[p].identity) == Holders(sessions, table[p].identity)
    {
    }
    HoldersUnchanged(table, sessions, sessions - {sid});
  }

  /** A session settles: the entry it holds, if still there, loses one reservation. */
  lemma HoldersSettle(table: map<Part, Entry>, locks: map<nat, LockRecord>, sessions: map<nat, Session>, sid: nat,
      p: Part, session: Session, entry: Entry)
    requires HoldersInv(table, sessions) && EntryInv(table, locks) && sid in sessions && sessions[sid].Opened?
        && session.Settled?
    requires p in table && sessions[sid].reserved == table[p].identity && entry.identity == table[p].identity
        && entry.reserved == table[p].reserved - 1
    ensures HoldersInv(table[p := entry], sessions[sid := session])
  {
    var sessions' := sessions[sid := session];
    assert sid in Holders(sessions, table[p].identity);
    forall q | q in table
      ensures q == p ==> Holders(sessions', table[q].identity) == Holders(sessions, table[q].identity) - {sid}
      ensures q != p ==> Holders(sessions', table[q].identity) == Holders(sessions, table[q].identity)
    {
    }
  }

  lemma HoldersSettleNone(table: map<Part, Entry>, sessions: map<nat, Session>, sid: nat, session: Session)
    requires HoldersInv(table, sessions) && sid in sessions && sessions[sid].Opened? && session.Settled?
    requires forall p :: p in table ==> table[p].identity != sessions[sid].reserved
    ensures HoldersInv(table, sessions[sid := session])
  {
    forall p | p in table
      ensures Holders(sessions[sid := session], table[p].identity) == Holders(sessions, table[p].identity)
    {
    }
    HoldersUnchanged(table, sessions, sessions[sid := session]);
  }

  lemma ReservationPositive(table: map<Part, Entry>, sessions: map<nat, Session>, sid: nat, p: Part)
    requires HoldersInv(table, sessions) && sid in sessions && Unsettled(sessions[sid]) && p in table
        && table[p].identity == sessions[sid].reserved
    ensures table[p].reserved >= 1
  {
    assert sid in Holders(sessions, table[p].identity);
  }

  /** What SessionInv says of one session. */
  ghost predicate SessionFits(sid: nat, session: Session, locks: map<nat, LockRecord>, joins: set<Join>) {
    match session
    case Opening(part, _, reserved) => reserved != 0 ==> reserved in locks && locks[reserved].part == part
    case Opened(part, _, reserved, joined, matched) =>
      && (reserved != 0 ==> reserved in locks && locks[reserved].part == part)
      && (joined != 0 ==> matched && Join(joined, sid) in joins)
    case Settled(_, _, lock, matched) => lock != 0 ==> matched && Join(lock, sid) in joins
  }

  lemma SessionSet(sessions: map<nat, Session>, locks: map<nat, LockRecord>, joins: set<Join>, usedSessions: set<nat>,
      sid: nat, session: Session, lock: nat)
    requires SessionInv(sessions, locks, joins, usedSessions)
        && SessionFits(sid, session, locks, Joined(joins, lock, sid)) && (lock == 0 || lock in locks)
    ensures SessionInv(sessions[sid := session], locks, Joined(joins, lock, sid), usedSessions + {sid})
  {
  }

  lemma SessionGone(sessions: map<nat, Session>, locks: map<nat, LockRecord>, joins: set<Join>, usedSessions: set<nat>,
      sid: nat)
    requires SessionInv(sessions, locks, joins, usedSessions)
    ensures SessionInv(sessions - {sid}, locks, joins, usedSessions)
  {
  }

  lemma RightfulJoined(locks: map<nat, LockRecord>, fates: map<nat, Fate>, joins: set<Join>, lock: nat, sid: nat)
    requires RightfulInv(locks, fates, joins)
    ensures RightfulInv(locks, fates, Joined(joins, lock, sid))
  {
  }

  // A lock job changing its listener.

  ghost function Rejobbed(locks: map<nat, LockRecord>, i: nat, ref: JobRef): map<nat, LockRecord>
    requires i in locks
  {
    locks[i := locks[i].(ref := ref)]
  }

  lemma JobMoved(table: map<Part, Entry>, locks: map<nat, LockRecord>, nextIdentity: nat, jobs: map<JobRef, TableJob>,
      p: Part, ref: JobRef, callback: nat)
    requires EntryInv(table, locks) && IdentityInv(locks, nextIdentity) && LockJobInv(jobs, locks) && p in table
        && ref !in jobs
    ensures var locks' := Rejobbed(locks, table[p].identity, ref);
            && EntryInv(table[p := table[p].(lockJob := ref)], locks') && IdentityInv(locks', nextIdentity)
            && LockJobInv((jobs - {table[p].lockJob})[ref := LockJob(table[p].identity, callback)], locks')
  {
  }

  lemma JobMovedUnseen(locks: map<nat, LockRecord>, fates: map<nat, Fate>, joins: set<Join>, flights: map<nat, Flight>,
      i: nat, ref: JobRef)
    requires i in locks && locks[i].place.InTable?
    requires LeavingInv(flights, locks, fates) && FateInv(locks, fates) && RightfulInv(locks, fates, joins)
    ensures var locks' := Rejobbed(locks, i, ref);
            LeavingInv(flights, locks', fates) && FateInv(locks', fates) && RightfulInv(locks', fates, joins)
  {
  }

  lemma JobMovedUntallied(locks: map<nat, LockRecord>, fates: map<nat, Fate>, notices: multiset<nat>,
      drops: multiset<nat>, calls: multiset<nat>, i: nat, ref: JobRef)
    requires i in locks && locks[i].place.InTable? && TallyInv(locks, fates, notices, drops, calls)
    ensures TallyInv(Rejobbed(locks, i, ref), fates, notices, drops, calls)
  {
  }

  lemma JobMovedUnposted(posted: map<JobRef, Status>, jobs: map<JobRef, TableJob>, locks: map<nat, LockRecord>,
      queue: set<JobRef>, everQueued: set<JobRef>,
                         i: nat, ref: JobRef, callback: nat)
    requires PostedInv(posted, jobs, locks, queue) && QueueInv(jobs, queue, everQueued) && LockJobInv(jobs, locks)
    requires i in locks && locks[i].place.InTable? && ref !in jobs && ref !in everQueued
    ensures var jobs' := (jobs - {locks[i].ref})[ref := LockJob(i, callback)];
            PostedInv(posted, jobs', Rejobbed(locks, i, ref), queue) && QueueInv(jobs', queue, everQueued)
  {
  }

  lemma JobMovedElsewhere(table: map<Part, Entry>, locks: map<nat, LockRecord>, requests: map<nat, RequestRecord>,
                          sessions: map<nat, Session>, joins: set<Join>, usedSessions: set<nat>, i: nat, ref: JobRef)
    requires i in locks && ParkedInv(table, locks, requests) && SessionInv(sessions, locks, joins, usedSessions)
    ensures ParkedInv(table, Rejobbed(locks, i, ref), requests)
        && SessionInv(sessions, Rejobbed(locks, i, ref), joins, usedSessions)
  {
    forall id | id in requests && requests[id].place.Parked?
      ensures ParkedAt(table, Rejobbed(locks, i, ref), requests[id].place.lock, requests[id].request)
    {
      assert ParkedAt(table, locks, requests[id].place.lock, requests[id].request);
    }
  }

  lemma CallbackRenewed(nextId: map<nat, nat>, jobs: map<JobRef, TableJob>, locks: map<nat, LockRecord>,
      queue: set<JobRef>, everQueued: set<JobRef>,
                        posted: map<JobRef, Status>, ref: JobRef, callback: nat)
    requires IdsInv(nextId, jobs, everQueued) && LockJobInv(jobs, locks) && QueueInv(jobs, queue, everQueued)
        && PostedInv(posted, jobs, locks, queue)
    requires ref in jobs && jobs[ref].LockJob?
    ensures var jobs' := jobs[ref := jobs[ref].(callback := callback)];
            IdsInv(nextId, jobs', everQueued) && LockJobInv(jobs', locks) && QueueInv(jobs', queue, everQueued)
                && PostedInv(posted, jobs', locks, queue)
  {
  }

  lemma NumbersKeepListeners(requests: map<nat, RequestRecord>, nextRequest: nat, nextId: map<nat, nat>, l: nat, n: nat)
    requires NumberInv(requests, nextRequest, nextId)
    ensures NumberInv(requests, nextRequest, nextId[l := n])
  {
  }

  lemma NumbersGrow(requests: map<nat, RequestRecord>, nextRequest: nat, nextId: map<nat, nat>, r: Request,
      place: Where)
    requires NumberInv(requests, nextRequest, nextId) && r.id == nextRequest && r.listener in nextId
    ensures NumberInv(requests[r.id := RequestRecord(r, place)], nextRequest + 1, nextId) && r.id !in requests
  {
  }

  lemma NumbersSame(requests: map<nat, RequestRecord>, nextRequest: nat, nextId: map<nat, nat>, r: Request,
      place: Where)
    requires NumberInv(requests, nextRequest, nextId) && r.id in requests && requests[r.id].request == r
    ensures NumberInv(requests[r.id := RequestRecord(r, place)], nextRequest, nextId)
  {
  }

  lemma LeavingSameActs(flights: map<nat, Flight>, locks: map<nat, LockRecord>, fates: map<nat, Fate>, f: nat,
      flight: Flight)
    requires LeavingInv(flights, locks, fates) && f in flights && flights[f].Batch? && flight.Batch?
    requires flight.lock == flights[f].lock && flight.before == flights[f].before && flight.after == flights[f].after
    ensures LeavingInv(flights[f := flight], locks, fates)
  {
    forall i | i in locks && locks[i].place.Leaving?
      ensures CarriedBy(flights[f := flight], locks[i].place.flight, i)
    {
      assert CarriedBy(flights, locks[i].place.flight, i);
    }
  }

  /** A flight without acts comes or goes. */
  lemma LeavingIdle(flights: map<nat, Flight>, locks: map<nat, LockRecord>, fates: map<nat, Fate>, f: nat,
      flight: Flight)
    requires LeavingInv(flights, locks, fates)
    requires f in flights && flights[f].Batch? ==> flights[f].before == Nothing && flights[f].after == Nothing
    requires flight.Batch? ==> flight.before == Nothing && flight.after == Nothing && flight.lock in locks
    ensures LeavingInv(flights[f := flight], locks, fates) && LeavingInv(flights - {f}, locks, fates)
  {
    forall i | i in locks && locks[i].place.Leaving?
      ensures CarriedBy(flights[f := flight], locks[i].place.flight, i)
          && CarriedBy(flights - {f}, locks[i].place.flight, i)
    {
      assert CarriedBy(flights, locks[i].place.flight, i);
    }
  }

  // What the invariants say of one lock, request or listener.

  lemma EntryIs(table: map<Part, Entry>, locks: map<nat, LockRecord>, nextIdentity: nat, jobs: map<JobRef, TableJob>,
      p: Part)
    requires EntryInv(table, locks) && IdentityInv(locks, nextIdentity) && LockJobInv(jobs, locks) && p in table
    ensures var entry := table[p];
            && entry.identity in locks && locks[entry.identity] == LockRecord(p, entry.owner, entry.lockJob, InTable)
                && 1 <= entry.identity < nextIdentity
            && entry.lockJob in jobs && jobs[entry.lockJob].LockJob? && jobs[entry.lockJob].identity == entry.identity
  {
  }

  lemma ParkedIs(table: map<Part, Entry>, locks: map<nat, LockRecord>, requests: map<nat, RequestRecord>, p: Part)
    requires ParkedInv(table, locks, requests) && p in table
    ensures AllAt(table[p].pending, requests, Parked(table[p].identity)) && Sorted(table[p].pending)
  {
  }

  lemma IdentityFresh(locks: map<nat, LockRecord>, fates: map<nat, Fate>, nextIdentity: nat)
    requires IdentityInv(locks, nextIdentity) && FateInv(locks, fates)
    ensures nextIdentity >= 1 && nextIdentity !in locks && nextIdentity !in fates
  {
  }

  lemma FateIs(locks: map<nat, LockRecord>, fates: map<nat, Fate>, i: nat)
    requires FateInv(locks, fates) && i in locks
    ensures i in fates <==> !locks[i].place.InTable?
    ensures locks[i].place.Announced? ==> EndedBy(fates, i)
  {
  }

  lemma ActIs(flights: map<nat, Flight>, locks: map<nat, LockRecord>, fates: map<nat, Fate>, f: nat)
    requires LeavingInv(flights, locks, fates) && f in flights && flights[f].Batch?
    ensures flights[f].lock in locks
    ensures flights[f].before != Nothing ==>
        ActsOn(flights[f].before, locks, fates, flights[f].lock, f) && flights[f].after == Nothing
    ensures flights[f].after != Nothing ==> ActsOn(flights[f].after, locks, fates, flights[f].lock, f)
  {
  }

  lemma PostedIs(posted: map<JobRef, Status>, jobs: map<JobRef, TableJob>, locks: map<nat, LockRecord>,
      queue: set<JobRef>, ref: JobRef)
    requires PostedInv(posted, jobs, locks, queue) && LockJobInv(jobs, locks) && ref in posted
    ensures ref in jobs && ref !in queue
    ensures jobs[ref].LockJob? ==>
        jobs[ref].identity in locks && locks[jobs[ref].identity].place.Announced?
        && locks[jobs[ref].identity].ref == ref
  {
  }

  lemma NumberRelocated(requests: map<nat, RequestRecord>, nextRequest: nat, nextId: map<nat, nat>,
      deferred: map<nat, int>, batch: seq<Request>, lock: nat, f: nat)
    requires NumberInv(requests, nextRequest, nextId) && DeferredInv(deferred, requests)
        && AllAt(batch, requests, Parked(lock))
    ensures NumberInv(Relocated(requests, batch, f), nextRequest, nextId)
        && DeferredInv(deferred, Relocated(requests, batch, f))
  {
    RelocatedAt(requests, nextRequest, nextId, batch, lock, f);
    DeferredSame(deferred, requests, Relocated(requests, batch, f));
  }

  lemma SessionIs(sessions: map<nat, Session>, locks: map<nat, LockRecord>, joins: set<Join>, usedSessions: set<nat>,
      sid: nat)
    requires SessionInv(sessions, locks, joins, usedSessions) && sid in sessions
    ensures sid in usedSessions && SessionFits(sid, sessions[sid], locks, joins)
  {
  }

  lemma GuardSame(table: map<Part, Entry>, p: Part, entry: Entry)
    requires GuardInv(table) && (entry.pending == [] || entry.writeInit || entry.reserved > 0)
    ensures GuardInv(table[p := entry])
  {
  }
}
