/** The chunkserver's background job pools as a small distributed protocol. Every mutex critical
    section of a pool or of the shared maintenance fence is one atomic step; any number of pools,
    worker threads and draining threads interleave freely. Lock jobs live in `ChunkLocks`. */
module JobPools {
  import opened Common
  import opened Fencing

  datatype Operation =
    | Invalid | ChangeVersion | Duplicate | Truncate | DuplicateTruncate | Delete | Create | Replicate
    | ProbeVersion | Lock | Open | Close | GetBlocks | Read | Prefetch | Write

  predicate FencedOperation(op: Operation) {
    op.Replicate? || op.Delete?
  }

  datatype JobState = Disabled | Enabled | InProgress

  /** One listener of one pool. */
  datatype Slot = Slot(pool: nat, listener: nat)
  datatype Key = Key(slot: Slot, id: nat)

  /** A job of a listener's job table; the callback is a tag, none for the empty callback. */
  datatype Job = Job(operation: Operation, callback: Option<nat>, state: JobState, stamp: Stamp)

  datatype Posting = Posting(id: nat, status: Status)
  datatype Listener = Listener(nextId: nat, statuses: seq<Posting>, wakeup: nat)

  /** A job on its way into a pool: stamped, not yet in the table. */
  datatype Arrival = Arrival(slot: Slot, operation: Operation, callback: Option<nat>, stamp: Stamp)

  datatype WorkerId = WorkerId(pool: nat, index: nat)
  datatype Worker =
    | Taken(key: Key)
    | Executing(key: Key, stamp: Stamp, fenced: bool)
    | Answering(key: Key, status: Status)

  /** A thread inside processCompletedJobs. */
  datatype Drainer =
    | Matching(key: Key, status: Status)
    | Calling(key: Key, status: Status, callback: Option<nat>)

  /** Bookkeeping of the model: who is responsible for a job of the table next. */
  datatype Place = InQueue | WithWorker(worker: WorkerId) | Posted | WithDrainer(drainer: nat)

  datatype System = System(
    fence: Fence,
    listeners: map<Slot, Listener>,
    jobs: map<Key, Job>,
    queue: multiset<Key>,
    workers: map<WorkerId, Worker>,
    drainers: map<nat, Drainer>,
    arriving: multiset<Arrival>,
    unprocessed: map<nat, int>,
    // History, read by no step:
    place: map<Key, Place>,       // the job's next responsible
    ran: multiset<Key>,           // every start of a job's work
    fired: multiset<Key>,         // every callback fired
    outcome: map<Key, Status>,    // the status a job's worker decided on
    owing: set<Key>)              // jobs whose callback has not returned
  {
    /** listenerForJob: a listener that does not exist is replaced by listener 0. */
    function Resolve(pool: nat, listener: nat): Slot {
      if listener < MAX_CONNECTIONS && Slot(pool, listener) in listeners then Slot(pool, listener) else Slot(pool, 0)
    }

    /** The stamp addJob gives a job of the resolved listener. */
    function ReceiptStamp(operation: Operation, listener: nat, given: Option<Stamp>): Stamp
      requires |fence.epochs| == MAX_CONNECTIONS
    {
      if given.Some? then given.value
      else if FencedOperation(operation) && fence.tracking then fence.StampOf(listener)
      else Stamp(listener, 0, 0)
    }
  }

  /** unprocessedJobs_ of a pool. */
  function Counter(unprocessed: map<nat, int>, pool: nat): int {
    if pool in unprocessed then unprocessed[pool] else 0
  }

  datatype Step =
    | EnableTracking
    | FenceCall(listener: nat, epoch: nat)
    | CloseConnection(listener: nat)
    | Allocate(slot: Slot)
    | Receive(pool: nat, listener: nat, operation: Operation, callback: Option<nat>, given: Option<Stamp>)
    | Insert(arrival: Arrival)
    | Take(worker: WorkerId, key: Key)
    | Claim(worker: WorkerId)
    | Finish(worker: WorkerId, status: Status)
    | Answer(worker: WorkerId)
    | Match(drainer: nat, slot: Slot)
    | Fire(drainer: nat)
    | Return(drainer: nat)
    | Disable(key: Key)
    | DisableAll(slot: Slot, newCallback: Option<nat>)
    | ChangeCallback(key: Key, newCallback: Option<nat>)

  ghost predicate Init(s: System) {
    && s.fence == NoFence()
    && (forall slot :: slot in s.listeners ==> s.listeners[slot] == Listener(1, [], 0))
    && s.jobs == map[] && s.queue == multiset{} && s.workers == map[] && s.drainers == map[]
    && s.arriving == multiset{} && s.unprocessed == map[]
    && s.place == map[] && s.ran == multiset{} && s.fired == multiset{} && s.outcome == map[] && s.owing == {}
  }

  predicate CanTake(s: System, step: Step) {
    match step
    case EnableTracking => true
    case FenceCall(_, _) => |s.fence.epochs| == MAX_CONNECTIONS
    case CloseConnection(_) => |s.fence.epochs| == MAX_CONNECTIONS
    case Allocate(slot) => slot !in s.listeners && slot.listener < MAX_CONNECTIONS
    case Receive(pool, listener, _, _, _) => |s.fence.epochs| == MAX_CONNECTIONS && Slot(pool, 0) in s.listeners
    case Insert(arrival) => arrival in s.arriving && arrival.slot in s.listeners
    case Take(w, k) => w !in s.workers && k in s.queue && k.slot.pool == w.pool
    case Claim(w) => w in s.workers && s.workers[w].Taken? && s.workers[w].key in s.jobs
    case Finish(w, _) => w in s.workers && s.workers[w].Executing?
    case Answer(w) => w in s.workers && s.workers[w].Answering? && s.workers[w].key.slot in s.listeners
    case Match(d, slot) => d !in s.drainers && slot in s.listeners && s.listeners[slot].statuses != []
    case Fire(d) => d in s.drainers && s.drainers[d].Matching?
    case Return(d) => d in s.drainers && s.drainers[d].Calling?
    case Disable(_) => true
    case DisableAll(_, _) => true
    case ChangeCallback(_, _) => true
  }

  function Apply(s: System, step: Step): System
    requires CanTake(s, step)
  {
    match step
    case EnableTracking => s.(fence := s.fence.(tracking := true))
    case FenceCall(listener, epoch) => s.(fence := s.fence.Fenced(epoch, s.fence.StampOf(listener)))
    case CloseConnection(listener) => s.(fence := s.fence.Closed(listener))
    case Allocate(slot) => s.(listeners := s.listeners[slot := Listener(1, [], 0)])
    case Receive(pool, listener, operation, callback, given) =>
      var slot := s.Resolve(pool, listener);
      var stamp := s.ReceiptStamp(operation, slot.listener, given);
      s.(arriving := s.arriving + multiset{Arrival(slot, operation, callback, stamp)})
    case Insert(arrival) => InsertJob(s, arrival)
    case Take(w, k) => TakeJob(s, w, k)
    case Claim(w) => ClaimJob(s, w, s.workers[w].key)
    case Finish(w, status) => FinishJob(s, w, s.workers[w], status)
    case Answer(w) => SendStatus(s, w, s.workers[w].key, s.workers[w].status)
    case Match(d, slot) => ReceiveStatus(s, d, slot)
    case Fire(d) => FireCallback(s, d, s.drainers[d].key, s.drainers[d].status)
    case Return(d) => CallbackReturns(s, d, s.drainers[d].key)
    case Disable(k) => if k in s.jobs then s.(jobs := s.jobs[k := DisabledJob(s.jobs[k])]) else s
    case DisableAll(slot, callback) => s.(jobs := DisabledTable(s.jobs, slot, callback))
    case ChangeCallback(k, callback) =>
      if k in s.jobs then s.(jobs := s.jobs[k := s.jobs[k].(callback := callback)]) else s
  }

  function DisabledJob(job: Job): Job {
    if job.state.Enabled? then job.(state := Disabled) else job
  }

  /** disableAndChangeCallbackAll, for a connection that closed. */
  function DisabledTable(jobs: map<Key, Job>, slot: Slot, callback: Option<nat>): map<Key, Job> {
    map k | k in jobs :: if k.slot == slot then DisabledJob(jobs[k]).(callback := callback) else jobs[k]
  }

  /** addJob: the job enters its listener's table and the queue, and is counted. */
  function InsertJob(s: System, a: Arrival): System
    requires a.slot in s.listeners
  {
    var l := s.listeners[a.slot];
    var k := Key(a.slot, l.nextId);
    s.(listeners := s.listeners[a.slot := l.(nextId := l.nextId + 1)],
       jobs := s.jobs[k := Job(a.operation, a.callback, Enabled, a.stamp)],
       queue := s.queue + multiset{k},
       arriving := s.arriving - multiset{a},
       unprocessed := s.unprocessed[a.slot.pool := Counter(s.unprocessed, a.slot.pool) + 1],
       place := s.place[k := InQueue],
       owing := s.owing + {k})
  }

  function TakeJob(s: System, w: WorkerId, k: Key): System {
    s.(queue := s.queue - multiset{k}, workers := s.workers[w := Taken(k)], place := s.place[k := WithWorker(w)])
  }

  /** Whether the fence accounts for the job when it is claimed. */
  predicate ClaimedUnderFence(s: System, job: Job) {
    FencedOperation(job.operation) && job.stamp != OWN_WORK && s.fence.tracking
  }

  predicate ClaimSucceeds(s: System, job: Job) {
    job.state.Enabled? && (ClaimedUnderFence(s, job) ==> s.fence.Admits(job.stamp))
  }

  /** The worker's decision on a dequeued job, under its listener's jobs mutex. A job the fence
      refuses is answered NOTDONE without changing its state. */
  function ClaimJob(s: System, w: WorkerId, k: Key): System
    requires k in s.jobs
  {
    var job := s.jobs[k];
    if job.state.InProgress? then
      s.(workers := s.workers[w := Executing(k, job.stamp, ClaimedUnderFence(s, job))], ran := s.ran + multiset{k})
    else if ClaimSucceeds(s, job) then
      var fenced := ClaimedUnderFence(s, job);
      s.(fence := if fenced then s.fence.Started(job.stamp) else s.fence,
         jobs := s.jobs[k := job.(state := InProgress)],
         workers := s.workers[w := Executing(k, job.stamp, fenced)],
         ran := s.ran + multiset{k})
    else
      s.(workers := s.workers[w := Answering(k, NOTDONE)], outcome := s.outcome[k := NOTDONE])
  }

  function FinishJob(s: System, w: WorkerId, worker: Worker, status: Status): System
    requires worker.Executing?
  {
    s.(fence := if worker.fenced then s.fence.Ended(worker.stamp) else s.fence,
       workers := s.workers[w := Answering(worker.key, status)],
       outcome := s.outcome[worker.key := status])
  }

  /** sendStatus: the eventfd is written only when the status queue was empty. */
  function SendStatus(s: System, w: WorkerId, k: Key, status: Status): System
    requires k.slot in s.listeners
  {
    var l := s.listeners[k.slot];
    s.(listeners := s.listeners[k.slot :=
         l.(statuses := l.statuses + [Posting(k.id, status)], wakeup := if l.statuses == [] then l.wakeup + 1
             else l.wakeup)],
       workers := s.workers - {w},
       place := s.place[k := Posted])
  }

  /** receiveStatus: reading the eventfd when the queue became empty resets it. */
  function ReceiveStatus(s: System, d: nat, slot: Slot): System
    requires slot in s.listeners && s.listeners[slot].statuses != []
  {
    var l := s.listeners[slot];
    var k := Key(slot, l.statuses[0].id);
    s.(listeners := s.listeners[slot := l.(statuses := l.statuses[1..], wakeup := if |l.statuses| == 1 then 0
        else l.wakeup)],
       drainers := s.drainers[d := Matching(k, l.statuses[0].status)],
       place := s.place[k := WithDrainer(d)])
  }

  /** The job leaves the table and its callback is called, with the table unlocked. */
  function FireCallback(s: System, d: nat, k: Key, status: Status): System {
    if k !in s.jobs then s.(drainers := s.drainers - {d})
    else
      s.(jobs := s.jobs - {k},
         drainers := s.drainers[d := Calling(k, status, s.jobs[k].callback)],
         place := s.place - {k},
         fired := s.fired + multiset{k})
  }

  function CallbackReturns(s: System, d: nat, k: Key): System {
    s.(drainers := s.drainers - {d},
       unprocessed := s.unprocessed[k.slot.pool := Counter(s.unprocessed, k.slot.pool) - 1],
       owing := s.owing - {k})
  }

  ghost predicate Next(s: System, s': System) {
    exists step :: CanTake(s, step) && s' == Apply(s, step)
  }

  /** A run: consecutive states are joined by steps. */
  ghost predicate IsRun(run: seq<System>) {
    forall i :: 0 <= i < |run| - 1 ==> Next(run[i], run[i + 1])
  }

  ghost predicate IsFullRun(run: seq<System>) {
    |run| > 0 && Init(run[0]) && IsRun(run)
  }

  // Invariants, each over the components it constrains.

  /** The key was handed out by its listener before; ids are never handed out twice. */
  ghost predicate Issued(listeners: map<Slot, Listener>, k: Key) {
    k.slot in listeners && 1 <= k.id < listeners[k.slot].nextId
  }

  ghost predicate TableInv(listeners: map<Slot, Listener>, jobs: map<Key, Job>, place: map<Key, Place>) {
    && place.Keys == jobs.Keys
    && (forall k :: k in jobs ==> Issued(listeners, k))
    && (forall slot :: slot in listeners ==> listeners[slot].nextId >= 1)
  }

  ghost predicate HistoryInv(listeners: map<Slot, Listener>, ran: multiset<Key>, fired: multiset<Key>,
      outcome: map<Key, Status>) {
    && (forall k :: k in ran ==> Issued(listeners, k))
    && (forall k :: k in fired ==> Issued(listeners, k))
    && (forall k :: k in outcome ==> Issued(listeners, k))
  }

  ghost predicate QueueInv(queue: multiset<Key>, place: map<Key, Place>) {
    && (forall k :: k in queue <==> k in place && place[k] == InQueue)
    && (forall k :: queue[k] <= 1)
  }

  ghost predicate WorkerInv(workers: map<WorkerId, Worker>, place: map<Key, Place>) {
    && (forall w :: w in workers ==> workers[w].key in place && place[workers[w].key] == WithWorker(w))
    && (forall k :: k in place && place[k].WithWorker? ==>
        place[k].worker in workers && workers[place[k].worker].key == k)
  }

  ghost function PostedKey(listeners: map<Slot, Listener>, slot: Slot, i: int): Key
    requires slot in listeners && 0 <= i < |listeners[slot].statuses|
  {
    Key(slot, listeners[slot].statuses[i].id)
  }

  ghost predicate IsPosted(listeners: map<Slot, Listener>, k: Key) {
    k.slot in listeners && exists i :: 0 <= i < |listeners[k.slot].statuses| && listeners[k.slot].statuses[i].id == k.id
  }

  ghost predicate PostedInv(listeners: map<Slot, Listener>, place: map<Key, Place>) {
    && (forall slot, i :: slot in listeners && 0 <= i < |listeners[slot].statuses| ==>
          PostedKey(listeners, slot, i) in place && place[PostedKey(listeners, slot, i)] == Posted)
    && (forall slot, i, j :: slot in listeners && 0 <= i < j < |listeners[slot].statuses| ==>
          listeners[slot].statuses[i].id != listeners[slot].statuses[j].id)
    && (forall k :: k in place && place[k] == Posted ==> IsPosted(listeners, k))
  }

  ghost predicate WakeupInv(listeners: map<Slot, Listener>) {
    forall slot :: slot in listeners ==> (listeners[slot].wakeup != 0 <==> listeners[slot].statuses != [])
  }

  ghost predicate DrainerInv(drainers: map<nat, Drainer>, place: map<Key, Place>) {
    && (forall d :: d in drainers && drainers[d].Matching? ==>
        drainers[d].key in place && place[drainers[d].key] == WithDrainer(d))
    && (forall k :: k in place && place[k].WithDrainer? ==>
          place[k].drainer in drainers && drainers[place[k].drainer].Matching? && drainers[place[k].drainer].key == k)
  }

  ghost predicate CallingInv(drainers: map<nat, Drainer>, jobs: map<Key, Job>, fired: multiset<Key>) {
    && (forall d :: d in drainers && drainers[d].Calling? ==> drainers[d].key in fired && drainers[d].key !in jobs)
    && (forall d, e :: d in drainers && e in drainers && d != e && drainers[d].Calling? && drainers[e].Calling? ==>
          drainers[d].key != drainers[e].key)
  }

  /** Work starts at most once, exactly for the jobs in progress. */
  ghost predicate WorkInv(jobs: map<Key, Job>, queue: multiset<Key>, workers: map<WorkerId, Worker>,
      ran: multiset<Key>) {
    && (forall k :: ran[k] <= 1)
    && (forall k :: k in jobs ==> (jobs[k].state.InProgress? <==> k in ran))
    && (forall k :: k in queue ==> k !in ran)
    && (forall w :: w in workers && workers[w].Taken? ==> workers[w].key !in ran)
    && (forall w :: w in workers && workers[w].Executing? ==>
          workers[w].key in ran && workers[w].key in jobs && workers[w].stamp == jobs[workers[w].key].stamp)
  }

  /** The callback fires once, when the job leaves the table. */
  ghost predicate FiredInv(listeners: map<Slot, Listener>, jobs: map<Key, Job>, fired: multiset<Key>) {
    && (forall k :: fired[k] <= 1)
    && (forall k :: Issued(listeners, k) ==> (k in fired <==> k !in jobs))
  }

  /** The status on its way is the one the worker decided on; a job that never ran gets NOTDONE. */
  ghost predicate OutcomeInv(listeners: map<Slot, Listener>, workers: map<WorkerId, Worker>, drainers: map<nat,
      Drainer>,
                             outcome: map<Key, Status>)
  {
    && (forall w :: w in workers && workers[w].Answering? ==>
        workers[w].key in outcome && outcome[workers[w].key] == workers[w].status)
    && (forall slot, i :: slot in listeners && 0 <= i < |listeners[slot].statuses| ==>
          PostedKey(listeners, slot, i) in outcome
              && outcome[PostedKey(listeners, slot, i)] == listeners[slot].statuses[i].status)
    && (forall d :: d in drainers ==> drainers[d].key in outcome && outcome[drainers[d].key] == drainers[d].status)
  }

  ghost predicate VerdictInv(queue: multiset<Key>, workers: map<WorkerId, Worker>, ran: multiset<Key>,
      fired: multiset<Key>,
                             outcome: map<Key, Status>)
  {
    && (forall k :: k in outcome && k !in ran ==> outcome[k] == NOTDONE)
    && (forall k :: k in fired ==> k in outcome)
    && (forall k :: k in queue ==> k !in outcome)
    && (forall w :: w in workers && !workers[w].Answering? ==> workers[w].key !in outcome)
  }

  /** The jobs that still owe a returned callback. */
  ghost predicate OwingInv(owing: set<Key>, jobs: map<Key, Job>, drainers: map<nat, Drainer>) {
    && (forall k :: k in jobs ==> k in owing)
    && (forall d :: d in drainers && drainers[d].Calling? ==> drainers[d].key in owing)
    && (forall k :: k in owing && k !in jobs ==> exists d ::
        d in drainers && drainers[d].Calling? && drainers[d].key == k)
  }

  ghost function OfPool(keys: set<Key>, pool: nat): set<Key> {
    set k | k in keys && k.slot.pool == pool
  }

  ghost predicate CountInv(unprocessed: map<nat, int>, owing: set<Key>) {
    forall pool: nat :: Counter(unprocessed, pool) == |OfPool(owing, pool)|
  }

  ghost predicate PlaceInv(s: System) {
    && TableInv(s.listeners, s.jobs, s.place)
    && QueueInv(s.queue, s.place)
    && WorkerInv(s.workers, s.place)
    && PostedInv(s.listeners, s.place)
    && DrainerInv(s.drainers, s.place)
  }

  ghost predicate StoryInv(s: System) {
    && HistoryInv(s.listeners, s.ran, s.fired, s.outcome)
    && CallingInv(s.drainers, s.jobs, s.fired)
    && WorkInv(s.jobs, s.queue, s.workers, s.ran)
    && FiredInv(s.listeners, s.jobs, s.fired)
    && OutcomeInv(s.listeners, s.workers, s.drainers, s.outcome)
    && VerdictInv(s.queue, s.workers, s.ran, s.fired, s.outcome)
  }

  ghost predicate Inv(s: System) {
    && s.fence.Valid() && PlaceInv(s) && WakeupInv(s.listeners) && StoryInv(s)
    && OwingInv(s.owing, s.jobs, s.drainers) && CountInv(s.unprocessed, s.owing)
  }
}
