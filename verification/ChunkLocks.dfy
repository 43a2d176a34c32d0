/** The chunk lock manager of the master job pool: the lock table, the listeners' job tables it
    points into, and the critical sections over them. `Core` is that memory as a value, with one
    function per critical section; the steps of whole operations are in `LockProtocol`. */
module ChunkLocks {
  import opened Common
  import opened Fencing
  import JobPools

  /** A chunk part: a chunk id with its type. */
  type Part = nat

  /** A lock job or plain job of a listener's job table. */
  datatype JobRef = JobRef(listener: nat, id: nat)

  /** A metadata server command for a part; `id` numbers the commands in the order they were received. */
  datatype Request = Request(id: nat, part: Part, listener: nat, operation: JobPools.Operation, stamp: Stamp)

  /** LockedChunkData. */
  datatype Entry = Entry(
    lockJob: JobRef, pending: seq<Request>, writeInit: bool, reserved: int, identity: nat, owner: nat, version: nat)

  /** A lock job remembers the lock it was added for; its callback is a tag. */
  datatype TableJob = LockJob(identity: nat, callback: nat) | PlainJob(request: Request)

  datatype LockStart = Installed | Existing | Refused

  datatype Core = Core(
    identityMode: bool,
    table: map<Part, Entry>,
    epochs: map<nat, nat>,
    nextIdentity: nat,
    jobs: map<JobRef, TableJob>,
    nextId: map<nat, nat>,
    deferred: map<nat, int>)
  {
    function Epoch(listener: nat): nat {
      if listener in epochs then epochs[listener] else 0
    }

    function Deferred(listener: nat): int {
      if listener in deferred then deferred[listener] else 0
    }

    /** listenerForJob: a listener that does not exist is replaced by listener 0. */
    function Resolve(listener: nat): nat {
      if listener < MAX_CONNECTIONS && listener in nextId then listener else 0
    }

    /** Requests for the part wait behind its lock. */
    predicate Holds(part: Part) {
      part in table && (table[part].writeInit || table[part].reserved > 0)
    }

    function Park(request: Request): Core
      requires request.part in table
    {
      var entry := table[request.part];
      this.(table := table[request.part := entry.(pending := entry.pending + [request])],
            deferred := deferred[request.listener := Deferred(request.listener) + 1])
    }

    /** addJob of a request: the job gets the listener's next id. */
    function AddPlain(request: Request): Core
      requires request.listener in nextId
    {
      this.(jobs := jobs[JobRef(request.listener, nextId[request.listener]) := PlainJob(request)],
            nextId := nextId[request.listener := nextId[request.listener] + 1])
    }

    function Undefer(listener: nat): Core {
      this.(deferred := deferred[listener := Deferred(listener) - 1])
    }

    /** What startChunkLock does with a request of the resolved listener. */
    function StartVerdict(part: Part, owner: nat, version: nat, listener: nat, epoch: Option<nat>): LockStart {
      if epoch.Some? && epoch.value != Epoch(listener) then Refused
      else if part in table && (!identityMode || table[part].owner == owner) then Existing
      else if part in table && version <= table[part].version then Refused
      else Installed
    }

    /** The new lock in place of any older one, with its lock job on the listener. */
    function Install(part: Part, owner: nat, version: nat, listener: nat, callback: nat): Core
      requires listener in nextId
    {
      var ref := JobRef(listener, nextId[listener]);
      this.(table := table[part := Entry(ref, [], false, 0, nextIdentity, owner, version)],
            nextIdentity := nextIdentity + 1,
            jobs := jobs[ref := LockJob(nextIdentity, callback)],
            nextId := nextId[listener := nextId[listener] + 1])
    }

    /** The identity of the lock a session at the version joins, 0 for none. */
    function Joins(part: Part, version: nat): nat {
      if part !in table || (identityMode && table[part].version != version) then 0 else table[part].identity
    }

    function Enforce(part: Part, version: nat): Core {
      if Joins(part, version) == 0 then this
      else this.(table := table[part := table[part].(writeInit := true)])
    }

    /** The identity of the lock a session's write init reserves, 0 for none. */
    function Reserves(part: Part, version: nat): nat {
      if part !in table || table[part].version != version then 0 else table[part].identity
    }

    function Reserve(part: Part, version: nat): Core {
      if Reserves(part, version) == 0 then this
      else this.(table := table[part := table[part].(reserved := table[part].reserved + 1)])
    }

    predicate HasLock(part: Part, identity: nat) {
      identity != 0 && part in table && table[part].identity == identity
    }

    /** The requests that go ahead when a reservation is released: all, once nothing holds them back. */
    function Unblocked(part: Part, identity: nat): seq<Request> {
      if HasLock(part, identity) && table[part].reserved <= 1 && !table[part].writeInit then table[part].pending else []
    }

    function Unreserve(part: Part, identity: nat): Core {
      if !HasLock(part, identity) then this
      else
        var entry := table[part].(reserved := table[part].reserved - 1);
        var open := entry.reserved <= 0 && !entry.writeInit;
        this.(table := table[part := if open then entry.(pending := []) else entry])
    }

    /** Whether releaseChunkLockEntry takes the entry out: in identity mode an owner or an identity given must fit. */
    predicate MayRelease(part: Part, owner: Option<nat>, identity: Option<nat>) {
      && part in table
      && (owner.Some? && identityMode ==> table[part].owner == owner.value)
      && (identity.Some? && identityMode ==> table[part].identity == identity.value)
    }

    function Release(part: Part): Core {
      this.(table := table - {part})
    }

    function DropJob(ref: JobRef): Core {
      this.(jobs := jobs - {ref})
    }

    function Follow(part: Part, owner: nat, version: nat): Core {
      if identityMode && part in table && table[part].owner == owner then
        this.(table := table[part := table[part].(version := version)])
      else this
    }

    function NextEpoch(listener: nat): Core {
      this.(epochs := epochs[listener := Epoch(listener) + 1])
    }

    /** The lock job of the part moves to the target listener, under a new id and callback. */
    function MoveLock(part: Part, target: nat, callback: nat): Core
      requires part in table && target in nextId
    {
      var entry := table[part];
      var ref := JobRef(target, nextId[target]);
      if entry.lockJob !in jobs || !jobs[entry.lockJob].LockJob? then this
      else
        this.(table := table[part := entry.(lockJob := ref)],
              jobs := (jobs - {entry.lockJob})[ref := jobs[entry.lockJob].(callback := callback)],
              nextId := nextId[target := nextId[target] + 1])
    }

    /** The callback of the part's lock job on the listener is replaced. */
    function RenewCallback(part: Part, listener: nat, callback: nat): Core
      requires part in table
    {
      var ref := table[part].lockJob;
      if ref.listener == listener && ref in jobs && jobs[ref].LockJob?
          then this.(jobs := jobs[ref := jobs[ref].(callback := callback)]) else this
    }
  }

  function LocksOf(table: map<Part, Entry>, listener: nat): set<Part> {
    set part | part in table && table[part].lockJob.listener == listener
  }
}
