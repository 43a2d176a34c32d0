/** The chunk lock table as the object that the metadata server connections and write sessions call. Each method is one
    critical section under the table's mutex, proved against the operation on `Core` values; what a method hands out
    (a replaced entry, requests to be added) its caller works off later, without the mutex. */
module ChunkLockTable {
  import opened Common
  import opened ChunkLocks
  import opened LockProtocol

  /** The lock job of one part, if it is on the listener, moves to the target. */
  function DetachPart(core: Core, listener: nat, target: nat, part: Part, callback: nat): (r: Core)
    requires target in core.nextId && part in core.table
    ensures target in r.nextId && r.table.Keys == core.table.Keys
  {
    if core.table[part].lockJob.listener != listener then core else core.MoveLock(part, target, callback)
  }

  function DetachParts(core: Core, listener: nat, target: nat, order: seq<Part>, callback: nat): (r: Core)
    requires target in core.nextId && forall i :: 0 <= i < |order| ==> order[i] in core.table
    ensures target in r.nextId && r.table.Keys == core.table.Keys
    decreases |order|
  {
    if order == [] then core
    else
      var n := |order| - 1;
      DetachPart(DetachParts(core, listener, target, order[..n], callback), listener, target, order[n], callback)
  }

  lemma DetachNone(core: Core, listener: nat, target: nat, callback: nat)
    requires target in core.nextId
    ensures DetachParts(core, listener, target, [], callback) == core
  {
  }

  lemma DetachNext(core: Core, listener: nat, target: nat, order: seq<Part>, part: Part, callback: nat)
    requires target in core.nextId && part in core.table && forall i :: 0 <= i < |order| ==> order[i] in core.table
    ensures DetachParts(core, listener, target, order + [part], callback)
         == DetachPart(DetachParts(core, listener, target, order, callback), listener, target, part, callback)
  {
    assert (order + [part])[..|order|] == order;
  }

  lemma {:induction false} DetachFirst(core: Core, listener: nat, target: nat, order: seq<Part>, callback: nat)
    requires target in core.nextId && order != [] && forall i :: 0 <= i < |order| ==> order[i] in core.table
    ensures DetachParts(core, listener, target, order, callback)
         == DetachParts(DetachPart(core, listener, target, order[0], callback), listener, target, order[1..], callback)
    decreases |order|
  {
    hide DetachPart;
    var n := |order| - 1;
    if n == 0 {
      assert order[..0] == [] && order[1..] == [];
    } else {
      DetachFirst(core, listener, target, order[..n], callback);
      assert order[..n][1..] == order[1..][..n - 1];
    }
  }

  /** The protocol's detaching does to the table what the loop over the entries does. */
  lemma {:induction false} ProtocolDetaches(s: State, listener: nat, target: nat, order: seq<Part>, callback: nat)
    requires target in s.core.nextId && InTheTable(s.core.table, order)
    ensures DetachEach(s, listener, target, order, callback).core
        == DetachParts(s.core, listener, target, order, callback)
    decreases |order|
  {
    if order != [] {
      var s1 := DetachOne(s, listener, target, order[0], callback);
      OneIsPart(s, listener, target, order[0], callback);
      ProtocolDetaches(s1, listener, target, order[1..], callback);
      DetachFirst(s.core, listener, target, order, callback);
    }
  }

  lemma OneIsPart(s: State, listener: nat, target: nat, part: Part, callback: nat)
    requires target in s.core.nextId && part in s.core.table
    ensures DetachOne(s, listener, target, part, callback).core == DetachPart(s.core, listener, target, part, callback)
  {
  }

  lemma NoneTwice()
    ensures Distinct<Part>([])
  {
  }

  lemma OnceMore(order: seq<Part>, part: Part)
    requires Distinct(order) && part !in order
    ensures Distinct(order + [part]) && forall p :: p in order + [part] <==> p in order || p == part
  {
  }

  class LockTable {
    var identityMode: bool
    var table: map<Part, Entry>
    var epochs: map<nat, nat>
    var nextIdentity: nat
    var jobs: map<JobRef, TableJob>
    var nextId: map<nat, nat>
    var deferred: map<nat, int>

    function Value(): Core
      reads this
    {
      Core(identityMode, table, epochs, nextIdentity, jobs, nextId, deferred)
    }

    /** No lock has identity 0, which stands for none. */
    ghost predicate Numbered()
      reads this
    {
      nextIdentity >= 1 && forall p :: p in table ==> table[p].identity >= 1
    }

    /** A request waits behind a lock that a session joined or reserved; otherwise its job is to be added at once. */
    method AddJobIfNotLocked(request: Request) returns (parked: bool)
      modifies this`table, this`deferred
      ensures parked == old(Value()).Holds(request.part)
      ensures Value() == if parked then old(Value()).Park(request) else old(Value())
    {
      if request.part in table && (table[request.part].writeInit || table[request.part].reserved > 0) {
        var entry, count := table[request.part], if request.listener in deferred then deferred[request.listener] else 0;
        deferred := deferred[request.listener := count + 1];
        table := table[request.part := entry.(pending := entry.pending + [request])];
        return true;
      }
      parked := false;
    }

    method AddLockJob(listener: nat, identity: nat, callback: nat) returns (ref: JobRef)
      requires listener in nextId
      modifies this`jobs, this`nextId
      ensures ref == JobRef(listener, old(nextId)[listener]) && nextId == old(nextId)[listener := ref.id + 1]
      ensures jobs == old(jobs)[ref := LockJob(identity, callback)]
    {
      ref := JobRef(listener, nextId[listener]);
      nextId := nextId[listener := ref.id + 1];
      jobs := jobs[ref := LockJob(identity, callback)];
    }

    /** The critical section of startChunkLock; a replaced entry is handed out to be worked off. */
    method StartChunkLock(part: Part, owner: nat, version: nat, listener: nat, callback: nat, epoch: Option<nat>)
      returns (start: LockStart, replaced: Option<Entry>)
      requires listener in nextId
      modifies this`table, this`nextIdentity, this`jobs, this`nextId
      ensures start == old(Value()).StartVerdict(part, owner, version, listener, epoch)
      ensures var current := epoch.None? || epoch.value == old(Value()).Epoch(listener);
              && (start == Installed <==>
                    current && (part in old(table) ==>
                        identityMode && old(table)[part].owner != owner && old(table)[part].version < version))
              && (start == Existing <==>
                    current && part in old(table) && (identityMode ==> old(table)[part].owner == owner))
      ensures start != Installed ==> Value() == old(Value()) && replaced == None
      ensures start == Installed ==>
                && replaced == (if part in old(table) then Some(old(table)[part]) else None)
                && Value() == old(Value()).Release(part).Install(part, owner, version, listener, callback)
    {
      replaced := None;
      if epoch.Some? && epoch.value != (if listener in epochs then epochs[listener] else 0) {
        return Refused, None;
      }
      if part in table {
        if !identityMode || table[part].owner == owner {
          return Existing, None;
        }
        if version <= table[part].version {
          return Refused, None;
        }
        replaced := Some(table[part]);
      }
      table := table - {part};
      var ref := AddLockJob(listener, nextIdentity, callback);
      table := table[part := Entry(ref, [], false, 0, nextIdentity, owner, version)];
      nextIdentity := nextIdentity + 1;
      start := Installed;
    }

    /** The identity of the lock that a session at the version joins; commands wait from now on. */
    method EnforceChunkLock(part: Part, version: nat) returns (identity: nat)
      requires Numbered()
      modifies this`table
      ensures Numbered() && identity == old(Value()).Joins(part, version)
          && Value() == old(Value()).Enforce(part, version)
    {
      if part !in table || (identityMode && table[part].version != version) {
        return 0;
      }
      table := table[part := table[part].(writeInit := true)];
      identity := table[part].identity;
    }

    method ReserveChunkLock(part: Part, version: nat) returns (identity: nat)
      requires Numbered()
      modifies this`table
      ensures Numbered() && identity == old(Value()).Reserves(part, version)
          && Value() == old(Value()).Reserve(part, version)
    {
      if part !in table || table[part].version != version {
        return 0;
      }
      table := table[part := table[part].(reserved := table[part].reserved + 1)];
      identity := table[part].identity;
    }

    /** A session gives up its reservation; `batch` is what this lets go. */
    method ReleaseReservation(part: Part, identity: nat) returns (batch: seq<Request>)
      modifies this`table
      ensures batch == old(Value()).Unblocked(part, identity) && Value() == old(Value()).Unreserve(part, identity)
    {
      if identity == 0 || part !in table || table[part].identity != identity {
        return [];
      }
      table := table[part := table[part].(reserved := table[part].reserved - 1)];
      if table[part].reserved > 0 || table[part].writeInit {
        return [];
      }
      batch := table[part].pending;
      table := table[part := table[part].(pending := [])];
    }

    /** The entry, if the caller has a right to it: as its owner, or as a session that knows its identity. */
    method ReleaseEntry(part: Part, owner: Option<nat>, identity: Option<nat>) returns (released: Option<Entry>)
      modifies this`table
      ensures released.Some? == old(Value()).MayRelease(part, owner, identity)
      ensures released.Some? ==> released.value == old(table)[part] && Value() == old(Value()).Release(part)
      ensures released.None? ==> Value() == old(Value())
    {
      if part !in table {
        return None;
      }
      if owner.Some? && identityMode && table[part].owner != owner.value {
        return None;
      }
      if identity.Some? && identityMode && table[part].identity != identity.value {
        return None;
      }
      released := Some(table[part]);
      table := table - {part};
    }

    method FollowVersion(part: Part, owner: nat, version: nat)
      modifies this`table
      ensures Value() == old(Value()).Follow(part, owner, version)
    {
      if identityMode && part in table && table[part].owner == owner {
        table := table[part := table[part].(version := version)];
      }
    }

    method DetachOneJob(listener: nat, target: nat, part: Part, callback: nat)
      requires target in nextId && part in table
      modifies this`table, this`jobs, this`nextId
      ensures Value() == DetachPart(old(Value()), listener, target, part, callback)
    {
      var entry := table[part];
      if entry.lockJob.listener != listener || entry.lockJob !in jobs || !jobs[entry.lockJob].LockJob? {
        return;
      }
      var job, ref := jobs[entry.lockJob], JobRef(target, nextId[target]);
      jobs := jobs - {entry.lockJob};
      nextId := nextId[target := ref.id + 1];
      table := table[part := entry.(lockJob := ref)];
      jobs := jobs[ref := job.(callback := callback)];
    }

    /** Starts sent over the closed connection are refused from now on. */
    method NextEpoch(listener: nat)
      modifies this`epochs
      ensures Value() == old(Value()).NextEpoch(listener)
    {
      epochs := epochs[listener := (if listener in epochs then epochs[listener] else 0) + 1];
    }

    method DetachAll(listener: nat, target: nat, makesCallback: Part -> bool, callback: nat)
        returns (ghost order: seq<Part>)
      requires target in nextId
      modifies this`table, this`jobs, this`nextId
      ensures Distinct(order) && (forall i :: 0 <= i < |order| ==> order[i] in old(table))
          && forall p :: p in old(table) ==> (p in order <==> makesCallback(p))
      ensures Value() == DetachParts(old(Value()), listener, target, order, callback)
    {
      hide DetachPart, DetachParts, Distinct;
      NoneTwice();
      order := [];
      ghost var start := Value();
      var left := table.Keys;
      DetachNone(start, listener, target, callback);
      while left != {}
        invariant table.Keys == old(table).Keys && left <= table.Keys && target in nextId && Distinct(order)
        invariant forall p :: p in table ==> (p in order <==> p !in left && makesCallback(p))
        invariant forall i :: 0 <= i < |order| ==> order[i] in old(table)
        invariant Value() == DetachParts(start, listener, target, order, callback)
        decreases |left|
      {
        var part :| part in left;
        if makesCallback(part) {
          DetachOneJob(listener, target, part, callback);
          DetachNext(start, listener, target, order, part, callback);
          OnceMore(order, part);
          order := order + [part];
        }
        left := left - {part};
      }
    }

    /** Every lock job of the listener for which there is a callback moves to the target, and starts sent over the
        closed connection are refused from now on. `order` names the parts with a callback, once each, as the loop met
        them. */
    method DetachLockJobs(listener: nat, target: nat, makesCallback: Part -> bool, callback: nat)
        returns (ghost order: seq<Part>)
      modifies this`table, this`epochs, this`jobs, this`nextId
      ensures Distinct(order) && forall i :: 0 <= i < |order| ==> order[i] in old(table)
      ensures listener != target && listener in old(nextId) && target in old(nextId) ==>
                && (forall p :: p in old(table) ==> (p in order <==> makesCallback(p)))
                && Value() == DetachParts(old(Value()).NextEpoch(listener), listener, target, order, callback)
      ensures !(listener != target && listener in old(nextId) && target in old(nextId)) ==> Value() == old(Value())
    {
      hide DetachPart, DetachParts, Distinct;
      NoneTwice();
      order := [];
      if listener == target || listener !in nextId || target !in nextId {
        return;
      }
      NextEpoch(listener);
      order := DetachAll(listener, target, makesCallback, callback);
    }
  }
}
