/** Every step of the chunk lock manager keeps the invariants. */
module LockSteps {
  import opened Common
  import opened ChunkLocks
  import opened LockProtocol
  import opened LockInvariants

  /** The acts of a flight that takes out a lock suit the lock's fate. */
  ghost predicate SuitableActs(fate: Fate, before: Act, after: Act, ref: JobRef) {
    match fate
    case Ended(_, _) => before == Nothing && after.Notify? && after.ref == ref
    case Erased(_, _) => before == Nothing && after == Drop(ref)
    case Replaced(_, _, _) => before == Drop(ref) && after == Nothing
  }

  lemma TakeOutKeeps(s: State, p: Part, f: nat, fate: Fate, before: Act, after: Act)
    requires Inv(s) && p in s.core.table && f !in s.flights
    requires Rightful(fate, s.core.table[p], s.joins) && SuitableActs(fate, before, after, s.core.table[p].lockJob)
    ensures Inv(TakeOut(s, p, f, fate, before, after))
  {
    hide IdsInv, EntryInv, IdentityInv, LockJobInv, QueueInv, PostedInv, LeavingInv, FateInv, TallyInv, RightfulInv;
    hide NumberInv, ParkedInv, TransitInv, LogInv, DeferredInv, GuardInv, HoldersInv, SessionInv;
    var core, entry := s.core, s.core.table[p];
    var i, flight := entry.identity, Batch(entry.identity, before, entry.pending, false, after);
    EntryIs(core.table, s.locks, core.nextIdentity, core.jobs, p);
    FateIs(s.locks, s.fates, i);
    ParkedIs(core.table, s.locks, s.requests, p);
    EntryLeaves(core.table, s.locks, p, f);
    JobsUnmoved(core.jobs, s.locks, core.nextIdentity, i, Leaving(f));
    PostedUnmoved(s.posted, core.jobs, s.locks, s.queue, i, Leaving(f));
    LeavingStarts(s.flights, s.locks, s.fates, i, f, fate, flight);
    FateLeaves(s.locks, s.fates, i, f, fate);
    TallyLeaves(s.locks, s.fates, s.notices, s.drops, s.calls, i, f, fate);
    RightfulLeaves(core.table, s.locks, s.fates, s.joins, p, f, fate);
    SessionsSeeNoMove(s.sessions, s.locks, s.joins, s.usedSessions, i, Leaving(f));
    ParkedLeaves(core.table, s.locks, s.requests, s.nextRequest, core.nextId, p, f);
    TransitArrives(s.flights, s.requests, s.nextRequest, core.nextId, f, flight, i);
    LogSeesNoRelocation(s.log, s.requests, s.nextRequest, core.nextId, entry.pending, i, f);
    NumberRelocated(s.requests, s.nextRequest, core.nextId, core.deferred, entry.pending, i, f);
    HoldersTakenOut(core.table, s.sessions, p);
  }

  lemma InstallKeeps(s: State, p: Part, owner: nat, version: nat, l: nat, callback: nat)
    requires Inv(s) && p !in s.core.table && l in s.core.nextId
    ensures Inv(InstallLock(s, p, owner, version, l, callback))
  {
    hide IdsInv, EntryInv, IdentityInv, LockJobInv, QueueInv, PostedInv, LeavingInv, FateInv, TallyInv, RightfulInv;
    hide NumberInv, ParkedInv, TransitInv, LogInv, DeferredInv, GuardInv, HoldersInv, SessionInv;
    var core, i := s.core, s.core.nextIdentity;
    var ref := JobRef(l, core.nextId[l]);
    var entry, record, job := Entry(ref, [], false, 0, i, owner, version), LockRecord(p, owner, ref, InTable),
        LockJob(i, callback);
    IdentityFresh(s.locks, s.fates, i);
    IdsGrow(core.nextId, core.jobs, s.everQueued, l, job);
    LockInstalled(core.table, s.locks, i, core.jobs, p, entry, callback);
    InstalledUnseen(s.locks, s.fates, s.joins, s.flights, i, record);
    InstalledUntallied(s.locks, s.fates, s.notices, s.drops, s.calls, i, record);
    InstalledUnposted(s.posted, core.jobs, s.locks, s.queue, s.everQueued, i, record, job);
    InstalledUnparked(core.table, s.locks, s.requests, p, entry, record);
    InstalledUnreserved(core.table, s.sessions, s.locks, s.joins, s.usedSessions, p, entry, record);
    NumbersKeepListeners(s.requests, s.nextRequest, core.nextId, l, core.nextId[l] + 1);
  }

  lemma ReceiveKeeps(s: State, r: Request, f: nat)
    requires Inv(s) && r.id == s.nextRequest && r.listener in s.core.nextId && f !in s.flights
    ensures Inv(ReceiveRequest(s, r, f))
  {
    hide IdsInv, EntryInv, IdentityInv, LockJobInv, QueueInv, PostedInv, LeavingInv, FateInv, TallyInv, RightfulInv;
    hide NumberInv, ParkedInv, TransitInv, LogInv, DeferredInv, GuardInv, HoldersInv, SessionInv;
    var core := s.core;
    if core.Holds(r.part) {
      var entry := core.table[r.part];
      var parked := entry.(pending := entry.pending + [r]);
      NumbersGrow(s.requests, s.nextRequest, core.nextId, r, Parked(entry.identity));
      EntrySame(core.table, s.locks, r.part, parked);
      ParkedAdds(core.table, s.locks, s.requests, s.nextRequest, core.nextId, r);
      TransitAdds(s.flights, s.requests, r, entry.identity, f);
      LogSeesNoArrival(s.log, s.requests, r, Parked(entry.identity));
      DeferredArrives(core.deferred, s.requests, r, entry.identity);
      GuardSame(core.table, r.part, parked);
      HoldersSame(core.table, s.sessions, r.part, parked);
    } else {
      NumbersGrow(s.requests, s.nextRequest, core.nextId, r, Direct(f));
      LeavingIdle(s.flights, s.locks, s.fates, f, Straight(r));
      ParkedElsewhere(core.table, s.locks, s.requests, r.id, RequestRecord(r, Direct(f)));
      TransitAdds(s.flights, s.requests, r, 0, f);
      LogSeesNoArrival(s.log, s.requests, r, Direct(f));
      DeferredPassed(core.deferred, s.requests, r, f);
    }
  }

  lemma StraightKeeps(s: State, f: nat)
    requires f in s.flights && s.flights[f].Straight? && s.flights[f].request.listener in s.core.nextId
        && s.flights[f].request.id in s.requests
    requires Inv(s)
    ensures Inv(EnqueueStraight(s, f, s.flights[f].request))
  {
    hide IdsInv, EntryInv, IdentityInv, LockJobInv, QueueInv, PostedInv, LeavingInv, FateInv, TallyInv, RightfulInv;
    hide NumberInv, ParkedInv, TransitInv, LogInv, DeferredInv, GuardInv, HoldersInv, SessionInv;
    var core, r := s.core, s.flights[f].request;
    TransitStraightDone(s.flights, s.requests, s.nextRequest, core.nextId, f);
    EnqueueJobKeeps(s, r);
    LeavingIdle(s.flights, s.locks, s.fates, f, Straight(r));
    NumbersSame(s.requests, s.nextRequest, core.nextId, r, Done);
    NumbersKeepListeners(s.requests[r.id := RequestRecord(r, Done)], s.nextRequest, core.nextId, r.listener,
        core.nextId[r.listener] + 1);
    ParkedElsewhere(core.table, s.locks, s.requests, r.id, RequestRecord(r, Done));
    LogGrows(s.log, s.requests, r, 0, Done);
    DeferredUnmoved(core.deferred, s.requests, r, Done);
  }

  /** The job tables and queues when a request's job is added. */
  lemma EnqueueJobKeeps(s: State, r: Request)
    requires Inv(s) && r.listener in s.core.nextId
    ensures var ref := JobRef(r.listener, s.core.nextId[r.listener]);
            var core := s.core.AddPlain(r);
            && IdsInv(core.nextId, core.jobs, s.everQueued + {ref}) && LockJobInv(core.jobs, s.locks)
            && QueueInv(core.jobs, s.queue + {ref}, s.everQueued + {ref})
                && PostedInv(s.posted, core.jobs, s.locks, s.queue + {ref})
            && 0 in core.nextId
  {
    hide IdsInv, EntryInv, IdentityInv, LockJobInv, QueueInv, PostedInv, LeavingInv, FateInv, TallyInv, RightfulInv;
    hide NumberInv, ParkedInv, TransitInv, LogInv, DeferredInv, GuardInv, HoldersInv, SessionInv;
    var core := s.core;
    IdsGrow(core.nextId, core.jobs, s.everQueued, r.listener, PlainJob(r));
    PlainAdded(core.jobs, s.locks, s.queue, s.everQueued, s.posted, JobRef(r.listener, core.nextId[r.listener]), r);
  }

  lemma DeferredUnmoved(deferred: map<nat, int>, requests: map<nat, RequestRecord>, r: Request, place: Where)
    requires DeferredInv(deferred, requests) && r.id in requests && requests[r.id].request == r
        && (Waits(requests[r.id].place) <==> Waits(place))
    ensures DeferredInv(deferred, requests[r.id := RequestRecord(r, place)])
  {
    DeferredSame(deferred, requests, requests[r.id := RequestRecord(r, place)]);
  }

  lemma HeadKeeps(s: State, f: nat)
    requires ReadyToAdd(s, f) && s.flights[f].todo[0].listener in s.core.nextId && s.flights[f].todo[0].id in s.requests
    requires Inv(s)
    ensures Inv(EnqueueHead(s, f, s.flights[f]))
  {
    hide IdsInv, EntryInv, IdentityInv, LockJobInv, QueueInv, PostedInv, LeavingInv, FateInv, TallyInv, RightfulInv;
    hide NumberInv, ParkedInv, TransitInv, LogInv, DeferredInv, GuardInv, HoldersInv, SessionInv;
    var core, flight, r := s.core, s.flights[f], s.flights[f].todo[0];
    TransitHeadAdded(s.flights, s.requests, s.nextRequest, core.nextId, f);
    EnqueueJobKeeps(s, r);
    LeavingSameActs(s.flights, s.locks, s.fates, f, flight.(added := true));
    NumbersSame(s.requests, s.nextRequest, core.nextId, r, Finishing(f));
    NumbersKeepListeners(s.requests[r.id := RequestRecord(r, Finishing(f))], s.nextRequest, core.nextId, r.listener,
        core.nextId[r.listener] + 1);
    ParkedElsewhere(core.table, s.locks, s.requests, r.id, RequestRecord(r, Finishing(f)));
    LogGrows(s.log, s.requests, r, flight.lock, Finishing(f));
    DeferredUnmoved(core.deferred, s.requests, r, Finishing(f));
  }

  lemma UncountKeeps(s: State, f: nat)
    requires f in s.flights && s.flights[f].Batch? && s.flights[f].added && s.flights[f].todo != []
        && s.flights[f].todo[0].id in s.requests
    requires Inv(s)
    ensures Inv(UncountHead(s, f, s.flights[f]))
  {
    hide IdsInv, EntryInv, IdentityInv, LockJobInv, QueueInv, PostedInv, LeavingInv, FateInv, TallyInv, RightfulInv;
    hide NumberInv, ParkedInv, TransitInv, LogInv, DeferredInv, GuardInv, HoldersInv, SessionInv;
    var core, flight, r := s.core, s.flights[f], s.flights[f].todo[0];
    TransitHeadDone(s.flights, s.requests, s.nextRequest, core.nextId, f);
    LeavingSameActs(s.flights, s.locks, s.fates, f, flight.(todo := flight.todo[1..], added := false));
    NumbersSame(s.requests, s.nextRequest, core.nextId, r, Done);
    ParkedElsewhere(core.table, s.locks, s.requests, r.id, RequestRecord(r, Done));
    LogFinishes(s.log, s.requests, r);
    DeferredDone(core.deferred, s.requests, r);
  }

  /** Sending the status of a leaving lock, or dropping its job, apart from the flight itself. */
  lemma PerformKeeps(s: State, f: nat, act: Act)
    requires Inv(s) && f in s.flights && s.flights[f].Batch? && act != Nothing
    requires ActsOn(act, s.locks, s.fates, s.flights[f].lock, f)
    ensures var s' := Perform(s, s.flights[f].lock, act);
            && IdsInv(s'.core.nextId, s'.core.jobs, s'.everQueued) && EntryInv(s'.core.table, s'.locks)
                && IdentityInv(s'.locks, s'.core.nextIdentity)
            && LockJobInv(s'.core.jobs, s'.locks) && QueueInv(s'.core.jobs, s'.queue, s'.everQueued)
                && PostedInv(s'.posted, s'.core.jobs, s'.locks, s'.queue)
            && FateInv(s'.locks, s'.fates) && TallyInv(s'.locks, s'.fates, s'.notices, s'.drops, s'.calls)
                && RightfulInv(s'.locks, s'.fates, s'.joins)
            && ParkedInv(s'.core.table, s'.locks, s'.requests)
                && SessionInv(s'.sessions, s'.locks, s'.joins, s'.usedSessions)
  {
    hide IdsInv, EntryInv, IdentityInv, LockJobInv, QueueInv, PostedInv, LeavingInv, FateInv, TallyInv, RightfulInv;
    hide NumberInv, ParkedInv, TransitInv, LogInv, DeferredInv, GuardInv, HoldersInv, SessionInv;
    var core, i := s.core, s.flights[f].lock;
    var place := if act.Notify? then Announced else Gone;
    FateIs(s.locks, s.fates, i);
    EntryElsewhere(core.table, s.locks, i, place);
    FateMoves(s.locks, s.fates, i, place);
    RightfulMoves(s.locks, s.fates, s.joins, i, place);
    SessionsSeeNoMove(s.sessions, s.locks, s.joins, s.usedSessions, i, place);
    ParkedSeesNoMove(core.table, s.locks, s.requests, i, place);
    LockJobNotQueued(core.jobs, s.locks, s.queue, s.everQueued, i);
    if act.Notify? {
      JobsUnmoved(core.jobs, s.locks, core.nextIdentity, i, Announced);
      PostedNotified(s.posted, core.jobs, s.locks, s.queue, i, act.status);
      TallyNotified(s.locks, s.fates, s.notices, s.drops, s.calls, i);
    } else {
      IdsShrink(core.nextId, core.jobs, s.everQueued, act.ref);
      JobGoes(core.jobs, s.locks, core.nextIdentity, i);
      QueueJobGoes(core.jobs, s.queue, s.everQueued, act.ref);
      PostedDropped(s.posted, core.jobs, s.locks, s.queue, i);
      TallyDropped(s.locks, s.fates, s.notices, s.drops, s.calls, i);
    }
  }

  lemma ActBeforeKeeps(s: State, f: nat)
    requires Inv(s) && CanTake(s, ActBefore(f))
    ensures Inv(Apply(s, ActBefore(f)))
  {
    hide IdsInv, EntryInv, IdentityInv, LockJobInv, QueueInv, PostedInv, LeavingInv, FateInv, TallyInv, RightfulInv;
    hide NumberInv, ParkedInv, TransitInv, LogInv, DeferredInv, GuardInv, HoldersInv, SessionInv;
    var flight := s.flights[f];
    ActIs(s.flights, s.locks, s.fates, f);
    PerformKeeps(s, f, flight.before);
    LeavingEnds(s.flights, s.locks, s.fates, flight.lock, if flight.before.Notify? then Announced else Gone);
    TransitSameTodo(s.flights, s.requests, f, flight.(before := Nothing));
    assert flight.(before := Nothing) == flight.(before := Nothing, after := Nothing);
  }

  lemma ActAfterKeeps(s: State, f: nat)
    requires Inv(s) && CanTake(s, ActAfter(f))
    ensures Inv(Apply(s, ActAfter(f)))
  {
    hide IdsInv, EntryInv, IdentityInv, LockJobInv, QueueInv, PostedInv, LeavingInv, FateInv, TallyInv, RightfulInv;
    hide NumberInv, ParkedInv, TransitInv, LogInv, DeferredInv, GuardInv, HoldersInv, SessionInv;
    var flight := s.flights[f];
    ActIs(s.flights, s.locks, s.fates, f);
    TransitLands(s.flights, s.requests, f);
    if flight.after == Nothing {
      LeavingIdle(s.flights, s.locks, s.fates, f, flight);
    } else {
      PerformKeeps(s, f, flight.after);
      LeavingEnds(s.flights, s.locks, s.fates, flight.lock, if flight.after.Notify? then Announced else Gone);
    }
  }

  lemma SetupKeeps(s: State, sid: nat, p: Part, version: nat)
    requires Inv(s) && CanTake(s, Setup(sid, p, version))
    ensures Inv(SetupSession(s, sid, p, version))
  {
    hide IdsInv, EntryInv, IdentityInv, LockJobInv, QueueInv, PostedInv, LeavingInv, FateInv, TallyInv, RightfulInv;
    hide NumberInv, ParkedInv, TransitInv, LogInv, DeferredInv, GuardInv, HoldersInv, SessionInv;
    var core := s.core;
    SessionNew(s.sessions, s.locks, s.joins, s.usedSessions, sid);
    if p in core.table {
      EntryIs(core.table, s.locks, core.nextIdentity, core.jobs, p);
    }
    if core.identityMode {
      var lock := core.Reserves(p, version);
      var session := Opening(p, version, lock);
      SessionSet(s.sessions, s.locks, s.joins, s.usedSessions, sid, session, 0);
      if lock == 0 {
        HoldersStartNone(core.table, s.locks, core.nextIdentity, s.sessions, sid, session);
      } else {
        var entry := core.table[p].(reserved := core.table[p].reserved + 1);
        EntrySame(core.table, s.locks, p, entry);
        ParkedSame(core.table, s.locks, s.requests, p, entry);
        GuardRises(core.table, p, entry);
        HoldersStart(core.table, s.locks, s.sessions, sid, p, session);
      }
    } else {
      var lock := core.Joins(p, version);
      var session := Settled(p, version, lock, true);
      HoldersStartNone(core.table, s.locks, core.nextIdentity, s.sessions, sid, session);
      JoinKeeps(s, sid, p, version, session);
    }
  }

  lemma SessionNew(sessions: map<nat, Session>, locks: map<nat, LockRecord>, joins: set<Join>, usedSessions: set<nat>,
      sid: nat)
    requires SessionInv(sessions, locks, joins, usedSessions) && sid !in usedSessions
    ensures sid !in sessions
  {
  }

  lemma GuardRises(table: map<Part, Entry>, p: Part, entry: Entry)
    requires GuardInv(table) && p in table && entry.pending == table[p].pending
    requires (table[p].writeInit ==> entry.writeInit) && table[p].reserved <= entry.reserved
    ensures GuardInv(table[p := entry])
  {
  }

  /** A session joins the lock of its part, if there is one to join. */
  lemma JoinKeeps(s: State, sid: nat, p: Part, version: nat, session: Session)
    requires Inv(s) && HoldersInv(s.core.table, s.sessions[sid := session])
    requires SessionFits(sid, session, s.locks, Joined(s.joins, s.core.Joins(p, version), sid))
    ensures Inv(s.(core := s.core.Enforce(p, version), sessions := s.sessions[sid := session],
                   joins := Joined(s.joins, s.core.Joins(p, version), sid), usedSessions := s.usedSessions + {sid}))
  {
    hide IdsInv, EntryInv, IdentityInv, LockJobInv, QueueInv, PostedInv, LeavingInv, FateInv, TallyInv, RightfulInv;
    hide NumberInv, ParkedInv, TransitInv, LogInv, DeferredInv, GuardInv, HoldersInv, SessionInv;
    var core, lock := s.core, s.core.Joins(p, version);
    if lock != 0 {
      EntryIs(core.table, s.locks, core.nextIdentity, core.jobs, p);
      var entry := core.table[p].(writeInit := true);
      EntrySame(core.table, s.locks, p, entry);
      ParkedSame(core.table, s.locks, s.requests, p, entry);
      GuardRises(core.table, p, entry);
      HoldersSame(core.table, s.sessions[sid := session], p, entry);
    }
    SessionSet(s.sessions, s.locks, s.joins, s.usedSessions, sid, session, lock);
    RightfulJoined(s.locks, s.fates, s.joins, lock, sid);
  }

  lemma OpenKeeps(s: State, sid: nat)
    requires Inv(s) && CanTake(s, RunOpen(sid))
    ensures Inv(OpenSession(s, sid, s.sessions[sid]))
  {
    hide IdsInv, EntryInv, IdentityInv, LockJobInv, QueueInv, PostedInv, LeavingInv, FateInv, TallyInv, RightfulInv;
    hide NumberInv, ParkedInv, TransitInv, LogInv, DeferredInv, GuardInv, HoldersInv, SessionInv;
    var Opening(p, version, reserved) := s.sessions[sid];
    SessionIs(s.sessions, s.locks, s.joins, s.usedSessions, sid);
    assert s.usedSessions + {sid} == s.usedSessions;
    if p in s.parts && s.parts[p] == version {
      var session := Opened(p, version, reserved, s.core.Joins(p, version), true);
      HoldersOpen(s.core.table, s.sessions, sid, session);
      JoinKeeps(s, sid, p, version, session);
    } else {
      var session := Opened(p, version, reserved, 0, false);
      HoldersOpen(s.core.table, s.sessions, sid, session);
      SessionSet(s.sessions, s.locks, s.joins, s.usedSessions, sid, session, 0);
    }
  }

  /** A session settles whose reserved lock is gone from the table. */
  lemma AdoptWithoutLock(s: State, sid: nat, f: nat)
    requires Inv(s) && CanTake(s, Adopt(sid, f)) && !s.core.HasLock(s.sessions[sid].part, s.sessions[sid].reserved)
    ensures Inv(AdoptLock(s, sid, s.sessions[sid], f))
  {
    hide IdsInv, EntryInv, IdentityInv, LockJobInv, QueueInv, PostedInv, LeavingInv, FateInv, TallyInv, RightfulInv;
    hide NumberInv, ParkedInv, TransitInv, LogInv, DeferredInv, GuardInv, HoldersInv, SessionInv;
    var Opened(p, version, reserved, joined, matched) := s.sessions[sid];
    var session := Settled(p, version, joined, matched);
    SessionIs(s.sessions, s.locks, s.joins, s.usedSessions, sid);
    assert s.usedSessions + {sid} == s.usedSessions;
    SessionSet(s.sessions, s.locks, s.joins, s.usedSessions, sid, session, 0);
    NoEntryReserved(s.core.table, s.locks, s.core.nextIdentity, s.sessions, s.joins, s.usedSessions, sid);
    HoldersSettleNone(s.core.table, s.sessions, sid, session);
    assert AdoptLock(s, sid, s.sessions[sid], f) == s.(sessions := s.sessions[sid := session]);
  }

  /** A session settles and its reservation was not the last thing that held requests back. */
  lemma AdoptHolding(s: State, sid: nat, f: nat)
    requires Inv(s) && CanTake(s, Adopt(sid, f)) && s.core.HasLock(s.sessions[sid].part, s.sessions[sid].reserved)
    requires s.core.Unblocked(s.sessions[sid].part, s.sessions[sid].reserved) == []
    ensures Inv(AdoptLock(s, sid, s.sessions[sid], f))
  {
    hide IdsInv, EntryInv, IdentityInv, LockJobInv, QueueInv, PostedInv, LeavingInv, FateInv, TallyInv, RightfulInv;
    hide NumberInv, ParkedInv, TransitInv, LogInv, DeferredInv, GuardInv, HoldersInv, SessionInv;
    var core := s.core;
    var Opened(p, version, reserved, joined, matched) := s.sessions[sid];
    var session := Settled(p, version, joined, matched);
    SessionIs(s.sessions, s.locks, s.joins, s.usedSessions, sid);
    assert s.usedSessions + {sid} == s.usedSessions;
    SessionSet(s.sessions, s.locks, s.joins, s.usedSessions, sid, session, 0);
    ReservationPositive(core.table, s.sessions, sid, p);
    var entry := core.Unreserve(p, reserved).table[p];
    assert AdoptLock(s, sid, s.sessions[sid], f) == s.(core := core.(table := core.table[p := entry]),
        sessions := s.sessions[sid := session]);
    EntrySame(core.table, s.locks, p, entry);
    HoldersSettle(core.table, s.locks, s.sessions, sid, p, session, entry);
    GuardSame(core.table, p, entry);
    ParkedSame(core.table, s.locks, s.requests, p, entry);
  }

  /** A session settles and the requests parked behind its lock go ahead. */
  lemma AdoptReleasing(s: State, sid: nat, f: nat)
    requires Inv(s) && CanTake(s, Adopt(sid, f)) && s.core.HasLock(s.sessions[sid].part, s.sessions[sid].reserved)
    requires s.core.Unblocked(s.sessions[sid].part, s.sessions[sid].reserved) != []
    ensures Inv(AdoptLock(s, sid, s.sessions[sid], f))
  {
    hide IdsInv, EntryInv, IdentityInv, LockJobInv, QueueInv, PostedInv, LeavingInv, FateInv, TallyInv, RightfulInv;
    hide NumberInv, ParkedInv, TransitInv, LogInv, DeferredInv, GuardInv, HoldersInv, SessionInv;
    var core := s.core;
    var Opened(p, version, reserved, joined, matched) := s.sessions[sid];
    var session := Settled(p, version, joined, matched);
    SessionIs(s.sessions, s.locks, s.joins, s.usedSessions, sid);
    assert s.usedSessions + {sid} == s.usedSessions;
    SessionSet(s.sessions, s.locks, s.joins, s.usedSessions, sid, session, 0);
    EntryIs(core.table, s.locks, core.nextIdentity, core.jobs, p);
    ParkedIs(core.table, s.locks, s.requests, p);
    var batch, entry := core.Unblocked(p, reserved), core.Unreserve(p, reserved).table[p];
    var flight := Batch(reserved, Nothing, batch, false, Nothing);
    assert AdoptLock(s, sid, s.sessions[sid], f) == s.(core := core.(table := core.table[p := entry]),
        sessions := s.sessions[sid := session],
                                                       flights := s.flights[f := flight],
                                                           requests := Relocated(s.requests, batch, f));
    EntrySame(core.table, s.locks, p, entry);
    HoldersSettle(core.table, s.locks, s.sessions, sid, p, session, entry);
    GuardSame(core.table, p, entry);
    ParkedEmptied(core.table, s.locks, s.requests, s.nextRequest, core.nextId, p, f, entry);
    TransitArrives(s.flights, s.requests, s.nextRequest, core.nextId, f, flight, reserved);
    LogSeesNoRelocation(s.log, s.requests, s.nextRequest, core.nextId, batch, reserved, f);
    NumberRelocated(s.requests, s.nextRequest, core.nextId, core.deferred, batch, reserved, f);
    LeavingIdle(s.flights, s.locks, s.fates, f, flight);
  }

  lemma AdoptKeeps(s: State, sid: nat, f: nat)
    requires Inv(s) && CanTake(s, Adopt(sid, f))
    ensures Inv(AdoptLock(s, sid, s.sessions[sid], f))
  {
    hide Inv, AdoptLock;
    if !s.core.HasLock(s.sessions[sid].part, s.sessions[sid].reserved) {
      AdoptWithoutLock(s, sid, f);
    } else if s.core.Unblocked(s.sessions[sid].part, s.sessions[sid].reserved) == [] {
      AdoptHolding(s, sid, f);
    } else {
      AdoptReleasing(s, sid, f);
    }
  }

  lemma NoEntryReserved(table: map<Part, Entry>, locks: map<nat, LockRecord>, nextIdentity: nat,
      sessions: map<nat, Session>, joins: set<Join>, usedSessions: set<nat>, sid: nat)
    requires EntryInv(table, locks) && IdentityInv(locks, nextIdentity)
        && SessionInv(sessions, locks, joins, usedSessions) && sid in sessions && Unsettled(sessions[sid])
    requires sessions[sid].reserved == 0 || sessions[sid].part !in table
        || table[sessions[sid].part].identity != sessions[sid].reserved
    ensures forall p :: p in table ==> table[p].identity != sessions[sid].reserved
  {
  }

  lemma CloseKeeps(s: State, sid: nat, status: Status, f: nat)
    requires Inv(s) && CanTake(s, EndSession(sid, status, f))
    ensures Inv(CloseSession(s, sid, s.sessions[sid], status, f))
  {
    hide IdsInv, EntryInv, IdentityInv, LockJobInv, QueueInv, PostedInv, LeavingInv, FateInv, TallyInv, RightfulInv;
    hide NumberInv, ParkedInv, TransitInv, LogInv, DeferredInv, GuardInv, HoldersInv, SessionInv;
    var Settled(p, version, lock, matched) := s.sessions[sid];
    var closed := s.(sessions := s.sessions - {sid});
    SessionIs(s.sessions, s.locks, s.joins, s.usedSessions, sid);
    SessionGone(s.sessions, s.locks, s.joins, s.usedSessions, sid);
    HoldersClose(s.core.table, s.sessions, sid);
    if lock != 0 && s.core.MayRelease(p, None, Some(lock)) {
      TakeOutKeeps(closed, p, f, Ended(sid, s.core.identityMode), Nothing, Notify(s.core.table[p].lockJob, status));
    }
  }

  lemma StartKeeps(s: State, p: Part, owner: nat, version: nat, listener: nat, callback: nat, epoch: Option<nat>,
      f: nat)
    requires Inv(s) && CanTake(s, StartLock(p, owner, version, listener, callback, epoch, f))
    ensures Inv(Apply(s, StartLock(p, owner, version, listener, callback, epoch, f)))
  {
    hide IdsInv, EntryInv, IdentityInv, LockJobInv, QueueInv, PostedInv, LeavingInv, FateInv, TallyInv, RightfulInv;
    hide NumberInv, ParkedInv, TransitInv, LogInv, DeferredInv, GuardInv, HoldersInv, SessionInv;
    var l := s.core.Resolve(listener);
    if s.core.StartVerdict(p, owner, version, l, epoch) == Installed {
      var replaced := ReplaceLock(s, p, owner, version, f);
      if p in s.core.table {
        TakeOutKeeps(s, p, f, Replaced(owner, version, s.core.table[p].version), Drop(s.core.table[p].lockJob),
            Nothing);
      }
      InstallKeeps(replaced, p, owner, version, l, callback);
    }
  }

  lemma FollowKeeps(s: State, p: Part, owner: nat, version: nat)
    requires Inv(s)
    ensures Inv(s.(core := s.core.Follow(p, owner, version)))
  {
    hide IdsInv, EntryInv, IdentityInv, LockJobInv, QueueInv, PostedInv, LeavingInv, FateInv, TallyInv, RightfulInv;
    hide NumberInv, ParkedInv, TransitInv, LogInv, DeferredInv, GuardInv, HoldersInv, SessionInv;
    var core := s.core;
    if core.identityMode && p in core.table && core.table[p].owner == owner {
      var entry := core.table[p].(version := version);
      EntrySame(core.table, s.locks, p, entry);
      ParkedSame(core.table, s.locks, s.requests, p, entry);
      GuardRises(core.table, p, entry);
      HoldersSame(core.table, s.sessions, p, entry);
    }
  }

  lemma DetachOneKeepsLocks(s: State, listener: nat, target: nat, p: Part, callback: nat)
    requires Inv(s) && target in s.core.nextId && p in s.core.table
    ensures LockSide(DetachOne(s, listener, target, p, callback))
  {
    hide IdsInv, EntryInv, IdentityInv, LockJobInv, QueueInv, PostedInv, LeavingInv, FateInv, TallyInv, RightfulInv;
    hide NumberInv, ParkedInv, TransitInv, LogInv, DeferredInv, GuardInv, HoldersInv, SessionInv;
    var core, entry := s.core, s.core.table[p];
    EntryIs(core.table, s.locks, core.nextIdentity, core.jobs, p);
    if entry.lockJob.listener == listener {
      var ref, job, i := JobRef(target, core.nextId[target]), LockJob(entry.identity, callback), entry.identity;
      IdsGrow(core.nextId, core.jobs, s.everQueued, target, job);
      IdsShrink(core.nextId[target := core.nextId[target] + 1], core.jobs[ref := job], s.everQueued, entry.lockJob);
      assert core.jobs[ref := job] - {entry.lockJob} == (core.jobs - {entry.lockJob})[ref := job];
      JobMoved(core.table, s.locks, core.nextIdentity, core.jobs, p, ref, callback);
      JobMovedUnseen(s.locks, s.fates, s.joins, s.flights, i, ref);
      JobMovedUntallied(s.locks, s.fates, s.notices, s.drops, s.calls, i, ref);
      JobMovedUnposted(s.posted, core.jobs, s.locks, s.queue, s.everQueued, i, ref, callback);
    }
  }

  lemma DetachOneKeeps(s: State, listener: nat, target: nat, p: Part, callback: nat)
    requires Inv(s) && target in s.core.nextId && p in s.core.table
    ensures Inv(DetachOne(s, listener, target, p, callback))
  {
    hide IdsInv, EntryInv, IdentityInv, LockJobInv, QueueInv, PostedInv, LeavingInv, FateInv, TallyInv, RightfulInv;
    hide NumberInv, ParkedInv, TransitInv, LogInv, DeferredInv, GuardInv, HoldersInv, SessionInv;
    var core, entry := s.core, s.core.table[p];
    DetachOneKeepsLocks(s, listener, target, p, callback);
    EntryIs(core.table, s.locks, core.nextIdentity, core.jobs, p);
    if entry.lockJob.listener == listener {
      var ref, i := JobRef(target, core.nextId[target]), entry.identity;
      JobMovedElsewhere(core.table, s.locks, s.requests, s.sessions, s.joins, s.usedSessions, i, ref);
      var moved := entry.(lockJob := ref);
      ParkedSame(core.table, Rejobbed(s.locks, i, ref), s.requests, p, moved);
      GuardRises(core.table, p, moved);
      HoldersSame(core.table, s.sessions, p, moved);
      NumbersKeepListeners(s.requests, s.nextRequest, core.nextId, target, core.nextId[target] + 1);
    }
  }

  lemma DetachEachKeeps(s: State, listener: nat, target: nat, order: seq<Part>, callback: nat)
    requires Inv(s) && target in s.core.nextId && InTheTable(s.core.table, order)
    ensures Inv(DetachEach(s, listener, target, order, callback))
    decreases |order|
  {
    hide Inv, DetachOne;
    if order != [] {
      DetachOneKeeps(s, listener, target, order[0], callback);
      DetachEachKeeps(DetachOne(s, listener, target, order[0], callback), listener, target, order[1..], callback);
    }
  }

  lemma RenewOneKeeps(s: State, p: Part, listener: nat, callback: nat)
    requires Inv(s) && p in s.core.table
    ensures Inv(s.(core := s.core.RenewCallback(p, listener, callback)))
  {
    hide IdsInv, EntryInv, IdentityInv, LockJobInv, QueueInv, PostedInv, LeavingInv, FateInv, TallyInv, RightfulInv;
    hide NumberInv, ParkedInv, TransitInv, LogInv, DeferredInv, GuardInv, HoldersInv, SessionInv;
    var ref := s.core.table[p].lockJob;
    if ref in s.core.jobs && s.core.jobs[ref].LockJob? {
      CallbackRenewed(s.core.nextId, s.core.jobs, s.locks, s.queue, s.everQueued, s.posted, ref, callback);
    }
  }

  lemma RenewEachKeeps(s: State, listener: nat, order: seq<Part>, callback: nat)
    requires Inv(s) && InTheTable(s.core.table, order)
    ensures Inv(s.(core := RenewEach(s.core, listener, order, callback)))
    decreases |order|
  {
    hide Inv;
    if order == [] {
      assert s.(core := s.core) == s;
    } else {
      var s1 := s.(core := s.core.RenewCallback(order[0], listener, callback));
      RenewOneKeeps(s, order[0], listener, callback);
      RenewEachKeeps(s1, listener, order[1..], callback);
    }
  }

  lemma AnswerKeeps(s: State, ref: JobRef, status: Status)
    requires Inv(s) && ref in s.queue
    ensures Inv(s.(queue := s.queue - {ref}, posted := s.posted[ref := status]))
  {
    hide IdsInv, EntryInv, IdentityInv, LockJobInv, QueueInv, PostedInv, LeavingInv, FateInv, TallyInv, RightfulInv;
    hide NumberInv, ParkedInv, TransitInv, LogInv, DeferredInv, GuardInv, HoldersInv, SessionInv;
    PlainAnswered(s.core.jobs, s.locks, s.queue, s.everQueued, s.posted, ref, status);
  }

  lemma DeliverKeeps(s: State, ref: JobRef)
    requires Inv(s) && ref in s.posted
    ensures Inv(DeliverStatus(s, ref))
  {
    hide IdsInv, EntryInv, IdentityInv, LockJobInv, QueueInv, PostedInv, LeavingInv, FateInv, TallyInv, RightfulInv;
    hide NumberInv, ParkedInv, TransitInv, LogInv, DeferredInv, GuardInv, HoldersInv, SessionInv;
    var core := s.core;
    PostedIs(s.posted, core.jobs, s.locks, s.queue, ref);
    IdsShrink(core.nextId, core.jobs, s.everQueued, ref);
    QueueJobGoes(core.jobs, s.queue, s.everQueued, ref);
    if core.jobs[ref].PlainJob? {
      PlainDelivered(core.jobs, s.locks, s.queue, s.posted, ref);
    } else {
      var i := core.jobs[ref].identity;
      FateIs(s.locks, s.fates, i);
      EntryElsewhere(core.table, s.locks, i, Gone);
      JobGoes(core.jobs, s.locks, core.nextIdentity, i);
      PostedDelivered(s.posted, core.jobs, s.locks, s.queue, i);
      LeavingElsewhere(s.flights, s.locks, s.fates, i);
      FateMoves(s.locks, s.fates, i, Gone);
      TallyCalled(s.locks, s.fates, s.notices, s.drops, s.calls, i);
      RightfulMoves(s.locks, s.fates, s.joins, i, Gone);
      SessionsSeeNoMove(s.sessions, s.locks, s.joins, s.usedSessions, i, Gone);
      ParkedSeesNoMove(core.table, s.locks, s.requests, i, Gone);
    }
  }

  lemma AllocateKeeps(s: State, l: nat)
    requires Inv(s) && l !in s.core.nextId
    ensures Inv(s.(core := s.core.(nextId := s.core.nextId[l := 1])))
  {
    hide IdsInv, EntryInv, IdentityInv, LockJobInv, QueueInv, PostedInv, LeavingInv, FateInv, TallyInv, RightfulInv;
    hide NumberInv, ParkedInv, TransitInv, LogInv, DeferredInv, GuardInv, HoldersInv, SessionInv;
    IdsAllocate(s.core.nextId, s.core.jobs, s.everQueued, l);
    NumbersKeepListeners(s.requests, s.nextRequest, s.core.nextId, l, 1);
  }

  lemma IdsAllocate(nextId: map<nat, nat>, jobs: map<JobRef, TableJob>, everQueued: set<JobRef>, l: nat)
    requires IdsInv(nextId, jobs, everQueued) && l !in nextId
    ensures IdsInv(nextId[l := 1], jobs, everQueued)
  {
  }

  lemma StepKeepsInv(s: State, step: Step)
    requires Inv(s) && CanTake(s, step)
    ensures Inv(Apply(s, step))
  {
    hide LockSide, RequestSide, SessionSide;
    match step
    case Allocate(l) => AllocateKeeps(s, l);
    case EnableIdentityMode => ModeUnseen(s, true, s.core.epochs, s.parts);
    case StorePart(p, stored) => ModeUnseen(s, s.core.identityMode, s.core.epochs, if stored.Some?
        then s.parts[p := stored.value] else s.parts - {p});
    case Receive(p, l, operation, stamp, f) => ReceiveKeeps(s,
        Request(s.nextRequest, p, s.core.Resolve(l), operation, stamp), f);
    case StartLock(p, owner, version, l, callback, epoch, f) => StartKeeps(s, p, owner, version, l, callback, epoch, f);
    case Setup(sid, p, version) => SetupKeeps(s, sid, p, version);
    case RunOpen(sid) => OpenKeeps(s, sid);
    case Adopt(sid, f) => AdoptKeeps(s, sid, f);
    case EndSession(sid, status, f) => CloseKeeps(s, sid, status, f);
    case EraseLock(p, owner, f) =>
      if s.core.MayRelease(p, Some(owner), None) {
        TakeOutKeeps(s, p, f, Erased(owner, s.core.identityMode), Nothing, Drop(s.core.table[p].lockJob));
      }
    case FollowVersion(p, owner, version) => FollowKeeps(s, p, owner, version);
    case Detach(l, target, order, callback) =>
      ModeUnseen(s, s.core.identityMode, s.core.NextEpoch(l).epochs, s.parts);
      DetachEachKeeps(s.(core := s.core.NextEpoch(l)), l, target, order, callback);
    case RenewCallbacks(l, order, callback) =>
      ModeUnseen(s, s.core.identityMode, s.core.NextEpoch(l).epochs, s.parts);
      RenewEachKeeps(s.(core := s.core.NextEpoch(l)), l, order, callback);
    case ActBefore(f) => ActBeforeKeeps(s, f);
    case AddHead(f) => HeadKeeps(s, f);
    case UndeferHead(f) => UncountKeeps(s, f);
    case ActAfter(f) => ActAfterKeeps(s, f);
    case AddStraight(f) => StraightKeeps(s, f);
    case Answer(ref, status) => AnswerKeeps(s, ref, status);
    case Deliver(ref) => DeliverKeeps(s, ref);
  }

  lemma ModeUnseen(s: State, identityMode: bool, epochs: map<nat, nat>, parts: map<Part, nat>)
    requires Inv(s)
    ensures Inv(s.(core := s.core.(identityMode := identityMode, epochs := epochs), parts := parts))
  {
    hide IdsInv, EntryInv, IdentityInv, LockJobInv, QueueInv, PostedInv, LeavingInv, FateInv, TallyInv, RightfulInv;
    hide NumberInv, ParkedInv, TransitInv, LogInv, DeferredInv, GuardInv, HoldersInv, SessionInv;
  }

  lemma InitInv(s: State)
    requires Init(s)
    ensures Inv(s)
  {
    forall l: nat
      ensures Waiting(s.requests, l) == {}
    {
    }
  }

  lemma {:induction false} InvHolds(run: seq<State>, steps: seq<Step>, i: nat)
    requires IsRun(run, steps) && i < |run|
    ensures Inv(run[i])
  {
    hide Inv, Apply, CanTake;
    if i == 0 {
      InitInv(run[0]);
    } else {
      InvHolds(run, steps, i - 1);
      assert CanTake(run[i - 1], steps[i - 1]) && run[i - 1 + 1] == Apply(run[i - 1], steps[i - 1]);
      StepKeepsInv(run[i - 1], steps[i - 1]);
    }
  }
}
