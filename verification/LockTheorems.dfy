/** What the chunk lock manager guarantees over whole runs. */
module LockTheorems {
  import opened Common
  import opened ChunkLocks
  import opened LockProtocol
  import opened LockInvariants
  import opened LockSteps

  // Lock jobs.

  ghost predicate EntriesNameJobs(table: map<Part, Entry>, jobs: map<JobRef, TableJob>, everQueued: set<JobRef>) {
    && (forall p :: p in table ==> table[p].lockJob in jobs && jobs[table[p].lockJob].LockJob?)
    && (forall p, q :: p in table && q in table && p != q ==> table[p].lockJob != table[q].lockJob)
    && (forall p :: p in table ==> table[p].lockJob !in everQueued)
  }

  /** Every entry names its own present lock job, and no job a worker could ever have taken is one. */
  lemma EachLockHasItsOwnJob(run: seq<State>, steps: seq<Step>, i: nat)
    requires IsRun(run, steps) && i < |run|
    ensures EntriesNameJobs(run[i].core.table, run[i].core.jobs, run[i].everQueued)
  {
    hide CanTake, Apply;
    InvHolds(run, steps, i);
    EntriesHaveJobs(run[i]);
  }

  lemma EntriesHaveJobs(s: State)
    requires Inv(s)
    ensures EntriesNameJobs(s.core.table, s.core.jobs, s.everQueued)
  {
    hide QueueInv, PostedInv, LeavingInv, FateInv, TallyInv, RightfulInv;
    hide NumberInv, ParkedInv, TransitInv, LogInv, DeferredInv, GuardInv, HoldersInv, SessionInv;
    forall p | p in s.core.table
      ensures s.core.table[p].lockJob !in s.everQueued
    {
      LockJobNotQueued(s.core.jobs, s.locks, s.queue, s.everQueued, s.core.table[p].identity);
    }
  }

  // Detaching.

  /** The step may put a lock job on the listener. */
  predicate MayGiveLock(s: State, step: Step, listener: nat) {
    match step
    case StartLock(_, _, _, l, _, epoch, _) => s.core.Resolve(l) == listener
        && (epoch.None? || epoch.value == s.core.Epoch(listener))
    case Detach(_, target, _, _) => target == listener
    case _ => false
  }

  predicate OwnsNothing(table: map<Part, Entry>, listener: nat) {
    forall p :: p in table ==> table[p].lockJob.listener != listener
  }

  lemma DetachOneEffect(s: State, listener: nat, target: nat, p: Part, callback: nat)
    requires target in s.core.nextId && p in s.core.table && listener != target
    requires s.core.table[p].lockJob in s.core.jobs && s.core.jobs[s.core.table[p].lockJob].LockJob?
    ensures var s' := DetachOne(s, listener, target, p, callback);
            && s'.core.table[p].lockJob.listener != listener
            && forall q :: q in s.core.table && q != p ==> s'.core.table[q] == s.core.table[q]
  {
  }

  /** Detaching moves the lock job of every part named and gives the listener none. */
  lemma {:induction false} DetachEachEffect(s: State, listener: nat, target: nat, order: seq<Part>, callback: nat)
    requires Inv(s) && target in s.core.nextId && InTheTable(s.core.table, order) && listener != target
    ensures var s' := DetachEach(s, listener, target, order, callback);
            && s'.core.table.Keys == s.core.table.Keys
            && (forall p :: p in order ==> s'.core.table[p].lockJob.listener != listener)
            && (forall p :: p in s.core.table && s.core.table[p].lockJob.listener != listener ==>
                s'.core.table[p].lockJob.listener != listener)
    decreases |order|
  {
    hide Inv, DetachOne;
    if order != [] {
      var s1 := DetachOne(s, listener, target, order[0], callback);
      EntriesHaveJobs(s);
      DetachOneEffect(s, listener, target, order[0], callback);
      DetachOneKeeps(s, listener, target, order[0], callback);
      DetachEachEffect(s1, listener, target, order[1..], callback);
    }
  }

  lemma {:induction false} OthersDetached(s: State, listener: nat, target: nat, order: seq<Part>, callback: nat,
      other: nat)
    requires target in s.core.nextId && InTheTable(s.core.table, order) && other != target
        && OwnsNothing(s.core.table, other)
    ensures OwnsNothing(DetachEach(s, listener, target, order, callback).core.table, other)
    decreases |order|
  {
    if order != [] {
      OthersDetached(DetachOne(s, listener, target, order[0], callback), listener, target, order[1..], callback, other);
    }
  }

  lemma {:induction false} RenewKeepsTable(core: Core, listener: nat, order: seq<Part>, callback: nat)
    requires InTheTable(core.table, order)
    ensures RenewEach(core, listener, order, callback).table == core.table
    ensures RenewEach(core, listener, order, callback).epochs == core.epochs
    decreases |order|
  {
    if order != [] {
      RenewKeepsTable(core.RenewCallback(order[0], listener, callback), listener, order[1..], callback);
    }
  }

  /** No connection closed, and no lock job came or moved. */
  ghost predicate LockJobsStay(core: Core, core': Core) {
    core'.epochs == core.epochs && JobsStay(core.table, core'.table)
  }

  ghost predicate JobsStay(table: map<Part, Entry>, table': map<Part, Entry>) {
    forall p :: p in table' ==> p in table && table'[p].lockJob == table[p].lockJob
  }

  lemma TakeOutStays(s: State, p: Part, f: nat, fate: Fate, before: Act, after: Act)
    requires p in s.core.table
    ensures LockJobsStay(s.core, TakeOut(s, p, f, fate, before, after).core)
  {
  }

  lemma EnforceStays(core: Core, p: Part, version: nat)
    ensures LockJobsStay(core, core.Enforce(p, version)) && LockJobsStay(core, core)
  {
  }

  lemma ReserveStays(core: Core, p: Part, version: nat)
    ensures LockJobsStay(core, core.Reserve(p, version))
  {
  }

  lemma ParkStays(core: Core, r: Request)
    requires r.part in core.table
    ensures LockJobsStay(core, core.Park(r))
  {
  }

  lemma OpenStays(s: State, sid: nat, session: Session)
    requires session.Opening?
    ensures LockJobsStay(s.core, OpenSession(s, sid, session).core)
  {
    hide LockJobsStay;
    EnforceStays(s.core, session.part, session.version);
    assert OpenSession(s, sid, session).core in {s.core, s.core.Enforce(session.part, session.version)};
  }

  lemma AdoptStays(s: State, sid: nat, session: Session, f: nat)
    requires session.Opened?
    ensures LockJobsStay(s.core, AdoptLock(s, sid, session, f).core)
  {
  }

  lemma CloseStays(s: State, sid: nat, session: Session, status: Status, f: nat)
    requires session.Settled?
    ensures LockJobsStay(s.core, CloseSession(s, sid, session, status, f).core)
  {
    hide TakeOut;
    if session.lock != 0 && s.core.MayRelease(session.part, None, Some(session.lock)) {
      TakeOutStays(s.(sessions := s.sessions - {sid}), session.part, f, Ended(sid, s.core.identityMode), Nothing,
          Notify(s.core.table[session.part].lockJob, status));
    }
  }

  lemma SetupStays(s: State, sid: nat, p: Part, version: nat)
    ensures LockJobsStay(s.core, SetupSession(s, sid, p, version).core)
  {
    hide LockJobsStay;
    if s.core.identityMode {
      assert SetupSession(s, sid, p, version).core == s.core.Reserve(p, version);
      ReserveStays(s.core, p, version);
    } else {
      assert SetupSession(s, sid, p, version).core == s.core.Enforce(p, version);
      EnforceStays(s.core, p, version);
    }
  }

  lemma ReceiveStays(s: State, r: Request, f: nat)
    ensures LockJobsStay(s.core, ReceiveRequest(s, r, f).core)
  {
    hide LockJobsStay, Core.Park;
    EnforceStays(s.core, 0, 0);
    if s.core.Holds(r.part) {
      ParkStays(s.core, r);
    }
  }

  lemma PerformStays(s: State, lock: nat, act: Act)
    requires lock in s.locks
    ensures LockJobsStay(s.core, Perform(s, lock, act).core)
  {
  }

  lemma DeliverStays(s: State, ref: JobRef)
    ensures LockJobsStay(s.core, DeliverStatus(s, ref).core)
  {
  }

  lemma StepStays(s: State, step: Step)
    requires CanTake(s, step) && !step.StartLock? && !step.Detach? && !step.RenewCallbacks?
    ensures LockJobsStay(s.core, Apply(s, step).core)
  {
    hide TakeOut, OpenSession, AdoptLock, CloseSession, SetupSession, ReceiveRequest, Perform, DeliverStatus;
    match step
    case Receive(p, l, operation, stamp, f) => ReceiveStays(s,
        Request(s.nextRequest, p, s.core.Resolve(l), operation, stamp), f);
    case Setup(sid, p, version) => SetupStays(s, sid, p, version);
    case RunOpen(sid) => OpenStays(s, sid, s.sessions[sid]);
    case Adopt(sid, f) => AdoptStays(s, sid, s.sessions[sid], f);
    case EndSession(sid, status, f) => CloseStays(s, sid, s.sessions[sid], status, f);
    case EraseLock(p, owner, f) =>
      if s.core.MayRelease(p, Some(owner), None) {
        TakeOutStays(s, p, f, Erased(owner, s.core.identityMode), Nothing, Drop(s.core.table[p].lockJob));
      }
    case ActBefore(f) => PerformStays(s, s.flights[f].lock, s.flights[f].before);
    case ActAfter(f) => PerformStays(s, s.flights[f].lock, s.flights[f].after);
    case Deliver(ref) => DeliverStays(s, ref);
    case Allocate(_) =>
    case EnableIdentityMode =>
    case StorePart(_, _) =>
    case FollowVersion(_, _, _) =>
    case AddHead(_) =>
    case UndeferHead(_) =>
    case AddStraight(_) =>
    case Answer(_, _) =>
  }

  lemma StartEffect(s: State, p: Part, owner: nat, version: nat, l: nat, callback: nat, f: nat)
    requires l in s.core.nextId
    ensures var s' := InstallLock(ReplaceLock(s, p, owner, version, f), p, owner, version, l, callback);
            && s'.core.epochs == s.core.epochs && p in s'.core.table && s'.core.table[p].lockJob.listener == l
            && forall q :: q in s'.core.table && q != p ==> q in s.core.table && s'.core.table[q] == s.core.table[q]
  {
  }

  lemma StepGivesNoLock(s: State, step: Step, listener: nat)
    requires CanTake(s, step) && OwnsNothing(s.core.table, listener) && !MayGiveLock(s, step, listener)
    ensures OwnsNothing(Apply(s, step).core.table, listener)
  {
    if step.Detach? {
      OthersDetached(s.(core := s.core.NextEpoch(step.listener)), step.listener, step.target, step.order,
          step.callback, listener);
    } else if step.RenewCallbacks? {
      RenewKeepsTable(s.core.NextEpoch(step.listener), step.listener, step.order, step.callback);
    } else if step.StartLock? {
      hide InstallLock, ReplaceLock;
      var l := s.core.Resolve(step.listener);
      if s.core.StartVerdict(step.part, step.owner, step.version, l, step.epoch) == Installed {
        StartEffect(s, step.part, step.owner, step.version, l, step.callback, step.flight);
      }
    } else {
      hide Apply, CanTake;
      StepStays(s, step);
    }
  }

  /** Epochs of connections only grow. */
  lemma EpochsGrow(s: State, step: Step, listener: nat)
    requires CanTake(s, step)
    ensures s.core.Epoch(listener) <= Apply(s, step).core.Epoch(listener)
    ensures step.Detach? && step.listener == listener ==> s.core.Epoch(listener) < Apply(s, step).core.Epoch(listener)
  {
    if step.Detach? {
      DetachKeepsEpochs(s.(core := s.core.NextEpoch(step.listener)), step.listener, step.target, step.order,
          step.callback);
    } else if step.RenewCallbacks? {
      RenewKeepsTable(s.core.NextEpoch(step.listener), step.listener, step.order, step.callback);
    } else if step.StartLock? {
      hide InstallLock, ReplaceLock;
      var l := s.core.Resolve(step.listener);
      if s.core.StartVerdict(step.part, step.owner, step.version, l, step.epoch) == Installed {
        StartEffect(s, step.part, step.owner, step.version, l, step.callback, step.flight);
      }
    } else {
      hide Apply, CanTake;
      StepStays(s, step);
    }
  }

  lemma {:induction false} DetachKeepsEpochs(s: State, listener: nat, target: nat, order: seq<Part>, callback: nat)
    requires target in s.core.nextId && InTheTable(s.core.table, order)
    ensures DetachEach(s, listener, target, order, callback).core.epochs == s.core.epochs
    decreases |order|
  {
    if order != [] {
      DetachKeepsEpochs(DetachOne(s, listener, target, order[0], callback), listener, target, order[1..], callback);
    }
  }

  lemma {:induction false} EpochsOnlyGrow(run: seq<State>, steps: seq<Step>, i: nat, j: nat, listener: nat)
    requires IsRun(run, steps) && i <= j < |run|
    ensures run[i].core.Epoch(listener) <= run[j].core.Epoch(listener)
    decreases j - i
  {
    hide Apply, CanTake;
    if i < j {
      EpochsOnlyGrow(run, steps, i, j - 1, listener);
      assert CanTake(run[j - 1], steps[j - 1]) && run[j - 1 + 1] == Apply(run[j - 1], steps[j - 1]);
      EpochsGrow(run[j - 1], steps[j - 1], listener);
    }
  }

  /** A start of a lock for the listener was sent over a connection whose epoch was read at state `k`, or before. Starts
      for other listeners are free. */
  predicate SentBy(run: seq<State>, m: nat, step: Step, listener: nat, k: nat)
    requires k < |run| && m < |run|
  {
    step.StartLock? && run[m].core.Resolve(step.listener) == listener ==>
      step.epoch.Some? && step.epoch.value <= run[k].core.Epoch(listener)
  }

  /** Once a closed connection's locks are detached the listener owns none, and gets none from starts that
      the closed connection sent; only a new connection's lock or another detach can give it one. */
  lemma {:induction false} DetachedListenerStaysEmpty(run: seq<State>, steps: seq<Step>, k: nat, j: nat)
    requires IsRun(run, steps) && k < j < |run| && steps[k].Detach?
    requires forall p :: p in LocksOf(run[k].core.table, steps[k].listener) ==> p in steps[k].order
    requires forall m :: k < m < j ==>
               SentBy(run, m, steps[m], steps[k].listener, k)
                   && !(steps[m].Detach? && steps[m].target == steps[k].listener)
    ensures LocksOf(run[j].core.table, steps[k].listener) == {}
  {
    DetachedOwnsNothing(run, steps, k, j);
  }

  lemma {:induction false} DetachedOwnsNothing(run: seq<State>, steps: seq<Step>, k: nat, j: nat)
    requires IsRun(run, steps) && k < j < |run| && steps[k].Detach?
    requires forall p :: p in LocksOf(run[k].core.table, steps[k].listener) ==> p in steps[k].order
    requires forall m :: k < m < j ==>
               SentBy(run, m, steps[m], steps[k].listener, k)
                   && !(steps[m].Detach? && steps[m].target == steps[k].listener)
    ensures OwnsNothing(run[j].core.table, steps[k].listener)
    decreases j
  {
    hide Inv, Apply, CanTake, LocksOf, OwnsNothing;
    var listener := steps[k].listener;
    assert CanTake(run[k], steps[k]) && run[k + 1] == Apply(run[k], steps[k]);
    EpochsGrow(run[k], steps[k], listener);
    if j == k + 1 {
      InvHolds(run, steps, k);
      DetachEmpties(run[k], steps[k]);
    } else {
      DetachedOwnsNothing(run, steps, k, j - 1);
      var s, step := run[j - 1], steps[j - 1];
      assert CanTake(s, step) && run[j - 1 + 1] == Apply(s, step) && SentBy(run, j - 1, step, listener, k);
      EpochsOnlyGrow(run, steps, k + 1, j - 1, listener);
      StepGivesNoLock(s, step, listener);
    }
  }

  lemma DetachEmpties(s: State, step: Step)
    requires Inv(s) && step.Detach? && CanTake(s, step)
    requires forall p :: p in LocksOf(s.core.table, step.listener) ==> p in step.order
    ensures OwnsNothing(Apply(s, step).core.table, step.listener)
  {
    hide Inv, DetachEach;
    var s1 := s.(core := s.core.NextEpoch(step.listener));
    ModeUnseen(s, s.core.identityMode, s.core.NextEpoch(step.listener).epochs, s.parts);
    DetachEachEffect(s1, step.listener, step.target, step.order, step.callback);
    var s' := DetachEach(s1, step.listener, step.target, step.order, step.callback);
    forall p | p in s'.core.table
      ensures s'.core.table[p].lockJob.listener != step.listener
    {
      assert p in s.core.table.Keys;
      assert p in LocksOf(s.core.table, step.listener) || s1.core.table[p].lockJob.listener != step.listener;
    }
  }
}
