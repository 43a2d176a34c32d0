/** Safety of the maintenance fence over whole runs of the job pools: what an acknowledged fence
    guarantees, and what a replaced fence leaves behind. */
module FenceProtocol {
  import opened Common
  import opened Fencing
  import opened JobPools
  import opened JobLifecycle

  // running_ is exactly the multiset of stamps between start() and end().

  ghost function Accounted(workers: map<WorkerId, Worker>, stamp: Stamp): set<WorkerId> {
    set w | w in workers && workers[w].Executing? && workers[w].fenced && workers[w].stamp == stamp
  }

  ghost predicate RunningInv(fence: Fence, workers: map<WorkerId, Worker>) {
    forall stamp :: fence.Count(stamp) == |Accounted(workers, stamp)|
  }

  lemma WorkerUpdate(workers: map<WorkerId, Worker>, w: WorkerId, worker: Worker, stamp: Stamp)
    requires w in Accounted(workers, stamp) ==> worker.Executing? && worker.fenced && worker.stamp == stamp
    ensures var more := worker.Executing? && worker.fenced && worker.stamp == stamp && w !in Accounted(workers, stamp);
            |Accounted(workers[w := worker], stamp)| == |Accounted(workers, stamp)| + if more then 1 else 0
  {
    var more := worker.Executing? && worker.fenced && worker.stamp == stamp && w !in Accounted(workers, stamp);
    if more {
      assert Accounted(workers[w := worker], stamp) == Accounted(workers, stamp) + {w};
    } else {
      assert Accounted(workers[w := worker], stamp) == Accounted(workers, stamp);
    }
  }

  lemma WorkerStops(workers: map<WorkerId, Worker>, workers': map<WorkerId, Worker>, w: WorkerId, stamp: Stamp)
    requires workers' == workers - {w} || exists k, status :: workers' == workers[w := Answering(k, status)]
    ensures |Accounted(workers', stamp)| == |Accounted(workers, stamp)| - if w in Accounted(workers, stamp) then 1
        else 0
  {
    assert Accounted(workers', stamp) == Accounted(workers, stamp) - {w};
  }

  lemma RunningStarts(fence: Fence, workers: map<WorkerId, Worker>, w: WorkerId, k: Key, stamp: Stamp, fenced: bool)
    requires RunningInv(fence, workers) && fence.Valid() && w in workers && workers[w].Taken?
        && (fenced ==> fence.Admits(stamp))
    ensures RunningInv(if fenced then fence.Started(stamp) else fence, workers[w := Executing(k, stamp, fenced)])
  {
    forall other { WorkerUpdate(workers, w, Executing(k, stamp, fenced), other); }
  }

  lemma RunningEnds(fence: Fence, workers: map<WorkerId, Worker>, w: WorkerId, status: Status)
    requires RunningInv(fence, workers) && fence.Valid() && w in workers && workers[w].Executing?
    ensures RunningInv(if workers[w].fenced then fence.Ended(workers[w].stamp)
        else fence, workers[w := Answering(workers[w].key, status)])
  {
    var workers' := workers[w := Answering(workers[w].key, status)];
    if workers[w].fenced {
      assert w in Accounted(workers, workers[w].stamp);
      assert fence.Count(workers[w].stamp) > 0;
    }
    forall stamp
      ensures |Accounted(workers', stamp)| == |Accounted(workers, stamp)| - if w in Accounted(workers, stamp) then 1
          else 0
    {
      WorkerStops(workers, workers', w, stamp);
    }
  }

  lemma RunningUnaffected(fence: Fence, fence': Fence, workers: map<WorkerId, Worker>, w: WorkerId, worker: Worker)
    requires RunningInv(fence, workers) && fence'.running == fence.running && !worker.Executing?
    requires w in workers ==> !workers[w].Executing?
    ensures RunningInv(fence', workers) && RunningInv(fence', workers[w := worker]) && RunningInv(fence', workers - {w})
  {
    forall stamp
      ensures Accounted(workers[w := worker], stamp) == Accounted(workers, stamp) == Accounted(workers - {w}, stamp)
      ensures fence'.Count(stamp) == fence.Count(stamp)
    {
    }
  }

  lemma StepKeepsRunning(s: System, step: Step)
    requires s.fence.Valid() && RunningInv(s.fence, s.workers) && CanTake(s, step)
    requires step.Claim? ==> !s.jobs[s.workers[step.worker].key].state.InProgress?
    ensures RunningInv(Apply(s, step).fence, Apply(s, step).workers)
  {
    hide RunningInv;
    match step
    case FenceCall(_, _) => FenceStepKeepsRunning(s, step);
    case CloseConnection(_) => FenceStepKeepsRunning(s, step);
    case EnableTracking => FenceStepKeepsRunning(s, step);
    case Take(w, k) => RunningUnaffected(s.fence, s.fence, s.workers, w, Taken(k));
    case Claim(w) =>
      var job := s.jobs[s.workers[w].key];
      if ClaimSucceeds(s, job) {
        RunningStarts(s.fence, s.workers, w, s.workers[w].key, job.stamp, ClaimedUnderFence(s, job));
      } else {
        RunningUnaffected(s.fence, s.fence, s.workers, w, Answering(s.workers[w].key, NOTDONE));
      }
    case Finish(w, status) => RunningEnds(s.fence, s.workers, w, status);
    case Answer(w) => RunningUnaffected(s.fence, s.fence, s.workers, w, s.workers[w]);
    case _ =>
  }

  lemma FenceStepKeepsRunning(s: System, step: Step)
    requires RunningInv(s.fence, s.workers) && CanTake(s, step)
        && (step.FenceCall? || step.CloseConnection? || step.EnableTracking?)
    ensures RunningInv(Apply(s, step).fence, s.workers)
  {
    var fence' := Apply(s, step).fence;
    assert fence'.running == s.fence.running;
    forall stamp
      ensures fence'.Count(stamp) == s.fence.Count(stamp)
    {
    }
  }

  lemma NothingRunsAtFirst(s: System)
    requires Init(s)
    ensures RunningInv(s.fence, s.workers)
  {
    forall stamp ensures Accounted(s.workers, stamp) == {} {}
  }

  lemma {:induction false} RunningHolds(run: seq<System>, i: nat)
    requires IsFullRun(run) && i < |run|
    ensures RunningInv(run[i].fence, run[i].workers)
  {
    hide Inv, Apply, RunningInv;
    if i == 0 {
      NothingRunsAtFirst(run[0]);
    } else {
      RunningHolds(run, i - 1);
      InvHolds(run, i - 1);
      assert Next(run[i - 1], run[i - 1 + 1]);
      var step :| CanTake(run[i - 1], step) && run[i] == Apply(run[i - 1], step);
      FenceIsValid(run[i - 1]);
      if step.Claim? { UnclaimedIsUnstarted(run[i - 1], step.worker); }
      StepKeepsRunning(run[i - 1], step);
    }
  }

  // Acknowledged fences.

  /** A replicate or delete of a metadata server is being executed by the worker. */
  ghost predicate Maintains(s: System, w: WorkerId) {
    && w in s.workers && s.workers[w].Executing? && s.workers[w].key in s.jobs
    && var op := s.jobs[s.workers[w].key].operation; (op.Replicate? || op.Delete?) && s.workers[w].stamp != OWN_WORK
  }

  /** No metadata server's replicate or delete escapes the accounting. */
  ghost predicate FullyTracked(s: System) {
    s.fence.tracking && forall w :: Maintains(s, w) ==> s.workers[w].fenced
  }

  /** Every metadata server's replicate or delete being executed carries the stamp. */
  ghost predicate ExclusiveTo(s: System, stamp: Stamp) {
    forall w :: Maintains(s, w) ==> s.workers[w].stamp == stamp
  }

  lemma UntouchedMaintenance(s: System, s': System)
    requires forall w :: w in s'.workers && s'.workers[w].Executing? ==>
               w in s.workers && s'.workers[w] == s.workers[w] && s.workers[w].key in s.jobs
    requires forall k :: k in s'.jobs && k in s.jobs ==> s'.jobs[k].operation == s.jobs[k].operation
    ensures forall w :: Maintains(s', w) ==> Maintains(s, w) && s'.workers[w] == s.workers[w]
  {
  }

  lemma ExecutingIsInTable(s: System)
    requires Inv(s)
    ensures forall w :: w in s.workers && s.workers[w].Executing? ==> s.workers[w].key in s.jobs
  {
  }

  // What each step leaves alone.

  /** The job and its number keep their meaning, and the fence its pair. */
  ghost predicate Frame(s: System, s': System, k: Key) {
    && (k in s.jobs && k in s'.jobs ==>
        s'.jobs[k].operation == s.jobs[k].operation && s'.jobs[k].stamp == s.jobs[k].stamp)
    && (k !in s.jobs ==> k !in s'.jobs) && (Issued(s.listeners, k) ==> Issued(s'.listeners, k))
    && s'.fence.pair == s.fence.pair && s'.fence.epochs == s.fence.epochs && s'.fence.tracking == s.fence.tracking
  }

  lemma InsertFrame(s: System, a: Arrival, k: Key)
    requires a.slot in s.listeners
    ensures var s' := InsertJob(s, a);
            && (k != Key(a.slot, s.listeners[a.slot].nextId) ==> Frame(s, s', k)) && s'.ran == s.ran
                && s'.fence == s.fence
            && (Issued(s.listeners, k) ==> Issued(s'.listeners, k))
  {
  }

  lemma TakeFrame(s: System, w: WorkerId, key: Key, k: Key)
    ensures Frame(s, TakeJob(s, w, key), k) && TakeJob(s, w, key).ran == s.ran
  {
  }

  lemma ClaimFrame(s: System, w: WorkerId, key: Key, k: Key)
    requires key in s.jobs
    ensures var s' := ClaimJob(s, w, key);
            && Frame(s, s', k)
            && (k !in s.ran && (key == k ==> !ClaimSucceeds(s, s.jobs[k]) && !s.jobs[k].state.InProgress?) ==>
                k !in s'.ran)
  {
    hide ClaimJob, Frame;
    if s.jobs[key].state.InProgress? {
      ReclaimFrame(s, w, key, k);
    } else if ClaimSucceeds(s, s.jobs[key]) {
      StartFrame(s, w, key, k);
    } else {
      RefuseFrame(s, w, key, k);
    }
  }

  lemma ReclaimFrame(s: System, w: WorkerId, key: Key, k: Key)
    requires key in s.jobs && s.jobs[key].state.InProgress?
    ensures Frame(s, ClaimJob(s, w, key), k) && (k != key && k !in s.ran ==> k !in ClaimJob(s, w, key).ran)
  {
  }

  lemma StartFrame(s: System, w: WorkerId, key: Key, k: Key)
    requires key in s.jobs && !s.jobs[key].state.InProgress? && ClaimSucceeds(s, s.jobs[key])
    ensures Frame(s, ClaimJob(s, w, key), k) && (k != key && k !in s.ran ==> k !in ClaimJob(s, w, key).ran)
  {
    hide Fence.Started, ClaimSucceeds;
    StartKeepsPair(s.fence, s.jobs[key].stamp);
  }

  lemma RefuseFrame(s: System, w: WorkerId, key: Key, k: Key)
    requires key in s.jobs && !s.jobs[key].state.InProgress? && !ClaimSucceeds(s, s.jobs[key])
    ensures Frame(s, ClaimJob(s, w, key), k) && ClaimJob(s, w, key).ran == s.ran
  {
    hide ClaimSucceeds;
  }

  lemma StartKeepsPair(f: Fence, stamp: Stamp)
    ensures f.Started(stamp).pair == f.pair && f.Started(stamp).epochs == f.epochs
        && f.Started(stamp).tracking == f.tracking
    ensures f.Ended(stamp).pair == f.pair && f.Ended(stamp).epochs == f.epochs && f.Ended(stamp).tracking == f.tracking
  {
  }

  lemma FinishFrame(s: System, w: WorkerId, worker: Worker, status: Status, k: Key)
    requires worker.Executing?
    ensures Frame(s, FinishJob(s, w, worker, status), k) && FinishJob(s, w, worker, status).ran == s.ran
  {
    hide Fence.Ended;
    StartKeepsPair(s.fence, worker.stamp);
  }

  lemma AnswerFrame(s: System, w: WorkerId, key: Key, status: Status, k: Key)
    requires key.slot in s.listeners
    ensures Frame(s, SendStatus(s, w, key, status), k) && SendStatus(s, w, key, status).ran == s.ran
  {
  }

  lemma MatchFrame(s: System, d: nat, slot: Slot, k: Key)
    requires slot in s.listeners && s.listeners[slot].statuses != []
    ensures Frame(s, ReceiveStatus(s, d, slot), k) && ReceiveStatus(s, d, slot).ran == s.ran
  {
  }

  lemma FireFrame(s: System, d: nat, key: Key, status: Status, k: Key)
    ensures Frame(s, FireCallback(s, d, key, status), k) && FireCallback(s, d, key, status).ran == s.ran
  {
  }

  lemma ReturnFrame(s: System, d: nat, key: Key, k: Key)
    ensures Frame(s, CallbackReturns(s, d, key), k) && CallbackReturns(s, d, key).ran == s.ran
  {
  }

  lemma TableFrame(jobs: map<Key, Job>, slot: Slot, callback: Option<nat>, k: Key)
    ensures k in DisabledTable(jobs, slot, callback) <==> k in jobs
    ensures k in jobs ==> var job := DisabledTable(jobs, slot, callback)[k];
            job.operation == jobs[k].operation && job.stamp == jobs[k].stamp
  {
  }

  predicate LeavesTable(step: Step) {
    !step.Insert? && !step.Claim? && !step.Fire? && !step.Disable? && !step.DisableAll? && !step.ChangeCallback?
  }

  lemma TableIsKept(s: System, step: Step)
    requires CanTake(s, step) && LeavesTable(step)
    ensures Apply(s, step).jobs == s.jobs
  {
  }

  lemma OperationIsKept(s: System, step: Step, k: Key)
    requires CanTake(s, step) && k in s.jobs && (step.Insert? ==>
        Key(step.arrival.slot, s.listeners[step.arrival.slot].nextId) != k)
    ensures var s' := Apply(s, step);
            k in s'.jobs ==> s'.jobs[k].operation == s.jobs[k].operation && s'.jobs[k].stamp == s.jobs[k].stamp
  {
    if LeavesTable(step) {
      hide Apply;
      TableIsKept(s, step);
    } else {
      hide DisabledTable, InsertJob, ClaimJob, FireCallback;
      match step
      case Insert(arrival) => InsertFrame(s, arrival, k);
      case Claim(w) => ClaimFrame(s, w, s.workers[w].key, k);
      case Fire(d) => FireFrame(s, d, s.drainers[d].key, s.drainers[d].status, k);
      case Disable(_) =>
      case DisableAll(slot, callback) => TableFrame(s.jobs, slot, callback, k);
      case ChangeCallback(_, _) =>
    }
  }

  lemma ExecutionsAreKept(s: System, step: Step)
    requires CanTake(s, step) && !step.Claim?
    ensures var s' := Apply(s, step);
            forall w :: w in s'.workers && s'.workers[w].Executing? ==> w in s.workers && s'.workers[w] == s.workers[w]
  {
  }

  /** Any step but a claim: the maintenance being executed afterwards was executed before. */
  lemma OtherStepsStartNothing(s: System, step: Step)
    requires Inv(s) && CanTake(s, step) && !step.Claim?
    ensures var s' := Apply(s, step); forall w :: Maintains(s', w) ==> Maintains(s, w) && s'.workers[w] == s.workers[w]
  {
    hide Inv, Apply;
    if step.Insert? { NewKeyIsNew(s, step.arrival.slot); }
    ExecutingIsInTable(s);
    ExecutionsAreKept(s, step);
    var s' := Apply(s, step);
    forall k | k in s'.jobs && k in s.jobs
      ensures s'.jobs[k].operation == s.jobs[k].operation
    {
      OperationIsKept(s, step, k);
    }
    UntouchedMaintenance(s, s');
  }

  lemma ClaimStartsAdmitted(s: System, w: WorkerId)
    requires w in s.workers && s.workers[w].Taken? && s.workers[w].key in s.jobs
        && !s.jobs[s.workers[w].key].state.InProgress?
    ensures var s' := ClaimJob(s, w, s.workers[w].key);
            forall v :: Maintains(s', v) ==>
              if v != w then Maintains(s, v) && s'.workers[v] == s.workers[v]
              else s'.workers[w].fenced == s.fence.tracking && (s.fence.tracking ==>
                      s.fence.Admits(s'.workers[w].stamp))
  {
  }

  lemma ClaimIs(s: System, w: WorkerId)
    requires CanTake(s, Claim(w))
    ensures Apply(s, Claim(w)) == ClaimJob(s, w, s.workers[w].key)
  {
  }

  lemma StepKeepsTracked(s: System, step: Step)
    requires Inv(s) && CanTake(s, step) && FullyTracked(s)
    ensures FullyTracked(Apply(s, step))
  {
    hide Inv, Apply;
    OnlyFenceCallsMoveThePair(s, step);
    if step.Claim? {
      UnclaimedIsUnstarted(s, step.worker);
      ClaimStartsAdmitted(s, step.worker);
      ClaimIs(s, step.worker);
    } else {
      OtherStepsStartNothing(s, step);
    }
  }

  lemma StepKeepsExclusive(s: System, step: Step, stamp: Stamp)
    requires Inv(s) && CanTake(s, step) && s.fence.tracking && s.fence.pair == Some(stamp) && ExclusiveTo(s, stamp)
    ensures ExclusiveTo(Apply(s, step), stamp)
  {
    hide Inv;
    if step.Claim? {
      UnclaimedIsUnstarted(s, step.worker);
      ClaimStartsAdmitted(s, step.worker);
    } else {
      OtherStepsStartNothing(s, step);
    }
  }

  lemma {:induction false} TrackedForGood(run: seq<System>, i: nat, j: nat)
    requires IsFullRun(run) && i <= j < |run| && FullyTracked(run[i])
    ensures FullyTracked(run[j])
  {
    hide Inv, Apply;
    if i < j {
      TrackedForGood(run, i, j - 1);
      InvHolds(run, j - 1);
      assert Next(run[j - 1], run[j - 1 + 1]);
      var step :| CanTake(run[j - 1], step) && run[j] == Apply(run[j - 1], step);
      StepKeepsTracked(run[j - 1], step);
    }
  }

  /** What othersRunning() decides: whether all tracked maintenance carries the stamp. */
  lemma OthersRunningDecidesExclusive(s: System, stamp: Stamp)
    requires RunningInv(s.fence, s.workers) && s.fence.Valid() && FullyTracked(s) && !s.fence.OthersRunning(stamp)
    ensures ExclusiveTo(s, stamp)
  {
    forall w | Maintains(s, w)
      ensures s.workers[w].stamp == stamp
    {
      var other := s.workers[w].stamp;
      assert w in Accounted(s.workers, other);
      assert s.fence.Count(other) > 0;
      assert other in s.fence.running && s.fence.running[other] != 0;
    }
  }

  lemma {:induction false} ExclusiveUntilPairChanges(run: seq<System>, start: nat, i: nat, j: nat, stamp: Stamp)
    requires IsFullRun(run) && start <= i <= j < |run|
    requires run[start].fence.tracking && forall w :: !Maintains(run[start], w)
    requires forall t :: i <= t <= j ==> run[t].fence.pair == Some(stamp)
    requires !run[i].fence.OthersRunning(stamp)
    ensures ExclusiveTo(run[j], stamp)
  {
    hide Inv, Apply, RunningInv;
    TrackedForGood(run, start, i);
    if i == j {
      RunningHolds(run, i);
      InvHolds(run, i);
      FenceIsValid(run[i]);
      OthersRunningDecidesExclusive(run[i], stamp);
    } else {
      ExclusiveUntilPairChanges(run, start, i, j - 1, stamp);
      TrackedForGood(run, start, j - 1);
      InvHolds(run, j - 1);
      assert Next(run[j - 1], run[j - 1 + 1]);
      var step :| CanTake(run[j - 1], step) && run[j] == Apply(run[j - 1], step);
      StepKeepsExclusive(run[j - 1], step, stamp);
    }
  }

  /** A fence is acknowledged on a connection when its epoch is still pending there, the pair is the
      connection's current stamp at that epoch, and no other maintenance runs. */
  ghost predicate Acknowledges(s: System, listener: nat, epoch: nat) {
    && |s.fence.epochs| == MAX_CONNECTIONS
    && var stamp := s.fence.StampOf(listener);
       s.fence.pair == Some(stamp) && stamp.fenceEpoch == epoch && !s.fence.OthersRunning(stamp)
  }

  /** Fence acknowledgement is safe: with tracking on before any replicate or delete was started,
      from the acknowledgement until the pair changes every replicate or delete being executed for
      a metadata server carries the acknowledged connection's stamp. */
  lemma AcknowledgedFenceIsExclusive(run: seq<System>, start: nat, i: nat, j: nat, listener: nat, epoch: nat)
    requires IsFullRun(run) && start <= i <= j < |run|
    requires run[start].fence.tracking && forall w :: !Maintains(run[start], w)
    requires Acknowledges(run[i], listener, epoch)
    requires forall t :: i <= t <= j ==> run[t].fence.pair == run[i].fence.pair
    ensures ExclusiveTo(run[j], run[i].fence.StampOf(listener)) && run[i].fence.StampOf(listener).fenceEpoch == epoch
  {
    ExclusiveUntilPairChanges(run, start, i, j, run[i].fence.StampOf(listener));
  }

  // What a claim decides.

  /** A replicate or delete that a metadata server sent, while tracking is on. */
  predicate Governed(s: System, job: Job) {
    (job.operation.Replicate? || job.operation.Delete?) && job.stamp != OWN_WORK && s.fence.tracking
  }

  lemma ClaimDecides(s: System, w: WorkerId, k: Key)
    requires k in s.jobs && !s.jobs[k].state.InProgress? && k !in s.ran
    ensures var s', job := ClaimJob(s, w, k), s.jobs[k];
            var passes := Governed(s, job) ==> s.fence.pair.None? || s.fence.pair.value == job.stamp;
            && (k in s'.ran <==> job.state.Enabled? && passes)
            && (k !in s'.ran ==> k in s'.outcome && s'.outcome[k] == NOTDONE)
            && (forall stamp :: s'.fence.Count(stamp)
                  == s.fence.Count(stamp) + if k in s'.ran && Governed(s, job) && stamp == job.stamp then 1 else 0)
  {
    var job, s' := s.jobs[k], ClaimJob(s, w, k);
    if ClaimSucceeds(s, job) {
      assert s'.ran == s.ran + multiset{k};
      assert s'.fence == if ClaimedUnderFence(s, job) then s.fence.Started(job.stamp) else s.fence;
    } else {
      assert s'.ran == s.ran && s'.fence == s.fence && s'.outcome == s.outcome[k := NOTDONE];
    }
  }

  /** At every claim of every run: an enabled job runs, unless it is a metadata server's replicate or delete, tracking
      is on and another stamp than the job's holds the fence; if it runs, the fence counts it exactly if it is such a
      replicate or delete. A job that does not run never will, and its callback gets NOTDONE. */
  lemma ClaimsFollowTheFence(run: seq<System>, i: nat, j: nat, w: WorkerId)
    requires IsFullRun(run) && i < j < |run| && CanTake(run[i], Claim(w)) && run[i + 1] == Apply(run[i], Claim(w))
    ensures var s, k := run[i], run[i].workers[w].key;
            var job := s.jobs[k];
            var passes := Governed(s, job) ==> s.fence.pair.None? || s.fence.pair.value == job.stamp;
            && (k in run[i + 1].ran <==> job.state.Enabled? && passes)
            && (forall stamp :: run[i + 1].fence.Count(stamp) == s.fence.Count(stamp)
                  + if k in run[i + 1].ran && Governed(s, job) && stamp == job.stamp then 1 else 0)
            && (k !in run[i + 1].ran ==> k !in run[j].ran && Carries(run[j], k, NOTDONE))
  {
    hide Inv, Apply, ClaimJob, Governed, Fence.Count, Carries;
    var k := run[i].workers[w].key;
    InvHolds(run, i);
    UnclaimedIsUnstarted(run[i], w);
    ClaimIs(run[i], w);
    ClaimDecides(run[i], w, k);
    if k !in run[i + 1].ran {
      OutcomeIsFinal(run, i + 1, j, k);
      InvHolds(run, j);
      OutcomeIsCarried(run[j], k);
    }
  }

  /** A replicate or delete stamped on receipt passes the fence as it then is exactly if none is set or the connection
      that sent it holds it; a stamp that came with the job is kept. */
  lemma ReceiptStampsTheConnection(s: System, pool: nat, listener: nat, operation: Operation, callback: Option<nat>,
      given: Option<Stamp>) returns (stamp: Stamp)
    requires s.fence.Valid() && CanTake(s, Receive(pool, listener, operation, callback, given))
    ensures var slot, s' := s.Resolve(pool, listener), Apply(s, Receive(pool, listener, operation, callback, given));
            && s'.arriving == s.arriving + multiset{Arrival(slot, operation, callback, stamp)}
            && (given.Some? ==> stamp == given.value)
            && (given.None? && s.fence.tracking && (operation.Replicate? || operation.Delete?) ==>
                  && stamp.listenerId == slot.listener
                  && (s.fence.Admits(stamp) <==>
                        s.fence.pair.None? || (s.fence.pair.value.listenerId == slot.listener
                            && s.fence.pair.value.connectionEpoch == s.fence.ConnectionEpoch(slot.listener))))
  {
    var slot := s.Resolve(pool, listener);
    stamp := s.ReceiptStamp(operation, slot.listener, given);
    FreshStampAdmittedIffConnectionHoldsPair(s.fence, slot.listener);
  }

  /** And the job keeps the stamp and the operation it arrived with. */
  lemma {:induction false} JobsKeepTheirStamps(run: seq<System>, i: nat, j: nat, arrival: Arrival)
    requires IsFullRun(run) && i < j < |run| && CanTake(run[i], Insert(arrival))
        && run[i + 1] == Apply(run[i], Insert(arrival))
    ensures var k := Key(arrival.slot, run[i].listeners[arrival.slot].nextId);
            && k !in run[i].jobs && Issued(run[j].listeners, k)
            && (k in run[j].jobs ==>
                  run[j].jobs[k].stamp == arrival.stamp && run[j].jobs[k].operation == arrival.operation)
    decreases j
  {
    hide Inv, Apply;
    InvHolds(run, i);
    NewKeyIsNew(run[i], arrival.slot);
    if j == i + 1 {
      InsertIs(run[i], arrival);
    } else {
      JobsKeepTheirStamps(run, i, j - 1, arrival);
      var s, k := run[j - 1], Key(arrival.slot, run[i].listeners[arrival.slot].nextId);
      InvHolds(run, j - 1);
      assert Next(run[j - 1], run[j - 1 + 1]);
      var step :| CanTake(s, step) && run[j] == Apply(s, step);
      KeysStayIssued(s, step, k);
      if k in s.jobs {
        OperationIsKept(s, step, k);
      }
    }
  }

  lemma InsertIs(s: System, a: Arrival)
    requires Inv(s) && CanTake(s, Insert(a))
    ensures var s', k := Apply(s, Insert(a)), Key(a.slot, s.listeners[a.slot].nextId);
            && Issued(s'.listeners, k) && k in s'.jobs
            && s'.jobs[k].stamp == a.stamp && s'.jobs[k].operation == a.operation
  {
  }

  // Replaced fences.

  /** A pair has a real epoch, and its connection's epoch is not ahead of the listener's. */
  ghost predicate PairInv(f: Fence) {
    && |f.epochs| == MAX_CONNECTIONS
    && (f.pair.Some? ==>
            f.pair.value.fenceEpoch > 0 && f.pair.value.connectionEpoch <= f.ConnectionEpoch(f.pair.value.listenerId))
  }

  /** A pair replaced for good: the epoch moved past it, or its connection closed and another took the epoch. */
  ghost predicate Outdated(f: Fence, stamp: Stamp)
    requires |f.epochs| == MAX_CONNECTIONS
  {
    && f.pair.Some? && f.pair.value != stamp
    && (f.pair.value.fenceEpoch > stamp.fenceEpoch ||
        (f.pair.value.fenceEpoch == stamp.fenceEpoch && stamp.connectionEpoch < f.ConnectionEpoch(stamp.listenerId)))
  }

  lemma FenceCallKeepsPair(f: Fence, epoch: nat, listener: nat, stamp: Stamp)
    requires PairInv(f)
    ensures var f' := f.Fenced(epoch, f.StampOf(listener));
            && PairInv(f')
            && (f.pair.Some? ==> f'.pair.Some? && f.pair.value.fenceEpoch <= f'.pair.value.fenceEpoch)
            && (f.pair == Some(stamp) ==> f'.pair == Some(stamp) || Outdated(f', stamp))
            && (Outdated(f, stamp) ==> Outdated(f', stamp))
  {
  }

  lemma CloseKeepsPair(f: Fence, listener: nat, stamp: Stamp)
    requires PairInv(f)
    ensures PairInv(f.Closed(listener)) && f.Closed(listener).pair == f.pair
    ensures Outdated(f, stamp) ==> Outdated(f.Closed(listener), stamp)
  {
  }

  lemma OnlyFenceCallsMoveThePair(s: System, step: Step)
    requires CanTake(s, step)
    ensures var f' := Apply(s, step).fence;
            && (!step.FenceCall? ==> f'.pair == s.fence.pair)
            && (!step.CloseConnection? ==> f'.epochs == s.fence.epochs)
            && (s.fence.tracking ==> f'.tracking)
  {
    hide InsertJob, TakeJob, ClaimJob, FinishJob, SendStatus, ReceiveStatus, FireCallback, CallbackReturns;
    match step
    case EnableTracking =>
    case FenceCall(_, _) =>
    case CloseConnection(_) =>
    case Allocate(_) =>
    case Receive(_, _, _, _, _) =>
    case Insert(arrival) => InsertFrame(s, arrival, Key(Slot(0, 0), 0));
    case Take(w, key) => TakeFrame(s, w, key, Key(Slot(0, 0), 0));
    case Claim(w) => ClaimFrame(s, w, s.workers[w].key, Key(Slot(0, 0), 0));
    case Finish(w, status) => FinishFrame(s, w, s.workers[w], status, Key(Slot(0, 0), 0));
    case Answer(w) => AnswerFrame(s, w, s.workers[w].key, s.workers[w].status, Key(Slot(0, 0), 0));
    case Match(d, slot) => MatchFrame(s, d, slot, Key(Slot(0, 0), 0));
    case Fire(d) => FireFrame(s, d, s.drainers[d].key, s.drainers[d].status, Key(Slot(0, 0), 0));
    case Return(d) => ReturnFrame(s, d, s.drainers[d].key, Key(Slot(0, 0), 0));
    case Disable(_) =>
    case DisableAll(_, _) =>
    case ChangeCallback(_, _) =>
  }

  lemma StepKeepsPair(s: System, step: Step, stamp: Stamp)
    requires CanTake(s, step) && PairInv(s.fence)
    ensures var f' := Apply(s, step).fence;
            && PairInv(f')
            && (s.fence.pair.Some? ==> f'.pair.Some? && s.fence.pair.value.fenceEpoch <= f'.pair.value.fenceEpoch)
            && (s.fence.pair == Some(stamp) ==> f'.pair == Some(stamp) || Outdated(f', stamp))
            && (Outdated(s.fence, stamp) ==> Outdated(f', stamp))
  {
    OnlyFenceCallsMoveThePair(s, step);
    match step
    case FenceCall(listener, epoch) => FenceCallKeepsPair(s.fence, epoch, listener, stamp);
    case CloseConnection(listener) => CloseKeepsPair(s.fence, listener, stamp);
    case _ =>
  }

  lemma {:induction false} PairHolds(run: seq<System>, i: nat)
    requires IsFullRun(run) && i < |run|
    ensures PairInv(run[i].fence)
  {
    if i > 0 {
      hide Apply;
      PairHolds(run, i - 1);
      assert Next(run[i - 1], run[i - 1 + 1]);
      var step :| CanTake(run[i - 1], step) && run[i] == Apply(run[i - 1], step);
      StepKeepsPair(run[i - 1], step, OWN_WORK);
    }
  }

  /** The fenced epoch never decreases and is never 0, and once set the pair stays set. */
  lemma {:induction false} FencedEpochNeverDecreases(run: seq<System>, i: nat, j: nat)
    requires IsFullRun(run) && i <= j < |run| && run[i].fence.pair.Some?
    ensures run[j].fence.pair.Some? && 0 < run[i].fence.pair.value.fenceEpoch <= run[j].fence.pair.value.fenceEpoch
  {
    hide Apply;
    PairHolds(run, j);
    if i < j {
      FencedEpochNeverDecreases(run, i, j - 1);
      PairHolds(run, j - 1);
      assert Next(run[j - 1], run[j - 1 + 1]);
      var step :| CanTake(run[j - 1], step) && run[j] == Apply(run[j - 1], step);
      StepKeepsPair(run[j - 1], step, OWN_WORK);
    }
  }

  lemma {:induction false} OutdatedForGood(run: seq<System>, i: nat, j: nat, stamp: Stamp)
    requires IsFullRun(run) && i <= j < |run| && |run[i].fence.epochs| == MAX_CONNECTIONS
    requires run[i].fence.pair == Some(stamp) || Outdated(run[i].fence, stamp)
    ensures PairInv(run[j].fence)
    ensures run[j].fence.pair == Some(stamp) || Outdated(run[j].fence, stamp)
    ensures Outdated(run[i].fence, stamp) ==> Outdated(run[j].fence, stamp)
  {
    hide Apply;
    PairHolds(run, j);
    if i < j {
      OutdatedForGood(run, i, j - 1, stamp);
      assert Next(run[j - 1], run[j - 1 + 1]);
      var step :| CanTake(run[j - 1], step) && run[j] == Apply(run[j - 1], step);
      StepKeepsPair(run[j - 1], step, stamp);
    }
  }

  /** A pair that has been replaced is never the pair again, so its leftover jobs stay refused. */
  lemma ReplacedPairNeverReturns(run: seq<System>, i: nat, j: nat, k: nat, stamp: Stamp)
    requires IsFullRun(run) && i <= j <= k < |run|
    requires run[i].fence.pair == Some(stamp) && run[j].fence.pair != Some(stamp)
    ensures run[k].fence.pair != Some(stamp) && !run[k].fence.Admits(stamp)
  {
    PairHolds(run, i);
    OutdatedForGood(run, i, j, stamp);
    OutdatedForGood(run, j, k, stamp);
  }

  /** The stamps the fence refuses from now on, whatever happens. */
  ghost predicate RefusedForGood(f: Fence, stamp: Stamp) {
    && PairInv(f) && f.tracking && f.pair.Some? && stamp != OWN_WORK
    && (stamp.fenceEpoch == 0 || Outdated(f, stamp))
  }

  /** A replicate or delete held back with such a stamp has not run. */
  ghost predicate HeldBack(s: System, k: Key) {
    && Issued(s.listeners, k) && k !in s.ran
    && (k in s.jobs ==>
          (s.jobs[k].operation.Replicate? || s.jobs[k].operation.Delete?) && RefusedForGood(s.fence, s.jobs[k].stamp))
  }

  lemma StepKeepsRefusal(s: System, step: Step, stamp: Stamp)
    requires CanTake(s, step) && RefusedForGood(s.fence, stamp)
    ensures RefusedForGood(Apply(s, step).fence, stamp) && !s.fence.Admits(stamp)
  {
    hide Apply;
    StepKeepsPair(s, step, stamp);
    OnlyFenceCallsMoveThePair(s, step);
  }

  lemma KeysStayIssued(s: System, step: Step, k: Key)
    requires CanTake(s, step) && Issued(s.listeners, k)
    ensures Issued(Apply(s, step).listeners, k) && (k !in s.jobs ==> k !in Apply(s, step).jobs)
  {
    hide InsertJob, TakeJob, ClaimJob, FinishJob, SendStatus, ReceiveStatus, FireCallback, CallbackReturns;
    match step
    case EnableTracking =>
    case FenceCall(_, _) =>
    case CloseConnection(_) =>
    case Allocate(_) =>
    case Receive(_, _, _, _, _) =>
    case Insert(arrival) => InsertFrame(s, arrival, k);
    case Take(w, key) => TakeFrame(s, w, key, k);
    case Claim(w) => ClaimFrame(s, w, s.workers[w].key, k);
    case Finish(w, status) => FinishFrame(s, w, s.workers[w], status, k);
    case Answer(w) => AnswerFrame(s, w, s.workers[w].key, s.workers[w].status, k);
    case Match(d, slot) => MatchFrame(s, d, slot, k);
    case Fire(d) => FireFrame(s, d, s.drainers[d].key, s.drainers[d].status, k);
    case Return(d) => ReturnFrame(s, d, s.drainers[d].key, k);
    case Disable(_) =>
    case DisableAll(_, _) =>
    case ChangeCallback(_, _) =>
  }

  lemma OnlyClaimsRun(s: System, step: Step, k: Key)
    requires CanTake(s, step) && k !in s.ran && (step.Claim? && s.workers[step.worker].key == k ==>
        !ClaimSucceeds(s, s.jobs[k]) && !s.jobs[k].state.InProgress?)
    ensures k !in Apply(s, step).ran
  {
    hide InsertJob, TakeJob, ClaimJob, FinishJob, SendStatus, ReceiveStatus, FireCallback, CallbackReturns;
    match step
    case EnableTracking =>
    case FenceCall(_, _) =>
    case CloseConnection(_) =>
    case Allocate(_) =>
    case Receive(_, _, _, _, _) =>
    case Insert(arrival) => InsertFrame(s, arrival, k);
    case Take(w, key) => TakeFrame(s, w, key, k);
    case Claim(w) => ClaimFrame(s, w, s.workers[w].key, k);
    case Finish(w, status) => FinishFrame(s, w, s.workers[w], status, k);
    case Answer(w) => AnswerFrame(s, w, s.workers[w].key, s.workers[w].status, k);
    case Match(d, slot) => MatchFrame(s, d, slot, k);
    case Fire(d) => FireFrame(s, d, s.drainers[d].key, s.drainers[d].status, k);
    case Return(d) => ReturnFrame(s, d, s.drainers[d].key, k);
    case Disable(_) =>
    case DisableAll(_, _) =>
    case ChangeCallback(_, _) =>
  }

  lemma StepKeepsHeldBack(s: System, step: Step, k: Key)
    requires Inv(s) && CanTake(s, step) && HeldBack(s, k)
    ensures HeldBack(Apply(s, step), k)
  {
    hide Inv, Apply, RefusedForGood;
    KeysStayIssued(s, step, k);
    if k in s.jobs {
      OperationIsKept(s, step, k);
      StepKeepsRefusal(s, step, s.jobs[k].stamp);
      assert s.fence.tracking && s.jobs[k].stamp != OWN_WORK by { RefusedMeansTracked(s.fence, s.jobs[k].stamp); }
    }
    if step.Claim? { UnclaimedIsUnstarted(s, step.worker); }
    OnlyClaimsRun(s, step, k);
  }

  lemma RefusedMeansTracked(f: Fence, stamp: Stamp)
    requires RefusedForGood(f, stamp)
    ensures f.tracking && stamp != OWN_WORK
  {
  }

  /** A tracked replicate or delete that had not started when its stamp was refused for good - a
      replaced pair's leftover, or one stamped before any fence - never runs. */
  lemma {:induction false} RefusedJobsNeverRun(run: seq<System>, i: nat, j: nat, k: Key)
    requires IsFullRun(run) && i <= j < |run|
    requires HeldBack(run[i], k)
    ensures k !in run[j].ran && HeldBack(run[j], k)
  {
    hide Inv, Apply, HeldBack;
    if i == j {
      assert k !in run[i].ran by { HeldBackHasNotRun(run[i], k); }
    } else {
      RefusedJobsNeverRun(run, i, j - 1, k);
      InvHolds(run, j - 1);
      assert Next(run[j - 1], run[j - 1 + 1]);
      var step :| CanTake(run[j - 1], step) && run[j] == Apply(run[j - 1], step);
      StepKeepsHeldBack(run[j - 1], step, k);
      HeldBackHasNotRun(run[j], k);
    }
  }

  lemma HeldBackHasNotRun(s: System, k: Key)
    requires HeldBack(s, k)
    ensures k !in s.ran
  {
  }

  /** The leftover replicates and deletes of a replaced pair never run. */
  lemma LeftoverJobsNeverRun(run: seq<System>, i: nat, j: nat, t: nat, k: Key)
    requires IsFullRun(run) && i <= j <= t < |run|
    requires k in run[j].jobs && (run[j].jobs[k].operation.Replicate? || run[j].jobs[k].operation.Delete?)
        && k !in run[j].ran && run[j].fence.tracking
    requires run[j].jobs[k].stamp != OWN_WORK && run[i].fence.pair == Some(run[j].jobs[k].stamp)
        && run[j].fence.pair != run[i].fence.pair
    ensures k !in run[t].ran
  {
    PairHolds(run, i);
    OutdatedForGood(run, i, j, run[j].jobs[k].stamp);
    InvHolds(run, j);
    RefusedJobsNeverRun(run, j, t, k);
  }

  /** A replicate or delete received before any fence and still waiting when one is set never runs. */
  lemma UnfencedJobsNeverRun(run: seq<System>, j: nat, t: nat, k: Key)
    requires IsFullRun(run) && j <= t < |run|
    requires k in run[j].jobs && (run[j].jobs[k].operation.Replicate? || run[j].jobs[k].operation.Delete?)
        && k !in run[j].ran && run[j].fence.tracking
    requires run[j].jobs[k].stamp != OWN_WORK && run[j].jobs[k].stamp.fenceEpoch == 0 && run[j].fence.pair.Some?
    ensures k !in run[t].ran
  {
    PairHolds(run, j);
    InvHolds(run, j);
    RefusedJobsNeverRun(run, j, t, k);
  }
}
