/** What every step of the job pools keeps, and what that means for the life of a job. */
module JobLifecycle {
  import opened Common
  import opened Fencing
  import opened JobPools

  // A job changing hands: what each component's invariant needs of the move.

  lemma QueueEnters(queue: multiset<Key>, place: map<Key, Place>, k: Key)
    requires QueueInv(queue, place) && k !in place
    ensures QueueInv(queue + multiset{k}, place[k := InQueue])
  {
    assert queue[k] == 0;
  }

  lemma QueueLeaves(queue: multiset<Key>, place: map<Key, Place>, k: Key, p: Place)
    requires QueueInv(queue, place) && k in queue && p != InQueue
    ensures QueueInv(queue - multiset{k}, place[k := p])
  {
  }

  lemma QueueElsewhere(queue: multiset<Key>, place: map<Key, Place>, k: Key, p: Place)
    requires QueueInv(queue, place) && k in place && place[k] != InQueue && p != InQueue
    ensures QueueInv(queue, place[k := p]) && QueueInv(queue, place - {k})
  {
  }

  lemma WorkersElsewhere(workers: map<WorkerId, Worker>, place: map<Key, Place>, k: Key, p: Place)
    requires WorkerInv(workers, place) && (k in place ==> !place[k].WithWorker?) && !p.WithWorker?
    ensures WorkerInv(workers, place[k := p]) && WorkerInv(workers, place - {k})
  {
  }

  lemma WorkerTakes(workers: map<WorkerId, Worker>, place: map<Key, Place>, w: WorkerId, k: Key)
    requires WorkerInv(workers, place) && w !in workers && k in place && !place[k].WithWorker?
    ensures WorkerInv(workers[w := Taken(k)], place[k := WithWorker(w)])
  {
  }

  lemma WorkerAdvances(workers: map<WorkerId, Worker>, place: map<Key, Place>, w: WorkerId, worker: Worker)
    requires WorkerInv(workers, place) && w in workers && worker.key == workers[w].key
    ensures WorkerInv(workers[w := worker], place)
  {
  }

  lemma WorkerHandsOver(workers: map<WorkerId, Worker>, place: map<Key, Place>, w: WorkerId, p: Place)
    requires WorkerInv(workers, place) && w in workers && !p.WithWorker?
    ensures WorkerInv(workers - {w}, place[workers[w].key := p])
  {
  }

  lemma PostedElsewhere(listeners: map<Slot, Listener>, place: map<Key, Place>, k: Key, p: Place)
    requires PostedInv(listeners, place) && (k in place ==> place[k] != Posted) && p != Posted
    ensures PostedInv(listeners, place[k := p]) && PostedInv(listeners, place - {k})
  {
  }

  /** The status queues are those of before, plus empty ones. */
  ghost predicate SameStatuses(listeners: map<Slot, Listener>, listeners': map<Slot, Listener>) {
    && (forall slot :: slot in listeners ==> slot in listeners')
    && (forall slot :: slot in listeners' ==>
          listeners'[slot].statuses == if slot in listeners then listeners[slot].statuses else [])
  }

  lemma PostedByStatuses(listeners: map<Slot, Listener>, listeners': map<Slot, Listener>, place: map<Key, Place>)
    requires PostedInv(listeners, place) && SameStatuses(listeners, listeners')
    ensures PostedInv(listeners', place)
  {
    forall slot, i | slot in listeners' && 0 <= i < |listeners'[slot].statuses|
      ensures PostedKey(listeners', slot, i) in place && place[PostedKey(listeners', slot, i)] == Posted
    {
      assert PostedKey(listeners', slot, i) == PostedKey(listeners, slot, i);
    }
    forall k | k in place && place[k] == Posted
      ensures IsPosted(listeners', k)
    {
      assert IsPosted(listeners, k);
    }
  }

  function Post(l: Listener, id: nat, status: Status): Listener {
    l.(statuses := l.statuses + [Posting(id, status)], wakeup := if l.statuses == [] then l.wakeup + 1 else l.wakeup)
  }

  lemma PostedEnters(listeners: map<Slot, Listener>, place: map<Key, Place>, k: Key, status: Status)
    requires PostedInv(listeners, place) && k.slot in listeners && k in place && place[k] != Posted
    ensures PostedInv(listeners[k.slot := Post(listeners[k.slot], k.id, status)], place[k := Posted])
  {
    var l := listeners[k.slot];
    var listeners' := listeners[k.slot := Post(l, k.id, status)];
    var place' := place[k := Posted];
    forall slot, i | slot in listeners' && 0 <= i < |listeners'[slot].statuses|
      ensures PostedKey(listeners', slot, i) in place' && place'[PostedKey(listeners', slot, i)] == Posted
    {
      if slot == k.slot && i == |l.statuses| {
        assert PostedKey(listeners', slot, i) == k;
      } else {
        assert PostedKey(listeners', slot, i) == PostedKey(listeners, slot, i);
      }
    }
    forall slot, i, j | slot in listeners' && 0 <= i < j < |listeners'[slot].statuses|
      ensures listeners'[slot].statuses[i].id != listeners'[slot].statuses[j].id
    {
      if slot == k.slot && j == |l.statuses| {
        assert PostedKey(listeners, slot, i) in place && place[PostedKey(listeners, slot, i)] == Posted;
      }
    }
    forall k1 | k1 in place' && place'[k1] == Posted
      ensures IsPosted(listeners', k1)
    {
      if k1 == k {
        assert listeners'[k.slot].statuses[|l.statuses|].id == k.id;
      } else {
        assert IsPosted(listeners, k1);
        var i :| 0 <= i < |listeners[k1.slot].statuses| && listeners[k1.slot].statuses[i].id == k1.id;
        assert listeners'[k1.slot].statuses[i].id == k1.id;
      }
    }
  }

  function Unpost(l: Listener): Listener
    requires l.statuses != []
  {
    l.(statuses := l.statuses[1..], wakeup := if |l.statuses| == 1 then 0 else l.wakeup)
  }

  lemma PostedLeaves(listeners: map<Slot, Listener>, place: map<Key, Place>, slot0: Slot, p: Place)
    requires PostedInv(listeners, place) && slot0 in listeners && listeners[slot0].statuses != [] && p != Posted
    ensures PostedInv(listeners[slot0 := Unpost(listeners[slot0])],
        place[Key(slot0, listeners[slot0].statuses[0].id) := p])
  {
    var l := listeners[slot0];
    var k := Key(slot0, l.statuses[0].id);
    var listeners' := listeners[slot0 := Unpost(l)];
    var place' := place[k := p];
    forall slot, i | slot in listeners' && 0 <= i < |listeners'[slot].statuses|
      ensures PostedKey(listeners', slot, i) in place' && place'[PostedKey(listeners', slot, i)] == Posted
    {
      var i' := if slot == slot0 then i + 1 else i;
      assert PostedKey(listeners', slot, i) == PostedKey(listeners, slot, i');
      assert slot == slot0 ==> l.statuses[0].id != l.statuses[i'].id;
    }
    forall k1 | k1 in place' && place'[k1] == Posted
      ensures IsPosted(listeners', k1)
    {
      assert IsPosted(listeners, k1);
      var i :| 0 <= i < |listeners[k1.slot].statuses| && listeners[k1.slot].statuses[i].id == k1.id;
      if k1.slot == slot0 {
        assert i > 0 && listeners'[slot0].statuses[i - 1] == l.statuses[i];
      } else {
        assert listeners'[k1.slot].statuses[i].id == k1.id;
      }
    }
  }

  lemma DrainersElsewhere(drainers: map<nat, Drainer>, place: map<Key, Place>, k: Key, p: Place)
    requires DrainerInv(drainers, place) && (k in place ==> !place[k].WithDrainer?) && !p.WithDrainer?
    ensures DrainerInv(drainers, place[k := p])
  {
  }

  lemma DrainerMatches(drainers: map<nat, Drainer>, place: map<Key, Place>, d: nat, k: Key, status: Status)
    requires DrainerInv(drainers, place) && d !in drainers && k in place && !place[k].WithDrainer?
    ensures DrainerInv(drainers[d := Matching(k, status)], place[k := WithDrainer(d)])
  {
  }

  lemma DrainerFires(drainers: map<nat, Drainer>, place: map<Key, Place>, d: nat, drainer: Drainer)
    requires DrainerInv(drainers, place) && d in drainers && drainers[d].Matching? && drainer.Calling?
    ensures DrainerInv(drainers[d := drainer], place - {drainers[d].key})
  {
  }

  lemma DrainerReturns(drainers: map<nat, Drainer>, place: map<Key, Place>, d: nat)
    requires DrainerInv(drainers, place) && d in drainers && drainers[d].Calling?
    ensures DrainerInv(drainers - {d}, place)
  {
  }

  // The history of the jobs.

  /** The same listeners, or more, with no fewer ids handed out. */
  ghost predicate Grown(listeners: map<Slot, Listener>, listeners': map<Slot, Listener>) {
    forall slot :: slot in listeners ==> slot in listeners' && listeners[slot].nextId <= listeners'[slot].nextId
  }

  lemma HistoryGrows(listeners: map<Slot, Listener>, listeners': map<Slot, Listener>, ran: multiset<Key>,
      fired: multiset<Key>,
                     outcome: map<Key, Status>)
    requires HistoryInv(listeners, ran, fired, outcome) && Grown(listeners, listeners')
    ensures HistoryInv(listeners', ran, fired, outcome)
  {
  }

  /** No id was handed out in between. */
  ghost predicate SameIds(listeners: map<Slot, Listener>, listeners': map<Slot, Listener>) {
    forall k :: Issued(listeners, k) <==> Issued(listeners', k)
  }

  lemma FiredByTable(listeners: map<Slot, Listener>, listeners': map<Slot, Listener>, jobs: map<Key, Job>,
      jobs': map<Key, Job>,
                     fired: multiset<Key>)
    requires FiredInv(listeners, jobs, fired) && SameIds(listeners, listeners') && jobs.Keys == jobs'.Keys
    ensures FiredInv(listeners', jobs', fired)
  {
    forall k | Issued(listeners', k)
      ensures k in fired <==> k !in jobs'
    {
      assert Issued(listeners, k);
      assert k in jobs <==> k in jobs.Keys;
      assert k in jobs' <==> k in jobs'.Keys;
    }
  }

  lemma FiredInsert(listeners: map<Slot, Listener>, jobs: map<Key, Job>, fired: multiset<Key>, slot: Slot, job: Job)
    requires FiredInv(listeners, jobs, fired) && slot in listeners && Key(slot, listeners[slot].nextId) !in fired
    ensures var l := listeners[slot];
            FiredInv(listeners[slot := l.(nextId := l.nextId + 1)], jobs[Key(slot, l.nextId) := job], fired)
  {
    var l := listeners[slot];
    var listeners' := listeners[slot := l.(nextId := l.nextId + 1)];
    var k0 := Key(slot, l.nextId);
    assert !Issued(listeners, k0);
    forall k | Issued(listeners', k) && k != k0
      ensures Issued(listeners, k)
    {
    }
  }

  lemma FiredFires(listeners: map<Slot, Listener>, jobs: map<Key, Job>, fired: multiset<Key>, k: Key)
    requires FiredInv(listeners, jobs, fired) && Issued(listeners, k) && k in jobs
    ensures FiredInv(listeners, jobs - {k}, fired + multiset{k})
  {
    assert fired[k] == 0;
  }

  lemma OutcomeOfListeners(listeners: map<Slot, Listener>, listeners': map<Slot, Listener>, workers: map<WorkerId,
      Worker>,
                           drainers: map<nat, Drainer>, outcome: map<Key, Status>)
    requires OutcomeInv(listeners, workers, drainers, outcome) && SameStatuses(listeners, listeners')
    ensures OutcomeInv(listeners', workers, drainers, outcome)
  {
    forall slot, i | slot in listeners' && 0 <= i < |listeners'[slot].statuses|
      ensures PostedKey(listeners', slot, i) in outcome
          && outcome[PostedKey(listeners', slot, i)] == listeners'[slot].statuses[i].status
    {
      assert PostedKey(listeners', slot, i) == PostedKey(listeners, slot, i);
    }
  }

  lemma OutcomeDecided(s: System, w: WorkerId, k: Key, status: Status)
    requires OutcomeInv(s.listeners, s.workers, s.drainers, s.outcome)
    requires WorkerInv(s.workers, s.place) && PostedInv(s.listeners, s.place) && k !in s.outcome
    requires w in s.workers && s.workers[w].key == k
    ensures OutcomeInv(s.listeners, s.workers[w := Answering(k, status)], s.drainers, s.outcome[k := status])
  {
  }

  lemma OutcomePosted(listeners: map<Slot, Listener>, workers: map<WorkerId, Worker>, drainers: map<nat, Drainer>,
                      outcome: map<Key, Status>, w: WorkerId)
    requires OutcomeInv(listeners, workers, drainers, outcome) && w in workers && workers[w].Answering?
        && workers[w].key.slot in listeners
    ensures var k := workers[w].key;
            OutcomeInv(listeners[k.slot := Post(listeners[k.slot], k.id, workers[w].status)], workers - {w}, drainers,
                outcome)
  {
    var k := workers[w].key;
    var l := listeners[k.slot];
    var listeners' := listeners[k.slot := Post(l, k.id, workers[w].status)];
    forall slot, i | slot in listeners' && 0 <= i < |listeners'[slot].statuses|
      ensures PostedKey(listeners', slot, i) in outcome
          && outcome[PostedKey(listeners', slot, i)] == listeners'[slot].statuses[i].status
    {
      if slot == k.slot && i == |l.statuses| {
        assert PostedKey(listeners', slot, i) == k;
      } else {
        assert PostedKey(listeners', slot, i) == PostedKey(listeners, slot, i);
      }
    }
  }

  lemma OutcomeReceived(listeners: map<Slot, Listener>, workers: map<WorkerId, Worker>, drainers: map<nat, Drainer>,
                        outcome: map<Key, Status>, d: nat, slot0: Slot)
    requires OutcomeInv(listeners, workers, drainers, outcome) && slot0 in listeners && listeners[slot0].statuses != []
    ensures var l := listeners[slot0];
            OutcomeInv(listeners[slot0 := Unpost(l)], workers,
                drainers[d := Matching(Key(slot0, l.statuses[0].id), l.statuses[0].status)], outcome)
  {
    var l := listeners[slot0];
    var listeners' := listeners[slot0 := Unpost(l)];
    assert PostedKey(listeners, slot0, 0) == Key(slot0, l.statuses[0].id);
    forall slot, i | slot in listeners' && 0 <= i < |listeners'[slot].statuses|
      ensures PostedKey(listeners', slot, i) in outcome
          && outcome[PostedKey(listeners', slot, i)] == listeners'[slot].statuses[i].status
    {
      var i' := if slot == slot0 then i + 1 else i;
      assert PostedKey(listeners', slot, i) == PostedKey(listeners, slot, i');
    }
  }

  lemma WorkTable(jobs: map<Key, Job>, jobs': map<Key, Job>, queue: multiset<Key>, workers: map<WorkerId, Worker>,
      ran: multiset<Key>)
    requires WorkInv(jobs, queue, workers, ran) && jobs.Keys == jobs'.Keys
    requires forall k :: k in jobs ==>
        jobs'[k].stamp == jobs[k].stamp && (jobs'[k].state.InProgress? <==> jobs[k].state.InProgress?)
    ensures WorkInv(jobs', queue, workers, ran)
  {
  }

  lemma WorkInsert(jobs: map<Key, Job>, queue: multiset<Key>, workers: map<WorkerId, Worker>, ran: multiset<Key>,
      k: Key, job: Job)
    requires WorkInv(jobs, queue, workers, ran) && k !in jobs && k !in ran && job.state.Enabled?
    ensures WorkInv(jobs[k := job], queue + multiset{k}, workers, ran)
  {
  }

  lemma OfPoolAdds(keys: set<Key>, k: Key, pool: nat)
    requires k !in keys
    ensures |OfPool(keys + {k}, pool)| == |OfPool(keys, pool)| + if pool == k.slot.pool then 1 else 0
  {
    if pool == k.slot.pool {
      assert OfPool(keys + {k}, pool) == OfPool(keys, pool) + {k};
    } else {
      assert OfPool(keys + {k}, pool) == OfPool(keys, pool);
    }
  }

  lemma CountAdds(unprocessed: map<nat, int>, owing: set<Key>, k: Key)
    requires CountInv(unprocessed, owing) && k !in owing
    ensures CountInv(unprocessed[k.slot.pool := Counter(unprocessed, k.slot.pool) + 1], owing + {k})
  {
    forall pool: nat { OfPoolAdds(owing, k, pool); }
  }

  lemma CountDrops(unprocessed: map<nat, int>, owing: set<Key>, k: Key)
    requires CountInv(unprocessed, owing) && k in owing
    ensures CountInv(unprocessed[k.slot.pool := Counter(unprocessed, k.slot.pool) - 1], owing - {k})
  {
    assert owing == (owing - {k}) + {k};
    forall pool: nat { OfPoolAdds(owing - {k}, k, pool); }
  }

  // The steps.

  lemma TableInsert(listeners: map<Slot, Listener>, jobs: map<Key, Job>, place: map<Key, Place>, slot: Slot, job: Job)
    requires TableInv(listeners, jobs, place) && slot in listeners
    ensures var l := listeners[slot];
            TableInv(listeners[slot := l.(nextId := l.nextId + 1)], jobs[Key(slot, l.nextId) := job],
                place[Key(slot, l.nextId) := InQueue])
  {
  }

  lemma NewKeyIsNew(s: System, slot: Slot)
    requires Inv(s) && slot in s.listeners
    ensures var k := Key(slot, s.listeners[slot].nextId);
            k !in s.jobs && k !in s.place && k !in s.ran && k !in s.fired && k !in s.outcome && k !in s.owing
  {
    assert !Issued(s.listeners, Key(slot, s.listeners[slot].nextId));
  }

  lemma CallingInsert(drainers: map<nat, Drainer>, jobs: map<Key, Job>, fired: multiset<Key>, k: Key, job: Job)
    requires CallingInv(drainers, jobs, fired) && k !in fired
    ensures CallingInv(drainers, jobs[k := job], fired)
  {
  }

  lemma OwingInsert(owing: set<Key>, jobs: map<Key, Job>, drainers: map<nat, Drainer>, k: Key, job: Job)
    requires OwingInv(owing, jobs, drainers)
    ensures OwingInv(owing + {k}, jobs[k := job], drainers)
  {
  }

  lemma VerdictInsert(queue: multiset<Key>, workers: map<WorkerId, Worker>, ran: multiset<Key>, fired: multiset<Key>,
                      outcome: map<Key, Status>, k: Key)
    requires VerdictInv(queue, workers, ran, fired, outcome) && k !in outcome
    ensures VerdictInv(queue + multiset{k}, workers, ran, fired, outcome)
  {
  }

  lemma IdHandedOut(listeners: map<Slot, Listener>, slot: Slot)
    requires slot in listeners
    ensures var listeners' := listeners[slot := listeners[slot].(nextId := listeners[slot].nextId + 1)];
            SameStatuses(listeners, listeners') && Grown(listeners, listeners')
                && (WakeupInv(listeners) ==> WakeupInv(listeners'))
  {
  }

  lemma InsertKeeps(s: System, a: Arrival)
    requires Inv(s) && a.slot in s.listeners
    ensures Inv(InsertJob(s, a))
  {
    hide TableInv, QueueInv, WorkerInv, PostedInv, DrainerInv, HistoryInv, CallingInv, WorkInv, FiredInv, OutcomeInv,
        VerdictInv;
    hide WakeupInv, OwingInv, CountInv, SameStatuses, Grown, SameIds;
    var k := Key(a.slot, s.listeners[a.slot].nextId);
    var s' := InsertJob(s, a);
    NewKeyIsNew(s, a.slot);
    IdHandedOut(s.listeners, a.slot);
    TableInsert(s.listeners, s.jobs, s.place, a.slot, s'.jobs[k]);
    QueueEnters(s.queue, s.place, k);
    WorkersElsewhere(s.workers, s.place, k, InQueue);
    PostedElsewhere(s.listeners, s.place, k, InQueue);
    PostedByStatuses(s.listeners, s'.listeners, s'.place);
    DrainersElsewhere(s.drainers, s.place, k, InQueue);
    HistoryGrows(s.listeners, s'.listeners, s.ran, s.fired, s.outcome);
    CallingInsert(s.drainers, s.jobs, s.fired, k, s'.jobs[k]);
    WorkInsert(s.jobs, s.queue, s.workers, s.ran, k, s'.jobs[k]);
    FiredInsert(s.listeners, s.jobs, s.fired, a.slot, s'.jobs[k]);
    OutcomeOfListeners(s.listeners, s'.listeners, s.workers, s.drainers, s.outcome);
    VerdictInsert(s.queue, s.workers, s.ran, s.fired, s.outcome, k);
    OwingInsert(s.owing, s.jobs, s.drainers, k, s'.jobs[k]);
    CountAdds(s.unprocessed, s.owing, k);
  }

  lemma TableMoves(listeners: map<Slot, Listener>, jobs: map<Key, Job>, place: map<Key, Place>, k: Key, p: Place)
    requires TableInv(listeners, jobs, place) && k in place
    ensures TableInv(listeners, jobs, place[k := p])
  {
  }

  // Who is responsible for a job is told by where the job is.

  lemma QueuedJob(s: System, k: Key)
    requires PlaceInv(s) && k in s.queue
    ensures k in s.place && s.place[k] == InQueue && k in s.jobs && Issued(s.listeners, k)
  {
  }

  lemma HeldJob(s: System, w: WorkerId)
    requires PlaceInv(s) && w in s.workers
    ensures var k := s.workers[w].key;
            k in s.place && s.place[k] == WithWorker(w) && k in s.jobs && Issued(s.listeners, k)
  {
  }

  lemma PostedJob(s: System, slot: Slot)
    requires PlaceInv(s) && slot in s.listeners && s.listeners[slot].statuses != []
    ensures var k := Key(slot, s.listeners[slot].statuses[0].id);
            k in s.place && s.place[k] == Posted && k in s.jobs && Issued(s.listeners, k)
  {
    assert PostedKey(s.listeners, slot, 0) == Key(slot, s.listeners[slot].statuses[0].id);
  }

  lemma MatchedJob(s: System, d: nat)
    requires PlaceInv(s) && d in s.drainers && s.drainers[d].Matching?
    ensures var k := s.drainers[d].key;
            k in s.place && s.place[k] == WithDrainer(d) && k in s.jobs && Issued(s.listeners, k)
  {
  }

  lemma WorkTakes(jobs: map<Key, Job>, queue: multiset<Key>, workers: map<WorkerId, Worker>, ran: multiset<Key>,
      w: WorkerId, k: Key)
    requires WorkInv(jobs, queue, workers, ran) && w !in workers && k in queue
    ensures WorkInv(jobs, queue - multiset{k}, workers[w := Taken(k)], ran)
  {
  }

  lemma VerdictTakes(queue: multiset<Key>, workers: map<WorkerId, Worker>, ran: multiset<Key>, fired: multiset<Key>,
                     outcome: map<Key, Status>, w: WorkerId, k: Key)
    requires VerdictInv(queue, workers, ran, fired, outcome) && k in queue
    ensures VerdictInv(queue - multiset{k}, workers[w := Taken(k)], ran, fired, outcome)
  {
  }

  lemma OutcomeOfWorkers(listeners: map<Slot, Listener>, workers: map<WorkerId, Worker>, drainers: map<nat, Drainer>,
                         outcome: map<Key, Status>, w: WorkerId, worker: Worker)
    requires OutcomeInv(listeners, workers, drainers, outcome) && !worker.Answering?
    ensures OutcomeInv(listeners, workers[w := worker], drainers, outcome)
  {
  }

  lemma TakeKeeps(s: System, w: WorkerId, k: Key)
    requires Inv(s) && w !in s.workers && k in s.queue
    ensures Inv(TakeJob(s, w, k))
  {
    hide TableInv, QueueInv, WorkerInv, PostedInv, DrainerInv, HistoryInv, CallingInv, WorkInv, FiredInv, OutcomeInv,
        VerdictInv;
    hide WakeupInv, OwingInv, CountInv, SameStatuses, Grown, SameIds;
    QueuedJob(s, k);
    QueueLeaves(s.queue, s.place, k, WithWorker(w));
    WorkerTakes(s.workers, s.place, w, k);
    TableMoves(s.listeners, s.jobs, s.place, k, WithWorker(w));
    PostedElsewhere(s.listeners, s.place, k, WithWorker(w));
    DrainersElsewhere(s.drainers, s.place, k, WithWorker(w));
    WorkTakes(s.jobs, s.queue, s.workers, s.ran, w, k);
    VerdictTakes(s.queue, s.workers, s.ran, s.fired, s.outcome, w, k);
    OutcomeOfWorkers(s.listeners, s.workers, s.drainers, s.outcome, w, Taken(k));
  }

  lemma WorkStarts(jobs: map<Key, Job>, queue: multiset<Key>, workers: map<WorkerId, Worker>, ran: multiset<Key>,
      w: WorkerId,
                   place: map<Key, Place>, fenced: bool)
    requires WorkInv(jobs, queue, workers, ran) && w in workers && workers[w].Taken? && workers[w].key in jobs
    requires WorkerInv(workers, place) && QueueInv(queue, place)
    ensures var k := workers[w].key;
            && k !in ran
            && WorkInv(jobs[k := jobs[k].(state := InProgress)], queue,
                workers[w := Executing(k, jobs[k].stamp, fenced)], ran + multiset{k})
  {
    var k := workers[w].key;
    assert place[k] == WithWorker(w);
    assert k !in queue;
  }

  lemma WorkAnswers(jobs: map<Key, Job>, queue: multiset<Key>, workers: map<WorkerId, Worker>, ran: multiset<Key>,
      w: WorkerId, worker: Worker)
    requires WorkInv(jobs, queue, workers, ran) && worker.Answering?
    ensures WorkInv(jobs, queue, workers[w := worker], ran) && WorkInv(jobs, queue, workers - {w}, ran)
  {
  }

  lemma VerdictStarts(queue: multiset<Key>, workers: map<WorkerId, Worker>, ran: multiset<Key>, fired: multiset<Key>,
                      outcome: map<Key, Status>, w: WorkerId, worker: Worker)
    requires VerdictInv(queue, workers, ran, fired, outcome) && w in workers && workers[w].Taken? && worker.Executing?
    requires worker.key == workers[w].key
    ensures VerdictInv(queue, workers[w := worker], ran + multiset{worker.key}, fired, outcome)
  {
  }

  lemma VerdictDecided(s: System, w: WorkerId, status: Status)
    requires VerdictInv(s.queue, s.workers, s.ran, s.fired, s.outcome) && WorkerInv(s.workers, s.place)
        && QueueInv(s.queue, s.place)
    requires w in s.workers && (s.workers[w].key !in s.ran ==> status == NOTDONE)
    ensures var k := s.workers[w].key;
            VerdictInv(s.queue, s.workers[w := Answering(k, status)], s.ran, s.fired, s.outcome[k := status])
  {
    assert s.place[s.workers[w].key] == WithWorker(w);
  }

  lemma VerdictOfWorkers(queue: multiset<Key>, workers: map<WorkerId, Worker>, ran: multiset<Key>, fired: multiset<Key>,
                         outcome: map<Key, Status>, w: WorkerId)
    requires VerdictInv(queue, workers, ran, fired, outcome)
    ensures VerdictInv(queue, workers - {w}, ran, fired, outcome)
    ensures forall w1 :: w1 in workers && !workers[w1].Answering? ==> workers[w1].key !in outcome
  {
  }

  lemma HistoryAdds(listeners: map<Slot, Listener>, ran: multiset<Key>, fired: multiset<Key>,
      outcome: map<Key, Status>, k: Key, status: Status)
    requires HistoryInv(listeners, ran, fired, outcome) && Issued(listeners, k)
    ensures HistoryInv(listeners, ran + multiset{k}, fired, outcome)
    ensures HistoryInv(listeners, ran, fired + multiset{k}, outcome)
    ensures HistoryInv(listeners, ran, fired, outcome[k := status])
  {
  }

  /** The table holds the same jobs in other states or with other callbacks. */
  lemma TableUpdates(s: System, jobs': map<Key, Job>)
    requires jobs'.Keys == s.jobs.Keys
    requires TableInv(s.listeners, s.jobs, s.place) && CallingInv(s.drainers, s.jobs, s.fired)
        && FiredInv(s.listeners, s.jobs, s.fired)
    requires OwingInv(s.owing, s.jobs, s.drainers)
    ensures TableInv(s.listeners, jobs', s.place) && CallingInv(s.drainers, jobs', s.fired)
    ensures FiredInv(s.listeners, jobs', s.fired) && OwingInv(s.owing, jobs', s.drainers)
  {
    assert forall k :: k in s.jobs <==> k in s.jobs.Keys;
    assert forall k :: k in jobs' <==> k in jobs'.Keys;
  }

  lemma DecideKeeps(s: System, w: WorkerId, status: Status, fence: Fence)
    requires Inv(s) && fence.Valid() && w in s.workers && !s.workers[w].Answering?
        && (s.workers[w].key !in s.ran ==> status == NOTDONE)
    ensures var k := s.workers[w].key;
            Inv(s.(fence := fence, workers := s.workers[w := Answering(k, status)], outcome := s.outcome[k := status]))
  {
    hide TableInv, QueueInv, WorkerInv, PostedInv, DrainerInv, HistoryInv, CallingInv, WorkInv, FiredInv, OutcomeInv,
        VerdictInv;
    hide WakeupInv, OwingInv, CountInv, SameStatuses, Grown, SameIds;
    HeldJob(s, w);
    VerdictOfWorkers(s.queue, s.workers, s.ran, s.fired, s.outcome, w);
    var k := s.workers[w].key;
    WorkerAdvances(s.workers, s.place, w, Answering(k, status));
    WorkAnswers(s.jobs, s.queue, s.workers, s.ran, w, Answering(k, status));
    VerdictDecided(s, w, status);
    OutcomeDecided(s, w, k, status);
    HistoryAdds(s.listeners, s.ran, s.fired, s.outcome, k, status);
  }

  lemma StartKeeps(s: System, w: WorkerId, fenced: bool, fence: Fence)
    requires Inv(s) && fence.Valid() && w in s.workers && s.workers[w].Taken? && s.workers[w].key in s.jobs
    ensures var k := s.workers[w].key;
            Inv(s.(fence := fence, jobs := s.jobs[k := s.jobs[k].(state := InProgress)],
                   workers := s.workers[w := Executing(k, s.jobs[k].stamp, fenced)], ran := s.ran + multiset{k}))
  {
    hide TableInv, QueueInv, WorkerInv, PostedInv, DrainerInv, HistoryInv, CallingInv, WorkInv, FiredInv, OutcomeInv,
        VerdictInv;
    hide WakeupInv, OwingInv, CountInv, SameStatuses, Grown, SameIds;
    HeldJob(s, w);
    var k := s.workers[w].key;
    var worker := Executing(k, s.jobs[k].stamp, fenced);
    TableUpdates(s, s.jobs[k := s.jobs[k].(state := InProgress)]);
    WorkerAdvances(s.workers, s.place, w, worker);
    WorkStarts(s.jobs, s.queue, s.workers, s.ran, w, s.place, fenced);
    VerdictStarts(s.queue, s.workers, s.ran, s.fired, s.outcome, w, worker);
    OutcomeOfWorkers(s.listeners, s.workers, s.drainers, s.outcome, w, worker);
    HistoryAdds(s.listeners, s.ran, s.fired, s.outcome, k, OK);
  }

  lemma FenceIsValid(s: System)
    requires Inv(s)
    ensures s.fence.Valid()
  {
  }

  lemma UnclaimedIsUnstarted(s: System, w: WorkerId)
    requires Inv(s) && w in s.workers && s.workers[w].Taken? && s.workers[w].key in s.jobs
    ensures !s.jobs[s.workers[w].key].state.InProgress? && s.workers[w].key !in s.ran
  {
  }

  lemma ClaimKeeps(s: System, w: WorkerId)
    requires Inv(s) && w in s.workers && s.workers[w].Taken? && s.workers[w].key in s.jobs
    ensures Inv(ClaimJob(s, w, s.workers[w].key))
  {
    hide Inv;
    UnclaimedIsUnstarted(s, w);
    FenceIsValid(s);
    var job := s.jobs[s.workers[w].key];
    if ClaimSucceeds(s, job) {
      var fenced := ClaimedUnderFence(s, job);
      StartKeeps(s, w, fenced, if fenced then s.fence.Started(job.stamp) else s.fence);
    } else {
      DecideKeeps(s, w, NOTDONE, s.fence);
    }
  }

  lemma ExecutingHasRun(s: System, w: WorkerId)
    requires Inv(s) && w in s.workers && s.workers[w].Executing?
    ensures s.workers[w].key in s.ran
  {
  }

  lemma FinishKeeps(s: System, w: WorkerId, status: Status)
    requires Inv(s) && w in s.workers && s.workers[w].Executing?
    ensures Inv(FinishJob(s, w, s.workers[w], status))
  {
    hide Inv;
    ExecutingHasRun(s, w);
    FenceIsValid(s);
    DecideKeeps(s, w, status, if s.workers[w].fenced then s.fence.Ended(s.workers[w].stamp) else s.fence);
  }

  lemma WakeupPosts(listeners: map<Slot, Listener>, slot: Slot, id: nat, status: Status)
    requires WakeupInv(listeners) && slot in listeners
    ensures WakeupInv(listeners[slot := Post(listeners[slot], id, status)])
    ensures listeners[slot].statuses != [] ==> WakeupInv(listeners[slot := Unpost(listeners[slot])])
  {
  }

  lemma PostChangesIds(listeners: map<Slot, Listener>, slot: Slot, l: Listener)
    requires slot in listeners && l.nextId == listeners[slot].nextId
    ensures SameIds(listeners, listeners[slot := l]) && Grown(listeners, listeners[slot := l])
  {
  }

  lemma TableOfListeners(listeners: map<Slot, Listener>, listeners': map<Slot, Listener>, jobs: map<Key, Job>,
      place: map<Key, Place>)
    requires TableInv(listeners, jobs, place) && SameIds(listeners, listeners') && Grown(listeners, listeners')
        && listeners'.Keys == listeners.Keys
    ensures TableInv(listeners', jobs, place)
  {
    forall slot | slot in listeners'
      ensures listeners'[slot].nextId >= 1
    {
      assert slot in listeners.Keys;
    }
  }

  lemma AnswerKeeps(s: System, w: WorkerId)
    requires Inv(s) && w in s.workers && s.workers[w].Answering? && s.workers[w].key.slot in s.listeners
    ensures Inv(SendStatus(s, w, s.workers[w].key, s.workers[w].status))
  {
    hide TableInv, QueueInv, WorkerInv, PostedInv, DrainerInv, HistoryInv, CallingInv, WorkInv, FiredInv, OutcomeInv,
        VerdictInv;
    hide WakeupInv, OwingInv, CountInv, SameStatuses, Grown, SameIds;
    HeldJob(s, w);
    var k := s.workers[w].key;
    var s' := SendStatus(s, w, k, s.workers[w].status);
    var l := s.listeners[k.slot];
    assert s'.listeners[k.slot] == Post(l, k.id, s.workers[w].status);
    WakeupPosts(s.listeners, k.slot, k.id, s.workers[w].status);
    PostChangesIds(s.listeners, k.slot, s'.listeners[k.slot]);
    TableMoves(s.listeners, s.jobs, s.place, k, Posted);
    TableOfListeners(s.listeners, s'.listeners, s.jobs, s'.place);
    QueueElsewhere(s.queue, s.place, k, Posted);
    WorkerHandsOver(s.workers, s.place, w, Posted);
    PostedEnters(s.listeners, s.place, k, s.workers[w].status);
    DrainersElsewhere(s.drainers, s.place, k, Posted);
    HistoryGrows(s.listeners, s'.listeners, s.ran, s.fired, s.outcome);
    WorkAnswers(s.jobs, s.queue, s.workers, s.ran, w, s.workers[w]);
    FiredByTable(s.listeners, s'.listeners, s.jobs, s.jobs, s.fired);
    OutcomePosted(s.listeners, s.workers, s.drainers, s.outcome, w);
    VerdictOfWorkers(s.queue, s.workers, s.ran, s.fired, s.outcome, w);
  }

  lemma CallingOfDrainers(drainers: map<nat, Drainer>, jobs: map<Key, Job>, fired: multiset<Key>, owing: set<Key>,
      d: nat, drainer: Drainer)
    requires CallingInv(drainers, jobs, fired) && OwingInv(owing, jobs, drainers) && drainer.Matching? && d !in drainers
    ensures CallingInv(drainers[d := drainer], jobs, fired) && OwingInv(owing, jobs, drainers[d := drainer])
  {
    var drainers' := drainers[d := drainer];
    forall k | k in owing && k !in jobs
      ensures exists e :: e in drainers' && drainers'[e].Calling? && drainers'[e].key == k
    {
      var e :| e in drainers && drainers[e].Calling? && drainers[e].key == k;
      assert drainers'[e] == drainers[e];
    }
  }

  lemma MatchKeeps(s: System, d: nat, slot: Slot)
    requires Inv(s) && d !in s.drainers && slot in s.listeners && s.listeners[slot].statuses != []
    ensures Inv(ReceiveStatus(s, d, slot))
  {
    hide TableInv, QueueInv, WorkerInv, PostedInv, DrainerInv, HistoryInv, CallingInv, WorkInv, FiredInv, OutcomeInv,
        VerdictInv;
    hide WakeupInv, OwingInv, CountInv, SameStatuses, Grown, SameIds;
    PostedJob(s, slot);
    var s' := ReceiveStatus(s, d, slot);
    var l := s.listeners[slot];
    var k := Key(slot, l.statuses[0].id);
    assert s'.listeners[slot] == Unpost(l);
    WakeupPosts(s.listeners, slot, k.id, OK);
    PostChangesIds(s.listeners, slot, s'.listeners[slot]);
    TableMoves(s.listeners, s.jobs, s.place, k, WithDrainer(d));
    TableOfListeners(s.listeners, s'.listeners, s.jobs, s'.place);
    QueueElsewhere(s.queue, s.place, k, WithDrainer(d));
    WorkersElsewhere(s.workers, s.place, k, WithDrainer(d));
    PostedLeaves(s.listeners, s.place, slot, WithDrainer(d));
    DrainerMatches(s.drainers, s.place, d, k, l.statuses[0].status);
    HistoryGrows(s.listeners, s'.listeners, s.ran, s.fired, s.outcome);
    CallingOfDrainers(s.drainers, s.jobs, s.fired, s.owing, d, s'.drainers[d]);
    FiredByTable(s.listeners, s'.listeners, s.jobs, s.jobs, s.fired);
    OutcomeReceived(s.listeners, s.workers, s.drainers, s.outcome, d, slot);
  }

  lemma TableRemoves(listeners: map<Slot, Listener>, jobs: map<Key, Job>, place: map<Key, Place>, k: Key)
    requires TableInv(listeners, jobs, place)
    ensures TableInv(listeners, jobs - {k}, place - {k})
  {
  }

  lemma CallingFires(drainers: map<nat, Drainer>, jobs: map<Key, Job>, fired: multiset<Key>, owing: set<Key>, d: nat,
      drainer: Drainer)
    requires CallingInv(drainers, jobs, fired) && OwingInv(owing, jobs, drainers)
    requires d in drainers && drainers[d].Matching? && drainer.Calling? && drainer.key in jobs
    ensures CallingInv(drainers[d := drainer], jobs - {drainer.key}, fired + multiset{drainer.key})
    ensures OwingInv(owing, jobs - {drainer.key}, drainers[d := drainer])
  {
    var drainers' := drainers[d := drainer];
    forall k | k in owing && k !in jobs - {drainer.key}
      ensures exists e :: e in drainers' && drainers'[e].Calling? && drainers'[e].key == k
    {
      if k == drainer.key {
        assert drainers'[d].key == k;
      } else {
        var e :| e in drainers && drainers[e].Calling? && drainers[e].key == k;
        assert drainers'[e] == drainers[e];
      }
    }
  }

  lemma WorkRemoves(jobs: map<Key, Job>, queue: multiset<Key>, workers: map<WorkerId, Worker>, ran: multiset<Key>,
      place: map<Key, Place>, k: Key)
    requires WorkInv(jobs, queue, workers, ran) && WorkerInv(workers, place) && k in place && place[k].WithDrainer?
    ensures WorkInv(jobs - {k}, queue, workers, ran)
  {
  }

  lemma VerdictFires(queue: multiset<Key>, workers: map<WorkerId, Worker>, ran: multiset<Key>, fired: multiset<Key>,
                     outcome: map<Key, Status>, k: Key)
    requires VerdictInv(queue, workers, ran, fired, outcome) && k in outcome
    ensures VerdictInv(queue, workers, ran, fired + multiset{k}, outcome)
  {
  }

  lemma OutcomeOfDrainers(listeners: map<Slot, Listener>, workers: map<WorkerId, Worker>, drainers: map<nat, Drainer>,
                          outcome: map<Key, Status>, d: nat, callback: Option<nat>)
    requires OutcomeInv(listeners, workers, drainers, outcome) && d in drainers
    ensures OutcomeInv(listeners, workers, drainers - {d}, outcome)
    ensures OutcomeInv(listeners, workers, drainers[d := Calling(drainers[d].key, drainers[d].status, callback)],
        outcome)
    ensures drainers[d].key in outcome
  {
  }

  lemma FireKeeps(s: System, d: nat)
    requires Inv(s) && d in s.drainers && s.drainers[d].Matching?
    ensures Inv(FireCallback(s, d, s.drainers[d].key, s.drainers[d].status))
  {
    hide TableInv, QueueInv, WorkerInv, PostedInv, DrainerInv, HistoryInv, CallingInv, WorkInv, FiredInv, OutcomeInv,
        VerdictInv;
    hide WakeupInv, OwingInv, CountInv, SameStatuses, Grown, SameIds;
    MatchedJob(s, d);
    var k := s.drainers[d].key;
    var drainer := Calling(k, s.drainers[d].status, s.jobs[k].callback);
    TableRemoves(s.listeners, s.jobs, s.place, k);
    QueueElsewhere(s.queue, s.place, k, Posted);
    WorkersElsewhere(s.workers, s.place, k, Posted);
    PostedElsewhere(s.listeners, s.place, k, InQueue);
    DrainerFires(s.drainers, s.place, d, drainer);
    HistoryAdds(s.listeners, s.ran, s.fired, s.outcome, k, OK);
    CallingFires(s.drainers, s.jobs, s.fired, s.owing, d, drainer);
    WorkRemoves(s.jobs, s.queue, s.workers, s.ran, s.place, k);
    FiredFires(s.listeners, s.jobs, s.fired, k);
    OutcomeOfDrainers(s.listeners, s.workers, s.drainers, s.outcome, d, drainer.callback);
    VerdictFires(s.queue, s.workers, s.ran, s.fired, s.outcome, k);
  }

  lemma CallingReturns(drainers: map<nat, Drainer>, jobs: map<Key, Job>, fired: multiset<Key>, owing: set<Key>, d: nat)
    requires CallingInv(drainers, jobs, fired) && OwingInv(owing, jobs, drainers) && d in drainers
        && drainers[d].Calling?
    ensures CallingInv(drainers - {d}, jobs, fired) && OwingInv(owing - {drainers[d].key}, jobs, drainers - {d})
    ensures drainers[d].key in owing
  {
    var drainers' := drainers - {d};
    forall k | k in owing - {drainers[d].key} && k !in jobs
      ensures exists e :: e in drainers' && drainers'[e].Calling? && drainers'[e].key == k
    {
      var e :| e in drainers && drainers[e].Calling? && drainers[e].key == k;
      assert e in drainers';
    }
  }

  lemma ReturnKeeps(s: System, d: nat)
    requires Inv(s) && d in s.drainers && s.drainers[d].Calling?
    ensures Inv(CallbackReturns(s, d, s.drainers[d].key))
  {
    hide TableInv, QueueInv, WorkerInv, PostedInv, DrainerInv, HistoryInv, CallingInv, WorkInv, FiredInv, OutcomeInv,
        VerdictInv;
    hide WakeupInv, OwingInv, CountInv, SameStatuses, Grown, SameIds;
    DrainerReturns(s.drainers, s.place, d);
    CallingReturns(s.drainers, s.jobs, s.fired, s.owing, d);
    OutcomeOfDrainers(s.listeners, s.workers, s.drainers, s.outcome, d, None);
    CountDrops(s.unprocessed, s.owing, s.drainers[d].key);
  }

  lemma TableOnlyKeeps(s: System, jobs': map<Key, Job>)
    requires Inv(s) && jobs'.Keys == s.jobs.Keys
    requires forall k :: k in s.jobs ==>
        jobs'[k].stamp == s.jobs[k].stamp && (jobs'[k].state.InProgress? <==> s.jobs[k].state.InProgress?)
    ensures Inv(s.(jobs := jobs'))
  {
    hide TableInv, QueueInv, WorkerInv, PostedInv, DrainerInv, HistoryInv, CallingInv, WorkInv, FiredInv, OutcomeInv,
        VerdictInv;
    hide WakeupInv, OwingInv, CountInv, SameStatuses, Grown, SameIds;
    TableUpdates(s, jobs');
    WorkTable(s.jobs, jobs', s.queue, s.workers, s.ran);
  }

  lemma ListenerAdded(listeners: map<Slot, Listener>, jobs: map<Key, Job>, place: map<Key, Place>, slot: Slot)
    requires slot !in listeners && TableInv(listeners, jobs, place) && WakeupInv(listeners)
    ensures var listeners' := listeners[slot := Listener(1, [], 0)];
            && TableInv(listeners', jobs, place) && WakeupInv(listeners')
            && SameStatuses(listeners, listeners') && SameIds(listeners, listeners') && Grown(listeners, listeners')
  {
  }

  lemma AllocateKeeps(s: System, slot: Slot)
    requires Inv(s) && slot !in s.listeners
    ensures Inv(s.(listeners := s.listeners[slot := Listener(1, [], 0)]))
  {
    hide TableInv, QueueInv, WorkerInv, PostedInv, DrainerInv, HistoryInv, CallingInv, WorkInv, FiredInv, OutcomeInv,
        VerdictInv;
    hide WakeupInv, OwingInv, CountInv, SameStatuses, Grown, SameIds;
    var listeners' := s.listeners[slot := Listener(1, [], 0)];
    ListenerAdded(s.listeners, s.jobs, s.place, slot);
    PostedByStatuses(s.listeners, listeners', s.place);
    HistoryGrows(s.listeners, listeners', s.ran, s.fired, s.outcome);
    FiredByTable(s.listeners, listeners', s.jobs, s.jobs, s.fired);
    OutcomeOfListeners(s.listeners, listeners', s.workers, s.drainers, s.outcome);
  }

  lemma FenceOnlyKeeps(s: System, fence: Fence, arriving: multiset<Arrival>)
    requires Inv(s) && fence.Valid()
    ensures Inv(s.(fence := fence)) && Inv(s.(arriving := arriving))
  {
    hide TableInv, QueueInv, WorkerInv, PostedInv, DrainerInv, HistoryInv, CallingInv, WorkInv, FiredInv, OutcomeInv,
        VerdictInv;
    hide WakeupInv, OwingInv, CountInv, SameStatuses, Grown, SameIds;
  }

  lemma StepKeepsInv(s: System, step: Step)
    requires Inv(s) && CanTake(s, step)
    ensures Inv(Apply(s, step))
  {
    hide Inv;
    FenceIsValid(s);
    match step
    case EnableTracking => FenceOnlyKeeps(s, s.fence.(tracking := true), s.arriving);
    case FenceCall(listener, epoch) => FenceOnlyKeeps(s, s.fence.Fenced(epoch, s.fence.StampOf(listener)), s.arriving);
    case CloseConnection(listener) => FenceOnlyKeeps(s, s.fence.Closed(listener), s.arriving);
    case Allocate(slot) => AllocateKeeps(s, slot);
    case Receive(_, _, _, _, _) => FenceOnlyKeeps(s, s.fence, Apply(s, step).arriving);
    case Insert(arrival) => InsertKeeps(s, arrival);
    case Take(w, k) => TakeKeeps(s, w, k);
    case Claim(w) => ClaimKeeps(s, w);
    case Finish(w, status) => FinishKeeps(s, w, status);
    case Answer(w) => AnswerKeeps(s, w);
    case Match(d, slot) => MatchKeeps(s, d, slot);
    case Fire(d) => FireKeeps(s, d);
    case Return(d) => ReturnKeeps(s, d);
    case Disable(k) => if k in s.jobs { TableOnlyKeeps(s, s.jobs[k := DisabledJob(s.jobs[k])]); }
    case DisableAll(slot, callback) => TableOnlyKeeps(s, DisabledTable(s.jobs, slot, callback));
    case ChangeCallback(k, callback) => if k in s.jobs { TableOnlyKeeps(s,
        s.jobs[k := s.jobs[k].(callback := callback)]); }
  }

  lemma InitHasInv(s: System)
    requires Init(s)
    ensures Inv(s)
  {
  }

  lemma {:induction false} InvHolds(run: seq<System>, i: nat)
    requires IsFullRun(run) && i < |run|
    ensures Inv(run[i])
  {
    hide Inv, Apply;
    if i == 0 {
      InitHasInv(run[0]);
    } else {
      InvHolds(run, i - 1);
      assert Next(run[i - 1], run[i - 1 + 1]);
      var step :| CanTake(run[i - 1], step) && run[i] == Apply(run[i - 1], step);
      StepKeepsInv(run[i - 1], step);
    }
  }

  /** Every job a thread or queue still refers to is in its listener's table, and every job of the
      table has exactly one such reference, so its single status finds it. */
  ghost predicate OneReferencePerJob(s: System) {
    && (forall k :: k in s.queue ==> k in s.jobs && s.queue[k] == 1)
    && (forall w :: w in s.workers ==> s.workers[w].key in s.jobs && s.workers[w].key !in s.queue)
    && (forall w, v :: w in s.workers && v in s.workers && w != v ==> s.workers[w].key != s.workers[v].key)
    && (forall k :: IsPosted(s.listeners, k) ==> k in s.jobs && k !in s.queue && forall w :: w in s.workers ==>
        s.workers[w].key != k)
    && (forall d :: d in s.drainers && s.drainers[d].Matching? ==>
          s.drainers[d].key in s.jobs && s.drainers[d].key !in s.queue && !IsPosted(s.listeners, s.drainers[d].key))
    && (forall d, w :: d in s.drainers && w in s.workers ==> s.drainers[d].key != s.workers[w].key)
    && (forall d, e :: d in s.drainers && e in s.drainers && d != e ==> s.drainers[d].key != s.drainers[e].key)
    && (forall k :: k in s.jobs ==> HasReference(s, k))
  }

  ghost predicate HasReference(s: System, k: Key) {
    || k in s.queue || IsPosted(s.listeners, k)
    || (exists w :: w in s.workers && s.workers[w].key == k)
    || (exists d :: d in s.drainers && s.drainers[d].Matching? && s.drainers[d].key == k)
  }

  lemma PostedIsPlaced(listeners: map<Slot, Listener>, place: map<Key, Place>, k: Key)
    requires PostedInv(listeners, place) && IsPosted(listeners, k)
    ensures k in place && place[k] == Posted
  {
    var i :| 0 <= i < |listeners[k.slot].statuses| && listeners[k.slot].statuses[i].id == k.id;
    assert PostedKey(listeners, k.slot, i) == k;
  }

  lemma PlacedHasReference(s: System, k: Key)
    requires PlaceInv(s) && k in s.jobs
    ensures HasReference(s, k)
  {
    match s.place[k]
    case InQueue =>
    case WithWorker(w) => assert w in s.workers && s.workers[w].key == k;
    case Posted =>
    case WithDrainer(d) => assert d in s.drainers && s.drainers[d].key == k;
  }

  lemma PlacesOf(s: System)
    requires Inv(s)
    ensures PlaceInv(s) && CallingInv(s.drainers, s.jobs, s.fired)
  {
  }

  lemma PlacesGiveReferences(s: System)
    requires PlaceInv(s) && CallingInv(s.drainers, s.jobs, s.fired)
    ensures OneReferencePerJob(s)
  {
    forall k | IsPosted(s.listeners, k)
      ensures k in s.place && s.place[k] == Posted
    {
      PostedIsPlaced(s.listeners, s.place, k);
    }
    forall k | k in s.jobs
      ensures HasReference(s, k)
    {
      PlacedHasReference(s, k);
    }
    hide PostedInv, HasReference, IsPosted;
  }

  /** Every queued or running job stays in its listener's table until its one status is received. */
  lemma JobsStayUntilAnswered(run: seq<System>, i: nat)
    requires IsFullRun(run) && i < |run|
    ensures OneReferencePerJob(run[i])
  {
    hide Inv, IsFullRun, PlaceInv, CallingInv, OneReferencePerJob;
    InvHolds(run, i);
    PlacesOf(run[i]);
    PlacesGiveReferences(run[i]);
  }

  /** A job's work starts at most once and its callback fires exactly once, when the job leaves the
      table; the callback gets the worker's status, NOTDONE for a job that never ran. */
  lemma WorkAndCallbackOnce(run: seq<System>, i: nat, k: Key)
    requires IsFullRun(run) && i < |run|
    ensures var s := run[i];
            && s.ran[k] <= 1 && s.fired[k] <= 1
            && (Issued(s.listeners, k) ==> (s.fired[k] == 1 <==> k !in s.jobs))
            && (forall d :: d in s.drainers && s.drainers[d].key == k && s.drainers[d].Calling? ==>
                  s.fired[k] == 1 && k in s.outcome && s.outcome[k] == s.drainers[d].status
                      && (k !in s.ran ==> s.drainers[d].status == NOTDONE))
  {
    InvHolds(run, i);
  }

  // The status a worker decided on is the one that arrives.

  lemma UndecidedWorkers(s: System, k: Key)
    requires Inv(s) && k in s.outcome
    ensures forall w :: w in s.workers && s.workers[w].key == k ==> s.workers[w].Answering?
  {
  }

  lemma OutcomeStays(s: System, step: Step, k: Key)
    requires Inv(s) && CanTake(s, step) && k in s.outcome
    ensures var s' := Apply(s, step); k in s'.outcome && s'.outcome[k] == s.outcome[k] && (k !in s.ran ==> k !in s'.ran)
  {
    hide Inv, Apply, ClaimJob;
    UndecidedWorkers(s, k);
    if step.Claim? || step.Finish? {
      WorkIs(s, step);
      if step.Claim? {
        ClaimLeavesOthers(s, step.worker, s.workers[step.worker].key, k);
      }
    } else {
      OnlyWorkDecides(s, step);
    }
  }

  lemma WorkIs(s: System, step: Step)
    requires CanTake(s, step) && (step.Claim? || step.Finish?)
    ensures step.Claim? ==> Apply(s, step) == ClaimJob(s, step.worker, s.workers[step.worker].key)
    ensures step.Finish? ==>
              && Apply(s, step).outcome == s.outcome[s.workers[step.worker].key := step.status]
              && Apply(s, step).ran == s.ran
  {
    hide ClaimJob, Fence.Ended;
  }

  lemma ClaimLeavesOthers(s: System, w: WorkerId, key: Key, k: Key)
    requires key in s.jobs && k != key && k in s.outcome
    ensures var s' := ClaimJob(s, w, key);
            k in s'.outcome && s'.outcome[k] == s.outcome[k] && (k !in s.ran ==> k !in s'.ran)
  {
    hide ClaimSucceeds, ClaimedUnderFence, Fence.Started;
    var s' := ClaimJob(s, w, key);
    if s.jobs[key].state.InProgress? || ClaimSucceeds(s, s.jobs[key]) {
      assert s'.ran == s.ran + multiset{key} && s'.outcome == s.outcome;
    } else {
      assert s'.ran == s.ran && s'.outcome == s.outcome[key := NOTDONE];
    }
  }

  lemma OnlyWorkDecides(s: System, step: Step)
    requires CanTake(s, step) && !step.Claim? && !step.Finish?
    ensures Apply(s, step).outcome == s.outcome && Apply(s, step).ran == s.ran
  {
    hide InsertJob, TakeJob, SendStatus, ReceiveStatus, FireCallback, CallbackReturns, DisabledTable;
    match step
    case Insert(arrival) => InsertDecidesNothing(s, arrival);
    case Take(w, k) => TakeDecidesNothing(s, w, k);
    case Answer(w) => SendDecidesNothing(s, w, s.workers[w].key, s.workers[w].status);
    case Match(d, slot) => ReceiveDecidesNothing(s, d, slot);
    case Fire(d) => CallsDecideNothing(s, d, s.drainers[d].key, s.drainers[d].status);
    case Return(d) => CallsDecideNothing(s, d, s.drainers[d].key, s.drainers[d].status);
    case _ =>
  }

  lemma InsertDecidesNothing(s: System, a: Arrival)
    requires a.slot in s.listeners
    ensures InsertJob(s, a).outcome == s.outcome && InsertJob(s, a).ran == s.ran
  {
  }

  lemma TakeDecidesNothing(s: System, w: WorkerId, k: Key)
    ensures TakeJob(s, w, k).outcome == s.outcome && TakeJob(s, w, k).ran == s.ran
  {
  }

  lemma SendDecidesNothing(s: System, w: WorkerId, k: Key, status: Status)
    requires k.slot in s.listeners
    ensures SendStatus(s, w, k, status).outcome == s.outcome && SendStatus(s, w, k, status).ran == s.ran
  {
  }

  lemma ReceiveDecidesNothing(s: System, d: nat, slot: Slot)
    requires slot in s.listeners && s.listeners[slot].statuses != []
    ensures ReceiveStatus(s, d, slot).outcome == s.outcome && ReceiveStatus(s, d, slot).ran == s.ran
  {
  }

  lemma CallsDecideNothing(s: System, d: nat, k: Key, status: Status)
    ensures FireCallback(s, d, k, status).outcome == s.outcome && FireCallback(s, d, k, status).ran == s.ran
    ensures CallbackReturns(s, d, k).outcome == s.outcome && CallbackReturns(s, d, k).ran == s.ran
  {
  }

  lemma {:induction false} OutcomeIsFinal(run: seq<System>, i: nat, j: nat, k: Key)
    requires IsFullRun(run) && i <= j < |run| && k in run[i].outcome
    ensures k in run[j].outcome && run[j].outcome[k] == run[i].outcome[k] && (k !in run[i].ran ==> k !in run[j].ran)
  {
    hide Inv, Apply;
    if i < j {
      OutcomeIsFinal(run, i, j - 1, k);
      InvHolds(run, j - 1);
      assert Next(run[j - 1], run[j - 1 + 1]);
      var step :| CanTake(run[j - 1], step) && run[j] == Apply(run[j - 1], step);
      OutcomeStays(run[j - 1], step, k);
    }
  }

  /** Whoever carries a status for the job carries this one: its worker, its listener's status queue, or the thread
      that calls its callback. */
  ghost predicate Carries(s: System, k: Key, status: Status) {
    && (forall w :: w in s.workers && s.workers[w].Answering? && s.workers[w].key == k ==>
          s.workers[w].status == status)
    && (k.slot in s.listeners ==>
          var postings := s.listeners[k.slot].statuses;
          forall n :: 0 <= n < |postings| && postings[n].id == k.id ==> postings[n].status == status)
    && (forall d :: d in s.drainers && s.drainers[d].key == k ==> s.drainers[d].status == status)
  }

  lemma OutcomeIsCarried(s: System, k: Key)
    requires Inv(s) && k in s.outcome
    ensures Carries(s, k, s.outcome[k])
  {
    if k.slot in s.listeners {
      var postings := s.listeners[k.slot].statuses;
      forall n | 0 <= n < |postings| && postings[n].id == k.id
        ensures postings[n].status == s.outcome[k]
      {
        assert PostedKey(s.listeners, k.slot, n) == k;
      }
    }
  }

  /** The status that a job's work returned, and no other, is posted for it and given to its callback. */
  lemma CallbackGetsTheStatusOfTheWork(run: seq<System>, i: nat, j: nat, w: WorkerId, status: Status)
    requires IsFullRun(run) && i < j < |run| && CanTake(run[i], Finish(w, status))
        && run[i + 1] == Apply(run[i], Finish(w, status))
    ensures Carries(run[j], run[i].workers[w].key, status)
  {
    hide Inv;
    var k := run[i].workers[w].key;
    OutcomeIsFinal(run, i + 1, j, k);
    InvHolds(run, j);
    OutcomeIsCarried(run[j], k);
  }

  /** A job disabled before a worker claimed it never runs. */
  lemma {:induction false} DisabledJobNeverRuns(run: seq<System>, i: nat, j: nat, k: Key)
    requires IsFullRun(run) && i <= j < |run|
    requires k in run[i].jobs && run[i].jobs[k].state.Disabled?
    ensures DisabledForGood(run[j], k) && k !in run[j].ran
  {
    hide Inv, Apply;
    if i == j {
      InvHolds(run, j);
      DisabledHasNotRun(run[i], k);
    } else {
      DisabledJobNeverRuns(run, i, j - 1, k);
      assert Next(run[j - 1], run[j - 1 + 1]);
      var step :| CanTake(run[j - 1], step) && run[j] == Apply(run[j - 1], step);
      StepKeepsDisabled(run[j - 1], step, k);
    }
  }

  lemma DisabledHasNotRun(s: System, k: Key)
    requires Inv(s) && k in s.jobs && s.jobs[k].state.Disabled?
    ensures k !in s.ran && Issued(s.listeners, k)
  {
  }

  /** What the rest of a run can do to a disabled job. */
  ghost predicate DisabledForGood(s: System, k: Key) {
    Issued(s.listeners, k) && k !in s.ran && (k in s.jobs ==> s.jobs[k].state.Disabled?)
  }

  lemma ClaimKeepsDisabled(s: System, w: WorkerId, k: Key)
    requires DisabledForGood(s, k) && w in s.workers && s.workers[w].key in s.jobs
    ensures DisabledForGood(ClaimJob(s, w, s.workers[w].key), k)
  {
  }

  lemma StepKeepsDisabled(s: System, step: Step, k: Key)
    requires CanTake(s, step) && DisabledForGood(s, k)
    ensures DisabledForGood(Apply(s, step), k)
  {
    if step.Claim? {
      hide ClaimJob;
      ClaimKeepsDisabled(s, step.worker, k);
    } else if step.Insert? {
      assert k != Key(step.arrival.slot, s.listeners[step.arrival.slot].nextId);
    } else {
      OthersKeepDisabled(s, step, k);
    }
  }

  lemma OthersKeepDisabled(s: System, step: Step, k: Key)
    requires CanTake(s, step) && DisabledForGood(s, k) && !step.Claim? && !step.Insert?
    ensures DisabledForGood(Apply(s, step), k)
  {
    hide ClaimJob, InsertJob;
  }

  /** unprocessedJobs_ is zero exactly when the pool has no job left and every callback has returned. */
  lemma CounterZeroIffAllReturned(run: seq<System>, i: nat, pool: nat)
    requires IsFullRun(run) && i < |run|
    ensures var s := run[i];
            && Counter(s.unprocessed, pool) >= 0
            && (Counter(s.unprocessed, pool) == 0 <==>
                && (forall k :: k in s.jobs ==> k.slot.pool != pool)
                && (forall d :: d in s.drainers && s.drainers[d].Calling? ==> s.drainers[d].key.slot.pool != pool))
  {
    InvHolds(run, i);
    var s := run[i];
    assert OwingInv(s.owing, s.jobs, s.drainers) && CountInv(s.unprocessed, s.owing);
    hide Inv, IsFullRun;
    if Counter(s.unprocessed, pool) == 0 {
      assert OfPool(s.owing, pool) == {};
      forall k | k in s.jobs
        ensures k.slot.pool != pool
      {
        assert k in s.owing && k !in OfPool(s.owing, pool);
      }
      forall d | d in s.drainers && s.drainers[d].Calling?
        ensures s.drainers[d].key.slot.pool != pool
      {
        assert s.drainers[d].key in s.owing && s.drainers[d].key !in OfPool(s.owing, pool);
      }
    } else {
      var k :| k in OfPool(s.owing, pool);
      if k !in s.jobs {
        var d :| d in s.drainers && s.drainers[d].Calling? && s.drainers[d].key == k;
      }
    }
  }

  /** The eventfd of a listener is readable exactly when a status waits. */
  lemma WakeupIffStatusWaits(run: seq<System>, i: nat, slot: Slot)
    requires IsFullRun(run) && i < |run| && slot in run[i].listeners
    ensures run[i].listeners[slot].wakeup != 0 <==> run[i].listeners[slot].statuses != []
  {
    InvHolds(run, i);
  }

  /** Disabling a job, or all jobs of its listener, before a worker claims it keeps it from ever running. */
  lemma DisablingKeepsAJobFromRunning(run: seq<System>, i: nat, j: nat, step: Step, k: Key)
    requires IsFullRun(run) && i < j < |run| && CanTake(run[i], step) && run[i + 1] == Apply(run[i], step)
    requires step == Disable(k) || (step.DisableAll? && step.slot == k.slot)
    requires k in run[i].jobs && k !in run[i].ran
    ensures k !in run[j].ran
  {
    hide Inv, Init;
    InvHolds(run, i);
    NotYetStarted(run[i], k);
    DisabledJobNeverRuns(run, i + 1, j, k);
  }

  lemma NotYetStarted(s: System, k: Key)
    requires Inv(s) && k in s.jobs && k !in s.ran
    ensures !s.jobs[k].state.InProgress?
  {
  }
}
