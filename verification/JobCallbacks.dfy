/** Which callback a job's status goes to. */
module JobCallbacks {
  import opened Common
  import opened Fencing
  import opened JobPools
  import opened JobLifecycle
  import opened FenceProtocol

  /** The steps that made a run. */
  ghost predicate MadeBy(run: seq<System>, steps: seq<Step>) {
    && IsFullRun(run) && |steps| == |run| - 1
    && forall i :: 0 <= i < |steps| ==> CanTake(run[i], steps[i]) && run[i + 1] == Apply(run[i], steps[i])
  }

  /** The callback of a job after a step, given the one before. */
  function Given(step: Step, k: Key, callback: Option<nat>): Option<nat> {
    if step.ChangeCallback? && step.key == k then step.newCallback
    else if step.DisableAll? && step.slot == k.slot then step.newCallback
    else callback
  }

  /** The callback of a job after some steps: the last one set for it or for all jobs of its listener. */
  function LastCallback(steps: seq<Step>, from: nat, i: nat, k: Key, first: Option<nat>): Option<nat>
    requires from <= i <= |steps|
    decreases i
  {
    if i == from then first else Given(steps[i - 1], k, LastCallback(steps, from, i - 1, k, first))
  }

  lemma CallbackAfter(s: System, step: Step, k: Key)
    requires CanTake(s, step) && k in s.jobs && k in Apply(s, step).jobs
    requires step.Insert? ==> Key(step.arrival.slot, s.listeners[step.arrival.slot].nextId) != k
    ensures Apply(s, step).jobs[k].callback == Given(step, k, s.jobs[k].callback)
  {
    if LeavesTable(step) {
      hide Apply;
      TableIsKept(s, step);
    } else if step.Disable? || step.DisableAll? || step.ChangeCallback? {
      hide Apply, CanTake;
      SettersGive(s, step, k);
    } else {
      hide ClaimJob, InsertJob, FireCallback;
      match step
      case Insert(arrival) => InsertLeaves(s, arrival, k);
      case Claim(w) => ClaimLeaves(s, w, s.workers[w].key, k);
      case Fire(d) => FireLeaves(s, d, s.drainers[d].key, s.drainers[d].status, k);
    }
  }

  lemma SettersGive(s: System, step: Step, k: Key)
    requires CanTake(s, step) && k in s.jobs && (step.Disable? || step.DisableAll? || step.ChangeCallback?)
    ensures k in Apply(s, step).jobs && Apply(s, step).jobs[k].callback == Given(step, k, s.jobs[k].callback)
  {
    var jobs := Apply(s, step).jobs;
    match step
    case Disable(key) => assert key in s.jobs ==> jobs == s.jobs[key := DisabledJob(s.jobs[key])];
    case DisableAll(slot, callback) => assert jobs == DisabledTable(s.jobs, slot, callback);
    case ChangeCallback(key, callback) =>
      assert key in s.jobs ==> jobs == s.jobs[key := s.jobs[key].(callback := callback)];
  }

  lemma InsertLeaves(s: System, a: Arrival, k: Key)
    requires a.slot in s.listeners
    ensures var s', key := InsertJob(s, a), Key(a.slot, s.listeners[a.slot].nextId);
            && key in s'.jobs && s'.jobs[key].callback == a.callback
            && (k in s.jobs && k != key ==> k in s'.jobs && s'.jobs[k] == s.jobs[k])
  {
  }

  lemma ClaimLeaves(s: System, w: WorkerId, key: Key, k: Key)
    requires key in s.jobs && k in s.jobs
    ensures var s' := ClaimJob(s, w, key); k in s'.jobs && s'.jobs[k].callback == s.jobs[k].callback
  {
    hide ClaimSucceeds, ClaimedUnderFence, Fence.Started;
    var s' := ClaimJob(s, w, key);
    if !s.jobs[key].state.InProgress? && ClaimSucceeds(s, s.jobs[key]) {
      assert s'.jobs == s.jobs[key := s.jobs[key].(state := InProgress)];
    } else {
      assert s'.jobs == s.jobs;
    }
  }

  lemma FireLeaves(s: System, d: nat, key: Key, status: Status, k: Key)
    ensures var s' := FireCallback(s, d, key, status);
            && (k in s'.jobs ==> k in s.jobs && s'.jobs[k] == s.jobs[k])
            && (key in s.jobs ==> d in s'.drainers && s'.drainers[d] == Calling(key, status, s.jobs[key].callback))
  {
  }

  lemma {:induction false} TableHasTheLastCallback(run: seq<System>, steps: seq<Step>, i: nat, j: nat)
    requires MadeBy(run, steps) && i < j < |run| && steps[i].Insert?
    ensures var a := steps[i].arrival;
            var k := Key(a.slot, run[i].listeners[a.slot].nextId);
            && Issued(run[j].listeners, k)
            && (k in run[j].jobs ==> run[j].jobs[k].callback == LastCallback(steps, i + 1, j, k, a.callback))
    decreases j
  {
    hide Inv, Apply, Init;
    var a, s, step := steps[i].arrival, run[j - 1], steps[j - 1];
    var k := Key(a.slot, run[i].listeners[a.slot].nextId);
    InvHolds(run, j - 1);
    assert CanTake(s, step) && run[j - 1 + 1] == Apply(s, step);
    if j == i + 1 {
      InsertGives(s, a);
    } else {
      TableHasTheLastCallback(run, steps, i, j - 1);
      KeysStayIssued(s, step, k);
      if k in run[j].jobs {
        CallbackAfter(s, step, k);
      }
    }
  }

  lemma InsertGives(s: System, a: Arrival)
    requires Inv(s) && CanTake(s, Insert(a))
    ensures var s', k := Apply(s, Insert(a)), Key(a.slot, s.listeners[a.slot].nextId);
            Issued(s'.listeners, k) && k in s'.jobs && s'.jobs[k].callback == a.callback
  {
  }

  /** The callback that is called for a job is the one it arrived with, or the last one set in its place since. */
  lemma LastCallbackIsCalled(run: seq<System>, steps: seq<Step>, i: nat, j: nat)
    requires MadeBy(run, steps) && i < j < |steps| && steps[i].Insert? && steps[j].Fire?
    requires var a := steps[i].arrival;
             var k := Key(a.slot, run[i].listeners[a.slot].nextId);
             run[j].drainers[steps[j].drainer].key == k && k in run[j].jobs
    ensures var a, d := steps[i].arrival, steps[j].drainer;
            var k := Key(a.slot, run[i].listeners[a.slot].nextId);
            && d in run[j + 1].drainers && run[j + 1].drainers[d].Calling? && run[j + 1].drainers[d].key == k
            && run[j + 1].drainers[d].callback == LastCallback(steps, i + 1, j, k, a.callback)
  {
    hide Inv, Init, Apply, LastCallback;
    TableHasTheLastCallback(run, steps, i, j);
    assert CanTake(run[j], steps[j]) && run[j + 1] == Apply(run[j], steps[j]);
    FireCalls(run[j], steps[j]);
  }

  lemma FireCalls(s: System, step: Step)
    requires CanTake(s, step) && step.Fire? && s.drainers[step.drainer].key in s.jobs
    ensures var s', d, k := Apply(s, step), step.drainer, s.drainers[step.drainer].key;
            d in s'.drainers && s'.drainers[d].Calling? && s'.drainers[d].key == k
                && s'.drainers[d].callback == s.jobs[k].callback
  {
    hide FireCallback;
    var d := step.drainer;
    FireLeaves(s, d, s.drainers[d].key, s.drainers[d].status, s.drainers[d].key);
  }
}
