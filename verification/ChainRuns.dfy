/** Sessions inside a chain, along whole runs: what the client is answered when the write jobs here and the statuses of
    the next chunkserver come in any order. */
module ChainRuns {
  import opened Common
  import opened WriteSessions
  import opened ReplyOrder
  import opened SessionInvariants
  import opened SessionSteps
  import opened SessionTheorems

  /** How many reports of the id the connection has taken: two for an answer, one while the id waits. */
  function Tally(w: Wire, id: nat): nat {
    2 * multiset(w.replies)[Reply(OK, id)] + if id in w.partial then 1 else 0
  }

  /** `u` is the connection as it would be at the end of the chain; `w` has taken the reports of both. */
  ghost predicate Twin(w: Wire, u: Wire, next: multiset<nat>) {
    && w.state != WriteLast && u.state == WriteLast && u.partial == {} && u.available == w.available
    && forall id: nat :: Tally(w, id) == multiset(u.replies)[Reply(OK, id)] + next[id]
  }

  /** `t` is the session as it would be at the end of the chain. */
  ghost predicate Shadow(s: Session, t: Session, next: multiset<nat>) {
    t == s.(wire := t.wire) && Twin(s.wire, t.wire, next)
  }

  // The connection.

  lemma TallyTold(w: Wire, id: nat, other: nat)
    requires w.state != WriteLast
    ensures Tally(Told(w, OK, id), other) == Tally(w, other) + if other == id then 1 else 0
  {
  }

  lemma ToldTwin(w: Wire, u: Wire, next: multiset<nat>, id: nat)
    requires Twin(w, u, next)
    ensures Twin(Told(w, OK, id), Told(u, OK, id), next)
  {
    hide Tally;
    forall other: nat
      ensures Tally(Told(w, OK, id), other) == multiset(Told(u, OK, id).replies)[Reply(OK, other)] + next[other]
    {
      TallyTold(w, id, other);
    }
  }

  lemma NextTwin(w: Wire, u: Wire, next: multiset<nat>, id: nat)
    requires Twin(w, u, next)
    ensures Twin(Told(w, OK, id), u, next + multiset{id})
  {
    hide Tally;
    forall other: nat
      ensures Tally(Told(w, OK, id), other) == multiset(u.replies)[Reply(OK, other)] + (next + multiset{id})[other]
    {
      TallyTold(w, id, other);
    }
  }

  lemma CreditTwin(w: Wire, u: Wire, next: multiset<nat>, available: int)
    requires Twin(w, u, next)
    ensures Twin(w.(available := available), u.(available := available), next)
  {
    assert forall id: nat :: Tally(w.(available := available), id) == Tally(w, id);
  }

  lemma {:induction false} ToldAllTwin(w: Wire, u: Wire, next: multiset<nat>, ids: seq<nat>)
    requires Twin(w, u, next)
    ensures Twin(ToldAll(w, ids), ToldAll(u, ids), next)
    decreases |ids|
  {
    hide Twin, Told;
    if ids != [] {
      ToldTwin(w, u, next, ids[0]);
      ToldAllTwin(Told(w, OK, ids[0]), Told(u, OK, ids[0]), next, ids[1..]);
    }
  }

  lemma ReplyBufferTwin(w: Wire, u: Wire, next: multiset<nat>, b: Buffer)
    requires Twin(w, u, next)
    ensures Twin(ReplyBuffer(w, b), ReplyBuffer(u, b), next)
  {
    hide ToldAll, Tally;
    var available := w.available - (|b.ids| - b.replied);
    CreditTwin(w, u, next, available);
    ToldAllTwin(w.(available := available), u.(available := available), next,
        if b.replied <= |b.ids| then b.ids[b.replied..] else []);
  }

  lemma {:induction false} ReplyFromTwin(queue: seq<Buffer>, enqueued: nat, k: nat, w: Wire, u: Wire,
      next: multiset<nat>)
    requires k <= |queue| && Twin(w, u, next)
    ensures var r, q := ReplyFrom(queue, enqueued, k, w), ReplyFrom(queue, enqueued, k, u);
            r.queue == q.queue && r.through == q.through && Twin(r.wire, q.wire, next)
    decreases |queue| - k
  {
    hide ReplyBuffer, Tally;
    if k < |queue| {
      if queue[k].replied == |queue[k].ids| {
        ReplyFromTwin(queue, enqueued, k + 1, w, u, next);
      } else if Repliable(queue[k], w.available) && enqueued < k + 1 {
        ReplyBufferTwin(w, u, next, queue[k]);
        ReplyFromTwin(queue[k := Replied(queue[k])], enqueued, k + 1, ReplyBuffer(w, queue[k]),
            ReplyBuffer(u, queue[k]), next);
      }
    }
  }

  lemma AcknowledgeTwin(queue: seq<Buffer>, input: Option<Buffer>, enqueued: nat, w: Wire, u: Wire,
      next: multiset<nat>)
    requires Twin(w, u, next)
    ensures var r, q := Acknowledge(queue, input, enqueued, w), Acknowledge(queue, input, enqueued, u);
            r.queue == q.queue && r.input == q.input && Twin(r.wire, q.wire, next)
  {
    hide ReplyFrom, ReplyBuffer, Tally;
    ReplyFromTwin(queue, enqueued, 0, w, u, next);
    if input.Some? {
      ReplyBufferTwin(ReplyFrom(queue, enqueued, 0, w).wire, ReplyFrom(queue, enqueued, 0, u).wire, next, input.value);
    }
  }

  lemma {:induction false} SettleTwin(statuses: seq<Status>, ids: seq<nat>, already: nat, closing: bool, w: Wire,
      u: Wire, untold: Status, next: multiset<nat>)
    requires |statuses| == |ids| && Twin(w, u, next)
    ensures var r, q := Settle(statuses, ids, already, closing, w, untold), Settle(statuses, ids, already, closing, u,
                untold);
            r.untold == q.untold && r.failed == q.failed && (!r.failed ==> Twin(r.wire, q.wire, next))
    decreases |ids|
  {
    hide Twin, Told;
    if ids != [] {
      if already > 0 {
        SettleTwin(statuses[1..], ids[1..], already - 1, closing, w, u, if untold == OK then statuses[0] else untold,
            next);
      } else if closing {
        SettleTwin(statuses[1..], ids[1..], 0, closing, w, u, untold, next);
      } else if statuses[0] == OK {
        ToldTwin(w, u, next, ids[0]);
        SettleTwin(statuses[1..], ids[1..], 0, closing, Told(w, OK, ids[0]), Told(u, OK, ids[0]), untold, next);
      }
    }
  }

  // The session.

  lemma ReplyShadow(s: Session, t: Session, next: multiset<nat>, fromFlush: bool)
    requires Shadow(s, t, next)
    ensures Shadow(s.TryReply(fromFlush), t.TryReply(fromFlush), next)
  {
    hide Acknowledge, Twin;
    AcknowledgeTwin(s.queue, s.input, s.enqueued, s.wire, t.wire, next);
  }

  lemma StartShadow(s: Session, t: Session, next: multiset<nat>)
    requires Shadow(s, t, next)
    ensures Shadow(s.StartNext(), t.StartNext(), next)
  {
    hide Twin;
  }

  lemma FreezeShadow(s: Session, t: Session, next: multiset<nat>)
    requires Shadow(s, t, next) && s.input.Some?
    ensures Shadow(s.Freeze(), t.Freeze(), next)
  {
    hide Twin;
  }

  lemma WriteInputShadow(s: Session, t: Session, next: multiset<nat>)
    requires Shadow(s, t, next) && s.input.Some?
    ensures t.input.Some? && Shadow(s.WriteInput(), t.WriteInput(), next)
  {
    SameInput(s, t, next);
    hide Shadow, Session.Freeze, Session.StartNext;
    FreezeShadow(s, t, next);
    StartShadow(s.Freeze(), t.Freeze(), next);
  }

  lemma SameInput(s: Session, t: Session, next: multiset<nat>)
    requires Shadow(s, t, next)
    ensures t.input == s.input && t.maxBlocks == s.maxBlocks && t.CanStart() == s.CanStart()
        && t.ShouldWriteInput() == s.ShouldWriteInput()
  {
    hide Twin;
  }

  lemma ContinueShadow(s: Session, t: Session, next: multiset<nat>)
    requires Shadow(s, t, next)
    ensures Shadow(s.Continue(), t.Continue(), next)
  {
    hide Shadow, Session.TryReply, Session.StartNext, Session.WriteInput;
    ReplyShadow(s, t, next, false);
    var r, q := s.TryReply(false), t.TryReply(false);
    SameInput(r, q, next);
    StartShadow(r, q, next);
    if r.input.Some? {
      WriteInputShadow(r, q, next);
    }
  }

  function Prepared(s: Session, maxBlocks: nat): Session {
    if s.input.Some? then s.(input := Some(Extended(s.input.value)))
    else s.(input := Some(Extended(Buffer([], 0, s.nextCount, false))), nextCount := Min(2 * s.nextCount, maxBlocks))
  }

  lemma PrepareIs(s: Session)
    ensures s.Prepare() == Prepared(
        if s.input.Some? && s.input.value.Full() then s.WriteInput() else s, s.maxBlocks)
  {
    hide Session.WriteInput, Buffer.Full;
    var s0 := if s.input.Some? && s.input.value.Full() then s.WriteInput() else s;
    if s0.input.None? {
      var b := Extended(Buffer([], 0, s0.nextCount, false));
      assert s.Prepare() == s0.(input := Some(b), nextCount := Min(2 * s0.nextCount, s.maxBlocks));
    } else {
      assert s.Prepare() == s0.(input := Some(Extended(s0.input.value)));
    }
  }

  lemma PreparedShadow(s: Session, t: Session, next: multiset<nat>, maxBlocks: nat)
    requires Shadow(s, t, next)
    ensures Shadow(Prepared(s, maxBlocks), Prepared(t, maxBlocks), next)
  {
    hide Twin, Extended, Min;
    if s.input.Some? {
      var b := Extended(s.input.value);
      assert Prepared(s, maxBlocks) == s.(input := Some(b)) && Prepared(t, maxBlocks) == t.(input := Some(b));
    } else {
      var b, n := Extended(Buffer([], 0, s.nextCount, false)), Min(2 * s.nextCount, maxBlocks);
      assert Prepared(s, maxBlocks) == s.(input := Some(b), nextCount := n);
      assert Prepared(t, maxBlocks) == t.(input := Some(b), nextCount := n);
    }
  }

  lemma PrepareShadow(s: Session, t: Session, next: multiset<nat>)
    requires Shadow(s, t, next)
    ensures Shadow(s.Prepare(), t.Prepare(), next)
  {
    SameInput(s, t, next);
    hide Shadow, Prepared, Session.Prepare, Session.WriteInput;
    PrepareIs(s);
    PrepareIs(t);
    if s.input.Some? && s.input.value.Full() {
      WriteInputShadow(s, t, next);
      PreparedShadow(s.WriteInput(), t.WriteInput(), next, s.maxBlocks);
    } else {
      PreparedShadow(s, t, next, s.maxBlocks);
    }
  }

  lemma ProcessShadow(s: Session, t: Session, next: multiset<nat>, id: nat)
    requires Shadow(s, t, next) && s.input.Some? && s.input.value.ids != []
    ensures t.input == s.input && Shadow(s.Process(id), t.Process(id), next)
  {
    hide Twin, Session.TryReply, Session.WriteInput, Session.ShouldWriteInput;
    var s1 := s.(input := Some(Landed(s.input.value, id)), past := s.past.(received := s.past.received + [id]));
    var t1 := t.(input := Some(Landed(t.input.value, id)), past := t.past.(received := t.past.received + [id]));
    ReplyShadow(s1, t1, next, false);
    var r, q := s1.TryReply(false), t1.TryReply(false);
    SameInput(r, q, next);
    if r.ShouldWriteInput() {
      NeedsInput(r);
      WriteInputShadow(r, q, next);
    }
  }

  lemma NeedsInput(s: Session)
    requires s.ShouldWriteInput()
    ensures s.input.Some?
  {
  }

  function Frozen(s: Session): Session {
    if s.input.Some? && s.input.value.ids != [] && !s.input.value.updating then s.Freeze() else s
  }

  lemma FrozenShadow(s: Session, t: Session, next: multiset<nat>)
    requires Shadow(s, t, next)
    ensures Shadow(Frozen(s), Frozen(t), next)
  {
    SameInput(s, t, next);
    hide Shadow, Session.Freeze;
    if s.input.Some? {
      FreezeShadow(s, t, next);
    }
  }

  function Released(s: Session): Session {
    if s.ready > 0 then s.(batches := s.batches + [s.ready], ready := 0).StartNext() else s
  }

  lemma ReleasedShadow(s: Session, t: Session, next: multiset<nat>)
    requires Shadow(s, t, next)
    ensures Shadow(Released(s), Released(t), next)
  {
    hide Twin, Session.StartNext;
    StartShadow(s.(batches := s.batches + [s.ready], ready := 0), t.(batches := t.batches + [t.ready], ready := 0),
        next);
  }

  lemma FlushIs(s: Session)
    ensures s.Flush() == if s.batching then Released(Frozen(s.TryReply(true))) else s
  {
    hide Session.TryReply, Session.Freeze, Session.StartNext;
  }

  lemma FlushShadow(s: Session, t: Session, next: multiset<nat>)
    requires Shadow(s, t, next)
    ensures Shadow(s.Flush(), t.Flush(), next)
  {
    assert t.batching == s.batching;
    hide Shadow, Session.TryReply, Session.Flush, Frozen, Released;
    FlushIs(s);
    FlushIs(t);
    ReplyShadow(s, t, next, true);
    FrozenShadow(s.TryReply(true), t.TryReply(true), next);
    ReleasedShadow(Frozen(s.TryReply(true)), Frozen(t.TryReply(true)), next);
  }

  lemma OpenAnswerShadow(s: Session, t: Session, next: multiset<nat>, lock: bool)
    requires Shadow(s, t, next)
    ensures Shadow(OpenAnswer(s, OK, lock), OpenAnswer(t, OK, lock), next)
  {
    hide Twin, Told;
    ToldTwin(s.wire, t.wire, next, 0);
    if s.joined {
      assert s.Adopt(lock) == s.(locked := lock, joined := false);
    } else {
      assert s.Adopt(lock) == s;
    }
  }

  lemma OpenShadow(s: Session, t: Session, next: multiset<nat>, lock: bool)
    requires Shadow(s, t, next) && s.job == InFlight(0, OnOpen)
    ensures t.job == s.job && Shadow(s.OpenDone(OK, lock), t.OpenDone(OK, lock), next)
  {
    assert t.job == s.job;
    hide Shadow, OpenAnswer, Session.Continue, Session.OpenDone;
    OpenDoneIs(s, OK, lock);
    OpenDoneIs(t, OK, lock);
    OpenAnswerShadow(s, t, next, lock);
    ContinueShadow(OpenAnswer(s, OK, lock), OpenAnswer(t, OK, lock), next);
  }

  lemma FinishShadow(s: Session, t: Session, next: multiset<nat>, statuses: seq<Status>)
    requires Shadow(s, t, next) && s.enqueued <= |s.queue| && |statuses| == |Ids(s.queue[..s.enqueued])|
    ensures t.SettleBatch(statuses).failed == s.SettleBatch(statuses).failed
    ensures !s.SettleBatch(statuses).failed ==> Shadow(s.Finish(statuses), t.Finish(statuses), next)
  {
    hide Twin, Settle, Ids, RepliedIn, LosesReplied;
    var batch := s.queue[..s.enqueued];
    var available := s.wire.available + RepliedIn(batch);
    SameCredits(s.wire, t.wire, next);
    CreditTwin(s.wire, t.wire, next, available);
    SettleTwin(statuses, Ids(batch), RepliedIn(batch), s.closing, s.wire.(available := available),
        t.wire.(available := available), s.untold, next);
  }

  lemma SameCredits(w: Wire, u: Wire, next: multiset<nat>)
    requires Twin(w, u, next)
    ensures u.available == w.available
  {
  }

  lemma WriteShadow(s: Session, t: Session, next: multiset<nat>, statuses: seq<Status>)
    requires Shadow(s, t, next) && s.enqueued <= |s.queue| && |statuses| == |Ids(s.queue[..s.enqueued])|
    requires !s.SettleBatch(statuses).failed
    ensures Shadow(s.WriteDone(statuses), t.WriteDone(statuses), next)
  {
    hide Twin, Session.SettleBatch, Session.Finish, Session.Continue, Ids;
    FinishShadow(s, t, next, statuses);
    ContinueShadow(s.Finish(statuses), t.Finish(statuses), next);
  }

  lemma DropShadow(s: Session, t: Session, next: multiset<nat>)
    requires Shadow(s, t, next)
    ensures Shadow(s.DropUnreplied().(expectsFlush := false), t.DropUnreplied().(expectsFlush := false), next)
  {
    hide Twin, DropBack;
  }

  lemma DrainedShadow(s: Session, t: Session, next: multiset<nat>)
    requires Shadow(s, t, next)
    ensures Shadow(Drained(s), Drained(t), next)
  {
    hide Twin, Session.DropUnreplied, Session.StartNext;
    DropShadow(s, t, next);
    StartShadow(s.DropUnreplied().(expectsFlush := false), t.DropUnreplied().(expectsFlush := false), next);
  }

  lemma CloseShadow(s: Session, t: Session, next: multiset<nat>)
    requires Shadow(s, t, next)
    ensures Shadow(s.DelayedClose(), t.DelayedClose(), next)
  {
    hide Twin;
    if s.OpenInFlight() {
      var closing := s.(closing := true, pending := s.pending + 1, job := s.job.(callback := OnClose));
      assert s.DelayedClose() == closing;
      assert t.DelayedClose() == closing.(wire := t.wire);
    } else {
      hide Session.DelayedClose, Drained;
      CloseIs(s);
      CloseIs(t);
      DrainedShadow(s, t, next);
    }
  }

  lemma OpenedClosingShadow(s: Session, t: Session, next: multiset<nat>, status: Status, lock: bool)
    requires Shadow(s, t, next)
    ensures Shadow(s.OpenedClosing(status, lock), t.OpenedClosing(status, lock), next)
  {
    AdoptShadow(s, t, next, lock);
    if s.OpenInFlight() {
      AnsweredShadow(s.Adopt(lock), t.Adopt(lock), next, s.job);
    } else {
      AnsweredShadow(s, t, next, s.job);
    }
  }

  lemma AnsweredShadow(s: Session, t: Session, next: multiset<nat>, job: Job)
    requires Shadow(s, t, next)
    ensures Shadow(s.(open := true, job := Idle), t.(open := true, job := Idle), next)
    ensures Shadow(s.(job := Answered(job)), t.(job := Answered(job)), next)
  {
    hide Twin, Answered;
  }

  lemma AdoptShadow(s: Session, t: Session, next: multiset<nat>, lock: bool)
    requires Shadow(s, t, next)
    ensures Shadow(s.Adopt(lock), t.Adopt(lock), next)
  {
    hide Twin;
  }

  lemma CloseFinishedShadow(s: Session, t: Session, next: multiset<nat>, status: Status, lock: bool,
      statuses: seq<Status>)
    requires Shadow(s, t, next) && s.LeftStatuses(statuses)
    ensures t.LeftStatuses(statuses)
        && Shadow(s.CloseCallback(status, lock, statuses), t.CloseCallback(status, lock, statuses), next)
  {
    hide Twin, LosesReplied, Ids, Session.OpenedClosing;
    OpenedClosingShadow(s, t, next, status, lock);
    assert t.AfterClose(statuses) == s.AfterClose(statuses);
  }

  /** Inside a chain sealing also waits for ids that one side has reported; at its end none waits. */
  lemma SealShadow(s: Session, t: Session, next: multiset<nat>)
    requires Shadow(s, t, next)
    ensures var s', t' := s.TrySeal().0, t.TrySeal().0;
            (s'.sealed ==> t'.sealed) && Shadow(s', t'.(sealed := s'.sealed), next)
  {
    SameTests(s, t, next);
    if s.joined || !AllReplied(s.queue) || (s.input.Some? && Unreplied(s.input.value)) {
      hide Twin, AllReplied;
      assert s.TrySeal().0 == s && t.TrySeal().0 == t;
    } else if s.input.Some? {
      hide Shadow, Session.WriteInput, AllReplied;
      WriteInputShadow(s, t, next);
      assert s.TrySeal() == s.WriteInput().Sealed() && t.TrySeal() == t.WriteInput().Sealed();
      SealedShadow(s.WriteInput(), t.WriteInput(), next);
    } else {
      hide Shadow, AllReplied;
      assert s.TrySeal() == s.Sealed() && t.TrySeal() == t.Sealed();
      SealedShadow(s, t, next);
    }
  }

  predicate Unreplied(b: Buffer) {
    b.updating || |b.ids| > b.replied
  }

  lemma SameTests(s: Session, t: Session, next: multiset<nat>)
    requires Shadow(s, t, next)
    ensures t.joined == s.joined && t.queue == s.queue && t.input == s.input
  {
    hide Twin;
  }

  lemma SealedShadow(s: Session, t: Session, next: multiset<nat>)
    requires Shadow(s, t, next)
    ensures var s', t' := s.Sealed().0, t.Sealed().0;
            (s'.sealed ==> t'.sealed) && Shadow(s', t'.(sealed := s'.sealed), next)
  {
    hide Tally;
  }

  lemma UnsealedKeeps(s: Session)
    requires Inv(s)
    ensures Inv(s.(sealed := false))
  {
    hide QueueOk, InputOk, OrderInv, JobInv, FlushInv, PastInv, LostInv, OpenInv, ReplyInv, FreshInv;
  }

  // Runs.

  /** The ids that the next chunkserver has reported. */
  function NextOks(steps: seq<Step>): multiset<nat> {
    if steps == [] then multiset{}
    else
      var last := steps[|steps| - 1];
      NextOks(steps[..|steps| - 1])
          + if last.ChainStatus? && last.status == OK then multiset{last.writeId} else multiset{}
  }

  lemma SameSteps(s: Session, t: Session, next: multiset<nat>, step: Step)
    requires Shadow(s, t, next) && CanTake(s, step) && !step.ChainStatus?
    ensures CanTake(t, step)
  {
    hide Twin, Ids;
  }

  /** Every step but a status of the next chunkserver. */
  lemma OwnStepShadow(s: Session, t: Session, next: multiset<nat>, step: Step)
    requires Inv(s) && Shadow(s, t, next) && CanTake(s, step) && CanTake(t, step) && !Apply(s, step).past.failed
    requires !step.ChainStatus? && !step.LeaveWriting? && !step.Seal?
    ensures Shadow(Apply(s, step), Apply(t, step), next)
  {
    hide Shadow, Inv, Session.Prepare, Session.Process, Session.Flush, Session.OpenDone, Session.WriteDone;
    hide Session.TryReply, Session.DelayedClose, Session.CloseCallback, Ids;
    match step
    case PrepareBlock => PrepareShadow(s, t, next);
    case ProcessBlock(id) => ProcessShadow(s, t, next, id);
    case FlushData => FlushShadow(s, t, next);
    case OpenFinished(status, lock) => OpenJobIs(s); OpenTold(s, status, lock); OpenShadow(s, t, next, lock);
    case WriteFinished(statuses) => WriteTold(s, statuses); WriteShadow(s, t, next, statuses);
    case LoopReply => ReplyShadow(s, t, next, false);
    case Close => CloseShadow(s, t, next);
    case CloseFinished(status, lock, statuses) => CloseFinishedShadow(s, t, next, status, lock, statuses);
    case ChangeCredits(credits) => CreditShadow(s, t, next, credits);
  }

  lemma OpenTold(s: Session, status: Status, lock: bool)
    requires s.job == InFlight(0, OnOpen) && !s.OpenDone(status, lock).past.failed
    ensures status == OK
  {
    hide Session.OpenDone, Session.Continue, Told;
    OpenDoneIs(s, status, lock);
  }

  lemma WriteTold(s: Session, statuses: seq<Status>)
    requires CanTake(s, WriteFinished(statuses)) && !s.WriteDone(statuses).past.failed
    ensures !s.SettleBatch(statuses).failed
  {
    hide Session.SettleBatch, Session.Continue, Ids, LosesReplied;
  }

  lemma CreditShadow(s: Session, t: Session, next: multiset<nat>, credits: int)
    requires Shadow(s, t, next)
    ensures Shadow(s.(wire := s.wire.(available := credits)), t.(wire := t.wire.(available := credits)), next)
  {
    CreditTwin(s.wire, t.wire, next, credits);
  }

  lemma StepShadow(s: Session, t: Session, next: multiset<nat>, step: Step) returns (t': Session)
    requires Inv(s) && Inv(t) && Shadow(s, t, next) && CanTake(s, step) && !Apply(s, step).past.failed
    ensures Inv(t') && Shadow(Apply(s, step), t', next + NextOks([step]))
  {
    hide Inv, Shadow, Apply, CanTake, NextOks;
    OneOk(step);
    assert next + multiset{} == next;
    if step.ChainStatus? || step.LeaveWriting? {
      t' := t;
      OutsideShadow(s, t, next, step);
    } else {
      SameSteps(s, t, next, step);
      StepKeepsInv(t, step);
      if step.Seal? {
        t' := SealStep(s, t, next, step);
      } else {
        t' := Apply(t, step);
        OwnStepShadow(s, t, next, step);
      }
    }
  }

  lemma OneOk(step: Step)
    ensures NextOks([step]) == if step.ChainStatus? && step.status == OK then multiset{step.writeId} else multiset{}
  {
    assert NextOks([]) + multiset{} == multiset{};
  }

  /** The next chunkserver reports, or the connection changes its state: the session at the end of a chain is as
      before. */
  lemma OutsideShadow(s: Session, t: Session, next: multiset<nat>, step: Step)
    requires Shadow(s, t, next) && CanTake(s, step) && (step.ChainStatus? || step.LeaveWriting?)
        && !Apply(s, step).past.failed
    ensures Shadow(Apply(s, step), t, if step.ChainStatus? then next + multiset{step.writeId} else next)
    ensures step.ChainStatus? ==> step.status == OK
  {
    hide Twin, Told;
    if step.ChainStatus? {
      NextTwin(s.wire, t.wire, next, step.writeId);
    } else {
      LeaveTwin(s.wire, t.wire, next, step.state);
    }
  }

  lemma LeaveTwin(w: Wire, u: Wire, next: multiset<nat>, state: ConnectionState)
    requires Twin(w, u, next) && state != WriteLast
    ensures Twin(w.(state := state), u, next)
  {
    assert forall id: nat :: Tally(w.(state := state), id) == Tally(w, id);
  }

  lemma SealStep(s: Session, t: Session, next: multiset<nat>, step: Step) returns (t': Session)
    requires Shadow(s, t, next) && step.Seal? && CanTake(s, step) && CanTake(t, step) && Inv(Apply(t, step))
    ensures Inv(t') && Shadow(Apply(s, step), t', next)
  {
    hide Inv, Shadow, Session.TrySeal;
    SealShadow(s, t, next);
    UnsealedKeeps(t.TrySeal().0);
    t' := t.TrySeal().0.(sealed := s.TrySeal().0.sealed);
    assert s.TrySeal().0.sealed ==> t' == t.TrySeal().0;
  }

  // An error that was told is not forgotten.

  lemma ReplyPast(s: Session, fromFlush: bool)
    ensures s.TryReply(fromFlush).past == s.past
  {
    hide Acknowledge;
  }

  lemma StartPast(s: Session)
    ensures s.StartNext().past == s.past && (s.input.Some? ==> s.WriteInput().past == s.past)
  {
  }

  lemma ContinuePast(s: Session)
    ensures s.Continue().past == s.past
  {
    hide Session.TryReply, Session.StartNext, Session.WriteInput;
    ReplyPast(s, false);
    StartPast(s.TryReply(false));
  }

  lemma DrainedPast(s: Session)
    ensures Drained(s).past == s.past
  {
    hide Session.StartNext, DropBack;
    StartPast(s.DropUnreplied().(expectsFlush := false));
  }

  lemma ClosePast(s: Session)
    ensures s.DelayedClose().past == s.past
  {
    if !s.OpenInFlight() {
      hide Session.DelayedClose, Drained;
      CloseIs(s);
      DrainedPast(s);
    }
  }

  lemma FlushPast(s: Session)
    ensures s.Flush().past == s.past
  {
    hide Session.Flush, Session.TryReply, Session.StartNext;
    FlushIs(s);
    ReplyPast(s, true);
    var r := Frozen(s.TryReply(true));
    StartPast(r.(batches := r.batches + [r.ready], ready := 0));
  }

  lemma ProcessPast(s: Session, id: nat)
    requires s.input.Some? && s.input.value.ids != []
    ensures s.Process(id).past == s.past.(received := s.past.received + [id])
  {
    hide Session.TryReply, Session.StartNext, Session.WriteInput, Session.ShouldWriteInput;
    var s1 := s.(input := Some(Landed(s.input.value, id)), past := s.past.(received := s.past.received + [id]));
    ReplyPast(s1, false);
    StartPast(s1.TryReply(false));
    if s1.TryReply(false).ShouldWriteInput() {
      NeedsInput(s1.TryReply(false));
    }
  }

  lemma PreparePast(s: Session)
    ensures s.Prepare().past == s.past
  {
    hide Session.Prepare, Session.WriteInput;
    PrepareIs(s);
    StartPast(s);
  }

  lemma OpenPast(s: Session, status: Status, lock: bool)
    requires s.job == InFlight(0, OnOpen)
    ensures s.past.failed ==> s.OpenDone(status, lock).past.failed
  {
    hide Session.OpenDone, Session.Continue, OpenAnswer, Told;
    OpenDoneIs(s, status, lock);
    OpenAnswerIs(s, status, lock);
    ContinuePast(OpenAnswer(s, status, lock));
  }

  lemma WritePast(s: Session, statuses: seq<Status>)
    requires CanTake(s, WriteFinished(statuses))
    ensures s.past.failed ==> s.WriteDone(statuses).past.failed
  {
    hide Session.SettleBatch, Session.Continue, Ids, LosesReplied;
    ContinuePast(s.Finish(statuses));
  }

  lemma SealPast(s: Session)
    ensures s.TrySeal().0.past == s.past
  {
    hide Session.WriteInput, AllReplied;
    StartPast(s);
  }

  lemma AnswerPast(s: Session, status: Status, lock: bool, statuses: seq<Status>)
    requires s.LeftStatuses(statuses)
    ensures s.CloseCallback(status, lock, statuses).past.failed == s.past.failed
  {
    hide Session.OpenedClosing, Session.AfterClose, Session.LeftStatuses;
    AfterCloseIs(s, statuses);
  }

  lemma FailedStays(s: Session, step: Step)
    requires Inv(s) && CanTake(s, step) && s.past.failed
    ensures Apply(s, step).past.failed
  {
    hide Inv, Session.Prepare, Session.Process, Session.Flush, Session.OpenDone, Session.WriteDone, Session.TrySeal;
    hide Session.TryReply, Session.DelayedClose, Session.CloseCallback, Ids, Told;
    match step
    case PrepareBlock => PreparePast(s);
    case ProcessBlock(id) => ProcessPast(s, id);
    case FlushData => FlushPast(s);
    case OpenFinished(status, lock) => OpenJobIs(s); OpenPast(s, status, lock);
    case WriteFinished(statuses) => WritePast(s, statuses);
    case Seal => SealPast(s);
    case LoopReply => ReplyPast(s, false);
    case Close => ClosePast(s);
    case CloseFinished(status, lock, statuses) => AnswerPast(s, status, lock, statuses);
    case ChangeCredits(_) =>
    case ChainStatus(_, _) =>
    case LeaveWriting(_) =>
  }

  lemma NextOksGrow(steps: seq<Step>, i: nat)
    requires i <= |steps|
    ensures NextOks(steps[..i]) == if i == 0 then multiset{} else NextOks(steps[..i - 1]) + NextOks([steps[i - 1]])
  {
    if i > 0 {
      assert steps[..i][..i - 1] == steps[..i - 1] && [steps[i - 1]][..0] == [];
    }
  }

  lemma InitShadow(s: Session) returns (t: Session)
    requires Init(s) && s.wire.state != WriteLast
    ensures Inv(t) && Shadow(s, t, multiset{})
  {
    hide Inv;
    t := s.(wire := Wire(WriteLast, [], {}, s.wire.available));
    InitInv(t);
  }

  /** What a session in a chain keeps as long as no error was told. */
  lemma {:induction false} ShadowHolds(run: seq<Session>, steps: seq<Step>, i: nat) returns (t: Session)
    requires IsRun(run, steps) && i < |run| && run[0].wire.state != WriteLast
    requires !run[i].past.failed
    ensures Inv(t) && Shadow(run[i], t, NextOks(steps[..i]))
  {
    hide Inv, Apply, CanTake, Shadow, NextOks, Init;
    NextOksGrow(steps, i);
    if i == 0 {
      t := InitShadow(run[0]);
    } else {
      var s, step := run[i - 1], steps[i - 1];
      InvHolds(run, steps, i - 1);
      assert CanTake(s, step) && run[i - 1 + 1] == Apply(s, step);
      if s.past.failed {
        FailedStays(s, step);
      }
      var before := ShadowHolds(run, steps, i - 1);
      t := StepShadow(s, before, NextOks(steps[..i - 1]), step);
    }
  }

  /** The reports of this chunkserver: its open, and the write ids in the order received. */
  ghost predicate ReportedHere(s: Session, here: seq<nat>) {
    if !s.past.openAnswered then here == []
    else if s.closing then here == [] || exists n :: 0 <= n <= |s.past.received| && here == [0] + s.past.received[..n]
    else
      var n := |s.past.written| + RepliedIn(Buffers(s.queue, s.input));
      n <= |s.past.received| && here == [0] + s.past.received[..n]
  }

  lemma {:induction false} CountOks(ids: seq<nat>, id: nat)
    ensures multiset(Oks(ids))[Reply(OK, id)] == multiset(ids)[id]
  {
    if ids != [] {
      CountOks(ids[1..], id);
      assert ids == [ids[0]] + ids[1..] && Oks(ids) == [Reply(OK, ids[0])] + Oks(ids[1..]);
    }
  }

  /** However the write jobs here and the statuses of the next chunkserver are interleaved, as long as no error was
      told: a write id has been answered half as often as it was reported, by the session in the order received and by
      the next chunkserver together, and it waits exactly if it was reported an odd number of times. */
  lemma AnswersPairReports(run: seq<Session>, steps: seq<Step>, i: nat) returns (here: seq<nat>)
    requires IsRun(run, steps) && i < |run| && run[0].wire.state != WriteLast
    requires !run[i].past.failed
    ensures ReportedHere(run[i], here)
    ensures forall id: nat :: var reports := multiset(here)[id] + NextOks(steps[..i])[id];
              && multiset(run[i].wire.replies)[Reply(OK, id)] == reports / 2
              && (id in run[i].wire.partial <==> reports % 2 == 1)
  {
    hide Apply, CanTake, NextOks, Inv, ReportedHere, Init;
    var t := ShadowHolds(run, steps, i);
    here := LocalReports(t);
    SameReports(run[i], t, here, NextOks(steps[..i]));
    forall id: nat
      ensures var reports := multiset(here)[id] + NextOks(steps[..i])[id];
              && multiset(run[i].wire.replies)[Reply(OK, id)] == reports / 2
              && (id in run[i].wire.partial <==> reports % 2 == 1)
    {
      CountOks(here, id);
      Halved(run[i].wire, t.wire, NextOks(steps[..i]), id);
    }
  }

  /** So an id that each of the two reports at most once is answered once both have, and waits while one has. */
  lemma AnsweredOnceBothReported(run: seq<Session>, steps: seq<Step>, i: nat, id: nat) returns (here: seq<nat>)
    requires IsRun(run, steps) && i < |run| && run[0].wire.state != WriteLast
    requires !run[i].past.failed
    ensures ReportedHere(run[i], here)
    ensures multiset(here)[id] <= 1 && NextOks(steps[..i])[id] <= 1 ==>
              var byBoth := id in here && id in NextOks(steps[..i]);
              && multiset(run[i].wire.replies)[Reply(OK, id)] == (if byBoth then 1 else 0)
              && (id in run[i].wire.partial <==> !byBoth && (id in here || id in NextOks(steps[..i])))
  {
    hide Apply, CanTake, NextOks, Init, ReportedHere;
    here := AnswersPairReports(run, steps, i);
    var reports := multiset(here)[id] + NextOks(steps[..i])[id];
    assert multiset(run[i].wire.replies)[Reply(OK, id)] == reports / 2;
  }

  // Sealing.

  /** The lock is settled, and every block the session has was received whole and replied. */
  predicate AllAcknowledged(s: Session) {
    && !s.joined && AllReplied(s.queue)
    && (s.input.Some? ==> !s.input.value.updating && |s.input.value.ids| <= s.input.value.replied)
  }

  /** A session that was not is sealed exactly if this holds and no id waits for this or the next chunkserver. */
  lemma SealedIffAllAcknowledged(s: Session)
    requires !s.sealed
    ensures var (s', sealed) := s.TrySeal();
            && sealed == s'.sealed && (sealed <==> AllAcknowledged(s) && s.wire.partial == {})
            && s'.wire == s.wire && s'.past == s.past && s'.closing == s.closing
  {
    hide AllReplied, Session.WriteInput;
    if s.input.Some? {
      WriteInputElsewhere(s);
    }
  }

  lemma WriteInputElsewhere(s: Session)
    requires s.input.Some?
    ensures var s' := s.WriteInput();
            s'.wire == s.wire && s'.past == s.past && s'.sealed == s.sealed && s'.closing == s.closing
  {
  }

  /** What this chunkserver has to report of a session that is sealed: nothing before the open was answered. */
  function AllReports(s: Session): seq<nat> {
    if s.past.openAnswered then [0] + s.past.received else []
  }

  lemma SealedHasAll(s: Session)
    requires Inv(s) && s.sealed && !s.closing
    ensures |s.past.written| + RepliedIn(Buffers(s.queue, s.input)) == |s.past.received|
    ensures !s.past.openAnswered ==> s.past.received == []
  {
    FullCounts(s.queue);
  }

  lemma AllReported(s: Session, here: seq<nat>)
    requires ReportedHere(s, here) && !s.closing
        && |s.past.written| + RepliedIn(Buffers(s.queue, s.input)) == |s.past.received|
    ensures here == AllReports(s)
  {
    hide RepliedIn;
    assert s.past.received[..|s.past.received|] == s.past.received;
  }

  /** When a session gets sealed and no error was told, every report of a write id has been paired: inside a chain the
      id was answered half as often as this chunkserver and the next reported it, with none left over, and at its end
      every id received was answered, in order. */
  lemma SealedSessionsAreAnswered(run: seq<Session>, steps: seq<Step>, i: nat)
    requires IsRun(run, steps) && i < |steps| && steps[i].Seal? && !run[i].sealed && run[i + 1].sealed
    requires !run[i + 1].past.failed
    ensures !run[i + 1].past.openAnswered ==> run[i + 1].past.received == []
    ensures run[i + 1].wire.state == WriteLast ==> run[i + 1].wire.replies == Oks(AllReports(run[i + 1]))
    ensures run[0].wire.state != WriteLast ==>
              forall id: nat :: 2 * multiset(run[i + 1].wire.replies)[Reply(OK, id)]
                == multiset(AllReports(run[i + 1]))[id] + NextOks(steps[..i + 1])[id]
  {
    hide Init, NextOks, Apply, Inv, ReportedHere, AllReports, Oks;
    assert CanTake(run[i], steps[i]) && run[i + 1] == Apply(run[i], steps[i]);
    InvHolds(run, steps, i + 1);
    SealApplies(run[i], steps[i]);
    SealedIffAllAcknowledged(run[i]);
    SealedHasAll(run[i + 1]);
    if run[i + 1].wire.state == WriteLast {
      var here := LocalReports(run[i + 1]);
      AllReported(run[i + 1], here);
    }
    if run[0].wire.state != WriteLast {
      var here := AnswersPairReports(run, steps, i + 1);
      AllReported(run[i + 1], here);
    }
  }

  lemma SealApplies(s: Session, step: Step)
    requires CanTake(s, step) && step.Seal?
    ensures Apply(s, step) == s.TrySeal().0 && !s.closing
  {
    hide Session.TrySeal;
  }

  lemma SameReports(s: Session, t: Session, here: seq<nat>, next: multiset<nat>)
    requires Shadow(s, t, next) && ReportedHere(t, here)
    ensures ReportedHere(s, here)
  {
    hide Twin, RepliedIn;
  }

  lemma Halved(w: Wire, u: Wire, next: multiset<nat>, id: nat)
    requires Twin(w, u, next)
    ensures var reports := multiset(u.replies)[Reply(OK, id)] + next[id];
            multiset(w.replies)[Reply(OK, id)] == reports / 2 && (id in w.partial <==> reports % 2 == 1)
  {
    assert Tally(w, id) == multiset(u.replies)[Reply(OK, id)] + next[id];
  }

  lemma LocalReports(t: Session) returns (here: seq<nat>)
    requires Inv(t) && t.wire.state == WriteLast && !t.past.failed
    ensures t.wire.replies == Oks(here) && ReportedHere(t, here)
  {
    var received := t.past.received;
    if !t.past.openAnswered || t.wire.replies == [] {
      here := [];
    } else if t.closing {
      var n :| 0 <= n <= |received| && t.wire.replies == Answers(received, n);
      here := [0] + received[..n];
      OksOf(received, n);
    } else {
      var n := |t.past.written| + RepliedIn(Buffers(t.queue, t.input));
      here := [0] + received[..n];
      OksOf(received, n);
    }
  }

  lemma OksOf(received: seq<nat>, n: nat)
    requires n <= |received|
    ensures Answers(received, n) == Oks([0] + received[..n])
  {
    assert ([0] + received[..n])[1..] == received[..n];
  }
}
