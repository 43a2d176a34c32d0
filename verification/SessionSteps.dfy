/** Every step of a write session keeps its invariants. */
module SessionSteps {
  import opened Common
  import opened WriteSessions
  import opened ReplyOrder
  import opened SessionInvariants

  datatype Step =
    | PrepareBlock                                     // the header of a block arrived
    | ProcessBlock(writeId: nat)                       // and then its data
    | FlushData
    | OpenFinished(status: Status, lock: bool)
    | WriteFinished(statuses: seq<Status>)
    | Seal
    | LoopReply                                        // everyLoopUpdateWrite
    | Close                                            // the connection closes
    | CloseFinished(status: Status, lock: bool, statuses: seq<Status>) // the job with the replaced callback answers
    | ChangeCredits(credits: int)                      // other sessions and the configuration
    | ChainStatus(status: Status, writeId: nat)        // the next chunkserver of the chain answers
    | LeaveWriting(state: ConnectionState)             // the connection changes its state

  /** A write job whose callback the close replaced answers with its last status, or was disabled before it ran. */
  predicate CanTake(s: Session, step: Step) {
    match step
    case PrepareBlock => !s.sealed && !s.closing && (s.input.Some? ==> !s.input.value.updating)
    case ProcessBlock(id) => !s.closing && s.input.Some? && s.input.value.updating && s.input.value.ids != []
    case FlushData => !s.sealed && !s.closing
    case OpenFinished(_, _) => s.job.InFlight? && s.job.callback == OnOpen
    case WriteFinished(statuses) =>
      s.Writing() && s.enqueued <= |s.queue| && |statuses| == |Ids(s.queue[..s.enqueued])|
    case Seal => !s.closing
    case LoopReply => true
    case Close => !s.closing
    case CloseFinished(status, _, statuses) =>
      && s.job.InFlight? && s.job.callback == OnClose && s.LeftStatuses(statuses)
      && (s.enqueued > 0 ==> status == if statuses == [] then NOTDONE else statuses[|statuses| - 1])
    case ChangeCredits(_) => true
    case ChainStatus(_, _) => s.wire.state != WriteLast
    case LeaveWriting(state) => state != WriteLast
  }

  function Apply(s: Session, step: Step): Session
    requires CanTake(s, step)
  {
    match step
    case PrepareBlock => s.Prepare()
    case ProcessBlock(id) => s.Process(id)
    case FlushData => s.Flush()
    case OpenFinished(status, lock) => s.OpenDone(status, lock)
    case WriteFinished(statuses) => s.WriteDone(statuses)
    case Seal => s.TrySeal().0
    case LoopReply => s.TryReply(false)
    case Close => s.DelayedClose()
    case CloseFinished(status, lock, statuses) => s.CloseCallback(status, lock, statuses)
    case ChangeCredits(credits) => s.(wire := s.wire.(available := credits))
    case ChainStatus(status, id) => s.(wire := Told(s.wire, status, id),
        past := s.past.(failed := s.past.failed || status != OK))
    case LeaveWriting(state) => s.(wire := s.wire.(state := state))
  }

  // Statuses of a write job.

  /** Errors of blocks replied before are kept for the lock's end, the first one wins; a closing session tells
      the client nothing. */
  lemma {:induction false} SettleKeepsErrors(statuses: seq<Status>, ids: seq<nat>, already: nat, closing: bool,
      w: Wire, untold: Status)
    requires |statuses| == |ids| && already <= |ids|
    ensures var r := Settle(statuses, ids, already, closing, w, untold);
            && (r.untold != OK <==> untold != OK || exists i :: 0 <= i < already && statuses[i] != OK)
            && (untold != OK ==> r.untold == untold)
            && (untold == OK && FirstError(statuses, 0) < already ==> r.untold == statuses[FirstError(statuses, 0)])
            && (closing ==> r.wire == w && !r.failed) && r.wire.available == w.available
    decreases |ids|
  {
    if ids != [] {
      var st, rest := statuses[0], statuses[1..];
      if already > 0 {
        FirstErrorShifts(statuses, 1);
        SettleKeepsErrors(rest, ids[1..], already - 1, closing, w, if untold == OK then st else untold);
        if i :| 0 <= i < already && statuses[i] != OK {
          assert i == 0 || rest[i - 1] != OK;
        }
        if i :| 0 <= i < already - 1 && rest[i] != OK {
          assert statuses[i + 1] != OK;
        }
      } else if closing {
        SettleKeepsErrors(rest, ids[1..], 0, closing, w, untold);
      } else if st == OK {
        SettleKeepsErrors(rest, ids[1..], 0, closing, Told(w, OK, ids[0]), untold);
      }
    }
  }

  /** The index of the first error from `from` on. */
  function FirstError(statuses: seq<Status>, from: nat): (i: nat)
    requires from <= |statuses|
    ensures from <= i <= |statuses| && (i < |statuses| ==> statuses[i] != OK) && forall j :: from <= j < i ==>
        statuses[j] == OK
    decreases |statuses| - from
  {
    if from == |statuses| || statuses[from] != OK then from else FirstError(statuses, from + 1)
  }

  lemma {:induction false} FirstErrorShifts(statuses: seq<Status>, from: nat)
    requires 1 <= from <= |statuses|
    ensures FirstError(statuses, from) == FirstError(statuses[1..], from - 1) + 1
    decreases |statuses| - from
  {
    if from < |statuses| && statuses[from] == OK {
      FirstErrorShifts(statuses, from + 1);
    }
  }

  /** At the end of the chain the client hears OK for every block not replied before, in order, up to the first
      that failed; that one's error ends it. */
  lemma {:induction false} SettleReplies(statuses: seq<Status>, ids: seq<nat>, already: nat, w: Wire, untold: Status)
    requires |statuses| == |ids| && already <= |ids| && w.state == WriteLast
    ensures var r, e := Settle(statuses, ids, already, false, w, untold), FirstError(statuses, already);
            && (r.failed <==> e < |statuses|)
            && r.wire.replies == w.replies + Oks(ids[already..e]) + (if e < |ids| then [Reply(statuses[e], ids[e])]
                else [])
            && (!r.failed ==> r.wire.state == WriteLast)
    decreases |ids|
  {
    hide Oks;
    if ids == [] {
      NoOks(w.replies, ids, 0);
    } else if already > 0 {
      FirstErrorShifts(statuses, already);
      SettleReplies(statuses[1..], ids[1..], already - 1, w, if untold == OK then statuses[0] else untold);
      var e := FirstError(statuses, already);
      assert ids[1..][already - 1..e - 1] == ids[already..e];
    } else if statuses[0] != OK {
      NoOks(w.replies, ids, 0);
    } else {
      FirstErrorShifts(statuses, 1);
      SettleReplies(statuses[1..], ids[1..], 0, Told(w, OK, ids[0]), untold);
      OneMoreOk(w.replies, ids, FirstError(statuses[1..], 0));
    }
  }

  lemma OneMoreOk(replies: seq<Reply>, ids: seq<nat>, e: nat)
    requires ids != [] && e < |ids|
    ensures replies + [Reply(OK, ids[0])] + Oks(ids[1..][0..e]) == replies + Oks(ids[0..e + 1])
  {
    assert ids[0..e + 1] == [ids[0]] + ids[1..][0..e];
    OksAppend([ids[0]], ids[1..][0..e]);
    assert Oks([ids[0]]) == [Reply(OK, ids[0])];
    Regroup(replies, [Reply(OK, ids[0])], Oks(ids[1..][0..e]));
  }

  /** In replied-first order the replied blocks of a batch are its first ones, so that an acknowledged block
      failed exactly if one of the first statuses is an error. */
  lemma {:induction false} LossesAreFirst(batch: seq<Buffer>, statuses: seq<Status>)
    requires RepliedFirst(batch) && Sane(batch) && |statuses| == |Ids(batch)|
    ensures RepliedIn(batch) <= |statuses|
    ensures LosesReplied(batch, statuses) <==> exists i :: 0 <= i < RepliedIn(batch) && statuses[i] != OK
    decreases |batch|
  {
    RepliedBound(batch);
    if batch != [] {
      var b, rest := batch[0], statuses[|batch[0].ids|..];
      LossesAreFirst(batch[1..], rest);
      if FullyReplied(b) {
        if i :| 0 <= i < RepliedIn(batch[1..]) && rest[i] != OK {
          assert statuses[|b.ids| + i] != OK;
        }
        if i :| 0 <= i < RepliedIn(batch) && statuses[i] != OK {
          assert i < |b.ids| || rest[i - |b.ids|] != OK;
        }
      } else {
        NoneCounts(batch[1..]);
      }
    }
  }

  // Blocks coming in.

  /** The input buffer changes, but neither its replied blocks nor its finished ones. */
  lemma InputChanges(s: Session, b: Buffer)
    requires Inv(s) && !s.sealed && !s.closing
    requires InputOk(Some(b)) && Finished(Some(b)) == Finished(s.input)
        && b.replied == (if s.input.Some? then s.input.value.replied else 0) <= |b.ids|
    ensures Inv(s.(input := Some(b)))
  {
    hide QueueOk, RepliedFirst, Sane, JobInv, FlushInv, RepliedIn, Ids;
    if s.input.Some? {
      OrderSplit(s.queue, s.input.value);
    }
    OrderSplit(s.queue, b);
    BuffersIds(s.queue, s.input);
    BuffersIds(s.queue, Some(b));
    if !s.past.openAnswered {
      NoneWith(s.queue, s.input, b);
    }
  }

  lemma NoneWith(queue: seq<Buffer>, input: Option<Buffer>, b: Buffer)
    requires NoneReplied(Buffers(queue, input)) && b.replied == (if input.Some? then input.value.replied else 0)
    ensures NoneReplied(Buffers(queue, Some(b)))
  {
    var all := Buffers(queue, input);
    if input.Some? {
      assert all[|queue|] == input.value;
    }
    forall i | 0 <= i < |queue|
      ensures queue[i].replied == 0
    {
      assert all[i] == queue[i];
    }
  }

  lemma WriteInputKeeps(s: Session)
    requires Inv(s) && !s.closing && s.input.Some? && !s.input.value.updating
    ensures Inv(s.WriteInput()) && s.WriteInput().input.None? && !s.WriteInput().closing
        && s.WriteInput().sealed == s.sealed
  {
    hide Base, FreshInv;
    FreezeKeeps(s);
    JobIs(s);
    StartNextKeeps(s.Freeze());
    StartKeepsFresh(s.Freeze());
  }

  /** A block more in the input buffer, of which only the header arrived. */
  function Extended(b: Buffer): Buffer {
    b.(ids := b.ids + [0], updating := true)
  }

  lemma ExtendedInput(s: Session, b: Buffer)
    requires Inv(s) && !s.sealed && !s.closing && !b.updating
    requires s.input == Some(b) || (s.input.None? && b.ids == [] && b.replied == 0)
    ensures Inv(s.(input := Some(Extended(b))))
  {
    hide Inv;
    InputIs(s);
    var b' := Extended(b);
    assert b'.ids[..|b'.ids| - 1] == b.ids;
    InputChanges(s, b');
  }

  lemma PrepareKeeps(s: Session)
    requires Inv(s) && CanTake(s, PrepareBlock)
    ensures Inv(s.Prepare())
  {
    hide Inv, Session.WriteInput;
    var s0 := if s.input.Some? && s.input.value.Full() then s.WriteInput() else s;
    if s.input.Some? && s.input.value.Full() {
      WriteInputKeeps(s);
    }
    if s0.input.None? {
      var b, s1 := Buffer([], 0, s0.nextCount, false), s0.(nextCount := Min(2 * s0.nextCount, s.maxBlocks));
      NextCountUnseen(s0, Min(2 * s0.nextCount, s.maxBlocks));
      ExtendedInput(s1, b);
      assert s.Prepare() == s1.(input := Some(Extended(b)));
    } else {
      ExtendedInput(s0, s0.input.value);
      assert s.Prepare() == s0.(input := Some(Extended(s0.input.value)));
    }
  }

  lemma NextCountUnseen(s: Session, n: nat)
    requires Inv(s)
    ensures Inv(s.(nextCount := n))
  {
  }

  lemma InputIs(s: Session)
    requires Inv(s)
    ensures InputOk(s.input) && (s.input.Some? ==> s.input.value.replied <= |s.input.value.ids|)
  {
    if s.input.Some? {
      OrderSplit(s.queue, s.input.value);
    }
  }

  lemma LandedOrder(queue: seq<Buffer>, b: Buffer, id: nat)
    requires OrderInv(queue, Some(b)) && InputOk(Some(b)) && b.updating
    ensures var input := Some(Landed(b, id));
            && OrderInv(queue, input) && InputOk(input) && Finished(input) == Finished(Some(b)) + [id]
            && RepliedIn(Buffers(queue, input)) == RepliedIn(Buffers(queue, Some(b)))
  {
    hide RepliedFirst, Sane, RepliedIn, Ids;
    var b' := Landed(b, id);
    OrderSplit(queue, b);
    OrderSplit(queue, b');
    BuffersIds(queue, Some(b));
    BuffersIds(queue, Some(b'));
  }

  lemma LandedPast(past: Past, queue: seq<Buffer>, input: Option<Buffer>, input': Option<Buffer>, id: nat)
    requires PastInv(past, queue, input, false) && Finished(input') == Finished(input) + [id]
    ensures PastInv(past.(received := past.received + [id]), queue, input', false)
  {
    Regroup(Ids(queue), Finished(input), [id]);
    Regroup(past.written, Ids(queue) + Finished(input), [id]);
  }

  lemma ReceivedKeeps(s: Session, id: nat)
    requires Inv(s) && CanTake(s, ProcessBlock(id))
    ensures Inv(s.(input := Some(Landed(s.input.value, id)), past := s.past.(received := s.past.received + [id])))
  {
    hide QueueOk, InputOk, OrderInv, JobInv, FlushInv, PastInv, ReplyInv, OpenInv, RepliedIn, Ids;
    LandedOrder(s.queue, s.input.value, id);
    LandedPast(s.past, s.queue, s.input, Some(Landed(s.input.value, id)), id);
    NoSeal(s);
    LandedUnseen(s.wire, s.past, s.job, s.queue, s.input.value, s.enqueued, id);
  }

  lemma LandedUnseen(wire: Wire, past: Past, job: Job, queue: seq<Buffer>, b: Buffer, enqueued: nat, id: nat)
    requires ReplyInv(wire, past, false, queue, Some(b)) && OpenInv(job, queue, Some(b), enqueued, past) && b.ids != []
    requires RepliedIn(Buffers(queue, Some(Landed(b, id)))) == RepliedIn(Buffers(queue, Some(b)))
    ensures ReplyInv(wire, past.(received := past.received + [id]), false, queue, Some(Landed(b, id)))
    ensures OpenInv(job, queue, Some(Landed(b, id)), enqueued, past.(received := past.received + [id]))
  {
    hide Ids, Answers, RepliedIn;
    if !past.openAnswered {
      NoneWith(queue, Some(b), Landed(b, id));
    }
    if wire.state == WriteLast && !past.failed && past.openAnswered {
      MoreReceived(past.received, id, |past.written| + RepliedIn(Buffers(queue, Some(b))));
    }
  }

  lemma NoSeal(s: Session)
    requires Inv(s) && s.input.Some?
    ensures !s.sealed
  {
  }

  lemma MoreReceived(received: seq<nat>, id: nat, n: nat)
    requires n <= |received|
    ensures Answers(received + [id], n) == Answers(received, n)
  {
    assert (received + [id])[..n] == received[..n];
  }

  lemma ProcessKeeps(s: Session, id: nat)
    requires Inv(s) && CanTake(s, ProcessBlock(id))
    ensures Inv(s.Process(id))
  {
    hide Inv, Session.TryReply, Session.WriteInput;
    var s1 := s.(input := Some(Landed(s.input.value, id)), past := s.past.(received := s.past.received + [id]));
    ReceivedKeeps(s, id);
    ReplyKeeps(s1);
    if s1.TryReply(false).ShouldWriteInput() {
      WriteInputKeeps(s1.TryReply(false));
    }
  }

  /** Instant replies outside a flush. */
  lemma ReplyKeeps(s: Session)
    requires Inv(s)
    ensures Inv(s.TryReply(false)) && s.TryReply(false).closing == s.closing
  {
    hide Base;
    TryReplyKeeps(s, false);
    var s' := s.TryReply(false);
    if s.closing {
      assert s' == s;
    }
  }

  // Flushes.

  /** After a flush every frozen buffer is in a released batch. */
  lemma ReleaseKeeps(s: Session)
    requires Base(s) && !s.closing && s.pending == 0 && s.expectsFlush && s.batching && s.ready > 0
        && (s.input.Some? ==> s.input.value.replied == 0)
    ensures Inv(s.(batches := s.batches + [s.ready], ready := 0))
  {
    hide QueueOk, InputOk, OrderInv, JobInv, PastInv, ReplyInv, OpenInv, SealInv, LostInv, RepliedIn, Ids;
    SumAppend(s.batches, s.ready);
  }

  lemma FlushKeeps(s: Session)
    requires Inv(s) && CanTake(s, FlushData)
    ensures Inv(s.Flush())
  {
    hide Base, Session.TryReply, Session.StartNext, RepliesMore;
    if s.batching {
      TryReplyKeeps(s, true);
      var r := s.TryReply(true);
      InputAfterReply(s, r);
      var r1 := if r.input.Some? && r.input.value.ids != [] && !r.input.value.updating then r.Freeze() else r;
      if r.input.Some? && r.input.value.ids != [] && !r.input.value.updating {
        FreezeKeeps(r);
      }
      if r1.ready > 0 {
        ReleaseStarts(r1);
      } else {
        NothingReady(s, r);
      }
    }
  }

  lemma ReleaseStarts(s: Session)
    requires Base(s) && !s.closing && s.pending == 0 && s.expectsFlush && s.batching && s.ready > 0
    requires s.input.Some? ==> s.input.value.replied == 0
    ensures Inv(s.(batches := s.batches + [s.ready], ready := 0).StartNext())
  {
    hide Base, Session.StartNext;
    var r := s.(batches := s.batches + [s.ready], ready := 0);
    ReleaseKeeps(s);
    JobIs(r);
    StartNextKeeps(r);
    StartKeepsFresh(r);
    StartKeepsClose(r);
  }

  lemma InputAfterReply(s: Session, r: Session)
    requires Inv(s) && s.expectsFlush && RepliesMore(s.queue, s.input, s.enqueued, r.queue, r.input) && Base(r)
    ensures r.input.Some? && r.input.value.updating ==> r.input.value.replied == 0
    ensures r.input.Some? ==> r.input.value.ids != []
  {
  }

  lemma NothingReady(s: Session, r: Session)
    requires Base(r) && CloseInv(s) && !s.closing && r.ready == 0 && (r.input.None? || r.input.value.replied == 0)
    requires r.closing == s.closing && r.pending == s.pending && r.expectsFlush == s.expectsFlush
        && r.batching == s.batching
    ensures Inv(r)
  {
  }

  lemma StartKeepsClose(s: Session)
    requires CloseInv(s) && !s.closing
    ensures CloseInv(s.StartNext())
  {
  }

  // The open job.

  lemma OpenReply(wire: Wire, past: Past, job: Job, queue: seq<Buffer>, input: Option<Buffer>, enqueued: nat,
      status: Status)
    requires ReplyInv(wire, past, false, queue, input) && OpenInv(job, queue, input, enqueued, past)
        && job == InFlight(0, OnOpen)
    ensures var past' := past.(openAnswered := true, failed := past.failed || status != OK);
            ReplyInv(Told(wire, status, 0), past', false, queue, input) && OpenInv(Idle, queue, input, enqueued, past')
  {
    NoneCounts(Buffers(queue, input));
    assert past.received[..0] == [];
    assert [] + [Reply(OK, 0)] == Answers(past.received, 0);
  }

  lemma OpenJobIs(s: Session)
    requires Inv(s) && s.job.InFlight? && s.job.callback == OnOpen
    ensures s.job == InFlight(0, OnOpen) && s.enqueued == 0 && !s.closing
  {
  }

  /** The session once the open job has answered. */
  function OpenAnswer(s: Session, status: Status, lock: bool): Session {
    var s1 := s.Adopt(lock).(job := Idle, wire := Told(s.wire, status, 0), past := s.past.(openAnswered := true));
    if status == OK then s1.(open := true) else s1.(past := s1.past.(failed := true))
  }

  lemma OpenDoneIs(s: Session, status: Status, lock: bool)
    requires s.job.InFlight? && s.job.writeId == 0
    ensures var s1 := OpenAnswer(s, status, lock); s.OpenDone(status, lock) == if status == OK then s1.Continue()
        else s1
  {
    hide Session.Continue, Told;
  }

  lemma OpenAnswerIs(s: Session, status: Status, lock: bool)
    ensures var s1 := OpenAnswer(s, status, lock);
            s1 == s.(job := Idle, wire := Told(s.wire, status, 0), open := s1.open, locked := s1.locked,
                joined := s1.joined,
                     past := s.past.(openAnswered := true, failed := s.past.failed || status != OK))
            && !s1.joined
  {
    hide Told, Session.Adopt;
    AdoptIs(s, lock);
  }

  lemma OpenAnswered(s: Session, status: Status, lock: bool)
    requires Inv(s) && s.job.InFlight? && s.job.callback == OnOpen
    ensures Inv(OpenAnswer(s, status, lock)) && !OpenAnswer(s, status, lock).closing
        && OpenAnswer(s, status, lock).enqueued == 0
  {
    hide QueueOk, InputOk, OrderInv, FlushInv, RepliedIn, Ids, FreshInv, ReplyInv, OpenInv, Told, Answers, OpenAnswer,
        PastInv, SealInv, NoneReplied;
    OpenJobIs(s);
    OpenAnswerIs(s, status, lock);
    OpenReply(s.wire, s.past, s.job, s.queue, s.input, s.enqueued, status);
    PastUnseen(s.past, OpenAnswer(s, status, lock).past, s.queue, s.input, s.closing);
  }

  lemma OpenDoneKeeps(s: Session, status: Status, lock: bool)
    requires Inv(s) && CanTake(s, OpenFinished(status, lock))
    ensures Inv(s.OpenDone(status, lock))
  {
    hide Base, FreshInv, Session.Continue, Session.OpenDone, OpenAnswer;
    OpenJobIs(s);
    OpenDoneIs(s, status, lock);
    OpenAnswered(s, status, lock);
    if status == OK {
      ContinueKeeps(OpenAnswer(s, status, lock));
    }
  }

  // Write jobs.

  lemma RestOrder(all: seq<Buffer>, n: nat)
    requires Sane(all) && RepliedFirst(all) && n <= |all|
    ensures Sane(all[..n]) && RepliedFirst(all[..n]) && Sane(all[n..]) && RepliedFirst(all[n..])
    ensures !AllFull(all[..n]) ==> NoneReplied(all[n..])
  {
    if !AllFull(all[..n]) {
      var i :| 0 <= i < n && !FullyReplied(all[i]);
    }
  }

  lemma RestIs(queue: seq<Buffer>, input: Option<Buffer>, n: nat)
    requires n <= |queue|
    ensures Buffers(queue, input)[..n] == queue[..n] && Buffers(queue, input)[n..] == Buffers(queue[n..], input)
  {
  }

  lemma RestKeepsOrder(queue: seq<Buffer>, input: Option<Buffer>, n: nat)
    requires OrderInv(queue, input) && QueueOk(queue) && n <= |queue|
    ensures OrderInv(queue[n..], input) && QueueOk(queue[n..]) && RepliedFirst(queue[..n]) && Sane(queue[..n])
    ensures RepliedIn(queue[..n]) <= |Ids(queue[..n])|
    ensures RepliedIn(queue[..n]) < |Ids(queue[..n])| ==> RepliedIn(Buffers(queue[n..], input)) == 0
    ensures RepliedIn(Buffers(queue, input)) == RepliedIn(queue[..n]) + RepliedIn(Buffers(queue[n..], input))
  {
    hide RepliedFirst, Sane, Ids, RepliedIn, AllFull, NoneReplied;
    var all := Buffers(queue, input);
    RestIs(queue, input, n);
    RestOrder(all, n);
    RepliedBound(queue[..n]);
    assert all == all[..n] + all[n..];
    IdsAppend(all[..n], all[n..]);
    if RepliedIn(queue[..n]) < |Ids(queue[..n])| {
      NotAllFull(queue[..n]);
      NoneCounts(all[n..]);
    }
  }

  lemma NotAllFull(buffers: seq<Buffer>)
    requires RepliedIn(buffers) < |Ids(buffers)|
    ensures !AllFull(buffers)
  {
    if AllFull(buffers) {
      FullCounts(buffers);
    }
  }

  lemma PastWritten(past: Past, queue: seq<Buffer>, input: Option<Buffer>, closing: bool, n: nat)
    requires PastInv(past, queue, input, closing) && n <= |queue|
    ensures PastInv(past.(written := past.written + Ids(queue[..n])), queue[n..], input, closing)
  {
    assert queue == queue[..n] + queue[n..];
    IdsAppend(queue[..n], queue[n..]);
    var a, b := Ids(queue[..n]), Ids(queue[n..]);
    Regroup(past.written, a, b);
    if !closing {
      Regroup(a, b, Finished(input));
      Regroup(past.written, a, b + Finished(input));
    }
  }

  /** An acknowledged block that failed leaves its mark, and the answers go on after those given before. */
  lemma SettleBatchEffect(s: Session, statuses: seq<Status>)
    requires s.enqueued <= |s.queue| && |statuses| == |Ids(s.queue[..s.enqueued])|
    requires RepliedFirst(s.queue[..s.enqueued]) && Sane(s.queue[..s.enqueued])
    ensures var r, batch := s.SettleBatch(statuses), s.queue[..s.enqueued];
            && (r.untold != OK <==> s.untold != OK || LosesReplied(batch, statuses))
            && (s.closing ==> r.wire.replies == s.wire.replies && r.wire.state == s.wire.state && !r.failed)
            && r.wire.available == s.wire.available + RepliedIn(batch)
            && (!s.closing && s.wire.state == WriteLast && !r.failed ==>
                  r.wire.state == WriteLast && RepliedIn(batch) <= |Ids(batch)|
                      && r.wire.replies == s.wire.replies + Oks(Ids(batch)[RepliedIn(batch)..]))
            && (!s.closing && r.wire.state == WriteLast ==> s.wire.state == WriteLast && !r.failed)
  {
    var batch := s.queue[..s.enqueued];
    var w := s.wire.(available := s.wire.available + RepliedIn(batch));
    LossesAreFirst(batch, statuses);
    SettleKeepsErrors(statuses, Ids(batch), RepliedIn(batch), s.closing, w, s.untold);
    SettleState(statuses, Ids(batch), RepliedIn(batch), s.closing, w, s.untold);
    if !s.closing && s.wire.state == WriteLast {
      SettleReplies(statuses, Ids(batch), RepliedIn(batch), w, s.untold);
      NoRest(w.replies, Ids(batch), RepliedIn(batch));
    }
  }

  lemma NoRest(replies: seq<Reply>, ids: seq<nat>, i: nat)
    requires i <= |ids|
    ensures replies + Oks(ids[i..|ids|]) + [] == replies + Oks(ids[i..])
  {
    assert ids[i..|ids|] == ids[i..];
  }

  lemma {:induction false} SettleState(statuses: seq<Status>, ids: seq<nat>, already: nat, closing: bool, w: Wire,
      untold: Status)
    requires |statuses| == |ids|
    ensures var r := Settle(statuses, ids, already, closing, w, untold);
            r.wire.state == (if r.failed then IOFinish else w.state)
    decreases |ids|
  {
    if ids != [] {
      if already > 0 {
        SettleState(statuses[1..], ids[1..], already - 1, closing, w, if untold == OK then statuses[0] else untold);
      } else if closing {
        SettleState(statuses[1..], ids[1..], 0, closing, w, untold);
      } else if statuses[0] == OK {
        SettleState(statuses[1..], ids[1..], 0, closing, Told(w, OK, ids[0]), untold);
      }
    }
  }

  /** The answers after a write job without errors. */
  lemma AnswersAfterJob(past: Past, queue: seq<Buffer>, input: Option<Buffer>, n: nat, replies: seq<Reply>)
    requires PastInv(past, queue, input, false) && OrderInv(queue, input) && QueueOk(queue) && InputOk(input)
        && n <= |queue|
    requires var k := |past.written| + RepliedIn(Buffers(queue, input));
            k <= |past.received| && replies == Answers(past.received, k)
    ensures RepliedIn(queue[..n]) <= |Ids(queue[..n])|
    ensures var k := |past.written| + |Ids(queue[..n])| + RepliedIn(Buffers(queue[n..], input));
            k <= |past.received| && replies + Oks(Ids(queue[..n])[RepliedIn(queue[..n])..]) == Answers(past.received, k)
  {
    hide OrderInv, QueueOk, InputOk, Oks, Answers, Ids, RepliedIn, Finished, Buffers;
    RestKeepsOrder(queue, input, n);
    RepliedAreFinished(queue[n..], input);
    PastWritten(past, queue, input, false, n);
    AnswersStretch(past.written, Ids(queue[..n]), Ids(queue[n..]) + Finished(input), RepliedIn(queue[..n]),
        RepliedIn(Buffers(queue[n..], input)), past.received);
  }

  /** The job's blocks not replied yet are the next to be answered; if there are any, nothing behind them is replied. */
  lemma AnswersStretch(written: seq<nat>, ids: seq<nat>, rest: seq<nat>, replied: nat, more: nat, received: seq<nat>)
    requires received == written + ids + rest && replied <= |ids| && more <= |rest| && (replied < |ids| ==> more == 0)
    ensures Answers(received, |written| + replied + more) + Oks(ids[replied..])
         == Answers(received, |written| + |ids| + more)
  {
    hide Answers, Oks;
    var from, to := |written| + replied + more, |written| + |ids| + more;
    if replied == |ids| {
      assert received[from..to] == [] == ids[replied..];
    } else {
      Stretch(written, ids, rest, replied);
    }
    AnswersExtend(received, from, to);
  }

  lemma Stretch<T>(a: seq<T>, b: seq<T>, c: seq<T>, i: nat)
    requires i <= |b|
    ensures (a + b + c)[|a| + i..|a| + |b|] == b[i..]
  {
  }

  lemma FinishReplies(s: Session, statuses: seq<Status>)
    requires Inv(s) && CanTake(s, WriteFinished(statuses))
    ensures var s' := s.Finish(statuses); ReplyInv(s'.wire, s'.past, s'.closing, s'.queue, s'.input)
  {
    hide FlushInv, LostInv, FreshInv, CloseInv, SealInv, RepliedFirst, Sane, QueueOk, InputOk, PastInv, OrderInv,
        Answers, Oks, Ids, RepliedIn;
    hide Settle, Session.SettleBatch;
    RestKeepsOrder(s.queue, s.input, s.enqueued);
    SettleBatchEffect(s, statuses);
    if !s.closing && s.wire.state == WriteLast && !s.past.failed {
      AnswersAfterJob(s.past, s.queue, s.input, s.enqueued, s.wire.replies);
    }
  }

  lemma FinishPast(s: Session, statuses: seq<Status>)
    requires Inv(s) && CanTake(s, WriteFinished(statuses))
    ensures var s' := s.Finish(statuses);
            PastInv(s'.past, s'.queue, s'.input, s'.closing) && LostInv(s'.past, s'.untold)
  {
    hide ReplyInv, FlushInv, FreshInv, CloseInv, SealInv, RepliedFirst, Sane, InputOk, OrderInv, QueueOk, Ids,
        RepliedIn, PastInv;
    hide Settle, Session.SettleBatch;
    RestKeepsOrder(s.queue, s.input, s.enqueued);
    SettleBatchEffect(s, statuses);
    PastWritten(s.past, s.queue, s.input, s.closing, s.enqueued);
    PastUnseen(s.past.(written := s.past.written + Ids(s.queue[..s.enqueued])), s.Finish(statuses).past,
        s.queue[s.enqueued..], s.input, s.closing);
  }

  lemma FinishCounts(s: Session)
    requires Inv(s) && s.enqueued <= |s.queue|
    ensures FlushInv(s.expectsFlush, s.batching, s.queue[s.enqueued..], 0, s.batches, s.ready)
    ensures FreshInv(s.expectsFlush, s.queue[s.enqueued..], s.input, s.ready)
    ensures SealInv(s.sealed, s.queue[s.enqueued..], s.input)
  {
    hide ReplyInv, CloseInv, RepliedFirst, Sane, InputOk, OrderInv, QueueOk, Ids, RepliedIn, PastInv;
    if s.expectsFlush {
      assert s.queue[s.enqueued..][|s.queue| - s.enqueued - s.ready..] == s.queue[|s.queue| - s.ready..];
    }
  }

  lemma FinishKeeps(s: Session, statuses: seq<Status>)
    requires Inv(s) && CanTake(s, WriteFinished(statuses))
    ensures var s' := s.Finish(statuses); Base(s') && FreshInv(s'.expectsFlush, s'.queue, s'.input, s'.ready)
  {
    hide ReplyInv, InputOk, OrderInv, QueueOk, Ids, RepliedIn, PastInv, LostInv, FlushInv, FreshInv, SealInv,
        NoneReplied;
    hide Settle, Session.SettleBatch;
    FinishReplies(s, statuses);
    FinishPast(s, statuses);
    FinishCounts(s);
    RestKeepsOrder(s.queue, s.input, s.enqueued);
  }

  lemma PastUnseen(past: Past, past': Past, queue: seq<Buffer>, input: Option<Buffer>, closing: bool)
    requires PastInv(past, queue, input, closing) && past'.written == past.written && past'.received == past.received
    ensures PastInv(past', queue, input, closing)
  {
  }

  /** Closing, the next buffer goes to the next job until none is left. */
  lemma ContinueClosing(s: Session)
    requires s.closing && s.input.None? && !s.expectsFlush && s.job.Idle?
    ensures s.Continue() == (if s.queue == [] then s
        else s.(job := InFlight(LastId(s.queue[0]), OnWrite), enqueued := 1))
  {
  }

  /** A closing session after a write job: the next buffer goes to a job, and one callback less is to come. */
  lemma DrainNext(s: Session)
    requires Base(s) && s.closing && s.input.None? && !s.expectsFlush && s.job.Idle? && s.enqueued == 0
        && s.pending == |s.queue| + 1
    ensures Inv(s.Continue().(pending := s.Continue().pending - 1))
  {
    hide Base, FreshInv, Session.Continue;
    ClosedFresh(s);
    ContinueClosing(s);
    ContinueKeeps(s);
    PendingUnseen(s.Continue(), s.Continue().pending - 1);
    NoBuffersLeft();
  }

  lemma NoBuffersLeft()
    ensures NoneReplied(Buffers([], None))
  {
  }

  lemma WriteDoneClosing(s: Session, statuses: seq<Status>)
    requires Inv(s) && CanTake(s, WriteFinished(statuses)) && s.closing
    ensures Inv(s.WriteDone(statuses))
  {
    hide Base, FreshInv, Session.SettleBatch, Session.Continue, Ids, RepliedIn, LosesReplied;
    FinishKeeps(s, statuses);
    JobIs(s);
    ClosingFinishTells(s, statuses);
    DrainNext(s.Finish(statuses));
  }

  lemma WriteDoneKeeps(s: Session, statuses: seq<Status>)
    requires Inv(s) && CanTake(s, WriteFinished(statuses))
    ensures Inv(s.WriteDone(statuses))
  {
    if s.closing {
      WriteDoneClosing(s, statuses);
    } else {
      hide Base, FreshInv, Session.SettleBatch, Session.Continue, Ids, RepliedIn;
      FinishKeeps(s, statuses);
      if !s.SettleBatch(statuses).failed {
        ContinueKeeps(s.Finish(statuses));
      }
    }
  }

  lemma JobIs(s: Session)
    requires Base(s)
    ensures s.Writing() ==> 0 < s.enqueued <= |s.queue|
    ensures s.job.Idle? && !s.closing ==> s.enqueued == 0
  {
  }

  lemma ClosingFinishTells(s: Session, statuses: seq<Status>)
    requires Inv(s) && CanTake(s, WriteFinished(statuses)) && s.closing
    ensures !s.SettleBatch(statuses).failed
  {
    hide ReplyInv, FlushInv, FreshInv, CloseInv, SealInv, PastInv;
    RestKeepsOrder(s.queue, s.input, s.enqueued);
    SettleBatchEffect(s, statuses);
  }

  lemma PendingUnseen(s: Session, pending: int)
    requires Base(s)
    ensures Base(s.(pending := pending))
  {
  }

  // Sealing.

  lemma SealedKeeps(s: Session)
    requires Inv(s) && s.input.None? && AllReplied(s.queue)
    ensures Inv(s.Sealed().0)
  {
    assert Buffers(s.queue, s.input) == s.queue;
  }

  lemma SealKeeps(s: Session)
    requires Inv(s) && CanTake(s, Seal)
    ensures Inv(s.TrySeal().0)
  {
    hide Inv, Session.WriteInput, Session.Sealed, AllReplied;
    if !s.joined {
      if s.input.None? {
        if AllReplied(s.queue) {
          SealedKeeps(s);
        }
      } else if !s.input.value.updating && |s.input.value.ids| <= s.input.value.replied && AllReplied(s.queue) {
        WriteInputKeeps(s);
        WriteInputQueues(s);
        SealedKeeps(s.WriteInput());
      }
    }
  }

  lemma WriteInputQueues(s: Session)
    requires s.input.Some? && |s.input.value.ids| <= s.input.value.replied && AllReplied(s.queue)
    ensures AllReplied(s.WriteInput().queue)
  {
    assert s.WriteInput().queue == s.queue + [s.input.value];
  }

  // Closing.

  lemma {:induction false} DropBackKeeps(queue: seq<Buffer>, keep: nat)
    requires keep <= |queue|
    ensures var r := DropBack(queue, keep);
            && keep <= |r| && r <= queue && NoneReplied(queue[|r|..]) && (|r| == keep || r[|r| - 1].replied > 0)
  {
    if |queue| > keep && queue[|queue| - 1].replied == 0 {
      DropBackKeeps(queue[..|queue| - 1], keep);
    }
  }

  lemma PrefixIds(queue: seq<Buffer>, r: seq<Buffer>)
    requires r <= queue
    ensures Ids(r) <= Ids(queue)
  {
    assert queue == r + queue[|r|..];
    IdsAppend(r, queue[|r|..]);
  }

  lemma CutPast(past: Past, queue: seq<Buffer>, input: Option<Buffer>, queue': seq<Buffer>)
    requires PastInv(past, queue, input, false) && Ids(queue') <= Ids(queue) + Finished(input)
    ensures PastInv(past, queue', None, true)
  {
    var all := Ids(queue) + Finished(input);
    assert all == Ids(queue') + all[|Ids(queue')|..];
    Regroup(past.written, Ids(queue'), all[|Ids(queue')|..]);
  }

  /** The input joins the queue of a closing session if a block of it was replied. */
  function Kept(queue: seq<Buffer>, input: Option<Buffer>): seq<Buffer> {
    if input.Some? && input.value.replied > 0 then queue + [WithoutUnfinished(input.value)] else queue
  }

  lemma KeptIs(queue: seq<Buffer>, input: Option<Buffer>)
    requires QueueOk(queue) && InputOk(input) && OrderInv(queue, input)
    ensures QueueOk(Kept(queue, input)) && RepliedFirst(Kept(queue, input)) && Sane(Kept(queue, input))
        && |queue| <= |Kept(queue, input)|
    ensures Ids(Kept(queue, input)) <= Ids(queue) + Finished(input)
  {
    hide RepliedFirst, Sane, Ids;
    if input.Some? {
      OrderSplit(queue, input.value);
      if input.value.replied > 0 {
        var b := WithoutUnfinished(input.value);
        OrderSplit(queue, b);
        IdsAppend(queue, [b]);
        IdsOfOne(b);
        assert Complete(b);
      }
    }
  }

  /** What is left of the buffers of a closing session. */
  lemma DropKeeps(queue: seq<Buffer>, input: Option<Buffer>, keep: nat)
    requires QueueOk(queue) && InputOk(input) && OrderInv(queue, input) && keep <= |queue|
    ensures var r := DropBack(Kept(queue, input), keep);
            keep <= |r| && QueueOk(r) && OrderInv(r, None) && Ids(r) <= Ids(queue) + Finished(input)
  {
    hide RepliedFirst, Sane, Ids, NoneReplied, AllFull;
    var queue1 := Kept(queue, input);
    var r := DropBack(queue1, keep);
    KeptIs(queue, input);
    DropBackKeeps(queue1, keep);
    PrefixIds(queue1, r);
    RestOrder(queue1, |r|);
    assert queue1[..|r|] == r;
  }

  lemma DropUnrepliedKeeps(s: Session)
    requires Inv(s) && !s.closing && !s.OpenInFlight()
    ensures Base(s.DropUnreplied().(expectsFlush := false))
  {
    hide QueueOk, InputOk, OrderInv, Ids, RepliedIn, RepliedFirst, Sane, PastInv, Answers, DropBack;
    assert s.DropUnreplied().queue == DropBack(Kept(s.queue, s.input), s.enqueued);
    DropKeeps(s.queue, s.input, s.enqueued);
    CutPast(s.past, s.queue, s.input, s.DropUnreplied().queue);
    InputNone();
    if s.sealed {
      SealedDrop(s.queue, s.enqueued);
    }
  }

  lemma InputNone()
    ensures InputOk(None)
  {
  }

  lemma SealedDrop(queue: seq<Buffer>, keep: nat)
    requires AllFull(queue) && keep <= |queue|
    ensures AllFull(DropBack(queue, keep))
  {
    DropBackKeeps(queue, keep);
  }

  /** A closing session once a write job runs, if there is a buffer left to write. */
  function Drained(s: Session): Session {
    var s1 := s.DropUnreplied().(expectsFlush := false);
    if s1.job.Idle? && s1.queue != [] then s1.StartNext() else s1
  }

  lemma CloseIs(s: Session)
    requires !s.OpenInFlight()
    ensures var s2 := Drained(s);
            s.DelayedClose() == if s2.queue != [] then s2.(pending := s2.pending + |s2.queue| - s2.enqueued + 1) else s2
  {
    hide Session.DropUnreplied, Session.StartNext;
  }

  /** The buffers left go to write jobs one by one; one job runs if there is a buffer. */
  lemma DrainStarts(s: Session)
    requires Inv(s) && !s.closing && !s.OpenInFlight()
    ensures var s2 := Drained(s);
            && Base(s2) && s2.closing && s2.input.None? && !s2.expectsFlush && s2.pending == 0
            && if s2.queue == [] then s2.job.Idle? else s2.Writing() && 0 < s2.enqueued <= |s2.queue|
  {
    hide Base, DropBack, Session.StartNext;
    DropUnrepliedKeeps(s);
    JobIs(s);
    RunsOrIdles(s);
    var s1 := s.DropUnreplied().(expectsFlush := false);
    StartNextKeeps(s1);
    JobIs(Drained(s));
    NoJobNoBuffers(Drained(s));
    if s1.job.Idle? && s1.queue != [] {
      StartedJob(s1);
    }
  }

  lemma CloseKeeps(s: Session)
    requires Inv(s) && !s.closing
    ensures Inv(s.DelayedClose())
  {
    if s.OpenInFlight() {
      OpenCloses(s);
    } else {
      hide Base, FreshInv, Session.DelayedClose, Drained;
      var s2 := Drained(s);
      DrainStarts(s);
      CloseIs(s);
      PendingUnseen(s2, s2.pending + |s2.queue| - s2.enqueued + 1);
      ClosedFresh(s2);
    }
  }

  lemma StartedJob(s: Session)
    requires Base(s) && !s.expectsFlush && s.job.Idle? && s.queue != []
    ensures s.StartNext().Writing()
  {
  }

  lemma RunsOrIdles(s: Session)
    requires Base(s) && !s.closing && !s.OpenInFlight()
    ensures s.job.Idle? || s.Writing()
  {
  }

  lemma ClosedFresh(s: Session)
    requires !s.expectsFlush
    ensures FreshInv(s.expectsFlush, s.queue, s.input, s.ready)
  {
  }

  lemma NoJobNoBuffers(s: Session)
    requires Base(s)
    ensures s.queue == [] && s.input.None? ==> NoneReplied(Buffers(s.queue, s.input))
    ensures s.queue == [] ==> !s.Writing()
  {
  }

  lemma OpenCloses(s: Session)
    requires Inv(s) && !s.closing && s.OpenInFlight()
    ensures Inv(s.DelayedClose())
  {
  }

  lemma ReplyCloses(wire: Wire, past: Past, unread: bool, queue: seq<Buffer>, input: Option<Buffer>)
    requires ReplyInv(wire, past, true, queue, input)
    ensures ReplyInv(wire, past.(openAnswered := true, unread := unread), true, queue, input)
  {
  }

  lemma CloseAnswerIs(s: Session, status: Status, lock: bool, statuses: seq<Status>)
    requires s.job.InFlight? && s.job.writeId == 0 && s.LeftStatuses(statuses)
    ensures var s' := s.CloseCallback(status, lock, statuses);
            && s' == s.(job := s'.job, open := s'.open, locked := s'.locked, joined := s'.joined,
                pending := s.pending - 1,
                        past := s.past.(openAnswered := true, unread := s'.past.unread))
            && s'.job == (if status == OK then Idle else Answered(s.job))
            && !s'.joined && (!s.joined ==> s'.locked == s.locked)
  {
    hide Session.OpenedClosing, Session.AfterClose, Session.LeftStatuses;
    OpenedClosingIs(s, status, lock);
    AfterCloseIs(s, statuses);
  }

  lemma OpenedClosingIs(s: Session, status: Status, lock: bool)
    requires s.job.InFlight? && s.job.writeId == 0
    ensures var a := s.OpenedClosing(status, lock);
            && a == s.(job := a.job, open := a.open, locked := a.locked, joined := a.joined)
            && a.job == (if status == OK then Idle else Answered(s.job))
            && !a.joined && (!s.joined ==> a.locked == s.locked)
  {
    hide Session.Adopt;
    AdoptIs(s, lock);
    var a := s.Adopt(lock);
    if status == OK {
      assert s.OpenedClosing(status, lock) == a.(open := true, job := Idle);
    } else {
      assert s.OpenedClosing(status, lock) == a.(job := Answered(s.job));
    }
  }

  lemma AfterCloseIs(s: Session, statuses: seq<Status>)
    requires s.LeftStatuses(statuses)
    ensures var past := s.AfterClose(statuses); past == s.past.(openAnswered := true, unread := past.unread)
  {
  }

  lemma AdoptIs(s: Session, lock: bool)
    ensures var a := s.Adopt(lock);
            a == s.(locked := a.locked, joined := a.joined) && !a.joined && (!s.joined ==> a.locked == s.locked)
  {
  }

  lemma CloseFinishedKeeps(s: Session, status: Status, lock: bool, statuses: seq<Status>)
    requires Inv(s) && CanTake(s, CloseFinished(status, lock, statuses))
    ensures Inv(s.CloseCallback(status, lock, statuses))
  {
    hide QueueOk, InputOk, OrderInv, FlushInv, FreshInv, PastInv, ReplyInv, RepliedIn, NoneReplied, Ids, SealInv,
        OpenInv, LostInv, Session.CloseCallback;
    CloseAnswerIs(s, status, lock, statuses);
    var past := s.CloseCallback(status, lock, statuses).past;
    OpenEnds(s.job, s.queue, s.input, s.enqueued, s.past, past.unread, s.untold, s.closing);
    ReplyCloses(s.wire, s.past, past.unread, s.queue, s.input);
    PastUnseen(s.past, past, s.queue, s.input, true);
  }

  lemma OpenEnds(job: Job, queue: seq<Buffer>, input: Option<Buffer>, enqueued: nat, past: Past, unread: bool,
      untold: Status, closing: bool)
    requires OpenInv(job, queue, input, enqueued, past) && JobInv(queue, job, enqueued, closing)
        && LostInv(past, untold)
    requires job.InFlight? && job.callback == OnClose
    ensures var past' := past.(openAnswered := true, unread := unread);
            && closing && LostInv(past', untold)
            && OpenInv(Idle, queue, input, enqueued, past') && JobInv(queue, Idle, enqueued, closing)
            && OpenInv(Answered(job), queue, input, enqueued, past') && JobInv(queue, Answered(job), enqueued, closing)
  {
  }

  lemma OutsideKeeps(s: Session, step: Step)
    requires Inv(s) && CanTake(s, step) && (step.ChangeCredits? || step.ChainStatus? || step.LeaveWriting?)
    ensures Inv(Apply(s, step))
  {
  }

  lemma StepKeepsInv(s: Session, step: Step)
    requires Inv(s) && CanTake(s, step)
    ensures Inv(Apply(s, step))
  {
    hide Inv;
    match step
    case PrepareBlock => PrepareKeeps(s);
    case ProcessBlock(id) => ProcessKeeps(s, id);
    case FlushData => FlushKeeps(s);
    case OpenFinished(status, lock) => OpenDoneKeeps(s, status, lock);
    case WriteFinished(statuses) => WriteDoneKeeps(s, statuses);
    case Seal => SealKeeps(s);
    case LoopReply => ReplyKeeps(s);
    case Close => CloseKeeps(s);
    case CloseFinished(status, lock, statuses) => CloseFinishedKeeps(s, status, lock, statuses);
    case ChangeCredits(_) => OutsideKeeps(s, step);
    case ChainStatus(_, _) => OutsideKeeps(s, step);
    case LeaveWriting(_) => OutsideKeeps(s, step);
  }
}
