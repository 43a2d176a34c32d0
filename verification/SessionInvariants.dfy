/** What every operation of a write session keeps. */
module SessionInvariants {
  import opened Common
  import opened WriteSessions
  import opened ReplyOrder

  /** All buffers of a session, in the order their blocks were received. */
  function Buffers(queue: seq<Buffer>, input: Option<Buffer>): seq<Buffer> {
    if input.Some? then queue + [input.value] else queue
  }

  /** A queued buffer is complete. */
  ghost predicate Complete(b: Buffer) {
    b.ids != [] && !b.updating
  }

  ghost predicate QueueOk(queue: seq<Buffer>) {
    forall i :: 0 <= i < |queue| ==> Complete(queue[i])
  }

  ghost predicate InputOk(input: Option<Buffer>) {
    input.Some? ==> input.value.ids != [] && (input.value.updating ==> input.value.replied < |input.value.ids|)
  }

  ghost predicate OrderInv(queue: seq<Buffer>, input: Option<Buffer>) {
    Sane(Buffers(queue, input)) && RepliedFirst(Buffers(queue, input))
  }

  /** The enqueued buffers are those of the write job in flight, or of one that a close took for the open job. */
  ghost predicate JobInv(queue: seq<Buffer>, job: Job, enqueued: nat, closing: bool) {
    && enqueued <= |queue|
    && match job
       case Idle => enqueued > 0 ==> closing
       case InFlight(id, OnOpen) => id == 0 && enqueued == 0 && !closing
       case InFlight(id, OnWrite) => enqueued > 0 && id == LastId(queue[0])
       case InFlight(id, _) => id == 0 && closing
  }

  /** While flush batching is on, every queued buffer is in a write job, in a released batch, or ready. */
  ghost predicate FlushInv(expectsFlush: bool, batching: bool, queue: seq<Buffer>, enqueued: nat, batches: seq<nat>,
      ready: nat) {
    expectsFlush ==>
      && batching && |queue| == enqueued + Sum(batches) + ready
      && forall i :: 0 <= i < |batches| ==> batches[i] > 0
  }

  /** While flush batching is on, nothing is replied between flushes: neither ready buffers nor the input. */
  ghost predicate FreshInv(expectsFlush: bool, queue: seq<Buffer>, input: Option<Buffer>, ready: nat) {
    expectsFlush ==>
      && ready <= |queue| && NoneReplied(queue[|queue| - ready..])
      && (input.Some? ==> input.value.replied == 0)
  }

  function Finished(input: Option<Buffer>): seq<nat> {
    if input.None? then []
    else if input.value.updating && input.value.ids != [] then input.value.ids[..|input.value.ids| - 1]
    else input.value.ids
  }

  /** Blocks are written in the order received; on close, blocks never replied are dropped from the end. */
  ghost predicate PastInv(past: Past, queue: seq<Buffer>, input: Option<Buffer>, closing: bool) {
    if closing then past.written + Ids(queue) <= past.received
    else past.received == past.written + (Ids(queue) + Finished(input))
  }

  ghost predicate LostInv(past: Past, untold: Status) {
    past.lost <==> untold != OK
  }

  /** Until the open job has answered, nothing is replied and nothing written. */
  ghost predicate OpenInv(job: Job, queue: seq<Buffer>, input: Option<Buffer>, enqueued: nat, past: Past) {
    && (job.InFlight? && job.callback == OnOpen ==> !past.openAnswered)
    && (!past.openAnswered ==>
          && NoneReplied(Buffers(queue, input)) && past.written == [] && enqueued == 0
          && job.InFlight? && (job.callback == OnOpen || job.callback == OnClose))
  }

  ghost predicate SealInv(sealed: bool, queue: seq<Buffer>, input: Option<Buffer>) {
    sealed ==> input.None? && AllFull(queue)
  }

  /** The callbacks still to come for a closing session: the close's own, or those of the running write job and then
      of one job for each further buffer. */
  function Remaining(queue: seq<Buffer>, enqueued: nat, job: Job): int {
    match job
    case InFlight(_, OnWrite) => |queue| - enqueued + 1
    case InFlight(_, OnClose) => 1
    case _ => 0
  }

  /** Unless a job has buffers, or had some when the close took it for the open job, no buffer of a closing session
      holds a replied block. */
  ghost predicate CloseInv(s: Session) {
    if s.closing then
      && (s.Writing() ==> s.input.None? && !s.expectsFlush)
      && s.pending == Remaining(s.queue, s.enqueued, s.job)
      && (s.enqueued == 0 ==> NoneReplied(Buffers(s.queue, s.input)))
    else s.pending == 0 && s.expectsFlush == s.batching
  }

  /** The answers to a client at the end of the chain: first the open, then every write id in the order received. */
  ghost predicate ReplyInv(wire: Wire, past: Past, closing: bool, queue: seq<Buffer>, input: Option<Buffer>) {
    wire.state == WriteLast && !past.failed ==>
      if !past.openAnswered then wire.replies == []
      else if closing then wire.replies == [] || exists n ::
          0 <= n <= |past.received| && wire.replies == Answers(past.received, n)
      else
        var n := |past.written| + RepliedIn(Buffers(queue, input));
        n <= |past.received| && wire.replies == Answers(past.received, n)
  }

  function Answers(received: seq<nat>, n: nat): seq<Reply>
    requires n <= |received|
  {
    [Reply(OK, 0)] + Oks(received[..n])
  }

  // Buffers.

  lemma BuffersIds(queue: seq<Buffer>, input: Option<Buffer>)
    ensures Ids(Buffers(queue, input)) == Ids(queue) + (if input.Some? then input.value.ids else [])
    ensures RepliedIn(Buffers(queue, input)) == RepliedIn(queue) + (if input.Some? then input.value.replied else 0)
  {
    if input.Some? {
      IdsAppend(queue, [input.value]);
      assert Ids([input.value]) == input.value.ids + [] == input.value.ids;
    } else {
      assert Ids(queue) + [] == Ids(queue);
    }
  }

  lemma OrderSplit(queue: seq<Buffer>, b: Buffer)
    ensures RepliedFirst(queue + [b]) <==> RepliedFirst(queue) && (b.replied > 0 ==> AllFull(queue))
    ensures Sane(queue + [b]) <==> Sane(queue) && b.replied <= |b.ids|
  {
    var all := queue + [b];
    assert all[|queue|] == b && forall i :: 0 <= i < |queue| ==> all[i] == queue[i];
    if RepliedFirst(all) && b.replied > 0 {
      forall i | 0 <= i < |queue|
        ensures FullyReplied(queue[i])
      {
        assert FullyReplied(all[i]);
      }
    }
    if RepliedFirst(all) {
      forall i, j | 0 <= i < j < |queue| && queue[j].replied > 0
        ensures FullyReplied(queue[i])
      {
        assert FullyReplied(all[i]);
      }
    }
    if Sane(all) {
      forall i | 0 <= i < |queue|
        ensures queue[i].replied <= |queue[i].ids|
      {
        assert all[i].replied <= |all[i].ids|;
      }
    }
  }

  // Instant replies.

  /** What instant replies may have changed. */
  ghost predicate RepliesMore(queue: seq<Buffer>, input: Option<Buffer>, enqueued: nat, queue': seq<Buffer>,
      input': Option<Buffer>) {
    && MoreReplied(queue, queue')
    && (input' == input || (input.Some? && !input.value.updating && input' == Some(Replied(input.value))))
    && (forall i :: 0 <= i < |queue| && i < enqueued ==> queue'[i] == queue[i])
  }

  lemma AcknowledgeKeepsOrder(queue: seq<Buffer>, input: Option<Buffer>, enqueued: nat, w: Wire)
    requires OrderInv(queue, input)
    ensures var a := Acknowledge(queue, input, enqueued, w);
            RepliesMore(queue, input, enqueued, a.queue, a.input) && OrderInv(a.queue, a.input)
  {
    hide RepliedFirst, Sane, ReplyFrom, ReplyBuffer;
    assert queue[..0] == [];
    var r := ReplyFrom(queue, enqueued, 0, w);
    if input.Some? {
      OrderSplit(queue, input.value);
    }
    ReplyFromKeepsOrder(queue, enqueued, 0, w);
    if input.Some? {
      OrderSplit(r.queue, input.value);
      OrderSplit(r.queue, Replied(input.value));
      if input.value.replied > 0 {
        assert r.queue == queue;
      }
    }
  }

  lemma {:induction false} NothingToReply(queue: seq<Buffer>, enqueued: nat, k: nat, w: Wire)
    requires k <= |queue| && AllFull(queue)
    ensures ReplyFrom(queue, enqueued, k, w) == Replying(queue, w, true)
    decreases |queue| - k
  {
    if k < |queue| {
      NothingToReply(queue, enqueued, k + 1, w);
    }
  }

  lemma RepliesMoreKeeps(queue: seq<Buffer>, input: Option<Buffer>, enqueued: nat, queue': seq<Buffer>,
      input': Option<Buffer>)
    requires RepliesMore(queue, input, enqueued, queue', input') && QueueOk(queue) && InputOk(input)
    ensures QueueOk(queue') && InputOk(input') && Ids(queue') == Ids(queue) && Finished(input') == Finished(input)
        && |queue'| == |queue|
  {
    MoreRepliedIds(queue, queue');
  }

  lemma NoBuffers(queue: seq<Buffer>)
    ensures AllFull(queue[..0])
  {
  }

  lemma NoOks(replies: seq<Reply>, ids: seq<nat>, i: nat)
    requires i <= |ids|
    ensures replies + Oks(ids[i..i]) == replies
  {
  }

  lemma Inside<T>(a: seq<T>, b: seq<T>, i: nat, j: nat)
    requires i <= j <= |a|
    ensures (a + b)[i..j] == a[i..j]
  {
  }

  /** The replies for the end of the queued ids and then for the input's ids are those for one stretch of both. */
  lemma InputLast(replies: seq<Reply>, a: seq<nat>, b: seq<nat>, i: nat, n: nat)
    requires i <= |a| && n <= |b| && (n > 0 ==> i == |a|)
    ensures (replies + Oks(a[i..])) + Oks(b[n..]) == replies + Oks((a + b)[i + n..|a| + |b|])
  {
    OksAppend(a[i..], b[n..]);
    assert a[i..] + b[n..] == (a + b)[i + n..|a| + |b|];
  }

  /** Credits are exchanged one for one, and the client at the end of the chain hears the next ids received. */
  lemma AcknowledgeReplies(queue: seq<Buffer>, input: Option<Buffer>, enqueued: nat, w: Wire)
    requires OrderInv(queue, input)
    ensures var a := Acknowledge(queue, input, enqueued, w);
            var R, R' := RepliedIn(Buffers(queue, input)), RepliedIn(Buffers(a.queue, a.input));
            && R <= R' <= |Ids(Buffers(queue, input))| && a.wire.state == w.state
                && a.wire.available + R' == w.available + R
            && (w.available >= 0 ==> a.wire.available >= 0)
            && (w.state == WriteLast ==>
                    a.wire.partial == w.partial && a.wire.replies == w.replies + Oks(Ids(Buffers(queue, input))[R..R']))
  {
    hide RepliedFirst, Sane, ReplyFrom, ReplyBuffer, Oks, Ids, RepliedIn, AllFull;
    assert AllFull(queue[..0]) by { NoBuffers(queue); }
    var r, a := ReplyFrom(queue, enqueued, 0, w), Acknowledge(queue, input, enqueued, w);
    if input.Some? {
      OrderSplit(queue, input.value);
    }
    ReplyFromReplies(queue, enqueued, 0, w);
    ReplyFromKeepsOrder(queue, enqueued, 0, w);
    BuffersIds(queue, input);
    BuffersIds(r.queue, input);
    BuffersIds(a.queue, a.input);
    MoreRepliedIds(queue, r.queue);
    var R, R1 := RepliedIn(queue), RepliedIn(r.queue);
    if a.input != input {
      var b := input.value;
      OrderSplit(r.queue, b);
      FullCounts(r.queue);
      ReplyOneBuffer(b, r.wire);
      if b.replied > 0 {
        NothingToReply(queue, enqueued, 0, w);
      }
      InputLast(w.replies, Ids(queue), b.ids, R, b.replied);
      assert Ids(queue)[R..R1] == Ids(queue)[R..];
    } else if input.Some? {
      Inside(Ids(queue), input.value.ids, R, R1);
      if input.value.replied > 0 {
        NothingToReply(queue, enqueued, 0, w);
        NoOks(w.replies, Ids(Buffers(queue, input)), RepliedIn(Buffers(queue, input)));
      }
    }
  }

  // The operations the methods share.

  /** What holds also half-way through an operation. */
  ghost predicate Base(s: Session) {
    && QueueOk(s.queue) && InputOk(s.input) && OrderInv(s.queue, s.input)
        && JobInv(s.queue, s.job, s.enqueued, s.closing)
    && FlushInv(s.expectsFlush, s.batching, s.queue, s.enqueued, s.batches, s.ready)
    && PastInv(s.past, s.queue, s.input, s.closing) && LostInv(s.past, s.untold)
    && OpenInv(s.job, s.queue, s.input, s.enqueued, s.past)
    && SealInv(s.sealed, s.queue, s.input)
    && ReplyInv(s.wire, s.past, s.closing, s.queue, s.input)
  }

  ghost predicate Inv(s: Session) {
    Base(s) && FreshInv(s.expectsFlush, s.queue, s.input, s.ready) && CloseInv(s)
  }

  lemma BaseHolds(s: Session)
    requires Inv(s)
    ensures Base(s)
  {
  }

  lemma Shifted<T>(a: seq<T>, b: seq<T>, i: nat, j: nat)
    requires i <= j <= |b|
    ensures (a + b)[|a| + i..|a| + j] == b[i..j]
  {
  }

  /** The finished blocks of all buffers, and all their blocks but an unfinished last one. */
  lemma FinishedIds(queue: seq<Buffer>, input: Option<Buffer>, i: nat, j: nat)
    requires i <= j <= |Ids(queue)| + |Finished(input)|
    ensures j <= |Ids(Buffers(queue, input))|
        && Ids(Buffers(queue, input))[i..j] == (Ids(queue) + Finished(input))[i..j]
  {
    BuffersIds(queue, input);
  }

  lemma AnswersExtend(received: seq<nat>, i: nat, j: nat)
    requires i <= j <= |received|
    ensures Answers(received, i) + Oks(received[i..j]) == Answers(received, j)
  {
    OksJoin([Reply(OK, 0)], received, 0, i, j);
    assert received[0..i] == received[..i] && received[0..j] == received[..j];
  }

  /** More blocks replied are more answers, and the same blocks they answer. */
  lemma AnswersGrow(past: Past, queue: seq<Buffer>, input: Option<Buffer>, R: nat, R': nat)
    requires PastInv(past, queue, input, false) && R <= R' <= |Ids(queue)| + |Finished(input)|
    ensures |past.written| + R' <= |past.received| && R' <= |Ids(Buffers(queue, input))|
    ensures Answers(past.received, |past.written| + R) + Oks(Ids(Buffers(queue, input))[R..R'])
        == Answers(past.received, |past.written| + R')
  {
    hide Answers, Oks, Ids, Buffers, Finished;
    Shifted(past.written, Ids(queue) + Finished(input), R, R');
    FinishedIds(queue, input, R, R');
    AnswersExtend(past.received, |past.written| + R, |past.written| + R');
  }

  lemma RepliedAreFinished(queue: seq<Buffer>, input: Option<Buffer>)
    requires OrderInv(queue, input) && InputOk(input)
    ensures RepliedIn(Buffers(queue, input)) <= |Ids(queue)| + |Finished(input)|
  {
    hide RepliedFirst, Sane;
    BuffersIds(queue, input);
    if input.Some? {
      OrderSplit(queue, input.value);
    }
    RepliedBound(queue);
  }

  lemma ReplyGrows(wire: Wire, past: Past, queue: seq<Buffer>, input: Option<Buffer>, enqueued: nat)
    requires ReplyInv(wire, past, false, queue, input) && OrderInv(queue, input) && InputOk(input) && QueueOk(queue)
        && PastInv(past, queue, input, false)
    requires past.openAnswered
    ensures var a := Acknowledge(queue, input, enqueued, wire); ReplyInv(a.wire, past, false, a.queue, a.input)
  {
    hide Acknowledge, RepliesMore, RepliedIn, Answers, QueueOk, InputOk, OrderInv, PastInv;
    var a := Acknowledge(queue, input, enqueued, wire);
    AcknowledgeKeepsOrder(queue, input, enqueued, wire);
    RepliesMoreKeeps(queue, input, enqueued, a.queue, a.input);
    AcknowledgeReplies(queue, input, enqueued, wire);
    RepliedAreFinished(a.queue, a.input);
    if wire.state == WriteLast && !past.failed {
      AnswersGrow(past, queue, input, RepliedIn(Buffers(queue, input)), RepliedIn(Buffers(a.queue, a.input)));
    }
  }

  lemma TryReplyKeeps(s: Session, fromFlush: bool)
    requires Base(s)
    ensures var s' := s.TryReply(fromFlush);
            && Base(s') && s' == s.(queue := s'.queue, input := s'.input, wire := s'.wire)
            && RepliesMore(s.queue, s.input, s.enqueued, s'.queue, s'.input)
            && (s.expectsFlush && !fromFlush ==> s' == s)
  {
    if s.MayReplyInstantly(fromFlush) {
      hide QueueOk, InputOk, OrderInv, PastInv, ReplyInv, Acknowledge, RepliesMore, FlushInv, JobInv, LostInv,
          NoneReplied, AllFull;
      var s' := s.TryReply(fromFlush);
      ReplyGrows(s.wire, s.past, s.queue, s.input, s.enqueued);
      AcknowledgeKeepsOrder(s.queue, s.input, s.enqueued, s.wire);
      RepliesMoreKeeps(s.queue, s.input, s.enqueued, s'.queue, s'.input);
      SameCounts(s, s'.queue, s'.input);
    } else {
      assert s.(queue := s.queue, input := s.input, wire := s.wire) == s;
    }
  }

  /** What depends only on how many buffers there are and on their ids. */
  lemma SameCounts(s: Session, queue: seq<Buffer>, input: Option<Buffer>)
    requires JobInv(s.queue, s.job, s.enqueued, s.closing)
        && FlushInv(s.expectsFlush, s.batching, s.queue, s.enqueued, s.batches, s.ready)
    requires PastInv(s.past, s.queue, s.input, s.closing)
    requires |queue| == |s.queue| && Ids(queue) == Ids(s.queue) && Finished(input) == Finished(s.input)
    requires s.queue != [] ==> queue[0].ids == s.queue[0].ids
    ensures JobInv(queue, s.job, s.enqueued, s.closing)
        && FlushInv(s.expectsFlush, s.batching, queue, s.enqueued, s.batches, s.ready)
    ensures PastInv(s.past, queue, input, s.closing)
  {
  }

  lemma FreezeKeeps(s: Session)
    requires Base(s) && s.input.Some? && !s.input.value.updating && !s.closing
    ensures Base(s.Freeze())
    ensures FreshInv(s.expectsFlush, s.queue, s.input, s.ready) ==>
        FreshInv(s.expectsFlush, s.Freeze().queue, s.Freeze().input, s.Freeze().ready)
  {
    hide OrderInv, RepliedIn, Answers, Ids;
    var s', b := s.Freeze(), s.input.value;
    assert Buffers(s'.queue, s'.input) == Buffers(s.queue, s.input);
    SameOrder(s.queue, s.input, s'.queue, s'.input);
    IdsAppend(s.queue, [b]);
    IdsOfOne(b);
    assert Ids(s'.queue) + [] == Ids(s'.queue);
  }

  lemma SameOrder(queue: seq<Buffer>, input: Option<Buffer>, queue': seq<Buffer>, input': Option<Buffer>)
    requires OrderInv(queue, input) && Buffers(queue, input) == Buffers(queue', input')
    ensures OrderInv(queue', input')
  {
  }

  lemma IdsOfOne(b: Buffer)
    ensures Ids([b]) == b.ids
  {
    assert Ids([b]) == b.ids + [] == b.ids;
  }

  /** A released batch is there to be taken: a write job never finds fewer buffers than the flush promised. */
  lemma BatchIsAvailable(s: Session)
    requires Base(s) && s.CanStart() && s.expectsFlush
    ensures 0 < s.batches[0] <= |s.queue| && s.StartNext().enqueued == s.batches[0]
  {
    SumFirst(s.batches);
  }

  /** Nothing changed but the write job. */
  ghost predicate StartsOnly(s: Session, s': Session) {
    s' == s.(job := s'.job, enqueued := s'.enqueued, batches := s'.batches)
  }

  lemma FlushStarts(batching: bool, queue: seq<Buffer>, batches: seq<nat>, ready: nat)
    requires FlushInv(true, batching, queue, 0, batches, ready) && batches != []
    ensures 0 < batches[0] <= |queue| && FlushInv(true, batching, queue, batches[0], batches[1..], ready)
  {
    SumFirst(batches);
  }

  lemma JobStarts(queue: seq<Buffer>, n: nat, closing: bool)
    requires 0 < n <= |queue|
    ensures JobInv(queue, InFlight(LastId(queue[0]), OnWrite), n, closing)
  {
  }

  lemma StartNextKeeps(s: Session)
    requires Base(s) && (s.job.Idle? ==> s.enqueued == 0)
    ensures Base(s.StartNext()) && (s.CanStart() ==> s.StartNext().enqueued > 0) && StartsOnly(s, s.StartNext())
  {
    if s.CanStart() {
      hide OrderInv, RepliedIn, Answers, Ids, PastInv, InputOk, SealInv, LostInv, NoneReplied, ReplyInv, QueueOk;
      if s.expectsFlush {
        FlushStarts(s.batching, s.queue, s.batches, s.ready);
        JobStarts(s.queue, s.batches[0], s.closing);
      } else {
        JobStarts(s.queue, 1, s.closing);
      }
    }
  }

  /** What writing on leaves alone. */
  ghost predicate Carries(s: Session, s': Session) {
    s'.closing == s.closing && s'.pending == s.pending && s'.expectsFlush == s.expectsFlush && s'.batching == s.batching
        && s'.past == s.past
  }

  ghost predicate Sound(s: Session) {
    Base(s) && FreshInv(s.expectsFlush, s.queue, s.input, s.ready) && (s.job.Idle? ==> s.enqueued == 0)
  }

  lemma ReplyCarries(s: Session)
    requires Sound(s) && (s.closing ==> s.input.None?)
    ensures var r := s.TryReply(false); Sound(r) && Carries(s, r) && (r.closing ==> r.input.None?)
  {
    hide Base, FreshInv, Session.TryReply, MoreReplied;
    TryReplyKeeps(s, false);
    ReplyKeepsFresh(s, s.TryReply(false));
  }

  lemma StartCarries(s: Session)
    requires Sound(s)
    ensures Sound(s.StartNext()) && Carries(s, s.StartNext())
  {
    hide Base, FreshInv, Session.StartNext;
    StartNextKeeps(s);
    StartKeepsFresh(s);
    StartsOrStays(s);
  }

  lemma StartsOrStays(s: Session)
    requires s.job.Idle? ==> s.enqueued == 0
    ensures s.StartNext().job.Idle? ==> s.StartNext().enqueued == 0
  {
    if !s.CanStart() {
      assert s.StartNext() == s;
    }
  }

  lemma FreezeCarries(s: Session)
    requires Sound(s) && s.input.Some? && !s.input.value.updating && !s.closing
    ensures Sound(s.Freeze()) && Carries(s, s.Freeze())
  {
    hide Base, FreshInv;
    FreezeKeeps(s);
  }

  lemma ContinueKeeps(s: Session)
    requires Base(s) && FreshInv(s.expectsFlush, s.queue, s.input, s.ready)
    requires (s.closing ==> s.input.None?) && (s.job.Idle? ==> s.enqueued == 0)
    ensures var s' := s.Continue();
            && Base(s') && FreshInv(s'.expectsFlush, s'.queue, s'.input, s'.ready)
            && s'.closing == s.closing && s'.pending == s.pending && s'.expectsFlush == s.expectsFlush
                && s'.batching == s.batching && s'.past == s.past
  {
    hide Base, FreshInv, Session.TryReply, Session.StartNext, Session.Freeze;
    var r := s.TryReply(false);
    ReplyCarries(s);
    if r.CanStart() {
      StartCarries(r);
    } else if r.ShouldWriteInput() {
      FreezeCarries(r);
      StartCarries(r.Freeze());
    }
  }

  lemma ReplyKeepsFresh(s: Session, r: Session)
    requires FreshInv(s.expectsFlush, s.queue, s.input, s.ready) && r.expectsFlush == s.expectsFlush
        && r.ready == s.ready && (s.expectsFlush ==> r == s)
    ensures FreshInv(r.expectsFlush, r.queue, r.input, r.ready)
  {
  }

  lemma StartKeepsFresh(s: Session)
    requires FreshInv(s.expectsFlush, s.queue, s.input, s.ready)
    ensures var s' := s.StartNext(); FreshInv(s'.expectsFlush, s'.queue, s'.input, s'.ready)
  {
  }
}
