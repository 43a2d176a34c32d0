/** Acknowledgements run ahead of the disk, but never out of order: the replied blocks of a session's
    buffers are always the first ones. */
module ReplyOrder {
  import opened Common
  import opened WriteSessions

  predicate FullyReplied(b: Buffer) {
    b.replied == |b.ids|
  }

  /** A buffer holds a replied block only if every block before that buffer was replied. */
  ghost predicate RepliedFirst(buffers: seq<Buffer>) {
    forall i, j :: 0 <= i < j < |buffers| && buffers[j].replied > 0 ==> FullyReplied(buffers[i])
  }

  ghost predicate Sane(buffers: seq<Buffer>) {
    forall i :: 0 <= i < |buffers| ==> buffers[i].replied <= |buffers[i].ids|
  }

  ghost predicate AllFull(buffers: seq<Buffer>) {
    forall i :: 0 <= i < |buffers| ==> FullyReplied(buffers[i])
  }

  ghost predicate NoneReplied(buffers: seq<Buffer>) {
    forall i :: 0 <= i < |buffers| ==> buffers[i].replied == 0
  }

  function Oks(ids: seq<nat>): seq<Reply> {
    if ids == [] then [] else [Reply(OK, ids[0])] + Oks(ids[1..])
  }

  lemma {:induction false} OksAt(ids: seq<nat>)
    ensures |Oks(ids)| == |ids| && forall i :: 0 <= i < |ids| ==> Oks(ids)[i] == Reply(OK, ids[i])
  {
    if ids != [] {
      OksAt(ids[1..]);
    }
  }

  lemma OksAppend(a: seq<nat>, b: seq<nat>)
    ensures Oks(a + b) == Oks(a) + Oks(b)
  {
    OksAt(a);
    OksAt(b);
    OksAt(a + b);
  }

  lemma {:induction false} IdsAppend(a: seq<Buffer>, b: seq<Buffer>)
    ensures Ids(a + b) == Ids(a) + Ids(b) && RepliedIn(a + b) == RepliedIn(a) + RepliedIn(b)
  {
    if a == [] {
      assert a + b == b;
    } else {
      IdsAppend(a[1..], b);
      assert (a + b)[0] == a[0] && (a + b)[1..] == a[1..] + b;
      Regroup(a[0].ids, Ids(a[1..]), Ids(b));
    }
  }

  lemma {:induction false} FullCounts(a: seq<Buffer>)
    requires AllFull(a)
    ensures RepliedIn(a) == |Ids(a)|
  {
    if a != [] {
      FullCounts(a[1..]);
    }
  }

  lemma {:induction false} NoneCounts(a: seq<Buffer>)
    requires NoneReplied(a)
    ensures RepliedIn(a) == 0
  {
    if a != [] {
      NoneCounts(a[1..]);
    }
  }

  lemma {:induction false} RepliedBound(a: seq<Buffer>)
    requires Sane(a)
    ensures RepliedIn(a) <= |Ids(a)|
  {
    if a != [] {
      RepliedBound(a[1..]);
    }
  }

  lemma IdsAround(buffers: seq<Buffer>, k: nat)
    requires k < |buffers|
    ensures Ids(buffers) == Ids(buffers[..k]) + (buffers[k].ids + Ids(buffers[k + 1..]))
    ensures RepliedIn(buffers) == RepliedIn(buffers[..k]) + buffers[k].replied + RepliedIn(buffers[k + 1..])
  {
    assert buffers == buffers[..k] + buffers[k..];
    IdsAppend(buffers[..k], buffers[k..]);
    assert buffers[k..][1..] == buffers[k + 1..];
  }

  /** Around a buffer that is not fully replied everything before is replied and nothing after. */
  lemma SplitAt(buffers: seq<Buffer>, k: nat)
    requires RepliedFirst(buffers) && k < |buffers| && !FullyReplied(buffers[k]) && AllFull(buffers[..k])
    ensures RepliedIn(buffers) == |Ids(buffers[..k])| + buffers[k].replied && RepliedIn(buffers[k + 1..]) == 0
  {
    IdsAround(buffers, k);
    FullCounts(buffers[..k]);
    forall i | k < i < |buffers|
      ensures buffers[i].replied == 0
    {
    }
    NoneCounts(buffers[k + 1..]);
  }

  // Telling.

  lemma {:induction false} ToldAllLast(w: Wire, ids: seq<nat>)
    requires w.state == WriteLast
    ensures ToldAll(w, ids) == w.(replies := w.replies + Oks(ids))
    decreases |ids|
  {
    if ids == [] {
      assert w.replies + [] == w.replies;
    } else {
      ToldAllLast(Told(w, OK, ids[0]), ids[1..]);
      assert w.replies + [Reply(OK, ids[0])] + Oks(ids[1..]) == w.replies + Oks(ids);
    }
  }

  lemma {:induction false} ToldAllKeeps(w: Wire, ids: seq<nat>)
    ensures ToldAll(w, ids).available == w.available && ToldAll(w, ids).state == w.state
    decreases |ids|
  {
    if ids != [] {
      ToldAllKeeps(Told(w, OK, ids[0]), ids[1..]);
    }
  }

  // Instant replies.

  /** The buffers are the same, some with more replies. */
  ghost predicate MoreReplied(a: seq<Buffer>, b: seq<Buffer>) {
    && |a| == |b|
    && forall i :: 0 <= i < |a| ==> b[i] == a[i] || b[i] == Replied(a[i])
  }

  lemma {:induction false} MoreRepliedIds(a: seq<Buffer>, b: seq<Buffer>)
    requires MoreReplied(a, b)
    ensures Ids(b) == Ids(a)
  {
    if a != [] {
      MoreRepliedIds(a[1..], b[1..]);
    }
  }

  /** Replying from the first buffer that is not fully replied on keeps the order; it replies whole buffers that
      no write job has, and goes through only if everything was replied. */
  lemma {:induction false} ReplyFromKeepsOrder(queue: seq<Buffer>, enqueued: nat, k: nat, w: Wire)
    requires k <= |queue| && Sane(queue) && RepliedFirst(queue) && AllFull(queue[..k])
    ensures var r := ReplyFrom(queue, enqueued, k, w);
            && Sane(r.queue) && RepliedFirst(r.queue) && MoreReplied(queue, r.queue)
            && (forall i :: 0 <= i < |queue| && i < enqueued ==> r.queue[i] == queue[i])
            && (r.through ==> AllFull(r.queue))
            && (r.queue == queue || exists i :: 0 <= i < |queue| && !FullyReplied(queue[i]))
    decreases |queue| - k
  {
    if k < |queue| {
      hide RepliedFirst, Sane;
      if FullyReplied(queue[k]) {
        assert AllFull(queue[..k + 1]);
        ReplyFromKeepsOrder(queue, enqueued, k + 1, w);
      } else if Repliable(queue[k], w.available) && k + 1 > enqueued {
        var queue1 := queue[k := Replied(queue[k])];
        ReplyOneOrder(queue, k);
        ReplyFromKeepsOrder(queue1, enqueued, k + 1, ReplyBuffer(w, queue[k]));
      }
    }
  }

  /** Each reply costs one credit and credits never go below zero if they were not; to a client at the end of the
      chain the replies are the next ids in the order received. */
  lemma {:induction false} ReplyFromReplies(queue: seq<Buffer>, enqueued: nat, k: nat, w: Wire)
    requires k <= |queue| && Sane(queue) && RepliedFirst(queue) && AllFull(queue[..k])
    ensures var r := ReplyFrom(queue, enqueued, k, w);
            && RepliedIn(queue) <= RepliedIn(r.queue) <= |Ids(queue)|
            && r.wire.state == w.state
            && r.wire.available + RepliedIn(r.queue) == w.available + RepliedIn(queue)
            && (w.available >= 0 ==> r.wire.available >= 0)
            && (w.state == WriteLast ==>
                  && r.wire.partial == w.partial
                  && r.wire.replies == w.replies + Oks(Ids(queue)[RepliedIn(queue)..RepliedIn(r.queue)]))
    decreases |queue| - k
  {
    RepliedBound(queue);
    var R := RepliedIn(queue);
    assert w.replies + Oks(Ids(queue)[R..R]) == w.replies;
    if k < |queue| {
      if FullyReplied(queue[k]) {
        assert AllFull(queue[..k + 1]);
        ReplyFromReplies(queue, enqueued, k + 1, w);
      } else if Repliable(queue[k], w.available) && k + 1 > enqueued {
        var queue1, w1 := queue[k := Replied(queue[k])], ReplyBuffer(w, queue[k]);
        ReplyOneOrder(queue, k);
        ReplyOneCount(queue, k);
        ReplyOneBuffer(queue[k], w);
        ReplyFromReplies(queue1, enqueued, k + 1, w1);
        var r := ReplyFrom(queue1, enqueued, k + 1, w1);
        assert ReplyFrom(queue, enqueued, k, w) == r;
        OksJoin(w.replies, Ids(queue), R, RepliedIn(queue1), RepliedIn(r.queue));
      }
    }
  }

  lemma OksJoin(replies: seq<Reply>, ids: seq<nat>, i: nat, j: nat, k: nat)
    requires i <= j <= k <= |ids|
    ensures (replies + Oks(ids[i..j])) + Oks(ids[j..k]) == replies + Oks(ids[i..k])
  {
    OksAppend(ids[i..j], ids[j..k]);
    assert ids[i..j] + ids[j..k] == ids[i..k];
  }

  lemma ReplyOneOrder(queue: seq<Buffer>, k: nat)
    requires k < |queue| && Sane(queue) && RepliedFirst(queue) && AllFull(queue[..k]) && !FullyReplied(queue[k])
    ensures var queue1 := queue[k := Replied(queue[k])];
            Sane(queue1) && RepliedFirst(queue1) && AllFull(queue1[..k + 1])
  {
  }

  lemma ReplyOneCount(queue: seq<Buffer>, k: nat)
    requires k < |queue| && Sane(queue) && RepliedFirst(queue) && AllFull(queue[..k]) && !FullyReplied(queue[k])
    ensures var queue1 := queue[k := Replied(queue[k])];
            && Ids(queue1) == Ids(queue)
                && RepliedIn(queue1) == RepliedIn(queue) + |queue[k].ids| - queue[k].replied <= |Ids(queue)|
            && Ids(queue)[RepliedIn(queue)..RepliedIn(queue1)] == queue[k].ids[queue[k].replied..]
  {
    var queue1, b, back := queue[k := Replied(queue[k])], queue[k], queue[k + 1..];
    SplitAt(queue, k);
    IdsAround(queue, k);
    IdsAround(queue1, k);
    FullCounts(queue[..k]);
    assert queue1[..k] == queue[..k] && queue1[k + 1..] == back;
    Window(Ids(queue[..k]), b.ids, Ids(back), b.replied);
  }

  lemma Window<T>(a: seq<T>, b: seq<T>, c: seq<T>, n: nat)
    requires n <= |b|
    ensures (a + (b + c))[|a| + n..|a| + |b|] == b[n..]
  {
  }

  lemma ReplyOneBuffer(b: Buffer, w: Wire)
    requires b.replied <= |b.ids|
    ensures var w1 := ReplyBuffer(w, b);
            && w1.state == w.state && w1.available == w.available - (|b.ids| - b.replied)
            && (w.state == WriteLast ==> w1.partial == w.partial && w1.replies == w.replies + Oks(b.ids[b.replied..]))
  {
    var w0 := w.(available := w.available - (|b.ids| - b.replied));
    ToldAllKeeps(w0, b.ids[b.replied..]);
    if w.state == WriteLast {
      ToldAllLast(w0, b.ids[b.replied..]);
    }
  }

  /** With credits for all blocks, and all buffers in write jobs replied, every block is replied. */
  lemma {:induction false} EnoughCreditsReplyAll(queue: seq<Buffer>, enqueued: nat, k: nat, w: Wire)
    requires k <= |queue| && Sane(queue) && RepliedFirst(queue) && AllFull(queue[..k])
    requires w.available + RepliedIn(queue) >= |Ids(queue)| && forall i :: 0 <= i < |queue| && i < enqueued ==>
        FullyReplied(queue[i])
    ensures ReplyFrom(queue, enqueued, k, w).through && AllFull(ReplyFrom(queue, enqueued, k, w).queue)
    decreases |queue| - k
  {
    if k == |queue| {
      assert queue[..k] == queue;
    } else if FullyReplied(queue[k]) {
      assert AllFull(queue[..k + 1]);
      EnoughCreditsReplyAll(queue, enqueued, k + 1, w);
    } else {
      hide RepliedFirst, Sane, Ids, RepliedIn, AllFull;
      ReplyOneOrder(queue, k);
      ReplyOneCount(queue, k);
      SaneAt(queue, k);
      ReplyOneBuffer(queue[k], w);
      EnoughCreditsReplyAll(queue[k := Replied(queue[k])], enqueued, k + 1, ReplyBuffer(w, queue[k]));
    }
  }

  lemma SaneAt(queue: seq<Buffer>, k: nat)
    requires Sane(queue) && k < |queue|
    ensures queue[k].replied <= |queue[k].ids|
  {
  }
}
