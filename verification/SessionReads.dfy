/** Write sessions and reads together: the registry follows a session through every run, so that a read at the session's
    version sees every block that was acknowledged. */
module SessionReads {
  import opened Common
  import opened WriteSessions
  import opened ReplyOrder
  import opened SessionInvariants
  import opened SessionSteps
  import opened SessionTheorems
  import opened ChunkWrites
  import opened RepliedRegistry
  import InputBuffers
  import ReadOverlay

  type WriteInfo = InputBuffers.WriteInfo

  /** A received block: where it goes in the chunk, its slot of the buffer's memory, and its checksum. */
  datatype Block = Block(info: WriteInfo, data: seq<byte>, crc: nat) {
    predicate Valid() {
      |data| == BLOCK && info.offset + info.size <= BLOCK
    }

    function AsWrite(): Write
      requires Valid()
    {
      Write(info.block * BLOCK + info.offset, data[..info.size])
    }
  }

  /** The blocks of a session, numbered in the order received. */
  type Blocks = nat -> Block

  ghost predicate AllBlocks(blocks: Blocks) {
    forall i :: blocks(i).Valid()
  }

  function Infos(blocks: Blocks, from: nat, n: nat): (r: seq<WriteInfo>)
    ensures |r| == n && forall i :: 0 <= i < n ==> r[i] == blocks(from + i).info
  {
    seq(n, i requires 0 <= i < n => blocks(from + i).info)
  }

  ghost function Writes(blocks: Blocks, from: nat, n: nat): (r: seq<Write>)
    requires AllBlocks(blocks)
    ensures |r| == n && forall i :: 0 <= i < n ==> r[i] == blocks(from + i).AsWrite()
  {
    seq(n, i requires 0 <= i < n => blocks(from + i).AsWrite())
  }

  // The registry of one session.

  /** The registered buffers, and how many buffers the session has given back; buffers are numbered as they were
      begun. */
  datatype Tracking = Tracking(items: seq<Item>, base: nat)

  /** The blocks of the queue's buffer start at this number, if those of the first buffer start at `from`. */
  function StartOf(from: nat, buffers: seq<Buffer>, k: nat): nat
    requires k <= |buffers|
  {
    from + |Ids(buffers[..k])|
  }

  /** Registering along the instant replies to queued buffers: each buffer before its blocks are told. */
  function RegisterFrom(queue: seq<Buffer>, enqueued: nat, k: nat, w: Wire, from: nat, blocks: Blocks,
      version: Option<nat>, t: Tracking): Tracking
    requires k <= |queue|
    decreases |queue| - k
  {
    if k == |queue| then t
    else if queue[k].replied == |queue[k].ids| then RegisterFrom(queue, enqueued, k + 1, w, from, blocks, version, t)
    else if !Repliable(queue[k], w.available) || k + 1 <= enqueued then t
    else
      RegisterFrom(queue[k := Replied(queue[k])], enqueued, k + 1, ReplyBuffer(w, queue[k]), from, blocks, version,
                   Registered(queue, k, from, blocks, version, t))
  }

  /** The buffer is registered, or its writes brought up to date. */
  function Registered(buffers: seq<Buffer>, k: nat, from: nat, blocks: Blocks, version: Option<nat>,
      t: Tracking): Tracking
    requires k < |buffers|
  {
    t.(items := Inserted(t.items, t.base + k, Infos(blocks, StartOf(from, buffers, k), |buffers[k].ids|), version,
        buffers[k].replied == 0))
  }

  function RegisterAll(queue: seq<Buffer>, input: Option<Buffer>, enqueued: nat, w: Wire, from: nat, blocks: Blocks,
      version: Option<nat>, t: Tracking): Tracking {
    var r, t' := ReplyFrom(queue, enqueued, 0, w), RegisterFrom(queue, enqueued, 0, w, from, blocks, version, t);
    if !r.through || input.None? || input.value.updating || !Repliable(input.value, r.wire.available) then t'
    else Registered(r.queue + [input.value], |queue|, from, blocks, version, t')
  }

  function TrackReply(s: Session, fromFlush: bool, blocks: Blocks, version: Option<nat>, t: Tracking): Tracking {
    if !s.MayReplyInstantly(fromFlush) then t
    else RegisterAll(s.queue, s.input, s.enqueued, s.wire, |s.past.written|, blocks, version, t)
  }

  /** The buffers of a finished job leave the registry, if they were in it. */
  function Removed(batch: seq<Buffer>, t: Tracking): Tracking
    decreases |batch|
  {
    if batch == [] then t
    else Removed(batch[1..], Tracking(if batch[0].replied > 0 then Without(t.items, t.base) else t.items, t.base + 1))
  }

  function Track(s: Session, step: Step, blocks: Blocks, version: Option<nat>, t: Tracking): Tracking
    requires CanTake(s, step)
  {
    match step
    case ProcessBlock(id) =>
      TrackReply(s.(input := Some(Landed(s.input.value, id)), past := s.past.(received := s.past.received + [id])),
          false, blocks, version, t)
    case FlushData => if s.batching then TrackReply(s, true, blocks, version, t) else t
    case OpenFinished(status, lock) => if status == OK
        then TrackReply(OpenAnswer(s, status, lock), false, blocks, version, t) else t
    case WriteFinished(statuses) =>
      var t' := Removed(s.queue[..s.enqueued], t);
      if s.SettleBatch(statuses).failed then t' else TrackReply(s.Finish(statuses), false, blocks, version, t')
    case LoopReply => TrackReply(s, false, blocks, version, t)
    case _ => t
  }

  /** The registry holds exactly the buffers with replied blocks, in order, each with the writes replied. */
  ghost predicate Matches(t: Tracking, buffers: seq<Buffer>, from: nat, blocks: Blocks, version: Option<nat>) {
    && |t.items| <= |buffers|
    && (forall i :: 0 <= i < |t.items| ==> MatchesAt(t.items[i], t.base + i, buffers, i, from, blocks, version))
    && (forall i :: |t.items| <= i < |buffers| ==> buffers[i].replied == 0)
  }

  ghost predicate MatchesAt(item: Item, number: nat, buffers: seq<Buffer>, i: nat, from: nat, blocks: Blocks,
      version: Option<nat>)
    requires i < |buffers|
  {
    buffers[i].replied > 0 && item
        == Item(number, Infos(blocks, StartOf(from, buffers, i), buffers[i].replied), version)
  }

  /** Buffers that begin with the same ids and replies have the same items. */
  lemma SameItem(item: Item, number: nat, buffers: seq<Buffer>, buffers': seq<Buffer>, i: nat, from: nat,
      blocks: Blocks, version: Option<nat>)
    requires i < |buffers| && i < |buffers'| && Ids(buffers[..i]) == Ids(buffers'[..i])
        && buffers[i].replied == buffers'[i].replied
    ensures MatchesAt(item, number, buffers, i, from, blocks, version)
        == MatchesAt(item, number, buffers', i, from, blocks, version)
  {
  }

  lemma RepliedIds(buffers: seq<Buffer>, k: nat, i: nat)
    requires k < |buffers| && i <= |buffers|
    ensures Ids(buffers[k := Replied(buffers[k])][..i]) == Ids(buffers[..i])
  {
    MoreRepliedIds(buffers[..i], buffers[k := Replied(buffers[k])][..i]);
  }

  /** One buffer replied, all before it replied whole and none after it replied at all. */
  lemma RegisteredMatches(buffers: seq<Buffer>, k: nat, from: nat, blocks: Blocks, version: Option<nat>, t: Tracking)
    requires Matches(t, buffers, from, blocks, version) && k < |buffers|
        && |t.items| == (if buffers[k].replied == 0 then k else k + 1)
    requires buffers[k].ids != []
    ensures Matches(Registered(buffers, k, from, blocks, version, t), buffers[k := Replied(buffers[k])], from, blocks,
        version)
  {
    hide MatchesAt;
    var t', buffers' := Registered(buffers, k, from, blocks, version, t), buffers[k := Replied(buffers[k])];
    forall i | 0 <= i <= k
      ensures MatchesAt(t'.items[i], t'.base + i, buffers', i, from, blocks, version)
    {
      RepliedIds(buffers, k, i);
      if i < k {
        assert MatchesAt(t.items[i], t.base + i, buffers, i, from, blocks, version);
        NumberOf(t.items[i], t.base + i, buffers, i, from, blocks, version);
        SameItem(t.items[i], t.base + i, buffers, buffers', i, from, blocks, version);
      } else {
        RegisteredItem(buffers, k, from, blocks, version, t);
      }
    }
  }

  lemma NumberOf(item: Item, number: nat, buffers: seq<Buffer>, i: nat, from: nat, blocks: Blocks, version: Option<nat>)
    requires i < |buffers| && MatchesAt(item, number, buffers, i, from, blocks, version)
    ensures item.buffer == number && item.version == version
  {
  }

  lemma RegisteredItem(buffers: seq<Buffer>, k: nat, from: nat, blocks: Blocks, version: Option<nat>, t: Tracking)
    requires Matches(t, buffers, from, blocks, version) && k < |buffers|
        && |t.items| == (if buffers[k].replied == 0 then k else k + 1)
    requires buffers[k].ids != []
    ensures MatchesAt(Registered(buffers, k, from, blocks, version, t).items[k], t.base + k,
        buffers[k := Replied(buffers[k])], k, from, blocks, version)
  {
    RepliedIds(buffers, k, k);
    if buffers[k].replied > 0 {
      assert MatchesAt(t.items[k], t.base + k, buffers, k, from, blocks, version);
    }
  }

  // Instant replies.

  lemma ItemsReach(buffers: seq<Buffer>, k: nat, from: nat, blocks: Blocks, version: Option<nat>, t: Tracking)
    requires Matches(t, buffers, from, blocks, version) && k < |buffers| && RepliedFirst(buffers)
        && AllFull(buffers[..k])
    requires !FullyReplied(buffers[k]) && Sane(buffers) && forall i :: 0 <= i < k ==> buffers[i].ids != []
    ensures |t.items| == if buffers[k].replied == 0 then k else k + 1
  {
    ItemsReplied(buffers, from, blocks, version, t);
    assert forall i :: k < i < |buffers| ==> buffers[i].replied == 0;
    assert buffers[k].replied > 0 <==> k < |t.items|;
    assert |t.items| > 0 ==> buffers[|t.items| - 1].replied > 0;
    forall i | 0 <= i < k
      ensures buffers[i].replied > 0
    {
      assert FullyReplied(buffers[..k][i]);
    }
    assert k > 0 ==> buffers[k - 1].replied > 0;
  }

  lemma ItemsReplied(buffers: seq<Buffer>, from: nat, blocks: Blocks, version: Option<nat>, t: Tracking)
    requires Matches(t, buffers, from, blocks, version)
    ensures forall i :: 0 <= i < |buffers| ==> (buffers[i].replied > 0 <==> i < |t.items|)
  {
    forall i | 0 <= i < |t.items|
      ensures buffers[i].replied > 0
    {
      assert MatchesAt(t.items[i], t.base + i, buffers, i, from, blocks, version);
    }
  }

  lemma {:induction false} RegisterFromMatches(queue: seq<Buffer>, enqueued: nat, k: nat, w: Wire, from: nat,
      blocks: Blocks, version: Option<nat>, t: Tracking)
    requires k <= |queue| && Sane(queue) && RepliedFirst(queue) && AllFull(queue[..k]) && QueueOk(queue)
    requires Matches(t, queue, from, blocks, version)
    ensures var t' := RegisterFrom(queue, enqueued, k, w, from, blocks, version, t);
            t'.base == t.base && Matches(t', ReplyFrom(queue, enqueued, k, w).queue, from, blocks, version)
    decreases |queue| - k
  {
    if k < |queue| {
      hide RepliedFirst, Sane, Matches, Registered, ReplyBuffer;
      if FullyReplied(queue[k]) {
        assert AllFull(queue[..k + 1]);
        RegisterFromMatches(queue, enqueued, k + 1, w, from, blocks, version, t);
      } else if Repliable(queue[k], w.available) && k + 1 > enqueued {
        var queue1, t1 := queue[k := Replied(queue[k])], Registered(queue, k, from, blocks, version, t);
        ReplyOneOrder(queue, k);
        AllComplete(queue);
        ItemsReach(queue, k, from, blocks, version, t);
        RegisteredMatches(queue, k, from, blocks, version, t);
        RegisterFromMatches(queue1, enqueued, k + 1, ReplyBuffer(w, queue[k]), from, blocks, version, t1);
        SameBase(queue, k, from, blocks, version, t);
      }
    }
  }

  lemma AllComplete(queue: seq<Buffer>)
    requires QueueOk(queue)
    ensures forall i :: 0 <= i < |queue| ==> queue[i].ids != []
  {
    forall i | 0 <= i < |queue|
      ensures queue[i].ids != []
    {
      assert Complete(queue[i]);
    }
  }

  lemma SameBase(buffers: seq<Buffer>, k: nat, from: nat, blocks: Blocks, version: Option<nat>, t: Tracking)
    requires k < |buffers|
    ensures Registered(buffers, k, from, blocks, version, t).base == t.base
  {
  }

  lemma {:induction false} NothingToRegister(queue: seq<Buffer>, enqueued: nat, k: nat, w: Wire, from: nat,
      blocks: Blocks, version: Option<nat>, t: Tracking)
    requires k <= |queue| && AllFull(queue)
    ensures RegisterFrom(queue, enqueued, k, w, from, blocks, version, t) == t
    decreases |queue| - k
  {
    if k < |queue| {
      NothingToRegister(queue, enqueued, k + 1, w, from, blocks, version, t);
    }
  }

  /** A last buffer without replied blocks is not in the registry. */
  lemma LastUnreplied(t: Tracking, queue: seq<Buffer>, b: Buffer, from: nat, blocks: Blocks, version: Option<nat>)
    requires b.replied == 0
    ensures Matches(t, queue + [b], from, blocks, version) <==> Matches(t, queue, from, blocks, version)
  {
    hide MatchesAt;
    var all := queue + [b];
    if Matches(t, all, from, blocks, version) {
      if |t.items| == |all| {
        assert MatchesAt(t.items[|queue|], t.base + |queue|, all, |queue|, from, blocks, version);
        RepliedAt(t.items[|queue|], t.base + |queue|, all, |queue|, from, blocks, version);
      }
      assert forall i :: 0 <= i < |queue| ==> all[i] == queue[i];
    }
    forall i | 0 <= i < |t.items| && i < |queue|
      ensures MatchesAt(t.items[i], t.base + i, all, i, from, blocks, version)
          == MatchesAt(t.items[i], t.base + i, queue, i, from, blocks, version)
    {
      assert all[..i] == queue[..i];
      SameItem(t.items[i], t.base + i, all, queue, i, from, blocks, version);
    }
  }

  lemma RepliedAt(item: Item, number: nat, buffers: seq<Buffer>, i: nat, from: nat, blocks: Blocks,
      version: Option<nat>)
    requires i < |buffers| && MatchesAt(item, number, buffers, i, from, blocks, version)
    ensures buffers[i].replied > 0
  {
  }

  lemma RegisterInput(queue: seq<Buffer>, b: Buffer, from: nat, blocks: Blocks, version: Option<nat>, t: Tracking)
    requires Matches(t, queue + [b], from, blocks, version) && AllFull(queue) && Sane(queue + [b])
        && RepliedFirst(queue + [b])
    requires !FullyReplied(b) && b.ids != [] && forall i :: 0 <= i < |queue| ==> queue[i].ids != []
    ensures Matches(Registered(queue + [b], |queue|, from, blocks, version, t), queue + [Replied(b)], from, blocks,
        version)
  {
    hide Matches, RepliedFirst, Sane, Registered;
    var all := queue + [b];
    assert all[..|queue|] == queue && all[|queue|] == b && all[|queue| := Replied(b)] == queue + [Replied(b)];
    ItemsReach(all, |queue|, from, blocks, version, t);
    RegisteredMatches(all, |queue|, from, blocks, version, t);
  }

  lemma RegisterAllMatches(queue: seq<Buffer>, input: Option<Buffer>, enqueued: nat, w: Wire, from: nat,
      blocks: Blocks, version: Option<nat>, t: Tracking)
    requires OrderInv(queue, input) && QueueOk(queue) && InputOk(input)
        && Matches(t, Buffers(queue, input), from, blocks, version)
    ensures var a, t' := Acknowledge(queue, input, enqueued, w),
        RegisterAll(queue, input, enqueued, w, from, blocks, version, t);
            t'.base == t.base && Matches(t', Buffers(a.queue, a.input), from, blocks, version)
  {
    hide Matches, RepliedFirst, Sane, Registered, ReplyFrom, RegisterFrom, ReplyBuffer, QueueOk, AllFull;
    NoBuffers(queue);
    var r, t1 := ReplyFrom(queue, enqueued, 0, w), RegisterFrom(queue, enqueued, 0, w, from, blocks, version, t);
    if input.None? {
      RegisterFromMatches(queue, enqueued, 0, w, from, blocks, version, t);
    } else {
      var b := input.value;
      OrderSplit(queue, b);
      if b.replied == 0 {
        LastUnreplied(t, queue, b, from, blocks, version);
        RegisterFromMatches(queue, enqueued, 0, w, from, blocks, version, t);
        LastUnreplied(t1, r.queue, b, from, blocks, version);
      } else {
        NothingToReply(queue, enqueued, 0, w);
        NothingToRegister(queue, enqueued, 0, w, from, blocks, version, t);
      }
      if r.through && !b.updating && Repliable(b, r.wire.available) {
        ReplyFromKeepsOrder(queue, enqueued, 0, w);
        OrderSplit(r.queue, b);
        SameBase(r.queue + [b], |queue|, from, blocks, version, t1);
        RepliesComplete(queue, r.queue);
        RegisterInput(r.queue, b, from, blocks, version, t1);
      }
    }
  }

  lemma RepliesComplete(queue: seq<Buffer>, queue': seq<Buffer>)
    requires QueueOk(queue) && MoreReplied(queue, queue')
    ensures forall i :: 0 <= i < |queue'| ==> queue'[i].ids != []
  {
    AllComplete(queue);
  }

  // Steps.

  /** The registry goes with the session. */
  ghost predicate Follows(s: Session, t: Tracking, blocks: Blocks, version: Option<nat>) {
    Matches(t, Buffers(s.queue, s.input), |s.past.written|, blocks, version)
  }

  lemma ReplyFollows(s: Session, fromFlush: bool, t: Tracking, blocks: Blocks, version: Option<nat>)
    requires Base(s) && Follows(s, t, blocks, version)
    ensures Follows(s.TryReply(fromFlush), TrackReply(s, fromFlush, blocks, version, t), blocks, version)
  {
    if s.MayReplyInstantly(fromFlush) {
      hide Matches, Acknowledge, RegisterAll, OrderInv, QueueOk, InputOk, FlushInv, PastInv, ReplyInv;
      RegisterAllMatches(s.queue, s.input, s.enqueued, s.wire, |s.past.written|, blocks, version, t);
    }
  }

  /** Neither the buffers change nor how many blocks were written. */
  ghost predicate Still(s: Session, s': Session) {
    Buffers(s'.queue, s'.input) == Buffers(s.queue, s.input) && s'.past.written == s.past.written
  }

  lemma StartIsStill(s: Session)
    ensures Still(s, s.StartNext())
  {
    if !s.CanStart() {
      assert s.StartNext() == s;
    } else {
      assert s.StartNext().queue == s.queue && s.StartNext().input == s.input && s.StartNext().past == s.past;
    }
  }

  lemma FreezeIsStill(s: Session)
    requires s.input.Some?
    ensures Still(s, s.Freeze()) && Still(s, s.WriteInput())
  {
    hide Session.StartNext;
    assert Buffers(s.Freeze().queue, s.Freeze().input) == Buffers(s.queue, s.input);
    StartIsStill(s.Freeze());
  }

  lemma ContinueIsStill(s: Session)
    ensures Still(s.TryReply(false), s.Continue())
  {
    hide Session.TryReply, Session.StartNext, Session.WriteInput;
    var r := s.TryReply(false);
    StartIsStill(r);
    if r.input.Some? {
      FreezeIsStill(r);
    }
  }

  /** The last buffer may change its ids, but not what is replied of it. */
  lemma LastChanges(t: Tracking, queue: seq<Buffer>, b: Buffer, b': Buffer, from: nat, blocks: Blocks,
      version: Option<nat>)
    requires Matches(t, queue + [b], from, blocks, version) && b'.replied == b.replied
    ensures Matches(t, queue + [b'], from, blocks, version)
  {
    hide MatchesAt;
    var all, all' := queue + [b], queue + [b'];
    forall i | 0 <= i < |t.items|
      ensures MatchesAt(t.items[i], t.base + i, all', i, from, blocks, version)
    {
      assert MatchesAt(t.items[i], t.base + i, all, i, from, blocks, version) && all[..i] == all'[..i];
      SameItem(t.items[i], t.base + i, all, all', i, from, blocks, version);
    }
    forall i | |t.items| <= i < |all'|
      ensures all'[i].replied == 0
    {
      assert all[i].replied == 0;
    }
  }

  lemma PrepareFollows(s: Session, t: Tracking, blocks: Blocks, version: Option<nat>)
    requires Follows(s, t, blocks, version)
    ensures Follows(s.Prepare(), t, blocks, version)
  {
    hide Matches, Session.WriteInput;
    var s0 := if s.input.Some? && s.input.value.Full() then s.WriteInput() else s;
    if s.input.Some? {
      FreezeIsStill(s);
    }
    var b := s.Prepare().input.value;
    assert s.Prepare().queue == s0.queue && s.Prepare().past == s0.past;
    if s0.input.Some? {
      LastChanges(t, s0.queue, s0.input.value, b, |s0.past.written|, blocks, version);
    } else {
      LastUnreplied(t, s0.queue, b, |s0.past.written|, blocks, version);
    }
  }

  lemma ProcessFollows(s: Session, id: nat, t: Tracking, blocks: Blocks, version: Option<nat>)
    requires Inv(s) && CanTake(s, ProcessBlock(id)) && Follows(s, t, blocks, version)
    ensures Follows(s.Process(id), Track(s, ProcessBlock(id), blocks, version, t), blocks, version)
  {
    hide Matches, Inv, Session.TryReply, Session.WriteInput, TrackReply;
    var s1 := s.(input := Some(Landed(s.input.value, id)), past := s.past.(received := s.past.received + [id]));
    ReceivedKeeps(s, id);
    BaseHolds(s1);
    LastChanges(t, s.queue, s.input.value, s1.input.value, |s.past.written|, blocks, version);
    ReplyFollows(s1, false, t, blocks, version);
    var r := s1.TryReply(false);
    if r.input.Some? {
      FreezeIsStill(r);
    }
  }

  lemma FlushFollows(s: Session, t: Tracking, blocks: Blocks, version: Option<nat>)
    requires Inv(s) && Follows(s, t, blocks, version)
    ensures Follows(s.Flush(), if s.batching then TrackReply(s, true, blocks, version, t) else t, blocks, version)
  {
    hide Matches, Inv, Session.TryReply, Session.StartNext, TrackReply;
    if s.batching {
      BaseHolds(s);
      ReplyFollows(s, true, t, blocks, version);
      var r := s.TryReply(true);
      if r.input.Some? {
        FreezeIsStill(r);
      }
      var r1 := if r.input.Some? && r.input.value.ids != [] && !r.input.value.updating then r.Freeze() else r;
      StartIsStill(r1.(batches := r1.batches + [r1.ready], ready := 0));
    }
  }

  lemma OpenFollows(s: Session, status: Status, lock: bool, t: Tracking, blocks: Blocks, version: Option<nat>)
    requires Inv(s) && CanTake(s, OpenFinished(status, lock)) && Follows(s, t, blocks, version)
    ensures Follows(s.OpenDone(status, lock), Track(s, OpenFinished(status, lock), blocks, version, t), blocks, version)
  {
    hide Matches, Inv, Session.TryReply, Session.Continue, Session.OpenDone, OpenAnswer, TrackReply, Told;
    OpenJobIs(s);
    OpenDoneIs(s, status, lock);
    OpenAnswerIs(s, status, lock);
    OpenAnswered(s, status, lock);
    if status == OK {
      var s1 := OpenAnswer(s, status, lock);
      BaseHolds(s1);
      ReplyFollows(s1, false, t, blocks, version);
      ContinueIsStill(s1);
    }
  }

  // Buffers given back.

  /** Without the first buffer. */
  lemma RemovedOne(buffers: seq<Buffer>, from: nat, t: Tracking, blocks: Blocks, version: Option<nat>)
    requires buffers != [] && Matches(t, buffers, from, blocks, version)
    ensures var t' := Tracking(if buffers[0].replied > 0 then Without(t.items, t.base) else t.items, t.base + 1);
            Matches(t', buffers[1..], from + |buffers[0].ids|, blocks, version)
  {
    hide MatchesAt, Without, Unique, Infos;
    if t.items != [] {
      ItemsAreUnique(buffers, from, t, blocks, version);
      WithoutKeepsOthers(t.items, t.base, 0);
      assert t.items[..0] + t.items[1..] == t.items[1..];
      LaterItems(buffers, from, t, blocks, version);
    }
  }

  lemma LaterItems(buffers: seq<Buffer>, from: nat, t: Tracking, blocks: Blocks, version: Option<nat>)
    requires t.items != [] && Matches(t, buffers, from, blocks, version)
    ensures Matches(Tracking(t.items[1..], t.base + 1), buffers[1..], from + |buffers[0].ids|, blocks, version)
  {
    hide MatchesAt;
    var t', from' := Tracking(t.items[1..], t.base + 1), from + |buffers[0].ids|;
    forall i | 0 <= i < |t'.items|
      ensures MatchesAt(t'.items[i], t'.base + i, buffers[1..], i, from', blocks, version)
    {
      assert MatchesAt(t.items[i + 1], t.base + (i + 1), buffers, i + 1, from, blocks, version);
      OneFewer(t.items[i + 1], t.base + (i + 1), buffers, i + 1, from, blocks, version);
      assert t.base + (i + 1) == t'.base + i;
    }
  }

  lemma ItemsAreUnique(buffers: seq<Buffer>, from: nat, t: Tracking, blocks: Blocks, version: Option<nat>)
    requires Matches(t, buffers, from, blocks, version) && t.items != []
    ensures Unique(t.items) && t.items[0].buffer == t.base && buffers[0].replied > 0
  {
    forall i | 0 <= i < |t.items|
      ensures t.items[i].buffer == t.base + i
    {
      assert MatchesAt(t.items[i], t.base + i, buffers, i, from, blocks, version);
    }
    assert MatchesAt(t.items[0], t.base, buffers, 0, from, blocks, version);
  }

  lemma OneFewer(item: Item, number: nat, buffers: seq<Buffer>, i: nat, from: nat, blocks: Blocks, version: Option<nat>)
    requires 1 <= i < |buffers| && MatchesAt(item, number, buffers, i, from, blocks, version)
    ensures MatchesAt(item, number, buffers[1..], i - 1, from + |buffers[0].ids|, blocks, version)
  {
    assert buffers[..i][1..] == buffers[1..][..i - 1];
    assert StartOf(from, buffers, i) == StartOf(from + |buffers[0].ids|, buffers[1..], i - 1);
  }

  lemma {:induction false} RemovedMatches(buffers: seq<Buffer>, n: nat, from: nat, t: Tracking, blocks: Blocks,
      version: Option<nat>)
    requires n <= |buffers| && Matches(t, buffers, from, blocks, version)
    ensures Matches(Removed(buffers[..n], t), buffers[n..], from + |Ids(buffers[..n])|, blocks, version)
    decreases n
  {
    hide Matches;
    if n == 0 {
      assert buffers[0..] == buffers && buffers[..0] == [];
    } else {
      var t' := Tracking(if buffers[0].replied > 0 then Without(t.items, t.base) else t.items, t.base + 1);
      RemovedOne(buffers, from, t, blocks, version);
      RemovedMatches(buffers[1..], n - 1, from + |buffers[0].ids|, t', blocks, version);
      assert buffers[..n][1..] == buffers[1..][..n - 1] && buffers[1..][n - 1..] == buffers[n..];
    }
  }

  lemma FinishFollows(s: Session, statuses: seq<Status>, t: Tracking, blocks: Blocks, version: Option<nat>)
    requires CanTake(s, WriteFinished(statuses)) && Follows(s, t, blocks, version)
    ensures Follows(s.Finish(statuses), Removed(s.queue[..s.enqueued], t), blocks, version)
  {
    hide Matches, Session.SettleBatch, LosesReplied, Ids, Removed;
    RestIs(s.queue, s.input, s.enqueued);
    RemovedMatches(Buffers(s.queue, s.input), s.enqueued, |s.past.written|, t, blocks, version);
  }

  lemma WriteFollows(s: Session, statuses: seq<Status>, t: Tracking, blocks: Blocks, version: Option<nat>)
    requires Inv(s) && CanTake(s, WriteFinished(statuses)) && Follows(s, t, blocks, version)
    ensures Follows(s.WriteDone(statuses), Track(s, WriteFinished(statuses), blocks, version, t), blocks, version)
  {
    hide Matches, Inv, Session.SettleBatch, Session.Finish, Session.TryReply, Session.Continue, Ids, TrackReply,
        Removed;
    FinishFollows(s, statuses, t, blocks, version);
    FinishKeeps(s, statuses);
    ReplyFollows(s.Finish(statuses), false, Removed(s.queue[..s.enqueued], t), blocks, version);
    ContinueIsStill(s.Finish(statuses));
  }

  // Closing.

  lemma {:induction false} PrefixMatches(t: Tracking, buffers: seq<Buffer>, left: seq<Buffer>, from: nat,
      blocks: Blocks, version: Option<nat>)
    requires Matches(t, buffers, from, blocks, version) && left <= buffers && NoneReplied(buffers[|left|..])
    ensures Matches(t, left, from, blocks, version)
  {
    hide MatchesAt;
    if |t.items| > |left| {
      assert MatchesAt(t.items[|left|], t.base + |left|, buffers, |left|, from, blocks, version);
      RepliedAt(t.items[|left|], t.base + |left|, buffers, |left|, from, blocks, version);
    }
    forall i | 0 <= i < |t.items|
      ensures MatchesAt(t.items[i], t.base + i, left, i, from, blocks, version)
    {
      assert MatchesAt(t.items[i], t.base + i, buffers, i, from, blocks, version) && left[..i] == buffers[..i];
      SameItem(t.items[i], t.base + i, buffers, left, i, from, blocks, version);
    }
  }

  lemma KeptFollows(s: Session, t: Tracking, blocks: Blocks, version: Option<nat>)
    requires Follows(s, t, blocks, version)
    ensures Matches(t, Kept(s.queue, s.input), |s.past.written|, blocks, version)
  {
    hide Matches;
    if s.input.Some? {
      if s.input.value.replied > 0 {
        LastChanges(t, s.queue, s.input.value, WithoutUnfinished(s.input.value), |s.past.written|, blocks, version);
      } else {
        LastUnreplied(t, s.queue, s.input.value, |s.past.written|, blocks, version);
      }
    }
  }

  lemma CloseFollows(s: Session, t: Tracking, blocks: Blocks, version: Option<nat>)
    requires Inv(s) && !s.closing && Follows(s, t, blocks, version)
    ensures Follows(s.DelayedClose(), t, blocks, version)
  {
    if s.OpenInFlight() {
      assert s.DelayedClose() == s.(closing := true, pending := s.pending + 1, job := s.job.(callback := OnClose));
    } else {
      hide Matches, Inv, Session.DelayedClose, Session.StartNext, Session.DropUnreplied, NoneReplied;
      CloseIs(s);
      KeptFollows(s, t, blocks, version);
      DroppedBuffersWereUnreplied(s);
      DropIs(s);
      var s1 := s.DropUnreplied();
      PrefixMatches(t, Kept(s.queue, s.input), s1.queue, |s.past.written|, blocks, version);
      StartIsStill(s1.(expectsFlush := false));
    }
  }

  lemma DropIs(s: Session)
    ensures s.DropUnreplied().input.None? && s.DropUnreplied().past == s.past
  {
    hide DropBack;
  }

  lemma SealFollows(s: Session)
    ensures Still(s, s.TrySeal().0)
  {
    hide Session.WriteInput;
    if s.input.Some? {
      FreezeIsStill(s);
    }
  }

  lemma CloseFinishedFollows(s: Session, status: Status, lock: bool, statuses: seq<Status>, t: Tracking,
      blocks: Blocks, version: Option<nat>)
    requires Inv(s) && CanTake(s, CloseFinished(status, lock, statuses)) && Follows(s, t, blocks, version)
    ensures Follows(s.CloseCallback(status, lock, statuses), t, blocks, version)
  {
    hide Inv, Matches, Session.CloseCallback;
    ReplacedJobIs(s);
    CloseAnswerIs(s, status, lock, statuses);
  }

  lemma StepFollows(s: Session, step: Step, t: Tracking, blocks: Blocks, version: Option<nat>)
    requires Inv(s) && CanTake(s, step) && Follows(s, t, blocks, version)
    ensures Follows(Apply(s, step), Track(s, step, blocks, version, t), blocks, version)
  {
    hide Inv, Matches, Session.Prepare, Session.Process, Session.Flush, Session.OpenDone, Session.WriteDone,
        Session.TrySeal;
    hide Session.TryReply, Session.DelayedClose, Session.CloseCallback, Told, TrackReply, Removed, OpenAnswer, Ids;
    match step
    case PrepareBlock => PrepareFollows(s, t, blocks, version);
    case ProcessBlock(id) => ProcessFollows(s, id, t, blocks, version);
    case FlushData => FlushFollows(s, t, blocks, version);
    case OpenFinished(status, lock) => OpenFollows(s, status, lock, t, blocks, version);
    case WriteFinished(statuses) => WriteFollows(s, statuses, t, blocks, version);
    case Seal => SealFollows(s);
    case LoopReply => BaseHolds(s); ReplyFollows(s, false, t, blocks, version);
    case Close => CloseFollows(s, t, blocks, version);
    case CloseFinished(status, lock, statuses) => CloseFinishedFollows(s, status, lock, statuses, t, blocks, version);
    case ChangeCredits(_) =>
    case ChainStatus(_, _) =>
    case LeaveWriting(_) =>
  }

  /** The registry's items for the session at a state of its run. */
  ghost function TrackedAt(run: seq<Session>, steps: seq<Step>, blocks: Blocks, version: Option<nat>, i: nat): Tracking
    requires IsRun(run, steps) && i < |run|
  {
    if i == 0 then Tracking([], 0)
    else
      assert CanTake(run[i - 1], steps[i - 1]);
      Track(run[i - 1], steps[i - 1], blocks, version, TrackedAt(run, steps, blocks, version, i - 1))
  }

  /** In every reachable state the registry holds exactly the session's buffers with replied blocks, in the order of
      their blocks, each with the writes that were replied. */
  lemma {:induction false} RegistryHoldsReplied(run: seq<Session>, steps: seq<Step>, blocks: Blocks,
      version: Option<nat>, i: nat)
    requires IsRun(run, steps) && i < |run|
    ensures Follows(run[i], TrackedAt(run, steps, blocks, version, i), blocks, version)
  {
    if i > 0 {
      hide Inv, Apply, CanTake, Follows, Track;
      RegistryHoldsReplied(run, steps, blocks, version, i - 1);
      InvHolds(run, steps, i - 1);
      assert CanTake(run[i - 1], steps[i - 1]) && run[i - 1 + 1] == Apply(run[i - 1], steps[i - 1]);
      StepFollows(run[i - 1], steps[i - 1], TrackedAt(run, steps, blocks, version, i - 1), blocks, version);
    }
  }

  // Reads.

  /** The memory of blocks next to each other. */
  ghost function Memory(blocks: Blocks, from: nat, n: nat): (r: seq<byte>)
    requires AllBlocks(blocks)
    ensures |r| == n * BLOCK
    decreases n
  {
    if n == 0 then [] else Memory(blocks, from, n - 1) + blocks(from + n - 1).data
  }

  lemma {:induction false} MemoryAt(blocks: Blocks, from: nat, n: nat, i: nat)
    requires AllBlocks(blocks) && i < n
    ensures Memory(blocks, from, n)[i * BLOCK..(i + 1) * BLOCK] == blocks(from + i).data
    decreases n
  {
    if i < n - 1 {
      MemoryAt(blocks, from, n - 1, i);
      InputBuffers.Within(Memory(blocks, from, n - 1), blocks(from + n - 1).data, i);
    }
  }

  /** A registered buffer as a read finds it. */
  ghost function View(t: Tracking, buffers: seq<Buffer>, from: nat, blocks: Blocks, i: nat): ReadOverlay.RepliedBuffer
    requires AllBlocks(blocks) && i < |t.items| && i < |buffers|
  {
    ReadOverlay.RepliedBuffer(t.items[i].infos, Memory(blocks, StartOf(from, buffers, i), |t.items[i].infos|),
        buffers[i].replied, t.items[i].version)
  }

  ghost function Views(t: Tracking, buffers: seq<Buffer>, from: nat, blocks: Blocks,
      n: nat): (r: seq<ReadOverlay.RepliedBuffer>)
    requires AllBlocks(blocks) && n <= |t.items| && n <= |buffers|
    ensures |r| == n && forall i :: 0 <= i < n ==> r[i] == View(t, buffers, from, blocks, i)
  {
    seq(n, i requires 0 <= i < n => View(t, buffers, from, blocks, i))
  }

  lemma ViewIsSound(t: Tracking, buffers: seq<Buffer>, from: nat, blocks: Blocks, version: Option<nat>, i: nat)
    requires AllBlocks(blocks) && Matches(t, buffers, from, blocks, version) && i < |t.items|
    ensures var v := View(t, buffers, from, blocks, i);
            && v.Valid() && |v.infos| == v.replied == buffers[i].replied && v.version == version
            && v.infos == Infos(blocks, StartOf(from, buffers, i), v.replied)
                && v.memory == Memory(blocks, StartOf(from, buffers, i), v.replied)
  {
    assert MatchesAt(t.items[i], t.base + i, buffers, i, from, blocks, version);
  }

  lemma {:induction false} ViewWrites(v: ReadOverlay.RepliedBuffer, blocks: Blocks, start: nat, n: nat)
    requires AllBlocks(blocks) && v.Valid() && n <= |v.infos| && v.infos == Infos(blocks, start, |v.infos|)
        && v.memory == Memory(blocks, start, |v.infos|)
    ensures ReadOverlay.FirstWrites(v, n) == Writes(blocks, start, n)
    decreases n
  {
    if n > 0 {
      hide Memory, Infos, ReadOverlay.WriteOf, ReadOverlay.RepliedBuffer.Valid;
      ViewWrites(v, blocks, start, n - 1);
      ViewWriteAt(v, blocks, start, n - 1);
      assert Writes(blocks, start, n) == Writes(blocks, start, n - 1) + [blocks(start + n - 1).AsWrite()];
    }
  }

  lemma ViewWriteAt(v: ReadOverlay.RepliedBuffer, blocks: Blocks, start: nat, i: nat)
    requires AllBlocks(blocks) && v.Valid() && i < |v.infos| && v.infos == Infos(blocks, start, |v.infos|)
        && v.memory == Memory(blocks, start, |v.infos|)
    ensures ReadOverlay.WriteOf(v, i) == blocks(start + i).AsWrite()
  {
    hide Memory;
    assert blocks(start + i).Valid();
    MemoryAt(blocks, start, |v.infos|, i);
    SlotPrefix(v.memory, i, v.infos[i].size);
  }

  /** The served writes are the replied blocks in the order received. */
  lemma {:induction false} ViewsServe(t: Tracking, buffers: seq<Buffer>, from: nat, blocks: Blocks,
      version: Option<nat>, n: nat, partVersion: nat)
    requires AllBlocks(blocks) && Matches(t, buffers, from, blocks, version) && n <= |t.items| && RepliedFirst(buffers)
    requires version.None? || version.value == partVersion
    ensures ReadOverlay.AllSound(Views(t, buffers, from, blocks, n))
    ensures ReadOverlay.ServedWrites(Views(t, buffers, from, blocks, n), partVersion)
        == Writes(blocks, from, RepliedIn(buffers[..n]))
    decreases n
  {
    hide Matches, View, RepliedFirst, Memory, Infos, AllBlocks, RepliedIn, Ids;
    hide ReadOverlay.RepliedBuffer.Valid, ReadOverlay.FirstWrites;
    MatchesLength(t, buffers, from, blocks, version);
    var views := Views(t, buffers, from, blocks, n);
    ViewsAreSound(t, buffers, from, blocks, version, n);
    if n > 0 {
      var v := views[n - 1];
      ViewsServe(t, buffers, from, blocks, version, n - 1, partVersion);
      ViewIsSound(t, buffers, from, blocks, version, n - 1);
      ViewWrites(v, blocks, StartOf(from, buffers, n - 1), v.replied);
      FullBefore(t, buffers, from, blocks, version, n - 1);
      assert views[..n - 1] == Views(t, buffers, from, blocks, n - 1);
      RepliedSplit(buffers, n);
      WritesJoin(blocks, from, RepliedIn(buffers[..n - 1]), v.replied);
      ServedLast(views, partVersion);
    } else {
      NoneReplies(buffers);
      assert views == [] && Writes(blocks, from, 0) == [];
    }
  }

  lemma NoneReplies(buffers: seq<Buffer>)
    ensures RepliedIn(buffers[..0]) == 0
  {
  }

  lemma ServedLast(views: seq<ReadOverlay.RepliedBuffer>, partVersion: nat)
    requires ReadOverlay.AllSound(views) && views != [] && views[|views| - 1].ServedAt(partVersion)
    ensures var n := |views| - 1;
            && ReadOverlay.AllSound(views[..n]) && views[n].Valid()
            && ReadOverlay.ServedWrites(views, partVersion)
               == ReadOverlay.ServedWrites(views[..n], partVersion)
                   + ReadOverlay.FirstWrites(views[n], views[n].replied)
  {
  }

  lemma ViewsAreSound(t: Tracking, buffers: seq<Buffer>, from: nat, blocks: Blocks, version: Option<nat>, n: nat)
    requires AllBlocks(blocks) && Matches(t, buffers, from, blocks, version) && n <= |t.items|
    ensures ReadOverlay.AllSound(Views(t, buffers, from, blocks, n))
  {
    hide Matches, View;
    MatchesLength(t, buffers, from, blocks, version);
    forall i | 0 <= i < n
      ensures Views(t, buffers, from, blocks, n)[i].Valid()
    {
      ViewIsSound(t, buffers, from, blocks, version, i);
    }
  }

  lemma MatchesLength(t: Tracking, buffers: seq<Buffer>, from: nat, blocks: Blocks, version: Option<nat>)
    requires Matches(t, buffers, from, blocks, version)
    ensures |t.items| <= |buffers|
  {
  }

  lemma FullBefore(t: Tracking, buffers: seq<Buffer>, from: nat, blocks: Blocks, version: Option<nat>, k: nat)
    requires Matches(t, buffers, from, blocks, version) && RepliedFirst(buffers) && k < |t.items|
    ensures |Ids(buffers[..k])| == RepliedIn(buffers[..k])
  {
    ItemsReplied(buffers, from, blocks, version, t);
    assert buffers[k].replied > 0;
    forall i | 0 <= i < k
      ensures FullyReplied(buffers[..k][i])
    {
      assert FullyReplied(buffers[i]);
    }
    FullCounts(buffers[..k]);
  }

  lemma RepliedSplit(buffers: seq<Buffer>, n: nat)
    requires 0 < n <= |buffers|
    ensures RepliedIn(buffers[..n]) == RepliedIn(buffers[..n - 1]) + buffers[n - 1].replied
  {
    assert buffers[..n] == buffers[..n - 1] + [buffers[n - 1]];
    IdsAppend(buffers[..n - 1], [buffers[n - 1]]);
  }

  lemma WritesJoin(blocks: Blocks, from: nat, a: nat, b: nat)
    requires AllBlocks(blocks)
    ensures Writes(blocks, from, a) + Writes(blocks, from + a, b) == Writes(blocks, from, a + b)
  {
  }

  /** In every reachable state what a read at a served version patches in is sound, and is exactly the acknowledged
      blocks whose write jobs have not finished, in the order received. */
  lemma ReadsServeTheAcknowledged(run: seq<Session>, steps: seq<Step>, blocks: Blocks, version: Option<nat>, i: nat,
      partVersion: nat)
    requires IsRun(run, steps) && i < |run| && AllBlocks(blocks) && (version.None? || version.value == partVersion)
    ensures var t, buffers, from := TrackedAt(run, steps, blocks, version, i), Buffers(run[i].queue, run[i].input),
        |run[i].past.written|;
            && |t.items| <= |buffers| && ReadOverlay.AllSound(Views(t, buffers, from, blocks, |t.items|))
            && ReadOverlay.ServedWrites(Views(t, buffers, from, blocks, |t.items|), partVersion)
                == Writes(blocks, from, RepliedIn(buffers))
  {
    hide Inv, Apply, CanTake, Matches, TrackedAt;
    var t, buffers, from := TrackedAt(run, steps, blocks, version, i), Buffers(run[i].queue, run[i].input),
        |run[i].past.written|;
    RegistryHoldsReplied(run, steps, blocks, version, i);
    RepliedBlocksComeFirst(run, steps, i);
    MatchesLength(t, buffers, from, blocks, version);
    ViewsServe(t, buffers, from, blocks, version, |t.items|, partVersion);
    RestUnreplied(t, buffers, from, blocks, version);
  }

  lemma RestUnreplied(t: Tracking, buffers: seq<Buffer>, from: nat, blocks: Blocks, version: Option<nat>)
    requires Matches(t, buffers, from, blocks, version)
    ensures RepliedIn(buffers[..|t.items|]) == RepliedIn(buffers)
  {
    var n := |t.items|;
    assert buffers == buffers[..n] + buffers[n..];
    IdsAppend(buffers[..n], buffers[n..]);
    NoneCounts(buffers[n..]);
  }

  /** What the disk may hold at a position: the blocks whose jobs finished over what was there before, except under a
      block of the job in flight, where it may hold anything. */
  ghost predicate DiskKeepsUp(s: Session, blocks: Blocks, position: nat, original: byte, onDisk: byte)
    requires AllBlocks(blocks) && s.enqueued <= |s.queue|
  {
    (forall j :: |s.past.written| <= j < |s.past.written| + |Ids(s.queue[..s.enqueued])| ==>
        !blocks(j).AsWrite().Covers(position)) ==>
      onDisk == Newest(Writes(blocks, 0, |s.past.written|), position, original)
  }

  /** What a read returns at a position: the patches of the registry over the disk. */
  ghost function SeenAt(s: Session, t: Tracking, blocks: Blocks, partVersion: nat, position: nat, onDisk: byte): byte
    requires AllBlocks(blocks) && |t.items| <= |Buffers(s.queue, s.input)|
    requires ReadOverlay.AllSound(Views(t, Buffers(s.queue, s.input), |s.past.written|, blocks, |t.items|))
  {
    Newest(ReadOverlay.ServedWrites(Views(t, Buffers(s.queue, s.input), |s.past.written|, blocks, |t.items|),
        partVersion), position, onDisk)
  }

  /** A read at another version than the session's is patched with nothing of the session. */
  lemma OtherVersionsSeeTheDisk(run: seq<Session>, steps: seq<Step>, blocks: Blocks, version: nat, i: nat,
      partVersion: nat, position: nat, onDisk: byte)
    requires IsRun(run, steps) && i < |run| && AllBlocks(blocks) && version != partVersion
    ensures var t := TrackedAt(run, steps, blocks, Some(version), i);
            && |t.items| <= |Buffers(run[i].queue, run[i].input)|
            && ReadOverlay.AllSound(
                 Views(t, Buffers(run[i].queue, run[i].input), |run[i].past.written|, blocks, |t.items|))
            && SeenAt(run[i], t, blocks, partVersion, position, onDisk) == onDisk
  {
    hide Inv, Apply, CanTake, TrackedAt, Matches, View, RepliedIn;
    var t, buffers, from := TrackedAt(run, steps, blocks, Some(version), i), Buffers(run[i].queue, run[i].input),
        |run[i].past.written|;
    RegistryHoldsReplied(run, steps, blocks, Some(version), i);
    MatchesLength(t, buffers, from, blocks, Some(version));
    ViewsAreSound(t, buffers, from, blocks, Some(version), |t.items|);
    var views := Views(t, buffers, from, blocks, |t.items|);
    forall k | 0 <= k < |views|
      ensures views[k].version == Some(version)
    {
      ViewIsSound(t, buffers, from, blocks, Some(version), k);
    }
    ReadOverlay.OtherVersionsServeNothing(views, partVersion);
  }

  /** A read sees exactly the acknowledged blocks: with all finished jobs on the disk and the job in flight at any
      point, at every position that no block reaches which is in the job and not acknowledged, the read returns what
      the first blocks received leave there, and those are all that were acknowledged. */
  lemma ReadSeesExactlyTheAcknowledged(run: seq<Session>, steps: seq<Step>, blocks: Blocks, version: Option<nat>,
      i: nat, partVersion: nat,
                                       position: nat, original: byte, onDisk: byte)
    requires IsRun(run, steps) && i < |run| && AllBlocks(blocks) && (version.None? || version.value == partVersion)
    requires run[i].enqueued <= |run[i].queue| && DiskKeepsUp(run[i], blocks, position, original, onDisk)
    requires var n := |run[i].past.written| + RepliedIn(Buffers(run[i].queue, run[i].input));
             forall j :: n <= j < |run[i].past.written| + |Ids(run[i].queue[..run[i].enqueued])| ==>
                 !blocks(j).AsWrite().Covers(position)
    ensures var t, n := TrackedAt(run, steps, blocks, version, i),
        |run[i].past.written| + RepliedIn(Buffers(run[i].queue, run[i].input));
            && |t.items| <= |Buffers(run[i].queue, run[i].input)|
            && ReadOverlay.AllSound(Views(t, Buffers(run[i].queue, run[i].input), |run[i].past.written|, blocks,
                |t.items|))
            && SeenAt(run[i], t, blocks, partVersion, position, onDisk)
                == Newest(Writes(blocks, 0, n), position, original)
            && (run[i].wire.state == WriteLast && !run[i].past.failed && run[i].past.openAnswered && !run[i].closing ==>
                  n <= |run[i].past.received| && run[i].wire.replies == Answers(run[i].past.received, n))
  {
    hide Inv, Apply, CanTake, TrackedAt, Newest, Ids, RepliedIn;
    var s := run[i];
    ReadsServeTheAcknowledged(run, steps, blocks, version, i, partVersion);
    InvHolds(run, steps, i);
    AnsweredNow(s);
    PatchedOver(blocks, |s.past.written|, RepliedIn(Buffers(s.queue, s.input)), |Ids(s.queue[..s.enqueued])|, position,
        original, onDisk);
  }

  /** The held writes over a disk that has the finished ones, and under the job's blocks anything. */
  lemma PatchedOver(blocks: Blocks, w: nat, r: nat, inJob: nat, position: nat, original: byte, onDisk: byte)
    requires AllBlocks(blocks) && forall j :: w + r <= j < w + inJob ==> !blocks(j).AsWrite().Covers(position)
    requires (forall j :: w <= j < w + inJob ==> !blocks(j).AsWrite().Covers(position)) ==>
               onDisk == Newest(Writes(blocks, 0, w), position, original)
    ensures Newest(Writes(blocks, w, r), position, onDisk) == Newest(Writes(blocks, 0, w + r), position, original)
  {
    hide Newest;
    var done, held := Writes(blocks, 0, w), Writes(blocks, w, r);
    WritesJoin(blocks, 0, w, r);
    RemovalIsUnseen(done, held, position, original);
    if forall j :: 0 <= j < |held| ==> !held[j].Covers(position) {
      forall j | w <= j < w + inJob
        ensures !blocks(j).AsWrite().Covers(position)
      {
        if j < w + r {
          assert held[j - w] == blocks(j).AsWrite();
        }
      }
    }
    DiskUnderWritesIsUnseen(held, position, onDisk, Newest(done, position, original));
  }

  lemma AnsweredNow(s: Session)
    requires Inv(s)
    ensures s.wire.state == WriteLast && !s.past.failed && s.past.openAnswered && !s.closing ==>
              var n := |s.past.written| + RepliedIn(Buffers(s.queue, s.input));
              n <= |s.past.received| && s.wire.replies == Answers(s.past.received, n)
  {
  }
}
