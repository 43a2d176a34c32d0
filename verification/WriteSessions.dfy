/** Write sessions: data arrives block by block into an input buffer, full buffers queue up for write
    jobs, and blocks may be acknowledged to the client before a job has written them. `Session` is that
    memory as a value, with one function per method of the write operation; `WriteSession` is the
    object whose methods run the loops. */
module WriteSessions {
  import opened Common

  /** The state of the client connection, as far as replies depend on it. */
  datatype ConnectionState = WriteLast | WriteForward | IOFinish

  datatype Reply = Reply(status: Status, writeId: nat)

  /** An input buffer: the write ids of its blocks, how many of them were replied, and whether the last
      block is still being received; its id is 0 until then. */
  datatype Buffer = Buffer(ids: seq<nat>, replied: nat, capacity: nat, updating: bool) {
    predicate Full() {
      |ids| >= capacity
    }
  }

  /** What the session shares with its connection and with the whole server. */
  datatype Wire = Wire(state: ConnectionState, replies: seq<Reply>, partial: set<nat>, available: int)

  /** History, read by no operation: ids received, ids whose write job finished, whether an acknowledged block failed in
      one, whether an error was told to the client, whether the open job has answered, and whether an acknowledged block
      failed in a write job whose statuses the session never looked at. */
  datatype Past = Past(
    received: seq<nat>, written: seq<nat>, lost: bool, failed: bool, openAnswered: bool, unread: bool)
  {
    /** An acknowledged block got an error from its write job. */
    predicate BlockLost() {
      lost || unread
    }
  }

  /** What the job pool will call when the job in flight has its status; `Called` once the close's callback was
      called and the session still names the job. */
  datatype Callback = OnOpen | OnWrite | OnClose | Called

  /** The job in flight, with the write id the session keeps for it: 0 for the open job, and for a write job the last
      id of its first buffer. */
  datatype Job = Idle | InFlight(writeId: nat, callback: Callback)

  datatype Session = Session(
    batching: bool,               // the variant that expects write flushes
    standard: bool,               // the standard chunk type
    maxBlocks: nat,
    queue: seq<Buffer>,           // writeDataBuffers_
    input: Option<Buffer>,        // inputBuffer_
    nextCount: nat,
    job: Job,                     // writeJobId_ and writeJobWriteId_
    enqueued: nat,
    expectsFlush: bool,
    batches: seq<nat>,            // inputBuffersForNextFlush_
    ready: nat,                   // inputBuffersReadySinceLastFlush_
    open: bool,
    locked: bool,
    joined: bool,                 // an open that checks the version is settling the lock
    sealed: bool,
    closing: bool,                // inDelayedClose_
    untold: Status,
    pending: int,                 // what the session added to pendingWriteJobs and did not take back
    wire: Wire,
    past: Past)
  {
    /** The session's own test for its open job: a write job passes it too if the id kept for it is 0. */
    predicate OpenInFlight() {
      job.InFlight? && job.writeId == 0
    }

    predicate Writing() {
      job.InFlight? && job.callback == OnWrite
    }

    /** Whether a write job may start now. */
    predicate CanStart() {
      queue != [] && job.Idle? && (expectsFlush ==> batches != [])
    }

    predicate ShouldWriteInput() {
      input.Some? && !input.value.updating && (input.value.Full() || (!expectsFlush && job.Idle?))
    }

    predicate MayReplyInstantly(fromFlush: bool) {
      !sealed && !closing && !OpenInFlight() && locked && !standard && (expectsFlush ==> fromFlush)
    }

    function Freeze(): Session
      requires input.Some?
    {
      this.(queue := queue + [input.value], input := None, ready := if expectsFlush then ready + 1 else ready)
    }

    /** The first queued buffer, or the first released batch of them, goes to a write job. */
    function StartNext(): Session {
      if !CanStart() then this
      else if expectsFlush then
        this.(job := InFlight(LastId(queue[0]), OnWrite), enqueued := Min(batches[0], |queue|), batches := batches[1..])
      else this.(job := InFlight(LastId(queue[0]), OnWrite), enqueued := 1)
    }

    function WriteInput(): Session
      requires input.Some?
    {
      Freeze().StartNext()
    }

    function Continue(): Session {
      var replied := TryReply(false);
      if replied.CanStart() then replied.StartNext()
      else if replied.ShouldWriteInput() then replied.WriteInput()
      else replied
    }

    /** Blocks not in a write job are acknowledged, in order and whole buffers at a time, while credits last. */
    function TryReply(fromFlush: bool): Session {
      if !MayReplyInstantly(fromFlush) then this
      else
        var Acknowledged(queue', input', wire') := Acknowledge(queue, input, enqueued, wire);
        this.(queue := queue', input := input', wire := wire')
    }

    // The steps.

    function Prepare(): Session {
      var s := if input.Some? && input.value.Full() then WriteInput() else this;
      var s1 := if s.input.None? then s.(input := Some(Buffer([], 0, s.nextCount, false)),
          nextCount := Min(2 * s.nextCount, maxBlocks)) else s;
      s1.(input := Some(s1.input.value.(ids := s1.input.value.ids + [0], updating := true)))
    }

    function Process(writeId: nat): Session
      requires input.Some? && input.value.ids != []
    {
      var s := this.(input := Some(Landed(input.value, writeId)),
          past := past.(received := past.received + [writeId])).TryReply(false);
      if s.ShouldWriteInput() then s.WriteInput() else s
    }

    function Flush(): Session {
      if !batching then this
      else
        var s := TryReply(true);
        var s1 := if s.input.Some? && s.input.value.ids != [] && !s.input.value.updating then s.Freeze() else s;
        if s1.ready > 0 then
          s1.(batches := s1.batches + [s1.ready], ready := 0).StartNext()
        else s1
    }

    /** The open job finished; `lock` tells whether it joined a lock, when it checked the version. */
    function OpenDone(status: Status, lock: bool): Session
      requires job.InFlight?
    {
      var s := Adopt(lock).(job := Idle, wire := Told(wire, status, job.writeId), past := past.(openAnswered := true));
      if status != OK then s.(past := s.past.(failed := true)) else s.(open := true).Continue()
    }

    function Adopt(lock: bool): Session {
      if joined then this.(locked := lock, joined := false) else this
    }

    function SettleBatch(statuses: seq<Status>): Settling
      requires enqueued <= |queue| && |statuses| == |Ids(queue[..enqueued])|
    {
      var batch := queue[..enqueued];
      Settle(statuses, Ids(batch), RepliedIn(batch), closing, wire.(available := wire.available + RepliedIn(batch)),
          untold)
    }

    /** The buffers of the job are given back, with the credits of their replied blocks, and the statuses told. */
    function Finish(statuses: seq<Status>): Session
      requires enqueued <= |queue| && |statuses| == |Ids(queue[..enqueued])|
    {
      var Settling(wire', untold', failed) := SettleBatch(statuses);
      this.(job := Idle, queue := queue[enqueued..], enqueued := 0, wire := wire', untold := untold',
            past := past.(written := past.written + Ids(queue[..enqueued]), lost := past.lost
                || LosesReplied(queue[..enqueued], statuses),
                          failed := past.failed || failed))
    }

    /** The write job finished with one status per block of the enqueued buffers. */
    function WriteDone(statuses: seq<Status>): Session
      requires enqueued <= |queue| && |statuses| == |Ids(queue[..enqueued])|
    {
      if SettleBatch(statuses).failed then Finish(statuses)
      else
        var s := Finish(statuses).Continue();
        if closing then s.(pending := s.pending - 1) else s
    }

    function TrySeal(): (Session, bool) {
      if joined then (this, false)
      else if input.Some? then
        if input.value.updating || |input.value.ids| > input.value.replied || !AllReplied(queue) then (this, false)
        else WriteInput().Sealed()
      else if !AllReplied(queue) then (this, false)
      else Sealed()
    }

    function Sealed(): (Session, bool) {
      (this.(sealed := wire.partial == {}), wire.partial == {})
    }

    predicate Completed() {
      queue == [] && sealed
    }

    function DelayedClose(): Session {
      if OpenInFlight() then this.(closing := true, pending := pending + 1, job := job.(callback := OnClose))
      else
        var s := DropUnreplied();
        var s1 := s.(expectsFlush := false);
        var s2 := if s1.job.Idle? && s1.queue != [] then s1.StartNext() else s1;
        if s2.queue != [] then s2.(pending := s2.pending + |s2.queue| - s2.enqueued + 1) else s2
    }

    /** The input buffer joins the queue if a block of it was replied; buffers at the back that no job has
        and that hold no replied block are dropped. */
    function DropUnreplied(): Session {
      var queue1 := if input.Some? && input.value.replied > 0 then queue + [WithoutUnfinished(input.value)] else queue;
      this.(closing := true, input := None, queue := DropBack(queue1, enqueued))
    }

    /** The callback a close put in place of that of the job in flight. `statuses` are those the job left in the
        enqueued buffers, if it was a write job and had been claimed; the callback does not look at them. */
    function CloseCallback(status: Status, lock: bool, statuses: seq<Status>): Session
      requires LeftStatuses(statuses)
    {
      OpenedClosing(status, lock).(pending := pending - 1, past := AfterClose(statuses))
    }

    /** That callback takes the job for the open one just as the close did. */
    function OpenedClosing(status: Status, lock: bool): Session {
      var s := if OpenInFlight() then Adopt(lock) else this;
      if OpenInFlight() && status == OK then s.(open := true, job := Idle) else s.(job := Answered(job))
    }

    function AfterClose(statuses: seq<Status>): Past
      requires LeftStatuses(statuses)
    {
      past.(openAnswered := true,
            unread := past.unread || (statuses != [] && LosesReplied(queue[..enqueued], statuses)))
    }

    /** One status for every block of the enqueued buffers, or none at all. */
    predicate LeftStatuses(statuses: seq<Status>) {
      statuses == [] || (0 < enqueued <= |queue| && |statuses| == |Ids(queue[..enqueued])|)
    }

    /** The status that ends the session's lock, if it has one; a chunk that is open is closed first. */
    function EndStatus(closeStatus: Status): Option<Status> {
      if !locked then None
      else if open && untold == OK && closeStatus != OK then Some(closeStatus)
      else Some(untold)
    }
  }

  /** The job after its callback. */
  function Answered(job: Job): Job {
    if job.Idle? then job else job.(callback := Called)
  }

  function LastId(b: Buffer): nat {
    if b.ids == [] then 0 else b.ids[|b.ids| - 1]
  }

  /** The write ids of the buffers, in order. */
  function Ids(buffers: seq<Buffer>): seq<nat> {
    if buffers == [] then [] else buffers[0].ids + Ids(buffers[1..])
  }

  function RepliedIn(buffers: seq<Buffer>): nat {
    if buffers == [] then 0 else buffers[0].replied + RepliedIn(buffers[1..])
  }

  predicate AllReplied(buffers: seq<Buffer>) {
    forall i :: 0 <= i < |buffers| ==> |buffers[i].ids| <= buffers[i].replied
  }

  /** updateUsingWriteStatusAndReply. */
  function Told(w: Wire, status: Status, writeId: nat): Wire {
    if status != OK then w.(replies := w.replies + [Reply(status, writeId)], state := IOFinish)
    else if w.state == WriteLast then w.(replies := w.replies + [Reply(OK, writeId)])
    else if writeId in w.partial then w.(replies := w.replies + [Reply(OK, writeId)], partial := w.partial - {writeId})
    else w.(partial := w.partial + {writeId})
  }

  function ToldAll(w: Wire, ids: seq<nat>): Wire
    decreases |ids|
  {
    if ids == [] then w else ToldAll(Told(w, OK, ids[0]), ids[1..])
  }

  function Replied(b: Buffer): Buffer {
    b.(replied := |b.ids|)
  }

  predicate Repliable(b: Buffer, available: int) {
    b.replied != |b.ids| && available + b.replied >= |b.ids|
  }

  /** The blocks of the buffer not replied yet are, each against one credit. */
  function ReplyBuffer(w: Wire, b: Buffer): Wire {
    ToldAll(w.(available := w.available - (|b.ids| - b.replied)), if b.replied <= |b.ids| then b.ids[b.replied..]
        else [])
  }

  /** `through` tells that no buffer stopped the replies. */
  datatype Replying = Replying(queue: seq<Buffer>, wire: Wire, through: bool)

  function ReplyFrom(queue: seq<Buffer>, enqueued: nat, k: nat, w: Wire): (r: Replying)
    requires k <= |queue|
    ensures |r.queue| == |queue|
    decreases |queue| - k
  {
    if k == |queue| then Replying(queue, w, true)
    else if queue[k].replied == |queue[k].ids| then ReplyFrom(queue, enqueued, k + 1, w)
    else if !Repliable(queue[k], w.available) || k + 1 <= enqueued then Replying(queue, w, false)
    else ReplyFrom(queue[k := Replied(queue[k])], enqueued, k + 1, ReplyBuffer(w, queue[k]))
  }

  datatype Acknowledged = Acknowledged(queue: seq<Buffer>, input: Option<Buffer>, wire: Wire)

  /** Instant replies for the queued buffers and, if none of them stopped the replies, for the input buffer. */
  function Acknowledge(queue: seq<Buffer>, input: Option<Buffer>, enqueued: nat, w: Wire): Acknowledged {
    var Replying(queue', w', through) := ReplyFrom(queue, enqueued, 0, w);
    if !through || input.None? || input.value.updating || !Repliable(input.value, w'.available)
        then Acknowledged(queue', input, w')
    else Acknowledged(queue', Some(Replied(input.value)), ReplyBuffer(w', input.value))
  }

  datatype Settling = Settling(wire: Wire, untold: Status, failed: bool)

  /** The statuses of a write job are told one by one; those of the first `already` blocks were replied before,
      and a first error among them is kept for the lock's end. */
  function Settle(statuses: seq<Status>, ids: seq<nat>, already: nat, closing: bool, w: Wire, untold: Status): Settling
    requires |statuses| == |ids|
  {
    if ids == [] then Settling(w, untold, false)
    else if already > 0 then
      Settle(statuses[1..], ids[1..], already - 1, closing, w, if untold == OK then statuses[0] else untold)
    else if closing then Settle(statuses[1..], ids[1..], 0, closing, w, untold)
    else if statuses[0] != OK then Settling(Told(w, statuses[0], ids[0]), untold, true)
    else Settle(statuses[1..], ids[1..], 0, closing, Told(w, OK, ids[0]), untold)
  }

  /** A block of the batch was replied before the job gave it a status other than OK. */
  predicate LosesReplied(batch: seq<Buffer>, statuses: seq<Status>)
    requires |statuses| == |Ids(batch)|
  {
    batch != [] &&
    (|| (exists i :: 0 <= i < |batch[0].ids| && i < batch[0].replied && statuses[i] != OK)
     || LosesReplied(batch[1..], statuses[|batch[0].ids|..]))
  }

  /** The last block of the buffer is received. */
  function Landed(b: Buffer, writeId: nat): Buffer
    requires b.ids != []
  {
    b.(ids := b.ids[..|b.ids| - 1] + [writeId], updating := false)
  }

  function WithoutUnfinished(b: Buffer): Buffer {
    if b.updating && b.ids != [] then b.(ids := b.ids[..|b.ids| - 1], updating := false) else b
  }

  function DropBack(queue: seq<Buffer>, keep: nat): (r: seq<Buffer>)
    ensures r <= queue
  {
    if |queue| > keep && queue[|queue| - 1].replied == 0 then DropBack(queue[..|queue| - 1], keep) else queue
  }
}
