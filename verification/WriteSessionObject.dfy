/** The write session as the object the connection works with: its methods run the loops of the write path in
    place and are proved against the operations on `Session` values. */
module WriteSessionObject {
  import opened Common
  import opened WriteSessions
  import opened ReplyOrder
  import opened SessionInvariants
  import opened SessionSteps

  /** What a cleanup leaves to others: the close job of an open chunk, which ends the lock once the close has its
      status, or the end of the lock at once. */
  datatype CleanupEnd = Nothing | CloseJob(endsLock: bool) | EndLock(status: Status)

  /** The close job's callback: the status that ends the lock. */
  function LockStatusAfterClose(untold: Status, closeStatus: Status): Status {
    if untold == OK && closeStatus != OK then closeStatus else untold
  }

  class WriteSession {
    const batching: bool
    const standard: bool
    const maxBlocks: nat
    var queue: seq<Buffer>
    var input: Option<Buffer>
    var nextCount: nat
    var job: Job
    var enqueued: nat
    var expectsFlush: bool
    var batches: seq<nat>
    var ready: nat
    var open: bool
    var locked: bool
    var joined: bool
    var sealed: bool
    var closing: bool
    var untold: Status
    var pending: int
    var wire: Wire
    ghost var past: Past

    ghost function Value(): Session
      reads this
    {
      Session(batching, standard, maxBlocks, queue, input, nextCount, job, enqueued, expectsFlush, batches, ready,
              open, locked, joined, sealed, closing, untold, pending, wire, past)
    }

    /** A write session just set up. In identity mode the open job checks the version and settles the lock. */
    constructor (batching: bool, standard: bool, maxBlocks: nat, wire: Wire, joinedLock: bool, identityMode: bool)
      ensures Value() == Session(batching, standard, maxBlocks, [], None, Min(4, maxBlocks), InFlight(0, OnOpen), 0,
          batching, [], 0, false,
                                 !identityMode && joinedLock, identityMode, false, false, OK, 0, wire,
                                     Past([], [], false, false, false, false))
    {
      this.batching, this.standard, this.maxBlocks := batching, standard, maxBlocks;
      queue, input, nextCount, job, enqueued := [], None, Min(4, maxBlocks), InFlight(0, OnOpen), 0;
      expectsFlush, batches, ready := batching, [], 0;
      open, locked, joined, sealed, closing := false, !identityMode && joinedLock, identityMode, false, false;
      untold, pending, past := OK, 0, Past([], [], false, false, false, false);
      this.wire := wire;
    }

    method Tell(status: Status, writeId: nat)
      modifies this`wire
      ensures wire == Told(old(wire), status, writeId)
    {
      if status != OK {
        wire := wire.(replies := wire.replies + [Reply(status, writeId)], state := IOFinish);
        return;
      }
      if wire.state == WriteLast {
        wire := wire.(replies := wire.replies + [Reply(OK, writeId)]);
        return;
      }
      if writeId in wire.partial {
        wire := wire.(replies := wire.replies + [Reply(OK, writeId)], partial := wire.partial - {writeId});
      } else {
        wire := wire.(partial := wire.partial + {writeId});
      }
    }

    /** The blocks of the buffer from `replied` on are told OK. */
    method ReplyBlocks(b: Buffer) returns (b': Buffer)
      requires b.replied <= |b.ids|
      modifies this`wire
      ensures b' == Replied(b) && wire == ReplyBuffer(old(wire), b)
    {
      b' := b;
      wire := wire.(available := wire.available - (|b.ids| - b.replied));
      while b'.replied < |b.ids|
        invariant b' == b.(replied := b'.replied) && b.replied <= b'.replied <= |b.ids|
        invariant ToldAll(wire, b.ids[b'.replied..]) == ReplyBuffer(old(wire), b)
        decreases |b.ids| - b'.replied
      {
        assert b.ids[b'.replied..][1..] == b.ids[b'.replied + 1..];
        Tell(OK, b.ids[b'.replied]);
        b' := b'.(replied := b'.replied + 1);
      }
    }

    method TryInstantReply(fromFlush: bool)
      requires Sane(Buffers(queue, input))
      modifies this`queue, this`input, this`wire
      ensures Value() == old(Value()).TryReply(fromFlush)
    {
      if sealed || closing || (job.InFlight? && job.writeId == 0) || !locked || standard
          || (expectsFlush && !fromFlush) {
        return;
      }
      var through := ReplyQueued();
      if !through || input.None? || input.value.updating || input.value.replied == |input.value.ids|
          || wire.available + input.value.replied < |input.value.ids| {
        return;
      }
      assert input.value == Buffers(old(queue), input)[|queue|];
      var b := ReplyBlocks(input.value);
      input := Some(b);
    }

    /** The queued buffers, one after the other, up to the first that cannot be replied. */
    method ReplyQueued() returns (through: bool)
      requires Sane(Buffers(queue, input))
      modifies this`queue, this`wire
      ensures Replying(queue, wire, through) == ReplyFrom(old(queue), enqueued, 0, old(wire))
    {
      ghost var final := ReplyFrom(queue, enqueued, 0, wire);
      var k := 0;
      while k < |queue|
        invariant 0 <= k <= |queue| && |queue| == old(|queue|)
        invariant forall i :: k <= i < |queue| ==> queue[i] == old(queue[i])
        invariant ReplyFrom(queue, enqueued, k, wire) == final
      {
        var b := queue[k];
        if b.replied != |b.ids| {
          if wire.available + b.replied < |b.ids| || k + 1 <= enqueued {
            return false;
          }
          assert b == Buffers(old(queue), old(input))[k];
          b := ReplyBlocks(b);
          queue := queue[k := b];
        }
        k := k + 1;
      }
      through := true;
    }

    method StartNextWriteJob()
      modifies this`job, this`enqueued, this`batches
      ensures Value() == old(Value()).StartNext()
    {
      if queue == [] || job.InFlight? || (expectsFlush && batches == []) {
        return;
      }
      job := InFlight(LastId(queue[0]), OnWrite);
      if expectsFlush {
        enqueued, batches := batches[0], batches[1..];
        if |queue| < enqueued {
          enqueued := |queue|;
        }
      } else {
        enqueued := 1;
      }
    }

    method WriteCurrentInputBuffer()
      requires input.Some?
      modifies this`queue, this`input, this`ready, this`job, this`enqueued, this`batches
      ensures Value() == old(Value()).WriteInput()
    {
      hide Session.StartNext;
      ghost var frozen := Value().Freeze();
      queue, input := queue + [input.value], None;
      if expectsFlush {
        ready := ready + 1;
      }
      assert Value() == frozen;
      StartNextWriteJob();
    }

    method ContinueWriting()
      requires Sane(Buffers(queue, input))
      modifies this`queue, this`input, this`wire, this`ready, this`job, this`enqueued, this`batches
      ensures Value() == old(Value()).Continue()
    {
      TryInstantReply(false);
      if queue != [] && job.Idle? && (expectsFlush ==> batches != []) {
        StartNextWriteJob();
        return;
      }
      if input.Some? && !input.value.updating && (input.value.Full() || (!expectsFlush && job.Idle?)) {
        WriteCurrentInputBuffer();
      }
    }

    /** The write job of the enqueued buffers finished with one status per block. */
    method WriteFinished(statuses: seq<Status>)
      requires enqueued <= |queue| && |statuses| == |Ids(queue[..enqueued])| && Sane(Buffers(queue, input))
      modifies this
      ensures Value() == old(Value()).WriteDone(statuses)
    {
      hide Ids, Settle, Sane, Session.Continue, LosesReplied;
      StillSane(queue, input, enqueued);
      var failed := FinishJob(statuses);
      if failed {
        return;
      }
      ContinueWriting();
      if closing {
        pending := pending - 1;
      }
    }

    method FinishJob(statuses: seq<Status>) returns (failed: bool)
      requires enqueued <= |queue| && |statuses| == |Ids(queue[..enqueued])|
      modifies this
      ensures Value() == old(Value()).Finish(statuses) && failed == old(Value()).SettleBatch(statuses).failed
    {
      hide Ids, Settle, LosesReplied, RepliedIn, Session.Finish;
      ghost var s := Value();
      job := Idle;
      var ids, already := TakeBackBuffers();
      failed := TellStatuses(statuses, ids, already);
      past := s.Finish(statuses).past;
      FinishIs(s, statuses);
    }

    /** The enqueued buffers go back to the pool, and with them the credits of their replied blocks. */
    method TakeBackBuffers() returns (ids: seq<nat>, already: nat)
      requires enqueued <= |queue|
      modifies this`queue, this`enqueued, this`wire
      ensures queue == old(queue[enqueued..]) && enqueued == 0
      ensures ids == Ids(old(queue[..enqueued])) && already == RepliedIn(old(queue[..enqueued]))
      ensures wire == old(wire).(available := old(wire).available + already)
    {
      ids, already := [], 0;
      ghost var k := 0;
      while enqueued > 0
        invariant 0 <= k && k + enqueued == old(enqueued) && queue == old(queue)[k..]
        invariant ids == Ids(old(queue)[..k]) && already == RepliedIn(old(queue)[..k])
        invariant wire == old(wire).(available := old(wire).available + already)
        decreases enqueued
      {
        IdsAppend(old(queue)[..k], [queue[0]]);
        IdsOfOne(queue[0]);
        assert old(queue)[..k] + [queue[0]] == old(queue)[..k + 1];
        ids, already := ids + queue[0].ids, already + queue[0].replied;
        wire := wire.(available := wire.available + queue[0].replied);
        queue, enqueued := queue[1..], enqueued - 1;
        k := k + 1;
      }
    }

    method TellStatuses(statuses: seq<Status>, ids: seq<nat>, alreadyReplied: nat) returns (failed: bool)
      requires |statuses| == |ids|
      modifies this`wire, this`untold
      ensures Settling(wire, untold, failed) == Settle(statuses, ids, alreadyReplied, closing, old(wire), old(untold))
    {
      var already, i := alreadyReplied, 0;
      while i < |ids|
        invariant 0 <= i <= |ids|
        invariant Settle(statuses[i..], ids[i..], already, closing, wire, untold)
            == Settle(statuses, ids, alreadyReplied, closing, old(wire), old(untold))
      {
        assert statuses[i..][1..] == statuses[i + 1..] && ids[i..][1..] == ids[i + 1..];
        if already == 0 {
          if !closing {
            Tell(statuses[i], ids[i]);
            if statuses[i] != OK {
              return true;
            }
          }
        } else {
          if untold == OK && statuses[i] != OK {
            untold := statuses[i];
          }
          already := already - 1;
        }
        i := i + 1;
      }
      failed := false;
    }

    method CloseDelayed()
      requires enqueued <= |queue|
      modifies this
      ensures Value() == old(Value()).DelayedClose()
    {
      hide Drained;
      if job.InFlight? && job.writeId == 0 {
        closing, pending, job := true, pending + 1, job.(callback := OnClose);
        return;
      }
      hide Session.DelayedClose;
      CloseIs(Value());
      StartDraining();
      if queue != [] {
        pending := pending + |queue| - enqueued + 1;
      }
    }

    /** Unreplied buffers are dropped, flushes are no longer expected, and a write job runs if a buffer is left. */
    method StartDraining()
      requires enqueued <= |queue|
      modifies this
      ensures Value() == Drained(old(Value()))
    {
      hide Session.DropUnreplied, Session.StartNext;
      DropUnreplied();
      expectsFlush := false;
      if job.Idle? && queue != [] {
        StartNextWriteJob();
      }
    }

    method DropUnreplied()
      requires enqueued <= |queue|
      modifies this`closing, this`input, this`queue
      ensures Value() == old(Value()).DropUnreplied()
    {
      closing := true;
      if input.Some? {
        if input.value.replied > 0 {
          queue := queue + [WithoutUnfinished(input.value)];
        }
        input := None;
      }
      queue := DropFromBack(queue, enqueued);
    }

    static method DropFromBack(queue: seq<Buffer>, keep: nat) returns (left: seq<Buffer>)
      ensures left == DropBack(queue, keep)
    {
      left := queue;
      while |left| > keep && left[|left| - 1].replied == 0
        invariant DropBack(left, keep) == DropBack(queue, keep)
        decreases |left|
      {
        left := left[..|left| - 1];
      }
    }

    method Seal() returns (done: bool)
      modifies this
      ensures (Value(), done) == old(Value()).TrySeal()
    {
      if joined {
        return false;
      }
      if input.Some? && (input.value.updating || |input.value.ids| > input.value.replied) {
        return false;
      }
      var i := 0;
      while i < |queue|
        invariant 0 <= i <= |queue| && AllReplied(queue[..i])
      {
        if |queue[i].ids| > queue[i].replied {
          return false;
        }
        i := i + 1;
      }
      assert queue[..i] == queue;
      if input.Some? {
        WriteCurrentInputBuffer();
      }
      sealed := wire.partial == {};
      done := sealed;
    }

    /** Everything left is given back; the lock of the session ends, after the close of a chunk that is open. */
    method Cleanup() returns (end: CleanupEnd)
      modifies this
      ensures queue == [] && input.None? && enqueued == 0 && batches == [] && ready == 0
      ensures wire == old(wire).(available := old(wire).available + RepliedIn(Buffers(old(queue), old(input))))
      ensures match end
              case Nothing => forall closeStatus :: old(Value()).EndStatus(closeStatus) == None && !old(open)
              case EndLock(status) => forall closeStatus :: old(Value()).EndStatus(closeStatus) == Some(status)
              case CloseJob(ends) =>
                old(open) && forall closeStatus :: old(Value()).EndStatus(closeStatus) == (if ends
                    then Some(LockStatusAfterClose(old(untold), closeStatus)) else None)
    {
      ghost var k := 0;
      while queue != []
        invariant 0 <= k <= old(|queue|) && queue == old(queue)[k..] && input == old(input) && open == old(open)
            && locked == old(locked) && untold == old(untold)
        invariant wire == old(wire).(available := old(wire).available + RepliedIn(old(queue)[..k]))
        decreases |queue|
      {
        IdsAppend(old(queue)[..k], [queue[0]]);
        assert old(queue)[..k] + [queue[0]] == old(queue)[..k + 1];
        wire := wire.(available := wire.available + queue[0].replied);
        queue := queue[1..];
        k := k + 1;
      }
      assert old(queue)[..k] == old(queue);
      BuffersIds(old(queue), input);
      enqueued, batches, ready := 0, [], 0;
      nextCount := Min(4, maxBlocks);
      if input.Some? {
        wire := wire.(available := wire.available + input.value.replied);
        input := None;
      }
      if open {
        end := CloseJob(locked);
      } else if locked {
        end := EndLock(untold);
      } else {
        end := Nothing;
      }
    }
  }

  lemma FinishIs(s: Session, statuses: seq<Status>)
    requires s.enqueued <= |s.queue| && |statuses| == |Ids(s.queue[..s.enqueued])|
    ensures var r, s' := s.SettleBatch(statuses), s.Finish(statuses);
            s' == s.(job := Idle, queue := s.queue[s.enqueued..], enqueued := 0, wire := r.wire, untold := r.untold,
                past := s'.past)
  {
    hide Session.SettleBatch, Ids, LosesReplied;
  }

  lemma StillSane(queue: seq<Buffer>, input: Option<Buffer>, n: nat)
    requires Sane(Buffers(queue, input)) && n <= |queue|
    ensures Sane(Buffers(queue[n..], input))
  {
    assert Buffers(queue[n..], input) == Buffers(queue, input)[n..];
  }
}
