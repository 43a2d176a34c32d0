/** Maintenance jobs of one connection exclude those of all others. `Fence` holds who may run them and who does, as a
    value with one function per critical section; `MaintenanceFence` is the object that updates it in place. */
module Fencing {
  import opened Common

  /** Where a job came from and under which fence. Epochs are unbounded: wrap-around is not modelled. */
  datatype Stamp = Stamp(listenerId: nat, connectionEpoch: nat, fenceEpoch: nat)

  /** The stamp of jobs that no connection sent; they pass every fence. */
  const OWN_WORK := Stamp(MAX_CONNECTIONS, 0, 0)

  datatype Fence = Fence(tracking: bool, epochs: seq<nat>, pair: Option<Stamp>, running: map<Stamp, nat>) {

    ghost predicate Valid() {
      && |epochs| == MAX_CONNECTIONS
      && forall stamp :: stamp in running ==> running[stamp] > 0
    }

    function ConnectionEpoch(listenerId: nat): nat
      requires |epochs| == MAX_CONNECTIONS
    {
      if listenerId < MAX_CONNECTIONS then epochs[listenerId] else 0
    }

    /** The stamp a job of the listener receives now. */
    function StampOf(listenerId: nat): Stamp
      requires |epochs| == MAX_CONNECTIONS
    {
      Stamp(listenerId, ConnectionEpoch(listenerId), if pair.Some? then pair.value.fenceEpoch else 0)
    }

    function Closed(listenerId: nat): Fence
      requires |epochs| == MAX_CONNECTIONS
    {
      if listenerId < MAX_CONNECTIONS then this.(epochs := epochs[listenerId := epochs[listenerId] + 1]) else this
    }

    predicate PairLive()
      requires |epochs| == MAX_CONNECTIONS
    {
      pair.Some? && (pair.value.listenerId >= MAX_CONNECTIONS
          || epochs[pair.value.listenerId] == pair.value.connectionEpoch)
    }

    predicate AcceptsFence(epoch: nat, stamp: Stamp)
      requires |epochs| == MAX_CONNECTIONS
    {
      var candidate := Stamp(stamp.listenerId, stamp.connectionEpoch, epoch);
      && epoch != 0
      && (pair.Some? ==> pair.value.fenceEpoch <= epoch)
      && (pair.Some? && epoch == pair.value.fenceEpoch && candidate != pair.value ==> !PairLive())
    }

    function Fenced(epoch: nat, stamp: Stamp): Fence
      requires |epochs| == MAX_CONNECTIONS
    {
      if AcceptsFence(epoch, stamp) then this.(pair := Some(Stamp(stamp.listenerId, stamp.connectionEpoch, epoch)))
          else this
    }

    predicate Admits(stamp: Stamp) {
      pair.None? || pair.value == stamp
    }

    function Count(stamp: Stamp): nat {
      if stamp in running then running[stamp] else 0
    }

    function Started(stamp: Stamp): (f: Fence)
      ensures f.pair == pair && f.epochs == epochs && f.tracking == tracking
      ensures Valid() ==> f.Valid()
    {
      if Admits(stamp) then this.(running := running[stamp := Count(stamp) + 1]) else this
    }

    function Ended(stamp: Stamp): (f: Fence)
      ensures f.pair == pair && f.epochs == epochs && f.tracking == tracking
      ensures Valid() ==> f.Valid()
    {
      if stamp !in running then this
      else if running[stamp] <= 1 then this.(running := running - {stamp})
      else this.(running := running[stamp := running[stamp] - 1])
    }

    ghost predicate OthersRunning(stamp: Stamp) {
      exists other :: other in running && other != stamp && running[other] != 0
    }
  }

  function NoFence(): Fence {
    Fence(false, seq(MAX_CONNECTIONS, _ => 0), None, map[])
  }

  /** A job received now passes the fence exactly when its own live connection holds the pair. */
  lemma FreshStampAdmittedIffConnectionHoldsPair(f: Fence, listenerId: nat)
    requires f.Valid()
    ensures f.Admits(f.StampOf(listenerId)) <==>
            f.pair.None? || (f.pair.value.listenerId == listenerId
                && f.pair.value.connectionEpoch == f.ConnectionEpoch(listenerId))
  {
    if f.pair.Some? {
      var Stamp(l, c, e) := f.pair.value;
      assert f.pair.value == Stamp(l, c, e);
    }
  }

  /** Any admitted count is taken back by the matching end: the accounting of one job leaves no trace. */
  lemma EndUndoesStart(f: Fence, stamp: Stamp)
    requires f.Valid() && f.Admits(stamp)
    ensures f.Started(stamp).Valid() && f.Started(stamp).Ended(stamp) == f
  {
    var g := f.Started(stamp).Ended(stamp);
    assert g.running == f.running;
  }

  /** The fence as the object the job pools share; each method is one critical section of its mutex. */
  class MaintenanceFence {
    var trackingEnabled: bool
    const connectionEpochs: array<nat>
    var pair: Option<Stamp>
    var running: map<Stamp, nat>

    ghost function Value(): Fence
      reads this, connectionEpochs
    {
      Fence(trackingEnabled, connectionEpochs[..], pair, running)
    }

    ghost predicate Valid()
      reads this, connectionEpochs
    {
      Value().Valid()
    }

    constructor ()
      ensures Valid() && Value() == NoFence() && fresh(connectionEpochs)
    {
      trackingEnabled := false;
      connectionEpochs := new nat[MAX_CONNECTIONS](_ => 0);
      pair := None;
      running := map[];
      new;
      assert connectionEpochs[..] == seq(MAX_CONNECTIONS, _ => 0);
    }

    method EnableTracking()
      requires Valid()
      modifies this
      ensures Value() == old(Value()).(tracking := true)
    {
      trackingEnabled := true;
    }

    method StampFor(listenerId: nat) returns (stamp: Stamp)
      requires Valid()
      ensures stamp == Value().StampOf(listenerId)
      ensures Value().Admits(stamp) <==>
              pair.None? || (pair.value.listenerId == listenerId
                  && pair.value.connectionEpoch == Value().ConnectionEpoch(listenerId))
    {
      FreshStampAdmittedIffConnectionHoldsPair(Value(), listenerId);
      var connectionEpoch := 0;
      if listenerId < MAX_CONNECTIONS { connectionEpoch := connectionEpochs[listenerId]; }
      var fenceEpoch := 0;
      if pair.Some? { fenceEpoch := pair.value.fenceEpoch; }
      stamp := Stamp(listenerId, connectionEpoch, fenceEpoch);
    }

    method ConnectionClosed(listenerId: nat)
      requires Valid()
      modifies connectionEpochs
      ensures Valid() && Value() == old(Value()).Closed(listenerId)
      ensures listenerId < MAX_CONNECTIONS ==> Value().StampOf(listenerId) != old(Value()).StampOf(listenerId)
      ensures forall other :: other != listenerId ==> Value().StampOf(other) == old(Value()).StampOf(other)
    {
      if listenerId >= MAX_CONNECTIONS { return; }
      connectionEpochs[listenerId] := connectionEpochs[listenerId] + 1;
    }

    method SetFence(epoch: nat, stamp: Stamp) returns (accepted: bool)
      requires Valid()
      modifies this
      ensures Valid() && Value() == old(Value()).Fenced(epoch, stamp)
      ensures accepted == old(Value()).AcceptsFence(epoch, stamp)
      ensures accepted ==>
                && pair == Some(Stamp(stamp.listenerId, stamp.connectionEpoch, epoch)) && epoch > 0
                && (old(pair).Some? ==> old(pair).value.fenceEpoch <= epoch)
                && (forall other :: Value().Admits(other) ==> other == pair.value)
      ensures !accepted ==> Value() == old(Value())
    {
      if epoch == 0 { return false; }
      if pair.Some? && epoch < pair.value.fenceEpoch { return false; }
      var pairLive := pair.Some? &&
        (pair.value.listenerId >= MAX_CONNECTIONS
            || connectionEpochs[pair.value.listenerId] == pair.value.connectionEpoch);
      var candidate := Stamp(stamp.listenerId, stamp.connectionEpoch, epoch);
      if pair.Some? && epoch == pair.value.fenceEpoch && candidate != pair.value && pairLive { return false; }
      pair := Some(candidate);
      return true;
    }

    method Start(stamp: Stamp) returns (admitted: bool)
      requires Valid()
      modifies this
      ensures Valid() && Value() == old(Value()).Started(stamp)
      ensures admitted == old(Value()).Admits(stamp)
      ensures if admitted then Value().Ended(stamp) == old(Value()) else Value() == old(Value())
    {
      if old(Value()).Admits(stamp) {
        EndUndoesStart(Value(), stamp);
      }
      if pair.Some? && pair.value != stamp { return false; }
      var count := if stamp in running then running[stamp] else 0;
      running := running[stamp := count + 1];
      return true;
    }

    method End(stamp: Stamp)
      requires Valid()
      modifies this
      ensures Valid() && Value() == old(Value()).Ended(stamp)
    {
      if stamp !in running { return; }
      var left := running[stamp] - 1;
      if left == 0 {
        running := running - {stamp};
      } else {
        running := running[stamp := left];
      }
    }

    method OthersRunning(stamp: Stamp) returns (others: bool)
      requires Valid()
      ensures others == Value().OthersRunning(stamp)
    {
      var unseen := running.Keys;
      while unseen != {}
        invariant unseen <= running.Keys
        invariant forall other :: other in running && other !in unseen ==> other == stamp || running[other] == 0
        decreases unseen
      {
        var other :| other in unseen;
        if other != stamp && running[other] != 0 { return true; }
        unseen := unseen - {other};
      }
      return false;
    }
  }
}
