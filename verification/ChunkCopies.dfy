/** Duplicating a chunk part, whole or cut to a length. About a dozen steps can fail; a guard records what was done
    and undoes exactly that. */
module ChunkCopies {
  import opened Common
  import opened InputBuffers
  import opened Truncation

  datatype CopyEvent =
    | SourceReleased | SourceReported | SourceIoBegan | SourceIoEnded
    | CopyRegistered | CopyReleased | CopyDeregistered | CopyIoBegan | CopyIoEnded | CopyUnlinked

  /** The log after the guard did what it does when the operation returns. */
  function Unwound(log: seq<CopyEvent>, hasCopy: bool, sourceIoOpen: bool, copyIoOpen: bool, copyHasFiles: bool,
      damaged: bool, committed: bool): seq<CopyEvent> {
    if committed then log + If(hasCopy, CopyReleased) + If(true, SourceReleased)
    else
      log + If(copyIoOpen, CopyIoEnded) + If(copyHasFiles, CopyUnlinked) + If(hasCopy, CopyDeregistered)
      + If(sourceIoOpen, SourceIoEnded) + If(damaged, SourceReported) + If(true, SourceReleased)
  }

  function If(done: bool, event: CopyEvent): seq<CopyEvent> {
    if done then [event] else []
  }

  function Flag(b: bool): nat {
    if b then 1 else 0
  }

  function Times(log: seq<CopyEvent>, event: CopyEvent): nat {
    if log == [] then 0 else Times(log[..|log| - 1], event) + Flag(log[|log| - 1] == event)
  }

  lemma TimesAppend(log: seq<CopyEvent>, event: CopyEvent)
    ensures forall e :: Times(log + [event], e) == Times(log, e) + Flag(e == event)
  {
    assert (log + [event])[..|log|] == log;
  }

  /** After the guard: the source released once, every I/O begun ended once, the copy kept and released or taken out of
      the registry, and its files unlinked if they were created and it is not kept. */
  ghost predicate Settled(log: seq<CopyEvent>, kept: bool) {
    && Times(log, SourceReleased) == 1 && Times(log, SourceIoBegan) == Times(log, SourceIoEnded) <= 1
        && Times(log, CopyIoBegan) == Times(log, CopyIoEnded) <= 1
    && Times(log, CopyReleased) == Flag(kept)
        && Times(log, CopyReleased) + Times(log, CopyDeregistered) == Times(log, CopyRegistered) <= 1
    && Times(log, CopyUnlinked) == (if kept then 0 else Times(log, CopyIoBegan))
    && (kept ==> Times(log, SourceReported) == 0)
  }

  /** The guard's flags record what the log says happened; only a copy that is done, with both I/Os ended, is
      committed. */
  ghost predicate Recorded(log: seq<CopyEvent>, hasCopy: bool, sourceIoOpen: bool, copyIoOpen: bool,
      copyHasFiles: bool, damaged: bool, committed: bool) {
    && Times(log, SourceReleased) == Times(log, SourceReported) == Times(log, CopyReleased)
        == Times(log, CopyDeregistered) == Times(log, CopyUnlinked) == 0
    && Times(log, SourceIoBegan) <= 1 && Times(log, SourceIoBegan) == Times(log, SourceIoEnded) + Flag(sourceIoOpen)
    && Times(log, CopyIoBegan) == Flag(copyHasFiles)
        && Times(log, CopyIoBegan) == Times(log, CopyIoEnded) + Flag(copyIoOpen)
    && Times(log, CopyRegistered) == Flag(hasCopy) && (copyHasFiles ==> hasCopy)
    && (committed ==> hasCopy && !sourceIoOpen && !copyIoOpen && !damaged)
  }

  class ChunkCopyGuard {
    var hasCopy: bool
    var sourceIoOpen: bool
    var copyIoOpen: bool
    var copyHasFiles: bool
    var sourceDamaged: bool
    var committed: bool
    var log: seq<CopyEvent>

    constructor ()
      ensures Tracks() && !hasCopy && !sourceIoOpen && !copyIoOpen && !copyHasFiles && !sourceDamaged && !committed
          && log == []
    {
      hasCopy, sourceIoOpen, copyIoOpen, copyHasFiles, sourceDamaged, committed, log := false, false, false, false,
          false, false, [];
    }

    ghost predicate Tracks()
      reads this
    {
      Recorded(log, hasCopy, sourceIoOpen, copyIoOpen, copyHasFiles, sourceDamaged, committed)
    }

    method RegisterCopy()
      requires Tracks() && !hasCopy && !committed
      modifies this`hasCopy, this`log
      ensures Tracks() && hasCopy && log == old(log) + [CopyRegistered]
    {
      hide Times;
      TimesAppend(log, CopyRegistered);
      hasCopy, log := true, log + [CopyRegistered];
    }

    method BeginSourceIo()
      requires Tracks() && !committed && Times(log, SourceIoBegan) == 0
      modifies this`sourceIoOpen, this`log
      ensures Tracks() && sourceIoOpen
    {
      hide Times;
      TimesAppend(log, SourceIoBegan);
      sourceIoOpen, log := true, log + [SourceIoBegan];
    }

    method BeginCopyIo()
      requires Tracks() && hasCopy && !copyHasFiles && !committed
      modifies this`copyIoOpen, this`copyHasFiles, this`log
      ensures Tracks() && copyIoOpen && copyHasFiles
    {
      hide Times;
      TimesAppend(log, CopyIoBegan);
      copyIoOpen, copyHasFiles, log := true, true, log + [CopyIoBegan];
    }

    method EndSourceIo()
      requires Tracks() && sourceIoOpen && !committed
      modifies this`sourceIoOpen, this`log
      ensures Tracks() && !sourceIoOpen
    {
      hide Times;
      TimesAppend(log, SourceIoEnded);
      sourceIoOpen, log := false, log + [SourceIoEnded];
    }

    method EndCopyIo()
      requires Tracks() && copyIoOpen && !committed
      modifies this`copyIoOpen, this`log
      ensures Tracks() && !copyIoOpen
    {
      hide Times;
      TimesAppend(log, CopyIoEnded);
      copyIoOpen, log := false, log + [CopyIoEnded];
    }

    method MarkSourceAsDamaged()
      requires Tracks() && !committed
      modifies this`sourceDamaged
      ensures Tracks() && sourceDamaged
    {
      sourceDamaged := true;
    }

    method Commit()
      requires Tracks() && hasCopy && !sourceIoOpen && !copyIoOpen && !sourceDamaged
      modifies this`committed
      ensures Tracks() && committed
    {
      committed := true;
    }

    method Undo(done: bool, event: CopyEvent)
      modifies this`log
      ensures log == old(log) + If(done, event)
    {
      if done {
        log := log + [event];
      }
    }

    /** The destructor. */
    method Unwind()
      requires Tracks()
      modifies this`log
      ensures log == Unwound(old(log), hasCopy, sourceIoOpen, copyIoOpen, copyHasFiles, sourceDamaged, committed)
      ensures Settled(log, committed)
    {
      hide If, Settled;
      UnwoundIsSettled(log, hasCopy, sourceIoOpen, copyIoOpen, copyHasFiles, sourceDamaged, committed);
      if committed {
        Undo(hasCopy, CopyReleased);
        Undo(true, SourceReleased);
        return;
      }
      Undo(copyIoOpen, CopyIoEnded);
      Undo(copyHasFiles, CopyUnlinked);
      Undo(hasCopy, CopyDeregistered);
      Undo(sourceIoOpen, SourceIoEnded);
      Undo(sourceDamaged, SourceReported);
      Undo(true, SourceReleased);
    }
  }

  lemma Counted(log: seq<CopyEvent>, done: bool, event: CopyEvent, e: CopyEvent)
    ensures Times(log + If(done, event), e) == Times(log, e) + Flag(done && e == event)
  {
    TimesAppend(log, event);
    assert log + [] == log;
  }

  function UndoneTimes(hasCopy: bool, sourceIoOpen: bool, copyIoOpen: bool, copyHasFiles: bool, damaged: bool,
      e: CopyEvent): nat {
    Flag(copyIoOpen && e == CopyIoEnded) + Flag(copyHasFiles && e == CopyUnlinked)
        + Flag(hasCopy && e == CopyDeregistered)
    + Flag(sourceIoOpen && e == SourceIoEnded) + Flag(damaged && e == SourceReported) + Flag(e == SourceReleased)
  }

  /** How often an event happened, once the guard of an operation that failed is through. */
  lemma FailedCounts(log: seq<CopyEvent>, hasCopy: bool, sourceIoOpen: bool, copyIoOpen: bool, copyHasFiles: bool,
      damaged: bool, e: CopyEvent)
    ensures Times(Unwound(log, hasCopy, sourceIoOpen, copyIoOpen, copyHasFiles, damaged, false), e)
         == Times(log, e) + UndoneTimes(hasCopy, sourceIoOpen, copyIoOpen, copyHasFiles, damaged, e)
  {
    hide If, Times;
    var log1 := log + If(copyIoOpen, CopyIoEnded);
    var log2 := log1 + If(copyHasFiles, CopyUnlinked);
    var log3 := log2 + If(hasCopy, CopyDeregistered);
    var log4 := log3 + If(sourceIoOpen, SourceIoEnded);
    var log5 := log4 + If(damaged, SourceReported);
    Counted(log, copyIoOpen, CopyIoEnded, e);
    Counted(log1, copyHasFiles, CopyUnlinked, e);
    Counted(log2, hasCopy, CopyDeregistered, e);
    Counted(log3, sourceIoOpen, SourceIoEnded, e);
    Counted(log4, damaged, SourceReported, e);
    Counted(log5, true, SourceReleased, e);
  }

  lemma KeptCounts(log: seq<CopyEvent>, hasCopy: bool, sourceIoOpen: bool, copyIoOpen: bool, copyHasFiles: bool,
      damaged: bool, e: CopyEvent)
    ensures Times(Unwound(log, hasCopy, sourceIoOpen, copyIoOpen, copyHasFiles, damaged, true), e)
         == Times(log, e) + Flag(hasCopy && e == CopyReleased) + Flag(e == SourceReleased)
  {
    hide If, Times;
    Counted(log, hasCopy, CopyReleased, e);
    Counted(log + If(hasCopy, CopyReleased), true, SourceReleased, e);
  }

  lemma UnwoundIsSettled(log: seq<CopyEvent>, hasCopy: bool, sourceIoOpen: bool, copyIoOpen: bool, copyHasFiles: bool,
      damaged: bool, committed: bool)
    requires Recorded(log, hasCopy, sourceIoOpen, copyIoOpen, copyHasFiles, damaged, committed)
    ensures Settled(Unwound(log, hasCopy, sourceIoOpen, copyIoOpen, copyHasFiles, damaged, committed), committed)
  {
    hide Unwound, Times;
    if committed {
      forall e
        ensures Times(Unwound(log, hasCopy, sourceIoOpen, copyIoOpen, copyHasFiles, damaged, true), e)
             == Times(log, e) + Flag(hasCopy && e == CopyReleased) + Flag(e == SourceReleased)
      {
        KeptCounts(log, hasCopy, sourceIoOpen, copyIoOpen, copyHasFiles, damaged, e);
      }
    } else {
      forall e
        ensures Times(Unwound(log, hasCopy, sourceIoOpen, copyIoOpen, copyHasFiles, damaged, false), e)
             == Times(log, e) + UndoneTimes(hasCopy, sourceIoOpen, copyIoOpen, copyHasFiles, damaged, e)
      {
        FailedCounts(log, hasCopy, sourceIoOpen, copyIoOpen, copyHasFiles, damaged, e);
      }
    }
  }

  // Copying data.

  datatype CopyResult = Copied | ReadFailed | WriteFailed

  const BATCH: nat := 256

  /** The copy holds the first blocks of the source and no others. */
  ghost predicate Holds(copy: Part, source: Part, count: nat)
    requires source.Stored()
    reads copy, source
  {
    && copy.Stored() && (if copy.mapsBlocks then forall k :: k in copy.mapping ==> k < count
        else |copy.file| == count * BLOCK)
    && forall k :: 0 <= k < count ==> copy.BlockAt(k) == source.BlockAt(k)
  }

  lemma {:induction false} JoinedBlock(blocks: seq<seq<byte>>, i: nat)
    requires i < |blocks| && forall k :: 0 <= k < |blocks| ==> |blocks[k]| == BLOCK
    ensures |Joined(blocks)| == |blocks| * BLOCK && Joined(blocks)[i * BLOCK..(i + 1) * BLOCK] == blocks[i]
  {
    JoinedLength(blocks);
    JoinedLength(blocks[..i]);
    JoinedStep(blocks, i);
    JoinedPrefix(blocks, i + 1);
    assert Joined(blocks)[..(i + 1) * BLOCK] == Joined(blocks[..i]) + blocks[i];
  }

  lemma AppendedBlock(file: seq<byte>, batch: seq<seq<byte>>, count: nat, k: nat)
    requires |file| == count * BLOCK && k < count + |batch| && forall i :: 0 <= i < |batch| ==> |batch[i]| == BLOCK
    ensures |Joined(batch)| == |batch| * BLOCK
    ensures FileBlock(file + Joined(batch), k) == if k < count then FileBlock(file, k) else batch[k - count]
  {
    JoinedLength(batch);
    if k >= count {
      JoinedBlock(batch, k - count);
      assert (file + Joined(batch))[k * BLOCK..(k + 1) * BLOCK]
          == Joined(batch)[(k - count) * BLOCK..(k - count + 1) * BLOCK];
    }
  }

  method Append(copy: Part, batch: seq<seq<byte>>, count: nat)
    requires copy.Stored() && !copy.mapsBlocks && |copy.file| == count * BLOCK && forall i :: 0 <= i < |batch| ==>
        |batch[i]| == BLOCK
    modifies copy`file
    ensures |copy.file| == (count + |batch|) * BLOCK
    ensures forall k :: 0 <= k < count + |batch| ==> copy.BlockAt(k) == if k < count then FileBlock(old(copy.file), k)
        else batch[k - count]
  {
    ghost var before := copy.file;
    copy.file := copy.file + Joined(batch);
    JoinedLength(batch);
    forall k | 0 <= k < count + |batch|
      ensures FileBlock(copy.file, k) == if k < count then FileBlock(before, k) else batch[k - count]
    {
      AppendedBlock(before, batch, count, k);
    }
  }

  method Map(copy: Part, batch: seq<seq<byte>>, count: nat)
    requires copy.Stored() && copy.mapsBlocks && (forall k :: k in copy.mapping ==> k < count)
        && forall i :: 0 <= i < |batch| ==> |batch[i]| == BLOCK
    modifies copy`mapping
    ensures copy.Stored() && forall k :: k in copy.mapping ==> k < count + |batch|
    ensures forall k :: 0 <= k < count + |batch| ==> copy.BlockAt(k) == if k < count then old(copy.BlockAt(k))
        else batch[k - count]
  {
    ghost var before := copy.mapping;
    var i := 0;
    while i < |batch|
      invariant 0 <= i <= |batch|
      invariant forall k :: k in copy.mapping <==> k in before || count <= k < count + i
      invariant forall k :: k in before ==> copy.mapping[k] == before[k]
      invariant forall k :: count <= k < count + i ==> copy.mapping[k] == batch[k - count]
    {
      copy.mapping := copy.mapping[count + i := batch[i]];
      i := i + 1;
    }
  }

  function BlocksFrom(source: Part, from: nat, n: nat): (r: seq<seq<byte>>)
    requires source.Stored()
    reads source
    ensures |r| == n && forall i :: 0 <= i < n ==> r[i] == source.BlockAt(from + i) && |r[i]| == BLOCK
  {
    if n == 0 then [] else BlocksFrom(source, from, n - 1) + [source.BlockAt(from + n - 1)]
  }

  /** hddCopyChunkBlocks: the first blocks of the source, in batches. */
  method CopyBlocks(source: Part, copy: Part, count: nat, readFails: set<nat>, writeFails: set<nat>)
      returns (result: CopyResult)
    requires source != copy && source.Stored() && Holds(copy, source, 0)
    modifies copy`file, copy`mapping
    ensures result == Copied ==> Holds(copy, source, count)
    ensures readFails == {} && writeFails == {} ==> result == Copied
  {
    hide Joined, FileBlock;
    var block := 0;
    while block < count
      invariant 0 <= block <= count && Holds(copy, source, block)
    {
      var n := if count - block < BATCH then count - block else BATCH;
      if block in readFails {
        return ReadFailed;
      }
      var batch := BlocksFrom(source, block, n);
      if block in writeFails {
        return WriteFailed;
      }
      if copy.mapsBlocks {
        Map(copy, batch, block);
      } else {
        Append(copy, batch, block);
      }
      block := block + n;
    }
    result := Copied;
  }

  // The operations.

  /** Steps of a copy that can fail. */
  datatype CopyStep = PickDisk | CreateChunk
      | RenameSource | OpenSource | RewriteVersion | OpenCopy | ApplyFormat | WriteHeader
                    | GrowCopy | ReadLast | WriteLast | WriteCrc | EndSource | SetLayout | EndCopy

  /** Which of them fail, and at which blocks a batch fails to be read or written; `code` is the status of a failed
      call. */
  datatype Faults = Faults(steps: set<CopyStep>, readFails: set<nat>, writeFails: set<nat>, code: Status)

  /** A chunk just registered: no data, and nothing in its checksum block that counts. */
  ghost predicate Blank(copy: Part)
    reads copy
  {
    copy.blocks == 0 && copy.file == [] && copy.mapping == map[] && |copy.crcs| == BLOCKS_IN_CHUNK
  }

  method CreateCopy(guard: ChunkCopyGuard, faults: Faults) returns (status: Status)
    requires guard.Tracks() && !guard.hasCopy && !guard.committed && Times(guard.log, SourceIoBegan) == 0
    modifies guard`hasCopy, guard`log
    ensures guard.Tracks() && Times(guard.log, SourceIoBegan) == 0
    ensures status == OK ==> guard.hasCopy
    ensures status == OK <==> PickDisk !in faults.steps && CreateChunk !in faults.steps
  {
    hide Times;
    if PickDisk in faults.steps {
      return NOSPACE;
    }
    if CreateChunk in faults.steps {
      return CHUNKEXIST;
    }
    TimesAppend(guard.log, CopyRegistered);
    guard.RegisterCopy();
    status := OK;
  }

  /** The version of a source at one version after a copy was asked for: the new one, unless it is the version that was
      asked for, the source has another version than that, or a step up to the renaming failed. */
  function SourceVersion(current: nat, version: nat, newVersion: nat, steps: set<CopyStep>): nat {
    if newVersion == version || (current != version && version != 0)
        || !(steps !! {PickDisk, CreateChunk, RenameSource})
    then current else newVersion
  }

  /** The source is opened, under its new version if that differs. */
  method OpenSourceForCopy(guard: ChunkCopyGuard, source: Part, version: nat, newVersion: nat, faults: Faults)
      returns (status: Status)
    requires guard.Tracks() && !guard.committed && Times(guard.log, SourceIoBegan) == 0 && faults.code != OK
    modifies guard`sourceIoOpen, guard`sourceDamaged, guard`log, source`version
    ensures guard.Tracks()
    ensures status == OK ==> guard.sourceIoOpen && guard.sourceDamaged == old(guard.sourceDamaged)
    ensures faults.steps == {} ==> status == OK
    ensures source.version
         == if newVersion == version || RenameSource in faults.steps then old(source.version) else newVersion
  {
    hide Times;
    if newVersion == version {
      if OpenSource in faults.steps {
        guard.MarkSourceAsDamaged();
        return faults.code;
      }
      guard.BeginSourceIo();
      return OK;
    }
    if RenameSource in faults.steps {
      return IO;
    }
    source.version := newVersion;
    if OpenSource in faults.steps {
      return faults.code;
    }
    guard.BeginSourceIo();
    status := if RewriteVersion in faults.steps then IO else OK;
  }

  /** The copy is opened and gets a header with the source's checksums. */
  method PrepareCopy(guard: ChunkCopyGuard, source: Part, copy: Part, faults: Faults) returns (status: Status)
    requires guard.Tracks() && guard.hasCopy && !guard.copyHasFiles && !guard.committed && faults.code != OK
        && source != copy
    modifies guard`copyIoOpen, guard`copyHasFiles, guard`log, copy`crcs
    ensures guard.Tracks()
    ensures status == OK ==> guard.copyIoOpen && copy.crcs == source.crcs
    ensures faults.steps == {} ==> status == OK
  {
    hide Times;
    if OpenCopy in faults.steps {
      return faults.code;
    }
    guard.BeginCopyIo();
    if ApplyFormat in faults.steps {
      return IO;
    }
    copy.crcs := source.crcs;
    status := if WriteHeader in faults.steps then IO else OK;
  }

  /** The blocks of the source go to the copy; a failed read means that the source is damaged. */
  method CopyData(guard: ChunkCopyGuard, source: Part, copy: Part, count: nat, faults: Faults) returns (status: Status)
    requires guard.Tracks() && !guard.committed && source != copy && source.Stored() && Holds(copy, source, 0)
    modifies guard`sourceDamaged, copy`file, copy`mapping
    ensures guard.Tracks()
    ensures status == OK ==> Holds(copy, source, count) && guard.sourceDamaged == old(guard.sourceDamaged)
    ensures faults.readFails == {} && faults.writeFails == {} ==> status == OK
  {
    var result := CopyBlocks(source, copy, count, faults.readFails, faults.writeFails);
    if result == ReadFailed {
      guard.MarkSourceAsDamaged();
    }
    status := if result == Copied then OK else IO;
  }

  lemma BlankHoldsNothing(copy: Part, source: Part)
    requires Blank(copy) && source.Stored()
    ensures Holds(copy, source, 0)
  {
  }

  /** The end of a successful copy. */
  method EndBoth(guard: ChunkCopyGuard, faults: Faults) returns (status: Status)
    requires guard.Tracks() && guard.hasCopy && guard.sourceIoOpen && guard.copyIoOpen && !guard.sourceDamaged
        && !guard.committed && faults.code != OK
    modifies guard
    ensures guard.Tracks() && guard.committed == (status == OK)
    ensures faults.steps == {} ==> status == OK
  {
    hide Times, Recorded;
    guard.EndSourceIo();
    if EndSource in faults.steps {
      guard.MarkSourceAsDamaged();
      return faults.code;
    }
    guard.EndCopyIo();
    if EndCopy in faults.steps {
      return faults.code;
    }
    guard.Commit();
    status := OK;
  }

  /** The whole part is copied. */
  method BuildCopy(guard: ChunkCopyGuard, source: Part, copy: Part, version: nat, newVersion: nat, faults: Faults)
      returns (status: Status)
    requires guard.Tracks() && !guard.hasCopy && !guard.committed && !guard.copyHasFiles && !guard.sourceDamaged
        && guard.log == []
    requires source != copy && source.Valid() && Blank(copy) && copy.crc == source.crc && faults.code != OK
    modifies guard, copy`file, copy`mapping, copy`crcs, copy`blocks, source`version
    ensures guard.Tracks() && guard.committed == (status == OK)
    ensures status == OK ==>
              copy.Valid() && copy.blocks == source.blocks && forall k :: 0 <= k < source.blocks ==>
                  copy.BlockAt(k) == source.BlockAt(k)
    ensures source.version == SourceVersion(old(source.version), version, newVersion, faults.steps)
    ensures old(source.version) != version && version != 0 ==>
              && status == WRONGVERSION
              && copy.HasData(old(copy.file), old(copy.mapping), old(copy.blocks), old(copy.crcs))
    ensures (old(source.version) == version || version == 0) && Faultless(faults) ==> status == OK
  {
    hide Times, Recorded, FileBlock;
    status := OpenBoth(guard, source, copy, version, newVersion, faults);
    if status != OK {
      return;
    }
    BlankHoldsNothing(copy, source);
    status := CopyData(guard, source, copy, source.blocks, faults);
    if status != OK {
      return;
    }
    status := EndBoth(guard, faults);
    if status == OK {
      copy.blocks := source.blocks;
      HoldsAll(copy, source);
    }
  }

  lemma HoldsAll(copy: Part, source: Part)
    requires source.Valid() && Holds(copy, source, source.blocks) && copy.crcs == source.crcs && copy.crc == source.crc
        && copy.blocks == source.blocks
    ensures copy.Valid()
  {
  }

  ghost predicate Faultless(faults: Faults) {
    faults.steps == {} && faults.readFails == {} && faults.writeFails == {}
  }

  lemma EmptyLog()
    ensures Times([], SourceIoBegan) == 0
  {
  }

  /** Duplicate, once the source is found and locked. Whichever step fails, everything begun is ended and undone exactly
      once; a copy that is kept has the source's blocks and their checksums. */
  method Duplicate(source: Part, copy: Part, version: nat, newVersion: nat, faults: Faults)
      returns (status: Status, log: seq<CopyEvent>)
    requires source != copy && source.Valid() && Blank(copy) && copy.crc == source.crc && faults.code != OK
    modifies copy`file, copy`mapping, copy`crcs, copy`blocks, source`version
    ensures Settled(log, status == OK)
    ensures status == OK ==>
              copy.Valid() && copy.blocks == source.blocks && forall k :: 0 <= k < source.blocks ==>
                  copy.BlockAt(k) == source.BlockAt(k)
    ensures source.version == SourceVersion(old(source.version), version, newVersion, faults.steps)
    ensures old(source.version) != version && version != 0 ==>
              && status == WRONGVERSION
              && copy.HasData(old(copy.file), old(copy.mapping), old(copy.blocks), old(copy.crcs))
    ensures (old(source.version) == version || version == 0) && Faultless(faults) ==> status == OK
  {
    hide Times, Recorded, Settled;
    var guard := new ChunkCopyGuard();
    status := BuildCopy(guard, source, copy, version, newVersion, faults);
    guard.Unwind();
    log := guard.log;
  }

  // Cut copies.

  /** How many blocks are copied whole. */
  function WholeBlocks(source: nat, length: nat): nat {
    if BlocksFor(length) > source then source else length / BLOCK
  }

  /** A copy longer than the source: the new blocks are empty. */
  method GrowCopyTo(source: Part, copy: Part, length: nat, faults: Faults) returns (ok: bool, header: seq<nat>)
    requires source != copy && source.Valid() && source.blocks < BlocksFor(length) <= BLOCKS_IN_CHUNK
        && Holds(copy, source, source.blocks) && copy.crc == source.crc
    modifies copy`file
    ensures |header| == BLOCKS_IN_CHUNK && (faults.steps == {} ==> ok)
    ensures ok ==> Finished(copy, source, length, header)
  {
    header := EmptyCrcs(source.crcs, source.blocks, BlocksFor(length), copy.crc(Zeros(BLOCK)));
    if !copy.mapsBlocks {
      if GrowCopy in faults.steps {
        return false, header;
      }
      copy.Ftruncate(BlocksFor(length) * BLOCK);
    }
    forall k | 0 <= k < BlocksFor(length)
      ensures copy.BlockAt(k) == Cut(source.BlockAt(k), length - k * BLOCK) && header[k] == copy.crc(copy.BlockAt(k))
    {
      assert k < source.blocks ==> length - k * BLOCK >= BLOCK;
      assert k >= source.blocks ==> source.BlockAt(k) == Zeros(BLOCK) == copy.BlockAt(k);
      CutZeros(length - k * BLOCK);
    }
    ok := true;
  }

  /** The copy's data is done, and so are the checksums in its header buffer. */
  ghost predicate Finished(copy: Part, source: Part, length: nat, header: seq<nat>)
    reads copy, source
  {
    && source.Stored() && copy.Stored() && |header| == BLOCKS_IN_CHUNK && BlocksFor(length) <= BLOCKS_IN_CHUNK
    && (if copy.mapsBlocks then forall k :: k in copy.mapping ==> k < BlocksFor(length)
        else |copy.file| == BlocksFor(length) * BLOCK)
    && forall k :: 0 <= k < BlocksFor(length) ==>
        copy.BlockAt(k) == Cut(source.BlockAt(k), length - k * BLOCK) && header[k] == copy.crc(copy.BlockAt(k))
  }

  lemma WholeBlocksFinish(copy: Part, source: Part, length: nat)
    requires source.Valid() && BlocksFor(length) <= source.blocks && Holds(copy, source, length / BLOCK)
        && copy.crc == source.crc
    ensures forall k :: 0 <= k < length / BLOCK ==>
        copy.BlockAt(k) == Cut(source.BlockAt(k), length - k * BLOCK) && source.crcs[k] == copy.crc(copy.BlockAt(k))
  {
    BlocksForIs(length);
    forall k | 0 <= k < length / BLOCK
      ensures copy.BlockAt(k) == Cut(source.BlockAt(k), length - k * BLOCK)
    {
      WholeBlock(source.BlockAt(k), length - k * BLOCK);
    }
  }

  /** A copy not longer than the source: a block that the length falls into is copied on its own, cut and with the
      checksum of what is left. */
  method CutCopyTo(guard: ChunkCopyGuard, source: Part, copy: Part, length: nat, faults: Faults)
      returns (ok: bool, header: seq<nat>)
    requires guard.Tracks() && !guard.committed && source != copy && copy.crc == source.crc
    requires source.Valid() && BlocksFor(length) <= source.blocks && Holds(copy, source, length / BLOCK)
    modifies guard`sourceDamaged, copy`file, copy`mapping
    ensures guard.Tracks() && |header| == BLOCKS_IN_CHUNK && (faults.steps == {} ==> ok)
    ensures ok ==> Finished(copy, source, length, header) && guard.sourceDamaged == old(guard.sourceDamaged)
  {
    hide Recorded, Cut, FileBlock, BlocksFor;
    BlocksForIs(length);
    WholeBlocksFinish(copy, source, length);
    header := source.crcs;
    var block, last := length / BLOCK, length % BLOCK;
    if last == 0 {
      return true, header;
    }
    if ReadLast in faults.steps {
      guard.MarkSourceAsDamaged();
      return false, header;
    }
    var data := source.BlockAt(block);
    header := header[block := copy.crc(data[..last] + Zeros(BLOCK - last))];
    CutPiece(data, last);
    data := data[..last] + Zeros(BLOCK - last);
    if WriteLast in faults.steps {
      return false, header;
    }
    PutBlock(copy, data, block);
    ok := true;
  }

  /** One block more. */
  method PutBlock(copy: Part, data: seq<byte>, count: nat)
    requires copy.Stored() && |data| == BLOCK
    requires if copy.mapsBlocks then forall k :: k in copy.mapping ==> k < count else |copy.file| == count * BLOCK
    modifies copy`file, copy`mapping
    ensures copy.Stored() && if copy.mapsBlocks then forall k :: k in copy.mapping ==> k < count + 1
        else |copy.file| == (count + 1) * BLOCK
    ensures copy.BlockAt(count) == data && forall k :: 0 <= k < count ==> copy.BlockAt(k) == old(copy.BlockAt(k))
  {
    if copy.mapsBlocks {
      Map(copy, [data], count);
    } else {
      Append(copy, [data], count);
    }
  }

  /** Both parts are open, and the copy has the source's checksums. */
  method OpenBoth(guard: ChunkCopyGuard, source: Part, copy: Part, version: nat, newVersion: nat, faults: Faults)
      returns (status: Status)
    requires guard.Tracks() && !guard.hasCopy && !guard.committed && !guard.copyHasFiles && !guard.sourceDamaged
        && guard.log == []
    requires source != copy && faults.code != OK
    modifies guard`hasCopy, guard`sourceIoOpen, guard`copyIoOpen, guard`copyHasFiles, guard`sourceDamaged, guard`log,
        copy`crcs, source`version
    ensures guard.Tracks()
    ensures status == OK ==>
            guard.hasCopy && guard.sourceIoOpen && guard.copyIoOpen && !guard.sourceDamaged && copy.crcs == source.crcs
    ensures source.version == SourceVersion(old(source.version), version, newVersion, faults.steps)
    ensures old(source.version) != version && version != 0 ==> status == WRONGVERSION && copy.crcs == old(copy.crcs)
    ensures (old(source.version) == version || version == 0) && faults.steps == {} ==> status == OK
  {
    hide Times, Recorded;
    if source.version != version && version > 0 {
      return WRONGVERSION;
    }
    EmptyLog();
    status := CreateCopy(guard, faults);
    if status != OK {
      return;
    }
    status := OpenSourceForCopy(guard, source, version, newVersion, faults);
    if status != OK {
      return;
    }
    status := PrepareCopy(guard, source, copy, faults);
  }

  /** The source is copied up to a length. */
  method BuildCutCopy(guard: ChunkCopyGuard, source: Part, copy: Part, version: nat, newVersion: nat, length: nat,
      faults: Faults) returns (status: Status)
    requires guard.Tracks() && !guard.hasCopy && !guard.committed && !guard.copyHasFiles && !guard.sourceDamaged
        && guard.log == []
    requires source != copy && source.Valid() && Blank(copy) && copy.crc == source.crc && faults.code != OK
        && length <= BLOCKS_IN_CHUNK * BLOCK
    modifies guard, copy`file, copy`mapping, copy`crcs, copy`blocks, source`version
    ensures guard.Tracks() && guard.committed == (status == OK)
    ensures status == OK ==>
            && copy.Valid() && copy.blocks == BlocksFor(length)
            && copy.Resized(length, source.FirstBlocks(BLOCKS_IN_CHUNK))
    ensures source.version == SourceVersion(old(source.version), version, newVersion, faults.steps)
    ensures old(source.version) != version && version != 0 ==>
              && status == WRONGVERSION
              && copy.HasData(old(copy.file), old(copy.mapping), old(copy.blocks), old(copy.crcs))
    ensures (old(source.version) == version || version == 0) && Faultless(faults) ==> status == OK
  {
    hide Times, Recorded, Cut, FileBlock, BlocksFor, WholeBlocks, ChunkCopyGuard.Tracks, Part.FirstBlocks;
    status := OpenBoth(guard, source, copy, version, newVersion, faults);
    if status != OK {
      return;
    }
    BlankHoldsNothing(copy, source);
    status := CopyData(guard, source, copy, WholeBlocks(source.blocks, length), faults);
    if status != OK {
      return;
    }
    status := FinishCut(guard, source, copy, length, faults);
    if status != OK {
      return;
    }
    status := EndCut(guard, copy, length, faults);
  }

  /** The last block or the empty ones, and then the checksums. */
  method FinishCut(guard: ChunkCopyGuard, source: Part, copy: Part, length: nat, faults: Faults)
      returns (status: Status)
    requires guard.Tracks() && !guard.committed && source != copy && copy.crc == source.crc
        && length <= BLOCKS_IN_CHUNK * BLOCK
    requires source.Valid() && Holds(copy, source, WholeBlocks(source.blocks, length)) && faults.code != OK
    modifies guard`sourceDamaged, copy`file, copy`mapping, copy`crcs
    ensures guard.Tracks() && (faults.steps == {} ==> status == OK)
    ensures status == OK ==>
            copy.Resized(length, source.FirstBlocks(BLOCKS_IN_CHUNK)) && guard.sourceDamaged == old(guard.sourceDamaged)
  {
    hide Recorded, Cut, FileBlock, BlocksFor;
    BlocksForIs(length);
    var ok, header;
    if BlocksFor(length) > source.blocks {
      ok, header := GrowCopyTo(source, copy, length, faults);
    } else {
      ok, header := CutCopyTo(guard, source, copy, length, faults);
    }
    if !ok {
      return IO;
    }
    copy.crcs := header;
    status := if WriteCrc in faults.steps then IO else OK;
  }

  method EndCut(guard: ChunkCopyGuard, copy: Part, length: nat, faults: Faults) returns (status: Status)
    requires guard.Tracks() && guard.hasCopy && guard.sourceIoOpen && guard.copyIoOpen && !guard.sourceDamaged
        && !guard.committed && faults.code != OK
    modifies guard, copy`blocks
    ensures guard.Tracks() && guard.committed == (status == OK) && (faults.steps == {} ==> status == OK)
    ensures status == OK ==> copy.blocks == BlocksFor(length)
  {
    hide Times, Recorded;
    guard.EndSourceIo();
    if EndSource in faults.steps {
      guard.MarkSourceAsDamaged();
      return faults.code;
    }
    if SetLayout in faults.steps {
      return faults.code;
    }
    copy.blocks := BlocksFor(length);
    guard.EndCopyIo();
    if EndCopy in faults.steps {
      return faults.code;
    }
    guard.Commit();
    status := OK;
  }

  /** Duplicate-truncate, once the length is checked and the source found and locked: a copy that is kept has the
      source's data cut to the length and filled with zeros to whole blocks, with the right checksums. */
  method DuplicateTruncate(source: Part, copy: Part, version: nat, newVersion: nat, length: nat, faults: Faults)
      returns (status: Status, log: seq<CopyEvent>)
    requires source != copy && source.Valid() && Blank(copy) && copy.crc == source.crc && faults.code != OK
    modifies copy`file, copy`mapping, copy`crcs, copy`blocks, source`version
    ensures log == [] <==> length > BLOCKS_IN_CHUNK * BLOCK
    ensures log != [] ==> Settled(log, status == OK)
    ensures status == OK ==>
            && copy.Valid() && copy.blocks == BlocksFor(length)
            && copy.Resized(length, source.FirstBlocks(BLOCKS_IN_CHUNK))
    ensures log == [] ==>
              && status == WRONGSIZE && source.version == old(source.version)
              && copy.HasData(old(copy.file), old(copy.mapping), old(copy.blocks), old(copy.crcs))
    ensures log != [] ==> source.version == SourceVersion(old(source.version), version, newVersion, faults.steps)
    ensures log != [] && old(source.version) != version && version != 0 ==>
              && status == WRONGVERSION
              && copy.HasData(old(copy.file), old(copy.mapping), old(copy.blocks), old(copy.crcs))
    ensures log != [] && (old(source.version) == version || version == 0) && Faultless(faults) ==> status == OK
  {
    hide Times, Recorded;
    if length > BLOCKS_IN_CHUNK * BLOCK {
      return WRONGSIZE, [];
    }
    var guard := new ChunkCopyGuard();
    status := BuildCutCopy(guard, source, copy, version, newVersion, length, faults);
    guard.Unwind();
    log := guard.log;
    assert Times(log, SourceReleased) == 1;
  }
}
