/** Truncating a chunk part to a length: its data is cut or grown to whole blocks and the checksums follow. */
module Truncation {
  import opened Common
  import opened InputBuffers

  const BLOCKS_IN_CHUNK: nat := 1024

  /** Disk operations that can fail. */
  datatype Fault = Rename | BeginIo | OverwriteVersion | CutData | GrowData | ReadData | WriteData | SetBlocks | EndIo

  /** What happens to the locked part, in order. */
  datatype Event = Released | IoBegan | IoEnded

  function BlocksFor(length: nat): nat {
    (length + BLOCK - 1) / BLOCK
  }

  /** A block of the part cut to the first `length` bytes and filled with zeros. */
  function Cut(block: seq<byte>, length: int): (r: seq<byte>)
    requires |block| == BLOCK
    ensures |r| == BLOCK
  {
    if length >= BLOCK then block
    else if length <= 0 then Zeros(BLOCK)
    else block[..length] + Zeros(BLOCK - length)
  }

  function FileBlock(file: seq<byte>, k: nat): (r: seq<byte>)
    ensures |r| == BLOCK
  {
    if (k + 1) * BLOCK <= |file| then file[k * BLOCK..(k + 1) * BLOCK] else Zeros(BLOCK)
  }

  lemma BlocksForIs(length: nat)
    ensures BlocksFor(length) == length / BLOCK + (if length % BLOCK > 0 then 1 else 0)
    ensures forall k :: 0 <= k < length / BLOCK ==> length - k * BLOCK >= BLOCK
    ensures length - length / BLOCK * BLOCK == length % BLOCK
  {
  }

  /** Bytes kept up to the length and zeros behind are, block by block, the old blocks cut there. */
  lemma CutBlock(before: seq<byte>, after: seq<byte>, length: nat, k: nat)
    requires |after| == BlocksFor(length) * BLOCK <= |before| && k < BlocksFor(length)
    requires forall i :: 0 <= i < |after| ==> after[i] == if i < length then before[i] else 0
    ensures FileBlock(after, k) == Cut(FileBlock(before, k), length - k * BLOCK)
  {
    BlocksForIs(length);
    assert FileBlock(before, k) == before[k * BLOCK..(k + 1) * BLOCK];
    assert FileBlock(after, k) == after[k * BLOCK..(k + 1) * BLOCK];
  }

  /** The checksums of the blocks from one to another become that of an empty block. */
  method EmptyCrcs(crcs: seq<nat>, from: nat, to: nat, empty: nat) returns (r: seq<nat>)
    requires to <= |crcs|
    ensures |r| == |crcs| && forall k :: 0 <= k < |crcs| ==> r[k] == if from <= k < to then empty else crcs[k]
  {
    r := crcs;
    var block := from;
    while block < to
      invariant from <= block && |r| == |crcs|
      invariant forall k :: 0 <= k < |crcs| ==> r[k] == if from <= k < block && k < to then empty else crcs[k]
    {
      r := r[block := empty];
      block := block + 1;
    }
  }

  /** Whether the data of a part can be brought to the length, with these operations failing. */
  predicate Resizes(mapsBlocks: bool, blocks: nat, length: nat, faults: set<Fault>) {
    if BlocksFor(length) > blocks then mapsBlocks || GrowData !in faults
    else if mapsBlocks then length % BLOCK > 0 ==> ReadData !in faults && WriteData !in faults
    else GrowData !in faults && (length % BLOCK > 0 ==> CutData !in faults && ReadData !in faults)
  }

  class Part {
    const mapsBlocks: bool                // the disk maps blocks itself
    const crc: seq<byte> -> nat
    var file: seq<byte>                   // data at implicit offsets
    var mapping: map<nat, seq<byte>>      // data of a disk that maps blocks; other blocks read as zeros
    var blocks: nat
    var crcs: seq<nat>
    var version: nat
    var events: seq<Event>

    predicate Stored()
      reads this
    {
      if mapsBlocks then forall k :: k in mapping ==> |mapping[k]| == BLOCK else true
    }

    function BlockAt(k: nat): (r: seq<byte>)
      requires Stored()
      reads this
      ensures |r| == BLOCK
    {
      if mapsBlocks then (if k in mapping then mapping[k] else Zeros(BLOCK))
      else FileBlock(file, k)
    }

    /** The data is whole blocks, and every block's checksum is the checksum of its bytes. */
    ghost predicate Valid()
      reads this
    {
      && Stored() && blocks <= BLOCKS_IN_CHUNK && |crcs| == BLOCKS_IN_CHUNK
      && (if mapsBlocks then forall k :: k in mapping ==> k < blocks else |file| == blocks * BLOCK)
      && forall k :: 0 <= k < blocks ==> crcs[k] == crc(BlockAt(k))
    }

    method Ftruncate(length: nat)
      requires !mapsBlocks
      modifies this`file
      ensures |file| == length && forall i :: 0 <= i < length ==> file[i] == if i < |old(file)| then old(file)[i] else 0
    {
      file := if length <= |file| then file[..length] else file + Zeros(length - |file|);
    }

    /** New blocks get the checksum of an empty block. */
    method FillEmptyCrcs(from: nat, to: nat)
      requires |crcs| == BLOCKS_IN_CHUNK && to <= BLOCKS_IN_CHUNK
      modifies this`crcs
      ensures |crcs| == BLOCKS_IN_CHUNK
      ensures forall k :: 0 <= k < BLOCKS_IN_CHUNK ==> crcs[k] == if from <= k < to then crc(Zeros(BLOCK))
          else old(crcs)[k]
    {
      crcs := EmptyCrcs(crcs, from, to, crc(Zeros(BLOCK)));
    }

    method ShrinkToBlocks(count: nat)
      requires mapsBlocks
      modifies this`mapping
      ensures mapping == map k | k in old(mapping) && k < count :: old(mapping)[k]
    {
      mapping := map k | k in mapping && k < count :: mapping[k];
    }

    /** The data has been brought to the length: every block is the old one cut there, with its checksum. */
    ghost predicate Resized(length: nat, before: seq<seq<byte>>)
      reads this
    {
      && Stored() && |crcs| == BLOCKS_IN_CHUNK && BlocksFor(length) <= |before| && BlocksFor(length) <= BLOCKS_IN_CHUNK
      && (if mapsBlocks then forall k :: k in mapping ==> k < BlocksFor(length)
          else |file| == BlocksFor(length) * BLOCK)
      && (forall k :: 0 <= k < |before| ==> |before[k]| == BLOCK)
      && forall k :: 0 <= k < BlocksFor(length) ==>
          BlockAt(k) == Cut(before[k], length - k * BLOCK) && crcs[k] == crc(BlockAt(k))
    }

    /** Of the part's blocks, those wholly below the length have the old bytes and checksums. */
    ghost predicate KeepsBelow(length: nat, count: nat, before: seq<seq<byte>>, checksums: seq<nat>)
      reads this
    {
      && Stored() && |crcs| == |checksums|
      && forall k :: 0 <= k < length / BLOCK && k < count && k < |before| && k < |checksums| ==>
           BlockAt(k) == before[k] && crcs[k] == checksums[k]
    }

    /** The data, the number of blocks and the checksums are as given. */
    ghost predicate HasData(file: seq<byte>, mapping: map<nat, seq<byte>>, blocks: nat, crcs: seq<nat>)
      reads this
    {
      this.file == file && this.mapping == mapping && this.blocks == blocks && this.crcs == crcs
    }

    /** The first blocks, as they are; blocks that the part does not have are zeros. */
    ghost function FirstBlocks(n: nat): (r: seq<seq<byte>>)
      requires Stored()
      reads this
      ensures |r| == n && forall k :: 0 <= k < n ==> |r[k]| == BLOCK && r[k] == BlockAt(k)
    {
      seq(n, k requires 0 <= k < n && Stored() reads this => BlockAt(k))
    }

    method Expand(length: nat, faults: set<Fault>) returns (ok: bool)
      requires Valid() && blocks < BlocksFor(length) <= BLOCKS_IN_CHUNK
      modifies this`file, this`crcs
      ensures ok ==> Resized(length, old(FirstBlocks(BLOCKS_IN_CHUNK)))
      ensures ok <==> Resizes(mapsBlocks, blocks, length, faults)
      ensures KeepsBelow(length, blocks, old(FirstBlocks(BLOCKS_IN_CHUNK)), old(crcs))
    {
      ghost var before := FirstBlocks(BLOCKS_IN_CHUNK);
      ghost var count, new_ := blocks, BlocksFor(length);
      FillEmptyCrcs(blocks, BlocksFor(length));
      if !mapsBlocks {
        if GrowData in faults {
          return false;
        }
        Ftruncate(BlocksFor(length) * BLOCK);
      }
      forall k | 0 <= k < new_
        ensures BlockAt(k) == Cut(before[k], length - k * BLOCK) && crcs[k] == crc(BlockAt(k))
      {
        assert k < count ==> length - k * BLOCK >= BLOCK;
        assert BlockAt(k) == before[k];
        assert k >= count ==> before[k] == Zeros(BLOCK);
        CutZeros(length - k * BLOCK);
      }
      ok := true;
    }

    /** Data at implicit offsets is cut to the length and grown again to whole blocks. */
    method CutFile(length: nat, faults: set<Fault>) returns (ok: bool)
      requires Valid() && !mapsBlocks && BlocksFor(length) <= blocks
      modifies this`file
      ensures ok ==> |file| == BlocksFor(length) * BLOCK
      ensures ok <==> GrowData !in faults && (length % BLOCK > 0 ==> CutData !in faults)
      ensures length <= |file| && file[..length] == old(file)[..length]
      ensures ok ==> forall i :: 0 <= i < |file| ==> file[i] == if i < length then old(file)[i] else 0
    {
      var full := length / BLOCK;
      if length - full * BLOCK > 0 {
        if CutData in faults {
          return false;
        }
        Ftruncate(length);
      }
      if GrowData in faults {
        return false;
      }
      Ftruncate(BlocksFor(length) * BLOCK);
      ok := true;
    }

    /** The last block, where the length falls into it, gets the checksum of its bytes up to the length and of zeros. */
    method FixLastCrc(length: nat, kept: seq<byte>, originalBlocks: nat)
      requires |crcs| == BLOCKS_IN_CHUNK && originalBlocks <= BLOCKS_IN_CHUNK && length / BLOCK < originalBlocks
          && |kept| == length % BLOCK
      modifies this`crcs
      ensures |crcs| == BLOCKS_IN_CHUNK && crcs[length / BLOCK] == crc(kept + Zeros(BLOCK - |kept|))
      ensures forall k :: 0 <= k < length / BLOCK ==> crcs[k] == old(crcs)[k]
    {
      var full := length / BLOCK;
      crcs := crcs[full := crc(kept + Zeros(BLOCK - |kept|))];
      FillEmptyCrcs(full + (if mapsBlocks then 2 else 1), originalBlocks);
    }

    method ShrinkFile(length: nat, faults: set<Fault>) returns (ok: bool)
      requires Valid() && !mapsBlocks && BlocksFor(length) <= blocks
      modifies this`file, this`crcs
      ensures ok ==> Resized(length, old(FirstBlocks(BLOCKS_IN_CHUNK)))
      ensures ok <==> Resizes(mapsBlocks, blocks, length, faults)
      ensures KeepsBelow(length, blocks, old(FirstBlocks(BLOCKS_IN_CHUNK)), old(crcs))
    {
      hide Cut, FileBlock, BlocksFor;
      ghost var before, bytes := FirstBlocks(BLOCKS_IN_CHUNK), file;
      BlocksForIs(length);
      var full, partial := length / BLOCK, length % BLOCK;
      ok := CutFile(length, faults);
      forall k | 0 <= k < full
        ensures BlockAt(k) == before[k]
      {
        SameBelow(bytes, file, length, k);
      }
      if !ok {
        return;
      }
      ghost var after := file;
      forall k | 0 <= k < BlocksFor(length)
        ensures FileBlock(after, k) == Cut(before[k], length - k * BLOCK)
      {
        CutBlock(bytes, after, length, k);
      }
      if partial > 0 {
        if ReadData in faults {
          return false;
        }
        LastPiece(file, length);
        FixLastCrc(length, file[full * BLOCK..full * BLOCK + partial], blocks);
      }
      forall k | 0 <= k < full
        ensures crcs[k] == crc(FileBlock(after, k))
      {
        WholeBlock(before[k], length - k * BLOCK);
      }
    }

    method ShrinkMapping(length: nat, faults: set<Fault>) returns (ok: bool)
      requires Valid() && mapsBlocks && BlocksFor(length) <= blocks
      modifies this`mapping, this`crcs
      ensures ok ==> Resized(length, old(FirstBlocks(BLOCKS_IN_CHUNK)))
      ensures ok <==> Resizes(mapsBlocks, blocks, length, faults)
      ensures KeepsBelow(length, blocks, old(FirstBlocks(BLOCKS_IN_CHUNK)), old(crcs))
    {
      hide Cut, FileBlock, BlocksFor;
      ghost var before := FirstBlocks(BLOCKS_IN_CHUNK);
      BlocksForIs(length);
      var full, partial := length / BLOCK, length % BLOCK;
      ShrinkToBlocks(BlocksFor(length));
      assert forall k :: 0 <= k < BlocksFor(length) ==> BlockAt(k) == before[k];
      ok := true;
      if partial > 0 {
        ok := CutLastMapped(length, faults);
      }
      if ok {
        forall k | 0 <= k < full
          ensures BlockAt(k) == Cut(before[k], length - k * BLOCK) && crcs[k] == crc(BlockAt(k))
        {
          WholeBlock(before[k], length - k * BLOCK);
        }
      }
    }

    /** The block that the length falls into is read, filled with zeros and written back. */
    method CutLastMapped(length: nat, faults: set<Fault>) returns (ok: bool)
      requires mapsBlocks && Stored() && |crcs| == BLOCKS_IN_CHUNK && length / BLOCK < blocks <= BLOCKS_IN_CHUNK
          && length % BLOCK > 0
      modifies this`mapping, this`crcs
      ensures ok <==> ReadData !in faults && WriteData !in faults
      ensures Stored() && |crcs| == BLOCKS_IN_CHUNK && forall k :: 0 <= k < length / BLOCK ==> crcs[k] == old(crcs)[k]
      ensures var full, block := length / BLOCK, Cut(old(BlockAt(length / BLOCK)), length % BLOCK);
              mapping == (if ok then old(mapping)[full := block] else old(mapping)) && (ok ==> crcs[full] == crc(block))
    {
      hide Cut;
      var full, partial := length / BLOCK, length % BLOCK;
      ok := false;
      if ReadData in faults {
        return;
      }
      var block := BlockAt(full);
      CutPiece(block, partial);
      block := block[..partial] + Zeros(BLOCK - partial);
      FixLastCrc(length, block[..partial], blocks);
      if WriteData in faults {
        return;
      }
      mapping := mapping[full := block];
      ok := true;
    }

    method ResizeData(length: nat, faults: set<Fault>) returns (ok: bool)
      requires Valid() && BlocksFor(length) <= BLOCKS_IN_CHUNK
      modifies this`file, this`mapping, this`crcs
      ensures ok ==> Resized(length, old(FirstBlocks(BLOCKS_IN_CHUNK)))
      ensures ok <==> Resizes(mapsBlocks, blocks, length, faults)
      ensures KeepsBelow(length, blocks, old(FirstBlocks(BLOCKS_IN_CHUNK)), old(crcs))
    {
      if BlocksFor(length) > blocks {
        ok := Expand(length, faults);
      } else if mapsBlocks {
        ok := ShrinkMapping(length, faults);
      } else {
        ok := ShrinkFile(length, faults);
      }
    }

    method EndAndRelease()
      modifies this`events
      ensures events == old(events) + [IoEnded, Released]
    {
      events := events + [IoEnded, Released];
    }

    /** The data is brought to the length, and the part's I/O ends. */
    method ResizeAndEnd(length: nat, faults: set<Fault>, failure: Status) returns (status: Status)
      requires Valid() && BlocksFor(length) <= BLOCKS_IN_CHUNK && failure != OK
      modifies this`file, this`mapping, this`crcs, this`blocks, this`events
      ensures events == old(events) + [IoEnded, Released]
      ensures status == OK ==>
                Valid() && blocks == BlocksFor(length) && Resized(length, old(FirstBlocks(BLOCKS_IN_CHUNK)))
      ensures status == OK <==>
                SetBlocks !in faults && EndIo !in faults && Resizes(mapsBlocks, old(blocks), length, faults)
      ensures status != OK ==> status == IO || status == failure
      ensures KeepsBelow(length, old(blocks), old(FirstBlocks(BLOCKS_IN_CHUNK)), old(crcs))
    {
      hide BlocksFor, Cut, FileBlock, Resizes;
      var ok := ResizeData(length, faults);
      if !ok {
        EndAndRelease();
        return IO;
      }
      if SetBlocks in faults {
        EndAndRelease();
        return failure;
      }
      blocks := BlocksFor(length);
      EndAndRelease();
      status := if EndIo in faults then failure else OK;
    }

    /** The part is brought to the length under a new version. Whatever fails, the part is released once, its I/O is
        ended if and only if it was begun, and blocks wholly below the length keep their bytes and checksums. Success
        means that the data is the old data cut to the length and filled with zeros to whole blocks, with the right
        checksums. A refused call changes nothing, and until the new version is written the data is not touched.
        `failure` is the status of a failed disk operation. */
    method Truncate(oldVersion: nat, newVersion: nat, length: nat, faults: set<Fault>, failure: Status)
        returns (status: Status)
      requires Valid() && events == [] && failure != OK
      modifies this
      ensures events == [] || events == [Released] || events == [IoBegan, IoEnded, Released]
      ensures events == [] <==> length > BLOCKS_IN_CHUNK * BLOCK
      ensures status == OK ==>
                && events == [IoBegan, IoEnded, Released] && (old(version) == oldVersion || oldVersion == 0)
                    && version == newVersion
                && Valid() && blocks == BlocksFor(length) && Resized(length, old(FirstBlocks(BLOCKS_IN_CHUNK)))
      ensures length > BLOCKS_IN_CHUNK * BLOCK ==> status == WRONGSIZE
      ensures length <= BLOCKS_IN_CHUNK * BLOCK && old(version) != oldVersion && oldVersion != 0 ==>
                status == WRONGVERSION
      ensures length > BLOCKS_IN_CHUNK * BLOCK || (old(version) != oldVersion && oldVersion != 0) ==>
                version == old(version) && HasData(old(file), old(mapping), old(blocks), old(crcs))
      ensures length <= BLOCKS_IN_CHUNK * BLOCK && (old(version) == oldVersion || oldVersion == 0) ==>
                && version == (if Rename in faults then old(version) else newVersion)
                && (Rename in faults || BeginIo in faults || OverwriteVersion in faults ==>
                      HasData(old(file), old(mapping), old(blocks), old(crcs)))
                && (events == [Released] <==> Rename in faults || BeginIo in faults)
                && (status == OK <==>
                      faults !! {Rename, BeginIo, OverwriteVersion, SetBlocks, EndIo}
                          && Resizes(mapsBlocks, old(blocks), length, faults))
                && (status != OK ==> status == IO || status == failure)
      ensures KeepsBelow(length, old(blocks), old(FirstBlocks(BLOCKS_IN_CHUNK)), old(crcs))
    {
      hide Resizes, Cut, FileBlock;
      if length > BLOCKS_IN_CHUNK * BLOCK {
        return WRONGSIZE;
      }
      BlocksForIs(length);
      if version != oldVersion && oldVersion > 0 {
        events := [Released];
        return WRONGVERSION;
      }
      if Rename in faults {
        events := [Released];
        return IO;
      }
      version := newVersion;
      if BeginIo in faults {
        events := [Released];
        return failure;
      }
      events := [IoBegan];
      if OverwriteVersion in faults {
        EndAndRelease();
        return IO;
      }
      status := ResizeAndEnd(length, faults, failure);
    }
  }

  lemma SameBelow(before: seq<byte>, after: seq<byte>, length: nat, k: nat)
    requires length <= |before| && length <= |after| && after[..length] == before[..length] && k < length / BLOCK
    ensures FileBlock(after, k) == FileBlock(before, k)
  {
    assert (k + 1) * BLOCK <= length;
    assert after[k * BLOCK..(k + 1) * BLOCK] == after[..length][k * BLOCK..(k + 1) * BLOCK];
    assert before[k * BLOCK..(k + 1) * BLOCK] == before[..length][k * BLOCK..(k + 1) * BLOCK];
  }

  lemma WholeBlock(block: seq<byte>, length: int)
    requires |block| == BLOCK && length >= BLOCK
    ensures Cut(block, length) == block
  {
  }

  lemma CutPiece(block: seq<byte>, length: nat)
    requires |block| == BLOCK && 0 < length < BLOCK
    ensures Cut(block, length) == block[..length] + Zeros(BLOCK - length)
        && Cut(block, length)[..length] == block[..length]
  {
  }

  /** The last block of a cut file is what is left of it and zeros. */
  lemma LastPiece(file: seq<byte>, length: nat)
    requires |file| == BlocksFor(length) * BLOCK && length % BLOCK > 0 && forall i :: length <= i < |file| ==>
        file[i] == 0
    ensures var full, partial := length / BLOCK, length % BLOCK;
            full * BLOCK + partial <= |file|
                && FileBlock(file, full) == file[full * BLOCK..full * BLOCK + partial] + Zeros(BLOCK - partial)
  {
    BlocksForIs(length);
  }

  lemma CutZeros(length: int)
    ensures Cut(Zeros(BLOCK), length) == Zeros(BLOCK)
  {
  }

  // The same as bytes.

  /** The bytes of all blocks. */
  function Joined(blocks: seq<seq<byte>>): seq<byte> {
    if blocks == [] then [] else Joined(blocks[..|blocks| - 1]) + blocks[|blocks| - 1]
  }

  lemma {:induction false} JoinedLength(blocks: seq<seq<byte>>)
    requires forall k :: 0 <= k < |blocks| ==> |blocks[k]| == BLOCK
    ensures |Joined(blocks)| == |blocks| * BLOCK
  {
    if blocks != [] {
      JoinedLength(blocks[..|blocks| - 1]);
    }
  }

  lemma {:induction false} JoinedPrefix(blocks: seq<seq<byte>>, n: nat)
    requires n <= |blocks|
    ensures Joined(blocks[..n]) <= Joined(blocks)
    decreases |blocks| - n
  {
    if n == |blocks| {
      assert blocks[..n] == blocks;
    } else {
      JoinedPrefix(blocks, n + 1);
      assert blocks[..n + 1][..n] == blocks[..n];
    }
  }

  /** Cutting every block is cutting the bytes: the first `length` bytes, then zeros up to whole blocks. */
  lemma CutBlocksAreCutBytes(before: seq<seq<byte>>, after: seq<seq<byte>>, length: nat)
    requires |after| == BlocksFor(length) <= |before| && (forall k :: 0 <= k < |before| ==> |before[k]| == BLOCK)
    requires forall k :: 0 <= k < |after| ==> after[k] == Cut(before[k], length - k * BLOCK)
    ensures length <= |Joined(before)| && Joined(after) == Joined(before)[..length] + Zeros(|after| * BLOCK - length)
  {
    hide Joined, Cut, BlocksFor;
    BlocksForIs(length);
    var full, partial := length / BLOCK, length % BLOCK;
    JoinedLength(before);
    JoinedPrefix(before, full);
    JoinedLength(before[..full]);
    forall k | 0 <= k < full
      ensures after[k] == before[k]
    {
      WholeBlock(before[k], length - k * BLOCK);
    }
    assert after[..full] == before[..full];
    if partial > 0 {
      JoinedPrefix(before, full + 1);
      JoinedStep(before, full);
      JoinedStep(after, full);
      assert after[..full + 1] == after;
      CutPiece(before[full], partial);
      LastCut(Joined(before), Joined(before[..full]), before[full], partial);
      Regroup(Joined(before[..full]), before[full][..partial], Zeros(BLOCK - partial));
    } else {
      assert after == before[..full];
      AllKept(Joined(before), Joined(after), length);
    }
  }

  lemma AllKept(all: seq<byte>, a: seq<byte>, length: nat)
    requires a <= all && |a| == length
    ensures a == all[..length] + Zeros(0)
  {
  }

  lemma JoinedStep(blocks: seq<seq<byte>>, n: nat)
    requires n < |blocks|
    ensures Joined(blocks[..n + 1]) == Joined(blocks[..n]) + blocks[n]
  {
    assert blocks[..n + 1][..n] == blocks[..n];
  }

  lemma LastCut(all: seq<byte>, a: seq<byte>, b: seq<byte>, n: nat)
    requires a + b <= all && n <= |b|
    ensures all[..|a| + n] == a + b[..n]
  {
  }
}
