/** Reads are patched with writes that were acknowledged but are not on the disk yet, so that a reader sees what
    the writer was told. */
module ReadOverlay {
  import opened Common
  import opened InputBuffers
  import opened ChunkWrites

  /** An input buffer with replied blocks, registered for a part, and the version its session writes at, if any. */
  datatype RepliedBuffer = RepliedBuffer(infos: seq<WriteInfo>, memory: seq<byte>, replied: nat, version: Option<nat>) {
    predicate ServedAt(partVersion: nat) {
      version.None? || version.value == partVersion
    }

    predicate Valid() {
      && replied <= |infos| && |infos| * BLOCK <= |memory|
      && forall i :: 0 <= i < |infos| ==> infos[i].offset + infos[i].size <= BLOCK
    }
  }

  function WriteOf(b: RepliedBuffer, i: nat): Write
    requires b.Valid() && i < |b.infos|
  {
    assert (i + 1) * BLOCK <= |b.memory|;
    Write(b.infos[i].block * BLOCK + b.infos[i].offset, b.memory[i * BLOCK..i * BLOCK + b.infos[i].size])
  }

  ghost predicate AllSound(buffers: seq<RepliedBuffer>) {
    forall k :: 0 <= k < |buffers| ==> buffers[k].Valid()
  }

  /** The first replied writes of the buffer, in the order received. */
  function FirstWrites(b: RepliedBuffer, n: nat): seq<Write>
    requires b.Valid() && n <= |b.infos|
    decreases n
  {
    if n == 0 then [] else FirstWrites(b, n - 1) + [WriteOf(b, n - 1)]
  }

  /** The replied writes of all buffers served at the version, buffer by buffer. */
  ghost function ServedWrites(buffers: seq<RepliedBuffer>, partVersion: nat): seq<Write>
    requires AllSound(buffers)
    decreases |buffers|
  {
    if buffers == [] then []
    else
      var b := buffers[|buffers| - 1];
      ServedWrites(buffers[..|buffers| - 1], partVersion)
          + (if b.version == None || b.version == Some(partVersion) then FirstWrites(b, b.replied) else [])
  }

  /** No buffer belongs to a session at the version, nor to one without a version. */
  predicate AllOther(buffers: seq<RepliedBuffer>, partVersion: nat) {
    forall k :: 0 <= k < |buffers| ==> buffers[k].version.Some? && buffers[k].version.value != partVersion
  }

  lemma {:induction false} OtherVersionsServeNothing(buffers: seq<RepliedBuffer>, partVersion: nat)
    requires AllSound(buffers) && AllOther(buffers, partVersion)
    ensures ServedWrites(buffers, partVersion) == []
    decreases |buffers|
  {
    if buffers != [] {
      OtherVersionsServeNothing(buffers[..|buffers| - 1], partVersion);
    }
  }

  /** The write is a replied one of the buffer, and the buffer has no version or that version. */
  ghost predicate IsServed(b: RepliedBuffer, partVersion: nat, w: Write)
    requires b.Valid()
  {
    (b.version == None || b.version == Some(partVersion)) && exists i :: 0 <= i < b.replied && w == WriteOf(b, i)
  }

  /** These are the writes that a read at the version is patched with. */
  lemma {:induction false} ServedIffOfTheVersion(buffers: seq<RepliedBuffer>, partVersion: nat, w: Write)
    requires AllSound(buffers)
    ensures w in ServedWrites(buffers, partVersion) <==>
              exists k :: 0 <= k < |buffers| && IsServed(buffers[k], partVersion, w)
    decreases |buffers|
  {
    if buffers != [] {
      var n := |buffers| - 1;
      var before, b := buffers[..n], buffers[n];
      ServedIffOfTheVersion(before, partVersion, w);
      FirstAre(b, b.replied, w);
      assert forall k :: 0 <= k < n ==> before[k] == buffers[k];
      assert w in FirstWrites(b, b.replied) && (b.version == None || b.version == Some(partVersion)) <==>
             IsServed(b, partVersion, w);
    }
  }

  lemma {:induction false} FirstAre(b: RepliedBuffer, n: nat, w: Write)
    requires b.Valid() && n <= |b.infos|
    ensures w in FirstWrites(b, n) <==> exists i :: 0 <= i < n && w == WriteOf(b, i)
    decreases n
  {
    if n > 0 {
      FirstAre(b, n - 1, w);
    }
  }

  predicate Overlaps(w: Write, offset: nat, size: nat) {
    Max(offset, w.start) < Min(offset + size, w.start + |w.bytes|)
  }

  /** The read is aligned to blocks, or inside a single one. */
  predicate Supported(offset: nat, size: nat) {
    offset % BLOCK == 0 || offset % BLOCK + size <= BLOCK
  }

  /** The bytes of a block of the read; the last block may be short. */
  ghost function BlockBytes(data: seq<byte>, k: nat): seq<byte>
    requires k * BLOCK <= |data|
  {
    data[k * BLOCK..Min((k + 1) * BLOCK, |data|)]
  }

  class ReadBuffer {
    const offset: nat
    const size: nat
    const data: array<byte>
    const crcs: array<nat>
    const crc: seq<byte> -> nat

    ghost predicate Valid()
      reads this, data
    {
      data.Length == size && crcs.Length * BLOCK < size + BLOCK && size <= crcs.Length * BLOCK
          && Supported(offset, size)
    }

    constructor (offset: nat, bytes: seq<byte>, checksums: seq<nat>, crc: seq<byte> -> nat)
      requires |checksums| * BLOCK < |bytes| + BLOCK && |bytes| <= |checksums| * BLOCK && Supported(offset, |bytes|)
      ensures Valid() && fresh(data) && fresh(crcs) && data[..] == bytes && crcs[..] == checksums
          && this.offset == offset && this.crc == crc
    {
      this.offset, this.size, this.crc := offset, |bytes|, crc;
      data := new byte[|bytes|](i requires 0 <= i < |bytes| => bytes[i]);
      crcs := new nat[|checksums|](i requires 0 <= i < |checksums| => checksums[i]);
    }

    method Overwrite(at: nat, bytes: seq<byte>)
      requires at + |bytes| <= data.Length
      modifies data
      ensures forall i :: 0 <= i < data.Length ==> data[i] == if at <= i < at + |bytes| then bytes[i - at]
          else old(data[i])
    {
      var i := 0;
      while i < |bytes|
        invariant 0 <= i <= |bytes|
        invariant forall j :: 0 <= j < data.Length ==> data[j] == if at <= j < at + i then bytes[j - at]
            else old(data[j])
      {
        data[at + i] := bytes[i];
        i := i + 1;
      }
    }

    /** The block of the read that the write falls into, where in it the common bytes start, and its length. */
    method Locate(w: Write) returns (blockIndex: nat, startInBlock: nat, blockSize: nat)
      requires Valid() && w.InOneBlock() && Overlaps(w, offset, size)
      ensures blockIndex == BlockOf(w, offset) && blockIndex * BLOCK + startInBlock == Max(offset, w.start) - offset
      ensures blockIndex < crcs.Length && blockIndex * BLOCK + blockSize == Min((blockIndex + 1) * BLOCK, size)
    {
      WhichBlock(w, offset, size);
      blockIndex, startInBlock, blockSize := 0, Max(offset, w.start) - offset, size;
      if offset % BLOCK == 0 {
        blockSize := if startInBlock / BLOCK == size / BLOCK then (size - 1) % BLOCK + 1 else BLOCK;
        blockIndex := startInBlock / BLOCK;
        startInBlock := startInBlock % BLOCK;
      }
    }

    /** One replied write: its bytes inside the read replace those read, and the block it falls into gets the checksum
        of its bytes as they are now. */
    method PatchOne(w: Write)
      requires Valid() && w.InOneBlock()
      modifies data, crcs
      ensures forall i :: 0 <= i < size ==> data[i] == if w.Covers(offset + i) then w.bytes[offset + i - w.start]
          else old(data[i])
      ensures forall k :: 0 <= k < crcs.Length ==> crcs[k] == if Touches(w, offset, size, k)
          then crc(BlockBytes(data[..], k)) else old(crcs[k])
    {
      hide Touches, BlockOf, Supported;
      var commonStart, commonEnd := Max(offset, w.start), Min(offset + size, w.start + |w.bytes|);
      if commonStart >= commonEnd {
        NoneTouched(w, offset, size);
        return;
      }
      WhichBlock(w, offset, size);
      var blockIndex, startInBlock, blockSize := Locate(w);
      var startInWrite := commonStart - w.start;
      Overwrite(blockIndex * BLOCK + startInBlock, w.bytes[startInWrite..startInWrite + (commonEnd - commonStart)]);
      assert data[blockIndex * BLOCK..blockIndex * BLOCK + blockSize] == BlockBytes(data[..], blockIndex);
      crcs[blockIndex] := crc(data[blockIndex * BLOCK..blockIndex * BLOCK + blockSize]);
    }

    /** Patches the read with the replied writes served at the part's version. */
    method Patch(buffers: seq<RepliedBuffer>, partVersion: nat)
      requires Valid() && AllSound(buffers)
      modifies data, crcs
      ensures Overlaid(crc, offset, old(data[..]), old(crcs[..]), ServedWrites(buffers, partVersion), data[..],
          crcs[..])
      ensures AllOther(buffers, partVersion) ==> data[..] == old(data[..]) && crcs[..] == old(crcs[..])
    {
      hide Touches, Newest, Supported, CrcFits, AllOther;
      ghost var bytes, checksums := data[..], crcs[..];
      NothingOverlaid(crc, offset, bytes, checksums);
      var k := 0;
      while k < |buffers|
        invariant 0 <= k <= |buffers| && Overlaid(crc, offset, bytes, checksums,
            ServedWrites(buffers[..k], partVersion), data[..], crcs[..])
      {
        assert buffers[..k + 1][..k] == buffers[..k];
        ghost var served := ServedWrites(buffers[..k], partVersion);
        assert served + [] == served;
        if buffers[k].ServedAt(partVersion) {
          PatchBuffer(buffers[k], bytes, checksums, served);
        }
        k := k + 1;
      }
      assert buffers[..k] == buffers;
      if AllOther(buffers, partVersion) {
        OtherVersionsServeNothing(buffers, partVersion);
        OverlaidByNothing(crc, offset, bytes, checksums, data[..], crcs[..]);
      }
    }

    /** The replied blocks of one buffer, in the order received. */
    method PatchBuffer(b: RepliedBuffer, ghost bytes: seq<byte>, ghost checksums: seq<nat>, ghost before: seq<Write>)
      requires Valid() && b.Valid() && |bytes| <= |checksums| * BLOCK < |bytes| + BLOCK
      requires Overlaid(crc, offset, bytes, checksums, before, data[..], crcs[..])
      modifies data, crcs
      ensures Overlaid(crc, offset, bytes, checksums, before + FirstWrites(b, b.replied), data[..], crcs[..])
    {
      hide Touches, Newest, Supported, CrcFits;
      var i := 0;
      assert before + FirstWrites(b, 0) == before;
      while i < b.replied
        invariant 0 <= i <= b.replied
            && Overlaid(crc, offset, bytes, checksums, before + FirstWrites(b, i), data[..], crcs[..])
      {
        ghost var b1, c1 := data[..], crcs[..];
        var w := WriteOf(b, i);
        OneBlock(b, i);
        PatchOne(w);
        OverlayStep(crc, offset, bytes, checksums, before + FirstWrites(b, i), b1, c1, w, data[..], crcs[..]);
        assert before + FirstWrites(b, i + 1) == before + FirstWrites(b, i) + [w];
        i := i + 1;
      }
    }
  }

  ghost predicate Touched(writes: seq<Write>, offset: nat, size: nat, k: nat) {
    exists j :: 0 <= j < |writes| && Touches(writes[j], offset, size, k)
  }

  /** The read as it should be: every byte the newest one, and the right checksum for every block that a write fell
      into. */
  ghost predicate Overlaid(crc: seq<byte> -> nat, offset: nat, bytes: seq<byte>, crcs: seq<nat>, writes: seq<Write>,
      bytes': seq<byte>, crcs': seq<nat>)
    requires |bytes| <= |crcs| * BLOCK < |bytes| + BLOCK
  {
    && |bytes'| == |bytes| && |crcs'| == |crcs|
    && (forall i :: 0 <= i < |bytes| ==> bytes'[i] == Newest(writes, offset + i, bytes[i]))
    && (forall k :: 0 <= k < |crcs| ==> CrcFits(crc, offset, bytes', crcs[k], crcs'[k], writes, k))
  }

  ghost predicate CrcFits(crc: seq<byte> -> nat, offset: nat, bytes': seq<byte>, before: nat, after: nat,
      writes: seq<Write>, k: nat) {
    k * BLOCK <= |bytes'| && after == if Touched(writes, offset, |bytes'|, k) then crc(BlockBytes(bytes', k))
        else before
  }

  /** One write more. */
  lemma OverlayStep(crc: seq<byte> -> nat, offset: nat, bytes: seq<byte>, crcs: seq<nat>, writes: seq<Write>,
                    b1: seq<byte>, c1: seq<nat>, w: Write, b2: seq<byte>, c2: seq<nat>)
    requires |bytes| <= |crcs| * BLOCK < |bytes| + BLOCK && Overlaid(crc, offset, bytes, crcs, writes, b1, c1)
    requires |b2| == |b1| && |c2| == |c1|
    requires forall i :: 0 <= i < |b1| ==> b2[i] == if w.Covers(offset + i) then w.bytes[offset + i - w.start]
        else b1[i]
    requires forall k :: 0 <= k < |c1| ==> k * BLOCK <= |b2| && c2[k] == if Touches(w, offset, |b2|, k)
        then crc(BlockBytes(b2, k)) else c1[k]
    ensures Overlaid(crc, offset, bytes, crcs, writes + [w], b2, c2)
  {
    hide Touches, Newest;
    forall i | 0 <= i < |bytes|
      ensures b2[i] == Newest(writes + [w], offset + i, bytes[i])
    {
      NewestAppend(writes, w, offset + i, bytes[i]);
    }
    forall k | 0 <= k < |crcs|
      ensures CrcFits(crc, offset, b2, crcs[k], c2[k], writes + [w], k)
    {
      assert CrcFits(crc, offset, b1, crcs[k], c1[k], writes, k);
      TouchedAppend(writes, w, offset, |b2|, k);
      if !Touches(w, offset, |b2|, k) {
        UntouchedBlock(offset, b1, b2, w, k);
      }
    }
  }

  lemma TouchedAppend(writes: seq<Write>, w: Write, offset: nat, size: nat, k: nat)
    ensures Touched(writes + [w], offset, size, k) <==> Touched(writes, offset, size, k) || Touches(w, offset, size, k)
  {
    var all := writes + [w];
    assert all[|writes|] == w;
    if j :| 0 <= j < |writes| && Touches(writes[j], offset, size, k) {
      assert Touches(all[j], offset, size, k);
    }
  }

  lemma UntouchedBlock(offset: nat, b1: seq<byte>, b2: seq<byte>, w: Write, k: nat)
    requires |b2| == |b1| && k * BLOCK <= |b1| && !Touches(w, offset, |b1|, k)
    requires forall i :: 0 <= i < |b1| ==> b2[i] == if w.Covers(offset + i) then w.bytes[offset + i - w.start]
        else b1[i]
    ensures BlockBytes(b2, k) == BlockBytes(b1, k)
  {
    forall i | k * BLOCK <= i < Min((k + 1) * BLOCK, |b1|)
      ensures b2[i] == b1[i]
    {
      assert !w.Covers(offset + i);
    }
  }

  lemma NothingOverlaid(crc: seq<byte> -> nat, offset: nat, bytes: seq<byte>, crcs: seq<nat>)
    requires |bytes| <= |crcs| * BLOCK < |bytes| + BLOCK
    ensures Overlaid(crc, offset, bytes, crcs, [], bytes, crcs)
  {
  }

  lemma OverlaidByNothing(crc: seq<byte> -> nat, offset: nat, bytes: seq<byte>, crcs: seq<nat>, bytes': seq<byte>,
      crcs': seq<nat>)
    requires |bytes| <= |crcs| * BLOCK < |bytes| + BLOCK && Overlaid(crc, offset, bytes, crcs, [], bytes', crcs')
    ensures bytes' == bytes && crcs' == crcs
  {
    forall k | 0 <= k < |crcs|
      ensures crcs'[k] == crcs[k]
    {
      assert CrcFits(crc, offset, bytes', crcs[k], crcs'[k], [], k);
    }
  }

  lemma OneBlock(b: RepliedBuffer, i: nat)
    requires b.Valid() && i < |b.infos|
    ensures WriteOf(b, i).InOneBlock()
  {
  }

  lemma NoneTouched(w: Write, offset: nat, size: nat)
    requires !Overlaps(w, offset, size)
    ensures forall k :: !Touches(w, offset, size, k)
  {
  }

  /** The write falls into a block of the read. */
  predicate Touches(w: Write, offset: nat, size: nat, k: nat) {
    k * BLOCK < size && Overlaps(w, offset + k * BLOCK, Min(BLOCK, size - k * BLOCK))
  }

  /** The block of the read that an overlapping write falls into, and how long that block is. */
  function BlockOf(w: Write, offset: nat): nat {
    if offset % BLOCK == 0 then (Max(offset, w.start) - offset) / BLOCK else 0
  }

  lemma WhichBlock(w: Write, offset: nat, size: nat)
    requires Supported(offset, size) && w.InOneBlock() && Overlaps(w, offset, size)
    ensures var k := BlockOf(w, offset);
            && k * BLOCK < size && Touches(w, offset, size, k)
            && Min(offset + size, w.start + |w.bytes|) <= offset + Min((k + 1) * BLOCK, size)
            && (offset % BLOCK == 0 ==>
                  Min((k + 1) * BLOCK, size) - k * BLOCK == if k == size / BLOCK then (size - 1) % BLOCK + 1 else BLOCK)
    ensures forall j :: Touches(w, offset, size, j) ==> j == BlockOf(w, offset)
  {
  }

  // How far replied writes reach.

  ghost predicate WritesBlock(buffers: seq<RepliedBuffer>, partVersion: nat, block: nat) {
    exists k, i :: 0 <= k < |buffers| && (buffers[k].version == None || buffers[k].version == Some(partVersion))
        && 0 <= i < buffers[k].replied && i < |buffers[k].infos| && buffers[k].infos[i].block == block
  }

  ghost predicate AllBelow(buffers: seq<RepliedBuffer>, partVersion: nat, k: nat, end: nat)
    requires k <= |buffers|
  {
    forall l, j ::
      0 <= l < k && buffers[l].ServedAt(partVersion) && 0 <= j < buffers[l].replied && j < |buffers[l].infos| ==>
        buffers[l].infos[j].block < end
  }

  /** Where the blocks of served replied writes end; zero if there are none. */
  method BlocksEnd(buffers: seq<RepliedBuffer>, partVersion: nat) returns (end: nat)
    ensures forall block: nat :: WritesBlock(buffers, partVersion, block) ==> block < end
    ensures end > 0 ==> WritesBlock(buffers, partVersion, end - 1)
    ensures AllOther(buffers, partVersion) ==> end == 0
  {
    end := 0;
    var k := 0;
    while k < |buffers|
      invariant 0 <= k <= |buffers|
      invariant AllBelow(buffers, partVersion, k, end)
      invariant end > 0 ==> WritesBlock(buffers, partVersion, end - 1)
    {
      if buffers[k].ServedAt(partVersion) {
        var i := 0;
        while i < buffers[k].replied && i < |buffers[k].infos|
          invariant 0 <= i
          invariant AllBelow(buffers, partVersion, k, end)
          invariant forall j :: 0 <= j < i && j < buffers[k].replied && j < |buffers[k].infos| ==>
              buffers[k].infos[j].block < end
          invariant end > 0 ==> WritesBlock(buffers, partVersion, end - 1)
          decreases |buffers[k].infos| - i
        {
          if end < buffers[k].infos[i].block + 1 {
            end := buffers[k].infos[i].block + 1;
            assert buffers[k].infos[i].block == end - 1;
          }
          i := i + 1;
        }
      }
      k := k + 1;
    }
  }

  // Flushing is invisible to readers.

  /** A buffer as the write job sees it. */
  function ForJob(b: RepliedBuffer, crcs: seq<nat>): Contents {
    Contents(b.infos, crcs, b.memory)
  }

  ghost predicate CrcsFit(buffers: seq<RepliedBuffer>, crcs: seq<seq<nat>>) {
    |crcs| == |buffers| && forall k :: 0 <= k < |buffers| ==> |crcs[k]| == |buffers[k].infos|
  }

  /** The batch of a write job. */
  function Batch(buffers: seq<RepliedBuffer>, crcs: seq<seq<nat>>): (r: seq<Contents>)
    requires |crcs| == |buffers|
    ensures |r| == |buffers| && forall k :: 0 <= k < |r| ==> r[k] == ForJob(buffers[k], crcs[k])
  {
    seq(|buffers|, k requires 0 <= k < |buffers| => ForJob(buffers[k], crcs[k]))
  }

  /** All writes of the buffers, replied or not, and the replied ones. */
  ghost function AllWrites(buffers: seq<RepliedBuffer>): seq<Write>
    requires AllSound(buffers)
    decreases |buffers|
  {
    if buffers == [] then []
    else
      var n := |buffers| - 1;
      AllWrites(buffers[..n]) + FirstWrites(buffers[n], |buffers[n].infos|)
  }

  ghost function RepliedWrites(buffers: seq<RepliedBuffer>): seq<Write>
    requires AllSound(buffers)
    decreases |buffers|
  {
    if buffers == [] then []
    else
      var n := |buffers| - 1;
      RepliedWrites(buffers[..n]) + FirstWrites(buffers[n], buffers[n].replied)
  }

  /** A buffer has replied blocks only if all blocks before it were replied. */
  ghost predicate RepliedInOrder(buffers: seq<RepliedBuffer>) {
    forall i, j :: 0 <= i < j < |buffers| && buffers[j].replied > 0 ==> buffers[i].replied == |buffers[i].infos|
  }

  lemma SingleWrite(b: RepliedBuffer, crcs: seq<nat>, i: nat)
    requires b.Valid() && |crcs| == |b.infos| && i < |b.infos|
    ensures ForJob(b, crcs).Complete() && IsSingle(Single(ForJob(b, crcs), i))
        && WriteBy(Single(ForJob(b, crcs), i)) == WriteOf(b, i)
  {
    hide Sum;
    SingleIsValid(ForJob(b, crcs), i);
    SlotPrefix(b.memory, i, b.infos[i].size);
  }

  lemma {:induction false} FirstWritesAre(b: RepliedBuffer, crcs: seq<nat>, n: nat)
    requires b.Valid() && |crcs| == |b.infos| && n <= |b.infos|
    ensures ForJob(b, crcs).Complete() && AllSingle(Singles(ForJob(b, crcs), n))
        && WritesBy(Singles(ForJob(b, crcs), n)) == FirstWrites(b, n)
    decreases n
  {
    hide WriteOperation.Valid, IsSingle;
    if n > 0 {
      FirstWritesAre(b, crcs, n - 1);
      SingleWrite(b, crcs, n - 1);
      var c := ForJob(b, crcs);
      assert Singles(c, n) == Singles(c, n - 1) + [Single(c, n - 1)];
    }
  }

  /** The job's writes, one by one, are those of the buffers. */
  lemma {:induction false} BatchWrites(buffers: seq<RepliedBuffer>, crcs: seq<seq<nat>>)
    requires AllSound(buffers) && CrcsFit(buffers, crcs)
    ensures forall k :: 0 <= k < |buffers| ==> Batch(buffers, crcs)[k].Complete()
    ensures AllSingle(AllSingles(Batch(buffers, crcs)))
        && WritesBy(AllSingles(Batch(buffers, crcs))) == AllWrites(buffers)
    decreases |buffers|
  {
    if buffers != [] {
      hide Singles, AllSingles, AllSingle, RepliedBuffer.Valid, Contents.Complete;
      var n := |buffers| - 1;
      BatchWrites(buffers[..n], crcs[..n]);
      FirstWritesAre(buffers[n], crcs[n], |buffers[n].infos|);
      var all := Batch(buffers, crcs);
      assert all[..n] == Batch(buffers[..n], crcs[..n]);
      forall k | 0 <= k < |buffers|
        ensures all[k].Complete()
      {
        assert k < n ==> all[k] == Batch(buffers[..n], crcs[..n])[k];
      }
      LastSingles(all);
    }
  }

  lemma {:induction false} FirstAreFirst(b: RepliedBuffer, n: nat, m: nat)
    requires b.Valid() && n <= m <= |b.infos|
    ensures |FirstWrites(b, n)| == n && |FirstWrites(b, m)| == m && FirstWrites(b, n) == FirstWrites(b, m)[..n]
    decreases m
  {
    if n < m {
      FirstAreFirst(b, n, m - 1);
    } else if n > 0 {
      FirstAreFirst(b, n - 1, n - 1);
    }
  }

  /** The replied writes of a batch are its first ones. */
  lemma {:induction false} RepliedAreFirst(buffers: seq<RepliedBuffer>)
    requires AllSound(buffers) && RepliedInOrder(buffers)
    ensures RepliedWrites(buffers) <= AllWrites(buffers)
    ensures (forall i :: 0 <= i < |buffers| ==> buffers[i].replied == |buffers[i].infos|) ==>
        RepliedWrites(buffers) == AllWrites(buffers)
    decreases |buffers|
  {
    if buffers != [] {
      var n := |buffers| - 1;
      RepliedAreFirst(buffers[..n]);
      FirstAreFirst(buffers[n], buffers[n].replied, |buffers[n].infos|);
      if buffers[n].replied > 0 {
        assert forall i :: 0 <= i < n ==> buffers[..n][i].replied == |buffers[..n][i].infos|;
      } else {
        assert RepliedWrites(buffers[..n]) + [] == RepliedWrites(buffers[..n]);
      }
    }
  }

  /** A write job over a batch of buffers, and then their removal from the registry. `rest` are the replied writes of
      later buffers, of which there are none unless the batch is replied whole. After the removal a read sees every
      write of the batch and the rest; and wherever no block of the batch lies that was not acknowledged, it sees the
      same bytes before the job, after it with the buffers still registered, and after the removal. */
  lemma FlushIsUnseen(disk: Disk, batch: seq<RepliedBuffer>, crcs: seq<seq<nat>>, rest: seq<Write>, position: nat)
    requires AllSound(batch) && CrcsFit(batch, crcs) && RepliedInOrder(batch)
    requires |RepliedWrites(batch)| < |AllWrites(batch)| ==> rest == []
    ensures forall k :: 0 <= k < |batch| ==> Batch(batch, crcs)[k].Complete()
    ensures AllValid(AllSingles(Batch(batch, crcs))) && RepliedWrites(batch) <= AllWrites(batch)
    ensures var own, all := RepliedWrites(batch), AllWrites(batch);
            var before := ByteAt(disk.bytes, position);
            var after := ByteAt(Run(disk, AllSingles(Batch(batch, crcs))).bytes, position);
            var seen := Newest(own + rest, position, before);
            && Newest(rest, position, after) == Newest(all + rest, position, before)
            && ((forall j :: |own| <= j < |all| ==> !all[j].Covers(position)) ==>
                  Newest(own + rest, position, after) == seen && Newest(rest, position, after) == seen)
  {
    hide Run, Newest, AllWrites, RepliedWrites;
    var own, all, before := RepliedWrites(batch), AllWrites(batch), ByteAt(disk.bytes, position);
    RepliedAreFirst(batch);
    BatchWrites(batch, crcs);
    RunLeavesNewest(disk, AllSingles(Batch(batch, crcs)), position);
    RemovalIsUnseen(all, rest, position, before);
    if forall j :: |own| <= j < |all| ==> !all[j].Covers(position) {
      SameWithout(own, all, position, before);
      RemovalIsUnseen(own, rest, position, before);
      SeenBefore(own, rest, position, before);
    }
  }

  lemma SameWithout(own: seq<Write>, all: seq<Write>, position: nat, base: byte)
    requires own <= all && forall j :: |own| <= j < |all| ==> !all[j].Covers(position)
    ensures Newest(all, position, base) == Newest(own, position, base)
  {
    hide Newest;
    RemovalIsUnseen(own, all[|own|..], position, base);
    assert own + all[|own|..] == all;
    Uncovered(all[|own|..], position, Newest(own, position, base));
  }

  /** Patching again what the disk has already changes nothing. */
  lemma SeenBefore(own: seq<Write>, rest: seq<Write>, position: nat, before: byte)
    ensures Newest(own + rest, position, Newest(own, position, before)) == Newest(own + rest, position, before)
  {
    hide Newest;
    if forall j :: 0 <= j < |own + rest| ==> !(own + rest)[j].Covers(position) {
      assert forall j :: 0 <= j < |own| ==> own[j] == (own + rest)[j];
      Uncovered(own, position, before);
    }
    DiskUnderWritesIsUnseen(own + rest, position, before, Newest(own, position, before));
  }
}
