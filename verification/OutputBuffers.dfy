/** Read replies are sent header by header, checksum by checksum and block by block, but the three lie in
    separate buffers. They are interleaved in place: the header and checksum of a block are copied over
    the bytes before it, which were sent already or are padding. */
module OutputBuffers {
  import opened Common

  const CRC: nat := 4

  /** What the kernel does with one write: some of the bytes offered, none for now, or an error. */
  datatype WriteResult = Wrote(count: nat) | TryAgain | Failed

  datatype WriteStatus = Done | Again | Error

  function BlockLength(data: seq<byte>): nat {
    if |data| < BLOCK then |data| else BLOCK
  }

  /** There is one header and one checksum for every block of the data. */
  ghost predicate Matching(headerSize: nat, headers: seq<byte>, crcs: seq<byte>, data: seq<byte>)
    decreases |data|
  {
    if data == [] then headers == [] && crcs == []
    else
      && headerSize <= |headers| && CRC <= |crcs|
      && Matching(headerSize, headers[headerSize..], crcs[CRC..], data[BlockLength(data)..])
  }

  /** The packets to send: every block behind its header and its checksum. */
  ghost function Stream(headerSize: nat, headers: seq<byte>, crcs: seq<byte>, data: seq<byte>): seq<byte>
    requires Matching(headerSize, headers, crcs, data)
    decreases |data|
  {
    if data == [] then []
    else
      var n := BlockLength(data);
      (headers[..headerSize] + crcs[..CRC] + data[..n])
          + Stream(headerSize, headers[headerSize..], crcs[CRC..], data[n..])
  }

  /** The packet of block `i` starts after `i` whole packets, with the `i`th header, checksum and block. */
  lemma {:induction false} StreamFrom(headerSize: nat, headers: seq<byte>, crcs: seq<byte>, data: seq<byte>, i: nat)
    requires Matching(headerSize, headers, crcs, data) && i * BLOCK <= |data|
    ensures i * headerSize <= |headers| && i * CRC <= |crcs|
    ensures Matching(headerSize, headers[i * headerSize..], crcs[i * CRC..], data[i * BLOCK..])
    ensures i * (headerSize + CRC + BLOCK) <= |Stream(headerSize, headers, crcs, data)|
    ensures Stream(headerSize, headers, crcs, data)[i * (headerSize + CRC + BLOCK)..]
         == Stream(headerSize, headers[i * headerSize..], crcs[i * CRC..], data[i * BLOCK..])
    decreases i
  {
    if i == 0 {
      assert headers[0..] == headers && crcs[0..] == crcs && data[0..] == data;
      assert Stream(headerSize, headers, crcs, data)[0..] == Stream(headerSize, headers, crcs, data);
    } else {
      hide Stream, Matching;
      OnePacket(headerSize, headers, crcs, data);
      var headers1, crcs1, data1 := headers[headerSize..], crcs[CRC..], data[BLOCK..];
      StreamFrom(headerSize, headers1, crcs1, data1, i - 1);
      DropDrop(headers, headerSize, i, headers1);
      DropDrop(crcs, CRC, i, crcs1);
      DropDrop(data, BLOCK, i, data1);
      DropDrop(Stream(headerSize, headers, crcs, data), headerSize + CRC + BLOCK, i,
          Stream(headerSize, headers1, crcs1, data1));
    }
  }

  /** The first packet, while there is a whole block. */
  lemma OnePacket(headerSize: nat, headers: seq<byte>, crcs: seq<byte>, data: seq<byte>)
    requires Matching(headerSize, headers, crcs, data) && BLOCK <= |data|
    ensures headerSize <= |headers| && CRC <= |crcs|
        && Matching(headerSize, headers[headerSize..], crcs[CRC..], data[BLOCK..])
    ensures headerSize + CRC + BLOCK <= |Stream(headerSize, headers, crcs, data)|
    ensures Stream(headerSize, headers, crcs, data)[headerSize + CRC + BLOCK..]
        == Stream(headerSize, headers[headerSize..], crcs[CRC..], data[BLOCK..])
  {
  }

  lemma DropDrop<T>(s: seq<T>, n: nat, i: nat, rest: seq<T>)
    requires i >= 1 && n <= |s| && rest == s[n..] && (i - 1) * n <= |rest|
    ensures i * n == n + (i - 1) * n && i * n <= |s| && rest[(i - 1) * n..] == s[i * n..]
  {
  }

  class OutputBuffer {
    const headerSize: nat
    const padding: nat
    const data: array<byte>
    var first: nat                     // unflushedDataFirstIndex_ of the block buffer
    var last: nat                      // unflushedDataOneAfterLastIndex_
    var crcs: seq<byte>
    var crcFirst: nat
    var headers: seq<byte>
    var headerFirst: nat
    var remaining: nat                 // currentRemainingBytesForFD_: what is left of the prepared packet

    /** The data of the blocks not prepared yet. */
    ghost function Unprepared(): seq<byte>
      requires first + remaining <= last <= data.Length
      reads this, data
    {
      data[first + remaining..last]
    }

    ghost predicate Valid()
      reads this, data
    {
      && Shape()
      && Matching(headerSize, headers[headerFirst..], crcs[crcFirst..], Unprepared())
    }

    /** Everything still to be sent, in order. */
    ghost function Pending(): seq<byte>
      requires Valid()
      reads this, data
    {
      data[first..first + remaining] + Stream(headerSize, headers[headerFirst..], crcs[crcFirst..], Unprepared())
    }

    /** The indices are in order. */
    ghost predicate Shape()
      reads this
    {
      && headerSize + CRC <= padding && headerSize + CRC <= BLOCK
      && first + remaining <= last <= data.Length && crcFirst <= |crcs| && headerFirst <= |headers|
      && (remaining == 0 ==> padding <= first) && padding <= first + remaining
    }

    lemma HasShape()
      requires Valid()
      ensures Shape()
    {
    }

    lemma Parts(all: seq<byte>)
      requires Valid() && all == data[first..last]
      ensures Shape() && Matching(headerSize, headers[headerFirst..], crcs[crcFirst..], all[remaining..])
      ensures Pending() == all[..remaining]
          + Stream(headerSize, headers[headerFirst..], crcs[crcFirst..], all[remaining..])
    {
      Halves(data[..], first, last, remaining);
    }

    lemma Whole(all: seq<byte>)
      requires Shape() && all == data[first..last]
          && Matching(headerSize, headers[headerFirst..], crcs[crcFirst..], all[remaining..])
      ensures Valid()
    {
      Halves(data[..], first, last, remaining);
    }

    constructor (headerSize: nat, padding: nat, headers: seq<byte>, crcs: seq<byte>, blocks: seq<byte>)
      requires headerSize + CRC <= padding && headerSize + CRC <= BLOCK && Matching(headerSize, headers, crcs, blocks)
      ensures Valid() && fresh(data) && Pending() == Stream(headerSize, headers, crcs, blocks)
    {
      this.headerSize, this.padding, this.headers, this.crcs := headerSize, padding, headers, crcs;
      first, last, crcFirst, headerFirst, remaining := padding, padding + |blocks|, 0, 0, 0;
      data := new byte[padding + |blocks|];
      new;
      hide Stream, Matching;
      CopyBefore(padding, blocks);
      assert data[last..last] == [] && blocks + [] == blocks && headers[0..] == headers && crcs[0..] == crcs;
      assert data[first..first + remaining] == [];
    }

    function BytesInBuffer(): nat
      requires first <= last && crcFirst <= |crcs| && headerFirst <= |headers|
      reads this
    {
      last - first + (|crcs| - crcFirst) + (|headers| - headerFirst)
    }

    /** memcpy into the block buffer. */
    method CopyAt(at: nat, bytes: seq<byte>)
      requires at + |bytes| <= data.Length
      modifies data
      ensures forall i :: 0 <= i < |bytes| ==> data[at + i] == bytes[i]
      ensures forall i :: 0 <= i < data.Length && !(at <= i < at + |bytes|) ==> data[i] == old(data[i])
    {
      var i := 0;
      while i < |bytes|
        invariant 0 <= i <= |bytes|
        invariant forall j :: 0 <= j < i ==> data[at + j] == bytes[j]
        invariant forall j :: 0 <= j < data.Length && !(at <= j < at + i) ==> data[j] == old(data[j])
      {
        data[at + i] := bytes[i];
        i := i + 1;
      }
    }

    /** The next header and checksum go in front of the next block; both are taken from their buffers. */
    method CopyPrefix()
      requires Valid() && remaining == 0 && headerFirst + headerSize <= |headers| && crcFirst + CRC <= |crcs|
      modifies this`first, this`crcFirst, this`headerFirst, data
      ensures first == old(first) - CRC - headerSize && crcFirst == old(crcFirst) + CRC
          && headerFirst == old(headerFirst) + headerSize
      ensures data[first..last]
          == headers[old(headerFirst)..headerFirst] + crcs[old(crcFirst)..crcFirst] + old(data[first..last])
    {
      hide Stream, Matching;
      first := first - CRC;
      CopyBefore(first, crcs[crcFirst..crcFirst + CRC]);
      crcFirst := crcFirst + CRC;
      first := first - headerSize;
      CopyBefore(first, headers[headerFirst..headerFirst + headerSize]);
      headerFirst := headerFirst + headerSize;
      Regroup(headers[old(headerFirst)..headerFirst], crcs[old(crcFirst)..crcFirst], old(data[first..last]));
    }

    /** A copy that ends where the data begins. */
    method CopyBefore(at: nat, bytes: seq<byte>)
      requires at + |bytes| <= last <= data.Length
      modifies data
      ensures data[at..last] == bytes + old(data[at + |bytes|..last])
    {
      ghost var behind := data[at + |bytes|..last];
      CopyAt(at, bytes);
      SliceIs(data[..], at, bytes, behind);
    }

    /** The next packet lies in one piece. */
    method PreparePacket()
      requires Valid() && remaining == 0 && BytesInBuffer() > 0
      modifies this, data
      ensures Valid() && remaining > 0 && Pending() == old(Pending())
    {
      hide Stream, Matching, OutputBuffer.Valid, OutputBuffer.Pending;
      HasShape();
      ghost var blocks, h, c := data[first..last], headers[headerFirst..], crcs[crcFirst..];
      Parts(blocks);
      assert blocks[..0] == [] && blocks[0..] == blocks
          && [] + Stream(headerSize, h, c, blocks) == Stream(headerSize, h, c, blocks);
      PacketParts(headerSize, h, c, blocks);
      CopyPrefix();
      remaining := if BLOCK + CRC + headerSize < BytesInBuffer() then BLOCK + CRC + headerSize else BytesInBuffer();
      assert headers[headerFirst - headerSize..headerFirst] == h[..headerSize]
          && crcs[crcFirst - CRC..crcFirst] == c[..CRC];
      assert headers[headerFirst..] == h[headerSize..] && crcs[crcFirst..] == c[CRC..];
      ghost var all := data[first..last];
      Prepared(headerSize, h, c, blocks, all);
      Whole(all);
      Parts(all);
    }

    /** The kernel took some bytes of the packet. */
    method Advance(count: nat) returns (sent: seq<byte>)
      requires Valid() && 0 < count <= remaining
      modifies this`first, this`remaining
      ensures Valid() && |sent| == count && sent + Pending() == old(Pending())
    {
      sent := data[first..first + count];
      assert sent + data[first + count..first + remaining] == data[first..first + remaining];
      first, remaining := first + count, remaining - count;
    }

    /** Sends what the kernel takes. However the writes turn out, what was sent and what is pending is together what was
        pending before; the call is done exactly when nothing is. */
    method WriteOut(results: seq<WriteResult>) returns (status: WriteStatus, sent: seq<byte>)
      requires Valid()
      modifies this, data
      ensures Valid() && sent + Pending() == old(Pending())
      ensures status == Done <==> Pending() == []
    {
      sent := [];
      var i := 0;
      while BytesInBuffer() > 0
        invariant Valid() && 0 <= i <= |results| && sent + Pending() == old(Pending())
        decreases |results| - i
      {
        hide Stream;
        if remaining == 0 {
          PreparePacket();
        }
        if i == |results| || results[i].TryAgain? || results[i] == Wrote(0) {
          return Again, sent;
        }
        if results[i].Failed? {
          return Error, sent;
        }
        var count := if results[i].count < remaining then results[i].count else remaining;
        var more := Advance(count);
        Regroup(sent, more, Pending());
        sent := sent + more;
        i := i + 1;
      }
      status := Done;
    }

    /** The connection calls again while the status is `Again`: once a call is done, the client has received the whole
        stream, whatever the schedule of partial writes was. */
    method Send(calls: seq<seq<WriteResult>>) returns (status: WriteStatus, sent: seq<byte>)
      requires Valid()
      modifies this, data
      ensures Valid() && sent + Pending() == old(Pending())
      ensures status == Done ==> sent == old(Pending())
    {
      hide OutputBuffer.Pending, OutputBuffer.Valid;
      status, sent := Again, [];
      assert [] + Pending() == Pending();
      var i := 0;
      while i < |calls| && status == Again
        invariant Valid() && 0 <= i <= |calls| && sent + Pending() == old(Pending())
            && (status == Done ==> Pending() == [])
      {
        var more;
        status, more := WriteOut(calls[i]);
        Regroup(sent, more, Pending());
        sent := sent + more;
        i := i + 1;
      }
    }
  }

  /** A packet in one piece and the stream of the rest are the whole stream. */
  lemma Prepared(headerSize: nat, h: seq<byte>, c: seq<byte>, blocks: seq<byte>, all: seq<byte>)
    requires Matching(headerSize, h, c, blocks) && blocks != [] && all == h[..headerSize] + c[..CRC] + blocks
    ensures var r := headerSize + CRC + BlockLength(blocks);
            && r <= |all| && headerSize <= |h| && CRC <= |c|
                && Matching(headerSize, h[headerSize..], c[CRC..], all[r..])
            && all[..r] + Stream(headerSize, h[headerSize..], c[CRC..], all[r..]) == Stream(headerSize, h, c, blocks)
  {
    hide Stream, Matching;
    PacketParts(headerSize, h, c, blocks);
    Cut(h[..headerSize] + c[..CRC], blocks, BlockLength(blocks));
  }

  lemma Halves(all: seq<byte>, first: nat, last: nat, n: nat)
    requires first + n <= last <= |all|
    ensures all[first..first + n] == all[first..last][..n] && all[first + n..last] == all[first..last][n..]
  {
  }

  lemma SliceIs(all: seq<byte>, first: nat, a: seq<byte>, b: seq<byte>)
    requires first + |a| + |b| <= |all|
    requires (forall i :: 0 <= i < |a| ==> all[first + i] == a[i]) && forall i :: 0 <= i < |b| ==>
        all[first + |a| + i] == b[i]
    ensures all[first..first + |a| + |b|] == a + b
  {
  }

  lemma Cut(a: seq<byte>, b: seq<byte>, n: nat)
    requires n <= |b|
    ensures (a + b)[..|a| + n] == a + b[..n] && (a + b)[|a| + n..] == b[n..]
  {
  }

  /** A packet's parts, while there is data. */
  lemma PacketParts(headerSize: nat, headers: seq<byte>, crcs: seq<byte>, data: seq<byte>)
    requires Matching(headerSize, headers, crcs, data) && (data != [] || headers != [] || crcs != [])
    ensures data != [] && headerSize <= |headers| && CRC <= |crcs|
    ensures |data| <= BLOCK ==> |headers| == headerSize && |crcs| == CRC
    ensures var n := BlockLength(data);
            && Matching(headerSize, headers[headerSize..], crcs[CRC..], data[n..])
            && Stream(headerSize, headers, crcs, data)
            == (headers[..headerSize] + crcs[..CRC] + data[..n])
                + Stream(headerSize, headers[headerSize..], crcs[CRC..], data[n..])
  {
  }
}
