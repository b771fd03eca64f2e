/**
  Stream queries: the file system reports streams through a callback that appends entries to the
  reply, and an end routine closes the chain (dokan/fileinfo.c). Between callbacks, BufferLength is
  the offset of the last entry, and that entry's NextEntryOffset its size.
*/
module StreamListing {
  import opened Bytes
  import opened EntryChain

  const SIZEOF_FILE_STREAM_INFORMATION: nat := 32
  const STREAM_NAME: nat := 24      // offset of StreamName
  const MAX_STREAM_NAME: nat := 296 // MAX_PATH + 36

  /** A WIN32_FIND_STREAM_DATA; `sizes` are StreamSize and the aligned StreamAllocationSize. */
  datatype Stream = Stream(name: seq<Wchar>, sizes: seq<Byte>)

  predicate Valid(s: Stream) { |s.name| < MAX_STREAM_NAME && |s.sizes| == 16 }

  function EntrySize(s: Stream): (n: nat)
    ensures n % 8 == 0 && STREAM_NAME + SIZEOF_WCHAR * |s.name| <= n
    ensures Valid(s) ==> n < 640
  {
    QuadAlign(SIZEOF_FILE_STREAM_INFORMATION + SIZEOF_WCHAR * |s.name|)
  }

  /** The least multiple of eight that holds the structure, which has room for one character, and the name. */
  lemma EntrySizeIsLeast(s: Stream, n: nat)
    requires n % 8 == 0 && n >= SIZEOF_FILE_STREAM_INFORMATION + SIZEOF_WCHAR * |s.name|
    ensures SIZEOF_FILE_STREAM_INFORMATION + SIZEOF_WCHAR * |s.name| <= EntrySize(s) <= n
  {
  }

  /** The bytes between NextEntryOffset and the end of the name. */
  function Fields(s: Stream): (r: seq<Byte>)
    requires Valid(s)
    ensures |r| == STREAM_NAME - LINK + SIZEOF_WCHAR * |s.name|
  {
    ConcatThree(EncodeU32(SIZEOF_WCHAR * |s.name|), s.sizes, EncodeWide(s.name));
    Concat([EncodeU32(SIZEOF_WCHAR * |s.name|), s.sizes, EncodeWide(s.name)])
  }

  function Entry(s: Stream): (r: Record)
    requires Valid(s)
    ensures Size(r) == EntrySize(s)
  {
    Fields(s) + Zeros(EntrySize(s) - LINK - |Fields(s)|)
  }

  function LastSize(rs: seq<Record>): nat { if rs == [] then 0 else Size(rs[|rs| - 1]) }

  /** The entries, all pointing behind themselves, in cleared memory of `n` bytes. */
  ghost predicate OpenIn(bytes: seq<Byte>, rs: seq<Record>, n: nat) {
    Linkable(rs) && Extent(rs) <= n && bytes == Open(rs) + Zeros(n - Extent(rs))
  }

  lemma {:induction false} SplitLast(rs: seq<Record>)
    requires rs != [] && Linkable(rs)
    ensures Linkable(Front(rs)) && Extent(Front(rs)) + LastSize(rs) == Extent(rs)
    ensures Open(rs) == Open(Front(rs)) + Linked(Size(Last(rs)), Last(rs))
    ensures Closed(rs) == Open(Front(rs)) + Linked(0, Last(rs))
  {
    assert rs == Front(rs) + [Last(rs)];
    ExtentSnoc(Front(rs), Last(rs));
    OpenSnoc(Front(rs), Last(rs));
    ClosedSnoc(Front(rs), Last(rs));
  }

  /** What a callback reads at BufferLength: the size of the last entry, or zero. */
  lemma {:induction false} LinkOfLast(bytes: seq<Byte>, rs: seq<Record>, n: nat)
    requires LINK <= n && OpenIn(bytes, rs, n)
    ensures LastSize(rs) <= Extent(rs) && Extent(rs) - LastSize(rs) + LINK <= n == |bytes|
    ensures ReadU32(bytes, Extent(rs) - LastSize(rs)) == LastSize(rs)
  {
    if rs == [] {
      ZeroLink();
      assert bytes == Zeros(n) && bytes[0..4] == Zeros(4);
      ReadEncodedU32(bytes, 0, 0);
    } else {
      SplitLast(rs);
      var front, entry := Open(Front(rs)), Linked(Size(Last(rs)), Last(rs));
      assert At(bytes, 0, front + entry);
      AtPart(bytes, 0, front, entry);
      LinkAt(bytes, |front|, Size(Last(rs)), Last(rs));
    }
  }

  /** Fields and link written into cleared memory: the gap behind the name need not be written. */
  lemma FilledBytes(bytes: seq<Byte>, a: seq<Byte>, p: nat, link: seq<Byte>, fields: seq<Byte>, gap: nat, rest: nat)
    requires |a| == p && |link| == LINK && bytes == a + Zeros(LINK + |fields| + gap + rest)
    ensures Overwrite(Overwrite(bytes, p + LINK, fields), p, link) == (a + (link + (fields + Zeros(gap)))) + Zeros(rest)
  {
    assert Overwrite(Overwrite(bytes, p + LINK, fields), p, link) == a + link + fields + Zeros(gap + rest);
    assert Zeros(gap + rest) == Zeros(gap) + Zeros(rest);
  }

  lemma {:induction false} OpenFilled(bytes: seq<Byte>, n: nat, rs: seq<Record>, p: nat, fields: seq<Byte>, gap: nat,
                                      r: Record, entrySize: nat)
    requires OpenIn(bytes, rs, n) && p == Extent(rs) && |bytes| == n
    requires r == fields + Zeros(gap) && entrySize == Size(r) < U32_RANGE && p + entrySize <= n
    ensures OpenIn(Overwrite(Overwrite(bytes, p + LINK, fields), p, EncodeU32(entrySize)), rs + [r], n)
  {
    LinkableSnoc(rs, r);
    ExtentSnoc(rs, r);
    OpenSnoc(rs, r);
    var rest := n - Extent(rs + [r]);
    assert LINK + |fields| + gap + rest == n - Extent(rs);
    FilledBytes(bytes, Open(rs), p, EncodeU32(entrySize), fields, gap, rest);
  }

  /** Writes the fields of an entry and then its link. */
  method FillEntry(buffer: array<Byte>, offset: nat, fields: seq<Byte>, entrySize: nat)
    requires entrySize < U32_RANGE && offset + LINK + |fields| <= buffer.Length
    modifies buffer
    ensures buffer[..] == Overwrite(Overwrite(old(buffer[..]), offset + LINK, fields), offset, EncodeU32(entrySize))
  {
    CopyMemory(buffer, offset + LINK, fields);
    CopyMemory(buffer, offset, EncodeU32(entrySize));
  }

  /**
    The body of the callback, on an entry given by its size and fields: `bufferLength` is the offset of
    the last entry, and stays so.
  */
  method AppendEntry(buffer: array<Byte>, bufferLength: nat, room: nat, fields: seq<Byte>, entrySize: nat,
                     ghost rs: seq<Record>, ghost gap: nat, ghost r: Record)
    returns (accepted: bool, newLength: nat)
    requires LINK <= room <= buffer.Length && room < U32_RANGE && Extent(rs) + entrySize < U32_RANGE
    requires OpenIn(buffer[..], rs, buffer.Length) && bufferLength + LastSize(rs) == Extent(rs) <= room
    requires r == fields + Zeros(gap) && entrySize == Size(r)
    modifies buffer
    ensures accepted <==> Extent(rs) + entrySize <= room
    ensures newLength == if accepted then Extent(rs) else bufferLength
    ensures OpenIn(buffer[..], if accepted then rs + [r] else rs, buffer.Length)
  {
    LinkOfLast(buffer[..], rs, buffer.Length);
    var offset := bufferLength;
    var next := ReadU32(buffer[..], offset);
    if (offset + entrySize + next) % U32_RANGE > room {
      return false, bufferLength;
    }
    if next != 0 { offset := offset + next; }
    OpenFilled(buffer[..], buffer.Length, rs, offset, fields, gap, r, entrySize);
    FillEntry(buffer, offset, fields, entrySize);
    return true, offset;
  }

  /** Clearing the link of the last entry closes the chain. */
  lemma {:induction false} ClosedBytes(bytes: seq<Byte>, rs: seq<Record>, n: nat, p: nat)
    requires LINK <= n == |bytes| && OpenIn(bytes, rs, n) && p + LastSize(rs) == Extent(rs) && p + LINK <= n
    ensures Overwrite(bytes, p, EncodeU32(0)) == Closed(rs) + Zeros(n - Extent(rs))
  {
    if rs == [] {
      ZeroLink();
      assert bytes == Zeros(n) && Overwrite(Zeros(n), 0, Zeros(4)) == Zeros(n);
    } else {
      SplitLast(rs);
      ReplaceLink(bytes, p, Open(Front(rs)), EncodeU32(Size(Last(rs))), Last(rs), Zeros(n - Extent(rs)), EncodeU32(0));
    }
  }

  /** The reply of a stream query; the buffer was cleared when it was allocated. */
  class StreamReply {
    const buffer: array<Byte>
    const room: nat           // the length of the request
    var bufferLength: nat     // EventResult->BufferLength
    ghost var entries: seq<Record>

    ghost predicate Building()
      reads this, buffer
    {
      && LINK <= room <= buffer.Length && room < U32_RANGE
      && Aligned(entries)
      && OpenIn(buffer[..], entries, buffer.Length)
      && Extent(entries) <= room
      && bufferLength + LastSize(entries) == Extent(entries)
    }

    constructor (room: nat, length: nat)
      requires SIZEOF_FILE_STREAM_INFORMATION <= room <= length && room < U32_RANGE
      ensures Building() && entries == [] && this.room == room && fresh(buffer)
    {
      this.room := room;
      buffer := new Byte[length](_ => 0);
      bufferLength, entries := 0, [];
    }

    /** DokanFillFindStreamData. */
    method Fill(s: Stream) returns (accepted: bool)
      requires Building() && Valid(s) && Extent(entries) + EntrySize(s) < U32_RANGE
      modifies this, buffer
      ensures Building()
      ensures accepted <==> Extent(old(entries)) + EntrySize(s) <= room
      ensures entries == if accepted then old(entries) + [Entry(s)] else old(entries)
    {
      ghost var r := Entry(s);
      var newLength;
      accepted, newLength := AppendEntry(buffer, bufferLength, room, Fields(s), EntrySize(s), entries,
        EntrySize(s) - LINK - |Fields(s)|, r);
      if accepted {
        ExtentSnoc(entries, r);
        entries := entries + [r];
      }
      bufferLength := newLength;
    }

    /** DokanEndDispatchFindStreams. */
    method End()
      requires Building()
      modifies this, buffer
      ensures entries == old(entries) && Linkable(entries) && Aligned(entries)
      ensures bufferLength == Extent(entries) <= room
      ensures buffer[..] == Closed(entries) + Zeros(buffer.Length - bufferLength)
    {
      LinkOfLast(buffer[..], entries, buffer.Length);
      ClosedBytes(buffer[..], entries, buffer.Length, bufferLength);
      var next := ReadU32(buffer[..], bufferLength);
      CopyMemory(buffer, bufferLength, EncodeU32(0));
      bufferLength := bufferLength + next;
    }
  }

  // ------------------------------------------------------------------------------------------
  // Any sequence of callbacks
  // ------------------------------------------------------------------------------------------

  predicate AllValid(streams: seq<Stream>) { forall k :: 0 <= k < |streams| ==> Valid(streams[k]) }

  /** The entries of the accepted streams: each one that fits the room left by those before it. */
  function Accepted(streams: seq<Stream>, room: nat): seq<Record>
    requires AllValid(streams)
  {
    if streams == [] then []
    else if EntrySize(streams[0]) <= room then [Entry(streams[0])]
      + Accepted(streams[1..], room - EntrySize(streams[0]))
    else Accepted(streams[1..], room)
  }

  lemma {:induction false} AcceptedStep(streams: seq<Stream>, i: nat, entries: seq<Record>, left: nat)
    requires AllValid(streams) && i < |streams|
    ensures entries + Accepted(streams[i..], left)
         == if EntrySize(streams[i]) <= left then entries + [Entry(streams[i])]
           + Accepted(streams[i + 1..], left - EntrySize(streams[i]))
            else entries + Accepted(streams[i + 1..], left)
  {
    assert streams[i..][1..] == streams[i + 1..] && streams[i..][0] == streams[i];
  }

  /** The room test, in ULONG arithmetic. */
  predicate Refuses(used: nat, entrySize: nat, room: nat) { (used + entrySize) % U32_RANGE > room }

  /** The test refuses exactly what does not fit, if and only if its sum does not wrap around. */
  lemma RoomTestIsRight(used: nat, s: Stream, room: nat)
    requires Valid(s) && used <= room < U32_RANGE && SIZEOF_FILE_STREAM_INFORMATION <= room
    ensures (Refuses(used, EntrySize(s), room) <==> used + EntrySize(s) > room) <==> used + EntrySize(s) < U32_RANGE
  {
    if used + EntrySize(s) >= U32_RANGE {
      assert room >= used > U32_RANGE - 640;
      assert (used + EntrySize(s)) % U32_RANGE == used + EntrySize(s) - U32_RANGE;
    }
  }

  /** No room test of the callbacks wraps around. */
  predicate NeverWraps(streams: seq<Stream>, used: nat, room: nat) {
    streams != [] ==>
      var next := used + EntrySize(streams[0]);
      next < U32_RANGE && NeverWraps(streams[1..], if next <= room then next else used, room)
  }

  lemma {:induction false} WrapStep(streams: seq<Stream>, i: nat, used: nat, room: nat)
    requires i < |streams| && NeverWraps(streams[i..], used, room)
    ensures var next := used + EntrySize(streams[i]);
            next < U32_RANGE && NeverWraps(streams[i + 1..], if next <= room then next else used, room)
  {
    assert streams[i..][1..] == streams[i + 1..] && streams[i..][0] == streams[i];
  }

  /** After `i` callbacks: the entries so far, and what is still to come. */
  ghost predicate Midway(streams: seq<Stream>, i: nat, entries: seq<Record>, room: nat) {
    && AllValid(streams) && i <= |streams| && Extent(entries) <= room
    && NeverWraps(streams[i..], Extent(entries), room)
    && Accepted(streams, room) == entries + Accepted(streams[i..], room - Extent(entries))
  }

  lemma {:induction false} MidwayStep(streams: seq<Stream>, i: nat, entries: seq<Record>, room: nat)
    requires Midway(streams, i, entries, room) && i < |streams|
    ensures var r := Entry(streams[i]);
            && Extent(entries) + EntrySize(streams[i]) < U32_RANGE
            && var fits := Extent(entries) + EntrySize(streams[i]) <= room;
               Midway(streams, i + 1, if fits then entries + [r] else entries, room)
  {
    WrapStep(streams, i, Extent(entries), room);
    ExtentSnoc(entries, Entry(streams[i]));
    var fits := Extent(entries) + EntrySize(streams[i]) <= room;
    if fits { AcceptedMore(streams, i, entries, room); } else { AcceptedSame(streams, i, entries, room); }
  }

  lemma {:induction false} AcceptedMore(streams: seq<Stream>, i: nat, entries: seq<Record>, room: nat)
    requires AllValid(streams) && i < |streams| && Extent(entries) + EntrySize(streams[i]) <= room
    requires Accepted(streams, room) == entries + Accepted(streams[i..], room - Extent(entries))
    ensures var more := entries + [Entry(streams[i])];
            Accepted(streams, room) ==
            more + Accepted(streams[i + 1..], room - Extent(entries) - EntrySize(streams[i]))
  {
    AcceptedStep(streams, i, entries, room - Extent(entries));
  }

  lemma {:induction false} AcceptedSame(streams: seq<Stream>, i: nat, entries: seq<Record>, room: nat)
    requires AllValid(streams) && i < |streams| && Extent(entries) <= room < Extent(entries) + EntrySize(streams[i])
    requires Accepted(streams, room) == entries + Accepted(streams[i..], room - Extent(entries))
    ensures Accepted(streams, room) == entries + Accepted(streams[i + 1..], room - Extent(entries))
  {
    AcceptedStep(streams, i, entries, room - Extent(entries));
  }

  /** The callbacks, accepted or refused. */
  method FillAll(reply: StreamReply, streams: seq<Stream>)
    requires reply.Building() && Midway(streams, 0, reply.entries, reply.room)
    modifies reply, reply.buffer
    ensures reply.Building() && reply.entries == Accepted(streams, reply.room)
  {
    var i := 0;
    while i < |streams|
      invariant i <= |streams| && reply.Building() && Midway(streams, i, reply.entries, reply.room)
    {
      MidwayStep(streams, i, reply.entries, reply.room);
      var _ := reply.Fill(streams[i]);
      i := i + 1;
    }
    assert streams[|streams|..] == [] && reply.entries + [] == reply.entries;
  }

  /** FindStreams with the streams `streams`, and the end routine. */
  method FindStreams(reply: StreamReply, streams: seq<Stream>)
    requires reply.Building() && reply.entries == [] && AllValid(streams) && NeverWraps(streams, 0, reply.room)
    modifies reply, reply.buffer
    ensures var rs := Accepted(streams, reply.room);
            && Linkable(rs) && Aligned(rs)
            && reply.bufferLength == Extent(rs) <= reply.room
            && reply.buffer[..] == Closed(rs) + Zeros(reply.buffer.Length - reply.bufferLength)
  {
    assert streams[0..] == streams;
    FillAll(reply, streams);
    reply.End();
  }

  /** An entry gives its sizes and its name back. */
  lemma EntryReads(bytes: seq<Byte>, start: nat, s: Stream)
    requires Valid(s) && At(bytes, start + LINK, Entry(s))
    ensures start + STREAM_NAME <= |bytes|
    ensures ReadU32(bytes, start + LINK) == SIZEOF_WCHAR * |s.name|
    ensures At(bytes, start + 8, s.sizes)
    ensures At(bytes, start + STREAM_NAME, EncodeWide(s.name))
  {
    var n := EncodeU32(SIZEOF_WCHAR * |s.name|);
    AtPart(bytes, start + LINK, Fields(s), Zeros(EntrySize(s) - LINK - |Fields(s)|));
    ConcatThree(n, s.sizes, EncodeWide(s.name));
    AtPart(bytes, start + LINK, n + s.sizes, EncodeWide(s.name));
    AtPart(bytes, start + LINK, n, s.sizes);
    ReadEncodedU32(bytes, start + LINK, SIZEOF_WCHAR * |s.name|);
  }
}
