/**
  Replies as bytes: what the library sends for an event (dokan/dokan.c, EVENT_INFORMATION of sys/public.h) and
  what the two passes of `DokanCompleteIrp` find in the buffer.
*/
module ReplyWire {
  import opened Options
  import opened Bytes
  import opened Structures
  import opened ReplyCompletion

  const STATUS_BUFFER_OVERFLOW: nat := 0x8000_0005
  const OTHER: nat := 24 // bytes between Status and BufferLength

  /**
    A filled EVENT_INFORMATION. For a write `amount` is the number of bytes written, after a buffer overflow it is
    the length that was needed; otherwise `data` is the buffer.
  */
  datatype Reply = Reply(write: bool, serial: nat, status: nat, other: seq<Byte>, timeout: nat, data: seq<Byte>,
                         amount: nat)

  predicate HeaderOnly(r: Reply) { r.write || r.status == STATUS_BUFFER_OVERFLOW }

  /** The fields have their declared widths, and the whole reply can be sent in one request. */
  predicate Sendable(r: Reply) {
    && r.serial < U32_RANGE && r.status < U32_RANGE && |r.other| == OTHER && r.timeout < U32_RANGE
    && r.amount < U32_RANGE && EVENT_INFORMATION_BUFFER + |r.data| < U32_RANGE
  }

  function BufferLength(r: Reply): nat { if HeaderOnly(r) then r.amount else |r.data| }

  function Header(r: Reply): (s: seq<Byte>)
    requires Sendable(r)
    ensures |s| == EVENT_INFORMATION_BUFFER
  {
    EncodeU32(r.serial) + EncodeU32(r.status) + r.other + EncodeU32(BufferLength(r)) + EncodeU32(r.timeout)
  }

  /** The bytes that are sent: the header, the buffer unless it is left out, and the rest of the structure. */
  function Sent(r: Reply): (s: seq<Byte>)
    requires Sendable(r)
    ensures |s| >= SIZEOF_EVENT_INFORMATION
  {
    var used := Header(r) + if HeaderOnly(r) then [] else r.data;
    if |used| < SIZEOF_EVENT_INFORMATION then used + Zeros(SIZEOF_EVENT_INFORMATION - |used|) else used
  }

  /** How the driver reads the header at an offset of the buffer. */
  function InfoAt(buffer: seq<Byte>): nat -> Info {
    (offset: nat) =>
      if offset + EVENT_INFORMATION_BUFFER <= |buffer|
      then Info(ReadU32(buffer, offset), ReadU32(buffer, offset + 4) == STATUS_BUFFER_OVERFLOW,
                ReadU32(buffer, offset + 32))
      else Info(0, false, 0)
  }

  lemma SentParts(r: Reply)
    requires Sendable(r)
    ensures Sent(r)[..EVENT_INFORMATION_BUFFER] == Header(r)
    ensures !HeaderOnly(r) ==> At(Sent(r), EVENT_INFORMATION_BUFFER, r.data)
  {
  }

  lemma HeaderReads(buffer: seq<Byte>, offset: nat, r: Reply)
    requires Sendable(r) && At(buffer, offset, Header(r))
    ensures ReadU32(buffer, offset) == r.serial && ReadU32(buffer, offset + 4) == r.status
    ensures ReadU32(buffer, offset + 32) == BufferLength(r)
  {
    var a, b, c, d := EncodeU32(r.serial), EncodeU32(r.status), EncodeU32(BufferLength(r)), EncodeU32(r.timeout);
    AtPart(buffer, offset, a + b + r.other + c, d);
    AtPart(buffer, offset, a + b + r.other, c);
    AtPart(buffer, offset, a + b, r.other);
    AtPart(buffer, offset, a, b);
    ReadEncodedU32(buffer, offset, r.serial);
    ReadEncodedU32(buffer, offset + 4, r.status);
    ReadEncodedU32(buffer, offset + 32, BufferLength(r));
  }

  lemma SentReads(buffer: seq<Byte>, offset: nat, r: Reply)
    requires Sendable(r) && At(buffer, offset, Sent(r))
    ensures InfoAt(buffer)(offset) == Info(r.serial, r.status == STATUS_BUFFER_OVERFLOW, BufferLength(r))
  {
    assert Sent(r) == Header(r) + Sent(r)[EVENT_INFORMATION_BUFFER..] by { SentParts(r); }
    AtPart(buffer, offset, Header(r), Sent(r)[EVENT_INFORMATION_BUFFER..]);
    HeaderReads(buffer, offset, r);
  }

  /** The size that the driver works out from the header is the number of bytes that were sent. */
  lemma SizeIsSent(buffer: seq<Byte>, offset: nat, r: Reply)
    requires Sendable(r) && At(buffer, offset, Sent(r))
    ensures EventInfoSize(r.write, InfoAt(buffer)(offset)) == |Sent(r)|
  {
    SentReads(buffer, offset, r);
  }

  /** A buffer length that makes the size wrap around counts as that of a header alone. */
  lemma WrappedSize(serial: nat, bufferLength: nat)
    requires bufferLength < U32_RANGE <= EVENT_INFORMATION_BUFFER + bufferLength
    ensures EventInfoSize(false, Info(serial, false, bufferLength)) == SIZEOF_EVENT_INFORMATION
  {
  }

  // ------------------------------------------------------------------------------------------
  // One reply
  // ------------------------------------------------------------------------------------------

  /** The walk passes entries with other serial numbers and takes the one that the reply is for. */
  lemma {:induction false} WalkFinds(list: seq<Entry>, k: nat, read: nat -> Info, length: nat, batching: bool,
                                     last: nat)
    requires last <= read(0).serial && SIZEOF_EVENT_INFORMATION <= length < U32_RANGE
    requires k < |list| && list[k].serial == read(0).serial && EventInfoSize(list[k].write, read(0)) == length
    requires forall j :: 0 <= j < k ==> list[j].serial != read(0).serial
    ensures Walk(list, read, length, batching, 0, last) ==
            Walked(list[..k] + list[k + 1..], [Match(list[k], 0)], Finished)
    decreases k
  {
    if k > 0 {
      WalkFinds(list[1..], k - 1, read, length, batching, read(0).serial);
      assert list[..k] + list[k + 1..] == [list[0]] + (list[1..][..k - 1] + list[1..][k..]);
    } else {
      assert list[..0] + list[1..] == list[1..];
    }
  }

  /** A request with one reply, with batching on or off, takes exactly the IRP it is for and is no misuse. */
  lemma {:induction false} OneReplyMatches(list: seq<Entry>, k: nat, r: Reply, batching: bool)
    requires Sendable(r) && |Sent(r)| < U32_RANGE
    requires k < |list| && list[k].serial == r.serial && list[k].write == r.write
    requires forall j :: 0 <= j < k ==> list[j].serial != r.serial
    ensures var w := Walk(list, InfoAt(Sent(r)), |Sent(r)|, batching, 0, 0);
            w.matches == [Match(list[k], 0)] && w.rest == list[..k] + list[k + 1..] && w.end == Finished
  {
    assert At(Sent(r), 0, Sent(r));
    SentReads(Sent(r), 0, r);
    SizeIsSent(Sent(r), 0, r);
    WalkFinds(list, k, InfoAt(Sent(r)), |Sent(r)|, batching, 0);
  }

  // ------------------------------------------------------------------------------------------
  // A batch of replies
  // ------------------------------------------------------------------------------------------

  predicate AllSendable(rs: seq<Reply>) { forall k :: 0 <= k < |rs| ==> Sendable(rs[k]) }

  function Blocks(rs: seq<Reply>): (parts: seq<seq<Byte>>)
    requires AllSendable(rs)
    ensures |parts| == |rs| && forall k :: 0 <= k < |rs| ==> parts[k] == Sent(rs[k])
  {
    seq(|rs|, k requires 0 <= k < |rs| => Sent(rs[k]))
  }

  /** The replies back to back. */
  function SentBatch(rs: seq<Reply>): seq<Byte>
    requires AllSendable(rs)
  {
    Concat(Blocks(rs))
  }

  function Infos(rs: seq<Reply>): (infos: seq<Info>)
    ensures |infos| == |rs|
  {
    seq(|rs|, k requires 0 <= k < |rs| =>
      Info(rs[k].serial, rs[k].status == STATUS_BUFFER_OVERFLOW, BufferLength(rs[k])))
  }

  function Sizes(rs: seq<Reply>): (sizes: seq<nat>)
    requires AllSendable(rs)
    ensures |sizes| == |rs|
  {
    seq(|rs|, k requires 0 <= k < |rs| => |Sent(rs[k])|)
  }

  /** The parts lie back to back from `offset` to the end of the buffer. */
  predicate Tiled(buffer: seq<Byte>, offset: nat, parts: seq<seq<Byte>>)
    decreases |parts|
  {
    if parts == [] then offset == |buffer|
    else At(buffer, offset, parts[0]) && Tiled(buffer, offset + |parts[0]|, parts[1..])
  }

  lemma {:induction false} ConcatTiled(buffer: seq<Byte>, offset: nat, parts: seq<seq<Byte>>)
    requires At(buffer, offset, Concat(parts)) && offset + |Concat(parts)| == |buffer|
    ensures Tiled(buffer, offset, parts)
    decreases |parts|
  {
    if parts != [] {
      AtPart(buffer, offset, parts[0], Concat(parts[1..]));
      ConcatTiled(buffer, offset + |parts[0]|, parts[1..]);
    }
  }

  /** Wherever part `k` lies, the driver reads reply `k`. */
  ghost predicate ReadsParts(buffer: seq<Byte>, parts: seq<seq<Byte>>, infos: seq<Info>, read: nat -> Info)
    requires |infos| == |parts|
  {
    forall o: nat, k :: 0 <= k < |parts| && At(buffer, o, parts[k]) ==> read(o) == infos[k]
  }

  lemma {:induction false} TiledPacked(buffer: seq<Byte>, offset: nat, parts: seq<seq<Byte>>, infos: seq<Info>,
                                       sizes: seq<nat>, read: nat -> Info)
    requires |infos| == |parts| == |sizes| && Tiled(buffer, offset, parts) && ReadsParts(buffer, parts, infos, read)
    requires forall k :: 0 <= k < |parts| ==> sizes[k] == |parts[k]|
    ensures PackedAt(infos, sizes, read, |buffer|, offset)
    decreases |parts|
  {
    if parts != [] {
      forall o: nat, k | 0 <= k < |parts[1..]| && At(buffer, o, parts[1..][k]) ensures read(o) == infos[1..][k] {
        assert At(buffer, o, parts[k + 1]);
      }
      TiledPacked(buffer, offset + |parts[0]|, parts[1..], infos[1..], sizes[1..], read);
    }
  }

  lemma BlocksRead(buffer: seq<Byte>, rs: seq<Reply>)
    requires AllSendable(rs)
    ensures ReadsParts(buffer, Blocks(rs), Infos(rs), InfoAt(buffer))
  {
    forall o: nat, k | 0 <= k < |rs| && At(buffer, o, Blocks(rs)[k]) ensures InfoAt(buffer)(o) == Infos(rs)[k] {
      SentReads(buffer, o, rs[k]);
    }
  }

  /** In the batch that was sent, the driver finds each reply where the one before it ends. */
  lemma {:induction false} BatchIsPacked(rs: seq<Reply>)
    requires AllSendable(rs)
    ensures var buffer := SentBatch(rs);
            Tiled(buffer, 0, Blocks(rs)) && PackedAt(Infos(rs), Sizes(rs), InfoAt(buffer), |buffer|, 0)
  {
    var buffer := SentBatch(rs);
    assert At(buffer, 0, Concat(Blocks(rs)));
    ConcatTiled(buffer, 0, Blocks(rs));
    BlocksRead(buffer, rs);
    TiledPacked(buffer, 0, Blocks(rs), Infos(rs), Sizes(rs), InfoAt(buffer));
  }

  /** Each reply is for an IRP of its kind. */
  predicate ForTheirIrps(rs: seq<Reply>, list: seq<Entry>) {
    forall i, k :: 0 <= i < |list| && 0 <= k < |rs| && list[i].serial == rs[k].serial ==> list[i].write == rs[k].write
  }

  predicate Sorted(rs: seq<Reply>) {
    && (forall k :: 0 <= k < |rs| ==> rs[k].serial > 0 && rs[k].status != STATUS_BUFFER_OVERFLOW)
    && (forall j, k :: 0 <= j < k < |rs| ==> rs[j].serial < rs[k].serial)
  }

  lemma SentSizesAgree(rs: seq<Reply>, list: seq<Entry>)
    requires AllSendable(rs) && ForTheirIrps(rs, list)
    ensures SizesAgree(Infos(rs), Sizes(rs), list)
  {
    forall i, k | 0 <= i < |list| && 0 <= k < |rs| && list[i].serial == Infos(rs)[k].serial
      ensures EventInfoSize(list[i].write, Infos(rs)[k]) == Sizes(rs)[k]
    {
      assert At(Sent(rs[k]), 0, Sent(rs[k]));
      SentReads(Sent(rs[k]), 0, rs[k]);
      SizeIsSent(Sent(rs[k]), 0, rs[k]);
    }
  }

  /** A sorted batch, as the bytes that were sent, is matched up to the first reply whose IRP is no longer pending. */
  lemma {:induction false} SentBatchMatches(rs: seq<Reply>, list: seq<Entry>)
    requires AllSendable(rs) && rs != [] && Sorted(rs) && ForTheirIrps(rs, list) && AscendingList(list)
    requires |SentBatch(rs)| < U32_RANGE
    ensures var buffer := SentBatch(rs);
            BatchOutcome(Walk(list, InfoAt(buffer), |buffer|, true, 0, 0), Infos(rs), list)
  {
    BatchIsPacked(rs);
    SentSizesAgree(rs, list);
    BatchMatchesPendingPrefix(Infos(rs), Sizes(rs), list, InfoAt(SentBatch(rs)), |SentBatch(rs)|);
  }

  /** The parts of matched entries lie where the entries were matched. */
  lemma {:induction false} MatchesLie(matches: seq<Match>, parts: seq<seq<Byte>>, buffer: seq<Byte>, offset: nat,
                                      read: nat -> Info)
    requires |matches| <= |parts| && |buffer| < U32_RANGE && Tiled(buffer, offset, parts)
    requires Chained(matches, read, |buffer|, offset)
    requires forall o: nat, k :: 0 <= k < |matches| && At(buffer, o, parts[k]) ==>
               EventInfoSize(matches[k].entry.write, read(o)) == |parts[k]|
    ensures forall k :: 0 <= k < |matches| ==> At(buffer, matches[k].offset, parts[k])
    decreases |matches|
  {
    if matches != [] {
      assert At(buffer, offset, parts[0]);
      var rest, others := matches[1..], parts[1..];
      forall o: nat, k | 0 <= k < |rest| && At(buffer, o, others[k])
        ensures EventInfoSize(rest[k].entry.write, read(o)) == |others[k]|
      {
        assert At(buffer, o, parts[k + 1]);
      }
      MatchesLie(rest, others, buffer, offset + |parts[0]|, read);
      forall k | 0 <= k < |matches| ensures At(buffer, matches[k].offset, parts[k]) {
        if k > 0 { assert matches[k] == rest[k - 1] && parts[k] == others[k - 1]; }
      }
    }
  }

  /** The replies of matched entries lie where the entries were matched. */
  lemma {:induction false} MatchesSit(matches: seq<Match>, rs: seq<Reply>)
    requires AllSendable(rs) && |matches| <= |rs| && |SentBatch(rs)| < U32_RANGE
    requires Chained(matches, InfoAt(SentBatch(rs)), |SentBatch(rs)|, 0)
    requires forall k :: 0 <= k < |matches| ==> matches[k].entry.write == rs[k].write
    ensures forall k :: 0 <= k < |matches| ==> At(SentBatch(rs), matches[k].offset, Sent(rs[k]))
  {
    var buffer, parts := SentBatch(rs), Blocks(rs);
    BatchIsPacked(rs);
    forall o: nat, k | 0 <= k < |matches| && At(buffer, o, parts[k])
      ensures EventInfoSize(matches[k].entry.write, InfoAt(buffer)(o)) == |parts[k]|
    {
      SizeIsSent(buffer, o, rs[k]);
    }
    MatchesLie(matches, parts, buffer, 0, InfoAt(buffer));
  }

  /** The reply with the entry's serial number lies at the offset. */
  ghost predicate OwnReplyAt(buffer: seq<Byte>, offset: nat, rs: seq<Reply>, entry: Entry)
    requires AllSendable(rs)
  {
    exists k :: 0 <= k < |rs| && rs[k].serial == entry.serial && At(buffer, offset, Sent(rs[k]))
  }

  /** What is so of each match and its offset is so of each completed entry and its offset. */
  lemma {:induction false} OwnOffsetsSit(matches: seq<Match>, good: (nat, Entry) -> bool)
    requires forall m :: m in matches ==> good(m.offset, m.entry)
    ensures |OwnOffsets(matches)| == |WithFate(matches, Owned)|
    ensures forall j :: 0 <= j < |OwnOffsets(matches)| ==>
              OwnOffsets(matches)[j].Some? && good(OwnOffsets(matches)[j].value, WithFate(matches, Owned)[j])
  {
    if matches != [] {
      OwnOffsetsSit(matches[1..], good);
      assert matches[0] in matches;
    }
  }

  /**
    The second pass, from bytes to bytes: for a sorted batch, if no IRP that it names is diverted before one that is
    completed, each completed IRP is given the very bytes that were sent for it.
  */
  lemma {:induction false} EachIrpGetsItsReply(rs: seq<Reply>, list: seq<Entry>)
    requires AllSendable(rs) && rs != [] && Sorted(rs) && ForTheirIrps(rs, list) && AscendingList(list)
    requires |SentBatch(rs)| < U32_RANGE
    requires NoDetour(Walk(list, InfoAt(SentBatch(rs)), |SentBatch(rs)|, true, 0, 0).matches)
    ensures var buffer := SentBatch(rs);
            var complete := WithFate(Walk(list, InfoAt(buffer), |buffer|, true, 0, 0).matches, Owned);
            var offsets := DealOffsets(complete, InfoAt(buffer), |buffer|, 0);
            && |offsets| == |complete|
            && forall j :: 0 <= j < |complete| ==>
                 offsets[j].Some? && OwnReplyAt(buffer, offsets[j].value, rs, complete[j])
  {
    var buffer := SentBatch(rs);
    var matches := Walk(list, InfoAt(buffer), |buffer|, true, 0, 0).matches;
    PairingWithoutDetour(list, InfoAt(buffer), |buffer|, true);
    MatchedReplies(rs, list);
    ghost var good := (o: nat, e: Entry) => OwnReplyAt(buffer, o, rs, e);
    OwnOffsetsSit(matches, good);
    forall j | 0 <= j < |OwnOffsets(matches)| ensures OwnReplyAt(buffer, OwnOffsets(matches)[j].value, rs,
                                                                 WithFate(matches, Owned)[j])
    {
      assert good(OwnOffsets(matches)[j].value, WithFate(matches, Owned)[j]);
    }
  }

  lemma {:induction false} MatchedReplies(rs: seq<Reply>, list: seq<Entry>)
    requires AllSendable(rs) && rs != [] && Sorted(rs) && ForTheirIrps(rs, list) && AscendingList(list)
    requires |SentBatch(rs)| < U32_RANGE
    ensures var buffer := SentBatch(rs);
            forall m :: m in Walk(list, InfoAt(buffer), |buffer|, true, 0, 0).matches ==>
              OwnReplyAt(buffer, m.offset, rs, m.entry)
  {
    var buffer := SentBatch(rs);
    var matches := Walk(list, InfoAt(buffer), |buffer|, true, 0, 0).matches;
    SentBatchMatches(rs, list);
    WalkChains(list, InfoAt(buffer), |buffer|, true, 0, 0);
    MatchedAreListed(list, InfoAt(buffer), |buffer|, true, 0, 0);
    var n := PendingPrefix(Infos(rs), list);
    assert |SerialsOf(matches)| == |BatchSerials(Infos(rs))[..n]|;
    forall k | 0 <= k < |matches| ensures matches[k].entry.serial == rs[k].serial {
      assert SerialsOf(matches)[k] == BatchSerials(Infos(rs))[..n][k];
    }
    forall k | 0 <= k < |matches| ensures matches[k].entry.write == rs[k].write {
      assert matches[k] in matches && matches[k].entry in list;
    }
    MatchesSit(matches, rs);
    forall m | m in matches ensures OwnReplyAt(buffer, m.offset, rs, m.entry) {
      var k :| 0 <= k < |matches| && matches[k] == m;
    }
  }
}
