/**
  Lists of variable-length entries in a buffer, as section 2.4 of MS-FSCC lays them out: each entry
  starts with NextEntryOffset, the distance to the next entry, and the last one with zero.
*/
module EntryChain {
  import opened Options
  import opened Bytes

  /** An entry without its NextEntryOffset. */
  type Record = seq<Byte>

  const LINK: nat := 4

  /** Entries are padded to a multiple of eight bytes. */
  function QuadAlign(n: nat): (r: nat)
    ensures n <= r < n + 8 && r % 8 == 0
  {
    (n + 7) / 8 * 8
  }

  function Size(r: Record): nat { LINK + |r| }

  predicate Linkable(rs: seq<Record>) {
    forall k :: 0 <= k < |rs| ==> Size(rs[k]) < U32_RANGE
  }

  predicate Aligned(rs: seq<Record>) {
    forall k :: 0 <= k < |rs| ==> Size(rs[k]) % 8 == 0
  }

  lemma ZeroLink()
    ensures EncodeU32(0) == Zeros(4)
  {
    assert Encode(0, 1) == [0] && Encode(0, 2) == [0, 0] && Encode(0, 3) == [0, 0, 0];
  }

  function Linked(next: nat, r: Record): (s: seq<Byte>)
    requires next < U32_RANGE
    ensures |s| == Size(r)
  {
    EncodeU32(next) + r
  }

  /** Every entry points behind itself. */
  function Open(rs: seq<Record>): (s: seq<Byte>)
    requires Linkable(rs)
    ensures |s| == Extent(rs)
  {
    if rs == [] then [] else Linked(Size(rs[0]), rs[0]) + Open(rs[1..])
  }

  /** Every entry but the last points behind itself. */
  function Closed(rs: seq<Record>): (s: seq<Byte>)
    requires Linkable(rs)
    ensures |s| == Extent(rs)
  {
    if rs == [] then [] else Linked(if |rs| == 1 then 0 else Size(rs[0]), rs[0]) + Closed(rs[1..])
  }

  function Extent(rs: seq<Record>): nat { if rs == [] then 0 else Size(rs[0]) + Extent(rs[1..]) }

  /** Where the entries start. */
  function Starts(rs: seq<Record>, base: nat): (s: seq<nat>)
    ensures |s| == |rs|
  {
    if rs == [] then [] else [base] + Starts(rs[1..], base + Size(rs[0]))
  }

  /** The reader: the offsets visited from `offset` on; None is a link that leaves the buffer. */
  function Follow(bytes: seq<Byte>, offset: nat): Option<seq<nat>>
    decreases |bytes| - offset
  {
    if offset + LINK > |bytes| then None
    else
      var next := ReadU32(bytes, offset);
      if next == 0 then Some([offset])
      else
        var rest := Follow(bytes, offset + next);
        if rest.Some? then Some([offset] + rest.value) else None
  }

  lemma {:induction false} ExtentSnoc(rs: seq<Record>, r: Record)
    ensures Extent(rs + [r]) == Extent(rs) + Size(r)
  {
    if rs == [] {
      assert rs + [r] == [r];
    } else {
      ExtentSnoc(rs[1..], r);
      assert (rs + [r])[1..] == rs[1..] + [r];
    }
  }

  lemma LinkableSnoc(rs: seq<Record>, r: Record)
    requires Linkable(rs) && Size(r) < U32_RANGE
    ensures Linkable(rs + [r])
  {
  }

  lemma {:induction false} OpenSnoc(rs: seq<Record>, r: Record)
    requires Linkable(rs) && Size(r) < U32_RANGE && Linkable(rs + [r])
    ensures Open(rs + [r]) == Open(rs) + Linked(Size(r), r)
  {
    if rs == [] {
      assert rs + [r] == [r];
    } else {
      assert (rs + [r])[1..] == rs[1..] + [r];
      OpenSnoc(rs[1..], r);
      Assoc(Linked(Size(rs[0]), rs[0]), Open(rs[1..]), Linked(Size(r), r));
    }
  }

  lemma {:induction false} ClosedSnoc(rs: seq<Record>, r: Record)
    requires Linkable(rs) && Size(r) < U32_RANGE && Linkable(rs + [r])
    ensures Closed(rs + [r]) == Open(rs) + Linked(0, r)
  {
    if rs == [] {
      assert rs + [r] == [r];
    } else {
      assert (rs + [r])[1..] == rs[1..] + [r];
      ClosedSnoc(rs[1..], r);
      Assoc(Linked(Size(rs[0]), rs[0]), Open(rs[1..]), Linked(0, r));
    }
  }

  function FirstLink(rs: seq<Record>): (n: nat)
    requires rs != [] && Linkable(rs)
    ensures n < U32_RANGE
  {
    if |rs| == 1 then 0 else Size(rs[0])
  }

  lemma LinkAt(bytes: seq<Byte>, offset: nat, next: nat, r: Record)
    requires next < U32_RANGE && At(bytes, offset, Linked(next, r))
    ensures ReadU32(bytes, offset) == next && At(bytes, offset + LINK, r)
  {
    AtPart(bytes, offset, EncodeU32(next), r);
    ReadEncodedU32(bytes, offset, next);
  }

  lemma {:induction false} FirstEntry(bytes: seq<Byte>, offset: nat, rs: seq<Record>)
    requires rs != [] && Linkable(rs) && At(bytes, offset, Closed(rs))
    ensures offset + Size(rs[0]) <= |bytes| && ReadU32(bytes, offset) == FirstLink(rs)
    ensures At(bytes, offset + LINK, rs[0]) && At(bytes, offset + Size(rs[0]), Closed(rs[1..]))
  {
    AtPart(bytes, offset, Linked(FirstLink(rs), rs[0]), Closed(rs[1..]));
    LinkAt(bytes, offset, FirstLink(rs), rs[0]);
  }

  /** Following the links visits exactly the entries, in order. */
  lemma {:induction false} FollowClosed(bytes: seq<Byte>, offset: nat, rs: seq<Record>)
    requires rs != [] && Linkable(rs) && At(bytes, offset, Closed(rs))
    ensures Follow(bytes, offset) == Some(Starts(rs, offset))
    decreases |rs|
  {
    FirstEntry(bytes, offset, rs);
    if |rs| == 1 {
      assert Starts(rs, offset) == [offset];
    } else {
      var rest := offset + Size(rs[0]);
      assert Follow(bytes, rest) == Some(Starts(rs[1..], rest)) by { FollowClosed(bytes, rest, rs[1..]); }
      FollowStep(bytes, offset, Size(rs[0]));
    }
  }

  lemma FollowStep(bytes: seq<Byte>, offset: nat, next: nat)
    requires offset + LINK <= |bytes| && ReadU32(bytes, offset) == next > 0 && Follow(bytes, offset + next).Some?
    ensures Follow(bytes, offset) == Some([offset] + Follow(bytes, offset + next).value)
  {
  }

  /** Each entry starts on an 8-byte boundary and ends where the next one starts; the last one ends at `end`. */
  predicate Tiled(rs: seq<Record>, starts: seq<nat>, end: nat) {
    && |starts| == |rs|
    && (forall k :: 0 <= k < |rs| ==> starts[k] % 8 == 0)
    && (forall k :: 0 <= k < |rs| - 1 ==> starts[k] + Size(rs[k]) == starts[k + 1])
    && (rs != [] ==> starts[|rs| - 1] + Size(rs[|rs| - 1]) == end)
  }

  lemma {:induction false} StartsTile(rs: seq<Record>, offset: nat)
    requires Aligned(rs) && offset % 8 == 0
    ensures Tiled(rs, Starts(rs, offset), offset + Extent(rs))
  {
    if rs != [] {
      var next := offset + Size(rs[0]);
      StartsTile(rs[1..], next);
      var starts, rest := Starts(rs, offset), Starts(rs[1..], next);
      assert forall k :: 0 < k < |rs| ==> starts[k] == rest[k - 1] && rs[k] == rs[1..][k - 1];
      assert |rs| > 1 ==> rest[0] == next;
    }
  }

  /** Each entry's contents lie at its start. */
  lemma {:induction false} EntryAt(bytes: seq<Byte>, offset: nat, rs: seq<Record>, k: nat)
    requires k < |rs| && Linkable(rs) && At(bytes, offset, Closed(rs))
    ensures At(bytes, Starts(rs, offset)[k] + LINK, rs[k])
    decreases |rs|
  {
    FirstEntry(bytes, offset, rs);
    if k > 0 {
      EntryAt(bytes, offset + Size(rs[0]), rs[1..], k - 1);
    }
  }

  /**
    A reader that follows the links of a reply with entries visits exactly those entries, each on an
    8-byte boundary and ending where the next one starts, the last one at the end of the used part.
  */
  lemma {:induction false} ReplyIsAChain(bytes: seq<Byte>, rs: seq<Record>)
    requires rs != [] && Linkable(rs) && Aligned(rs) && At(bytes, 0, Closed(rs))
    ensures Follow(bytes, 0) == Some(Starts(rs, 0)) && Tiled(rs, Starts(rs, 0), Extent(rs))
  {
    FollowClosed(bytes, 0, rs);
    StartsTile(rs, 0);
  }

  // ------------------------------------------------------------------------------------------
  // Building a chain in a buffer
  // ------------------------------------------------------------------------------------------

  function Front(rs: seq<Record>): seq<Record>
    requires rs != []
  {
    rs[..|rs| - 1]
  }

  function Last(rs: seq<Record>): Record
    requires rs != []
  {
    rs[|rs| - 1]
  }

  /** The buffer holds the entries, the last one with the link `link`, in front of what `memory` had there. */
  ghost predicate Holds(bytes: seq<Byte>, memory: seq<Byte>, rs: seq<Record>, link: nat) {
    && Linkable(rs) && Extent(rs) <= |memory| && link < U32_RANGE
    && bytes == (if rs == [] then [] else Open(Front(rs)) + Linked(link, Last(rs))) + memory[Extent(rs)..]
  }

  lemma {:induction false} LastStart(rs: seq<Record>)
    requires rs != []
    ensures Extent(Front(rs)) + Size(Last(rs)) == Extent(rs)
  {
    assert rs == Front(rs) + [Last(rs)];
    ExtentSnoc(Front(rs), Last(rs));
  }

  lemma {:induction false} HoldsOpen(bytes: seq<Byte>, memory: seq<Byte>, rs: seq<Record>, link: nat)
    requires Holds(bytes, memory, rs, link) && (rs != [] ==> link == Size(Last(rs)))
    ensures bytes == Open(rs) + memory[Extent(rs)..]
  {
    if rs != [] {
      assert rs == Front(rs) + [Last(rs)];
      OpenSnoc(Front(rs), Last(rs));
    }
  }

  lemma {:induction false} HoldsClosed(bytes: seq<Byte>, memory: seq<Byte>, rs: seq<Record>)
    requires Holds(bytes, memory, rs, 0)
    ensures bytes == Closed(rs) + memory[Extent(rs)..]
  {
    if rs != [] {
      assert rs == Front(rs) + [Last(rs)];
      ClosedSnoc(Front(rs), Last(rs));
    }
  }

  /** Writing an entry behind an open chain. */
  lemma {:induction false} Append(bytes: seq<Byte>, memory: seq<Byte>, rs: seq<Record>, link: nat, next: nat, r: Record)
    requires Holds(bytes, memory, rs, link) && (rs != [] ==> link == Size(Last(rs)))
    requires Size(r) < U32_RANGE && next < U32_RANGE && Extent(rs) + Size(r) <= |bytes|
    ensures Holds(Overwrite(bytes, Extent(rs), Linked(next, r)), memory, rs + [r], next)
  {
    HoldsOpen(bytes, memory, rs, link);
    LinkableSnoc(rs, r);
    ExtentSnoc(rs, r);
    assert Front(rs + [r]) == rs;
    ReplaceHead(Open(rs), memory, Extent(rs), Linked(next, r));
  }

  lemma ReplaceHead(a: seq<Byte>, memory: seq<Byte>, p: nat, t: seq<Byte>)
    requires |a| == p && p + |t| <= |memory|
    ensures Overwrite(a + memory[p..], p, t) == a + t + memory[p + |t|..]
  {
  }

  /** Changing the link of the last entry. */
  lemma Relink(bytes: seq<Byte>, memory: seq<Byte>, rs: seq<Record>, link: nat, next: nat)
    requires rs != [] && Holds(bytes, memory, rs, link) && next < U32_RANGE
    ensures Extent(Front(rs)) + LINK <= |bytes|
    ensures Holds(Overwrite(bytes, Extent(Front(rs)), EncodeU32(next)), memory, rs, next)
  {
    LastStart(rs);
    ReplaceLink(bytes, Extent(Front(rs)), Open(Front(rs)), EncodeU32(link), Last(rs), memory[Extent(rs)..],
      EncodeU32(next));
  }

  lemma ReplaceLink(bytes: seq<Byte>, p: nat, a: seq<Byte>, l: seq<Byte>, r: seq<Byte>, rest: seq<Byte>, t: seq<Byte>)
    requires |l| == |t| && |a| == p && bytes == a + (l + r) + rest
    ensures Overwrite(bytes, p, t) == a + (t + r) + rest
  {
  }
}
