/**
  Matching of user-mode replies to pending IRPs: `DokanCompleteIrp` (sys/event.c) and the drain loop
  `MoveIrpList` (sys/notification.c).

  User mode sends a buffer with one or more EVENT_INFORMATION replies, packed back to back. The
  first pass walks the pending list once, under the lock, and takes out the entries it can match;
  the second pass walks the buffer again, from the start, and completes the entries it owns.
*/
module ReplyCompletion {
  import opened Options
  import opened Bytes
  import opened Structures

  /** The header fields of an EVENT_INFORMATION that the two passes look at. */
  datatype Info = Info(serial: nat, overflow: bool, bufferLength: nat)

  /** What the first pass finds about an entry it matched. */
  datatype Fate =
    | AlreadyCanceled // RequestContext.Irp == NULL
    | ForcedCanceled  // DokanCreateIrpCancelRoutine has run
    | RoutineTaken    // IoSetCancelRoutine returned NULL
    | Owned           // the IRP is this thread's to complete

  datatype Entry = Entry(serial: nat, write: bool, fate: Fate)

  datatype Match = Match(entry: Entry, offset: nat)

  /** Why the first pass stopped. */
  datatype End = Finished | NotSorted | TooLarge | UnexpectedBatch | Fragment

  datatype Walked = Walked(rest: seq<Entry>, matches: seq<Match>, end: End)

  /** GetEventInfoSize. The sum is a ULONG and may wrap around. */
  function EventInfoSize(write: bool, info: Info): (size: nat)
    ensures SIZEOF_EVENT_INFORMATION <= size < U32_RANGE
  {
    if write || info.overflow then
      SIZEOF_EVENT_INFORMATION
    else
      var full := (EVENT_INFORMATION_BUFFER + info.bufferLength) % U32_RANGE;
      if full < SIZEOF_EVENT_INFORMATION then SIZEOF_EVENT_INFORMATION else full
  }

  /** `offset += GetEventInfoSize(...)`, a ULONG as well. */
  function Advance(offset: nat, entry: Entry, info: Info): nat {
    (offset + EventInfoSize(entry.write, info)) % U32_RANGE
  }

  /** The checks after a match: either the walk ends, or it goes on at `next`. */
  function StopAfter(info: Info, next: nat, length: nat, batching: bool): Option<End> {
    if next > length then Some(TooLarge)
    else if info.overflow then Some(Finished)
    else if !batching then Some(if next < length then UnexpectedBatch else Finished)
    else if next == length then Some(Finished)
    else if next + SIZEOF_EVENT_INFORMATION > length then Some(Fragment)
    else None
  }

  /** The first pass over `list`, with the current reply at `offset` and the last serial number seen. */
  function Walk(list: seq<Entry>, read: nat -> Info, length: nat, batching: bool, offset: nat, last: nat): Walked {
    if list == [] then
      Walked([], [], Finished)
    else
      var info := read(offset);
      if info.serial < last then
        Walked(list, [], NotSorted)
      else if list[0].serial != info.serial then
        var w := Walk(list[1..], read, length, batching, offset, info.serial);
        w.(rest := [list[0]] + w.rest)
      else
        var next := Advance(offset, list[0], info);
        match StopAfter(info, next, length, batching)
        case Some(end) => Walked(list[1..], [Match(list[0], offset)], end)
        case None =>
          var w := Walk(list[1..], read, length, batching, next, info.serial);
          w.(matches := [Match(list[0], offset)] + w.matches)
  }

  function WithFate(matches: seq<Match>, fate: Fate): seq<Entry> {
    if matches == [] then []
    else (if matches[0].entry.fate == fate then [matches[0].entry] else []) + WithFate(matches[1..], fate)
  }

  /** The second pass: the reply handed to each entry, or None when it ran off the buffer. */
  function Deal(complete: seq<Entry>, read: nat -> Info, length: nat, offset: nat): seq<Option<Info>> {
    if complete == [] then []
    else if offset >= length then [None] + Deal(complete[1..], read, length, offset)
    else [Some(read(offset))] + Deal(complete[1..], read, length, Advance(offset, complete[0], read(offset)))
  }

  lemma {:induction false} WithFateSnoc(matches: seq<Match>, m: Match, fate: Fate)
    ensures WithFate(matches + [m], fate) ==
            WithFate(matches, fate) + (if m.entry.fate == fate then [m.entry] else [])
  {
    if matches == [] {
      assert matches + [m] == [m] && [m][1..] == [];
    } else {
      assert (matches + [m])[1..] == matches[1..] + [m];
      WithFateSnoc(matches[1..], m, fate);
      var first := if matches[0].entry.fate == fate then [matches[0].entry] else [];
      var last := if m.entry.fate == fate then [m.entry] else [];
      assert first + (WithFate(matches[1..], fate) + last) == (first + WithFate(matches[1..], fate)) + last;
    }
  }

  lemma {:induction false} DealLength(complete: seq<Entry>, read: nat -> Info, length: nat, offset: nat)
    ensures |Deal(complete, read, length, offset)| == |complete|
  {
    if complete != [] {
      DealLength(complete[1..], read, length, if offset >= length then offset
        else Advance(offset, complete[0], read(offset)));
    }
  }

  lemma {:induction false} DealStep(replies: seq<Option<Info>>, complete: seq<Entry>, i: nat, read: nat -> Info,
                                    length: nat, offset: nat)
    requires i < |complete|
    ensures var next := Advance(offset, complete[i], read(offset));
            replies + Deal(complete[i..], read, length, offset) ==
            if offset >= length then (replies + [None]) + Deal(complete[i + 1..], read, length, offset)
            else (replies + [Some(read(offset))]) + Deal(complete[i + 1..], read, length, next)
  {
    assert complete[i..][1..] == complete[i + 1..] && complete[i..][0] == complete[i];
  }

  /** The entries MoveIrpList forwards: those it owns, and creates whose cancel routine has run. */
  function Forwarded(list: seq<Entry>): seq<Entry> {
    if list == [] then []
    else (if list[0].fate.Owned? || list[0].fate.ForcedCanceled? then [list[0]] else []) + Forwarded(list[1..])
  }

  /** The outcome of the first pass, seen from the middle of it. */
  ghost function Resume(list: seq<Entry>, pos: nat, matches: seq<Match>, read: nat -> Info, length: nat,
                        batching: bool, offset: nat, last: nat): Walked
    requires pos <= |list|
  {
    var v := Walk(list[pos..], read, length, batching, offset, last);
    Walked(list[..pos] + v.rest, matches + v.matches, v.end)
  }

  lemma ResumeStep(list: seq<Entry>, pos: nat, matches: seq<Match>, read: nat -> Info, length: nat,
                   batching: bool, offset: nat, last: nat)
    requires pos < |list|
    ensures var w := Resume(list, pos, matches, read, length, batching, offset, last);
            var info := read(offset);
            var m := Match(list[pos], offset);
            var removed := list[..pos] + list[pos + 1..];
            if info.serial < last then
              w == Walked(list, matches, NotSorted)
            else if list[pos].serial != info.serial then
              w == Resume(list, pos + 1, matches, read, length, batching, offset, info.serial)
            else
              var next := Advance(offset, list[pos], info);
              match StopAfter(info, next, length, batching)
              case Some(end) => w == Walked(removed, matches + [m], end)
              case None => w == Resume(removed, pos, matches + [m], read, length, batching, next, info.serial)
  {
    var tail := list[pos..];
    assert tail[0] == list[pos] && tail[1..] == list[pos + 1..];
    assert list[..pos] + tail == list;
    assert list[..pos + 1] == list[..pos] + [list[pos]];
    var removed := list[..pos] + list[pos + 1..];
    assert removed[..pos] == list[..pos] && removed[pos..] == list[pos + 1..];
  }

  /** An IRP list and the walks over it that run under its lock. */
  class IrpList {
    var entries: seq<Entry>

    constructor ()
      ensures entries == []
    {
      entries := [];
    }

    /** First pass of DokanCompleteIrp. */
    method MatchReplies(read: nat -> Info, length: nat, batching: bool)
      returns (complete: seq<Entry>, forceCancel: seq<Entry>, end: End)
      modifies this
      ensures var w := Walk(old(entries), read, length, batching, 0, 0);
              && entries == w.rest
              && complete == WithFate(w.matches, Owned)
              && forceCancel == WithFate(w.matches, ForcedCanceled)
              && end == w.end
    {
      var offset: nat, last: nat, pos: nat := 0, 0, 0;
      complete, forceCancel, end := [], [], Finished;
      ghost var w := Walk(entries, read, length, batching, 0, 0);
      ghost var matches: seq<Match> := [];
      var stop := false;
      while pos < |entries| && !stop
        invariant pos <= |entries|
        invariant complete == WithFate(matches, Owned) && forceCancel == WithFate(matches, ForcedCanceled)
        invariant if stop then w == Walked(entries, matches, end)
                  else end == Finished && w == Resume(entries, pos, matches, read, length, batching, offset, last)
        decreases |entries| - pos, if stop then 0 else 1
      {
        var entry, info := entries[pos], read(offset);
        ResumeStep(entries, pos, matches, read, length, batching, offset, last);
        if info.serial < last {
          end, stop := NotSorted, true;
        } else {
          last := info.serial;
          if entry.serial != info.serial {
            pos := pos + 1;
          } else {
            entries := entries[..pos] + entries[pos + 1..];
            WithFateSnoc(matches, Match(entry, offset), Owned);
            WithFateSnoc(matches, Match(entry, offset), ForcedCanceled);
            matches := matches + [Match(entry, offset)];
            match entry.fate {
              case AlreadyCanceled =>
              case ForcedCanceled => forceCancel := forceCancel + [entry];
              case RoutineTaken =>
              case Owned => complete := complete + [entry];
            }
            offset := Advance(offset, entry, info);
            var verdict := StopAfter(info, offset, length, batching);
            if verdict.Some? {
              end, stop := verdict.value, true;
            }
          }
        }
      }
      assert !stop ==> entries[pos..] == [] && entries[..pos] == entries && matches + [] == matches;
    }

    /** MoveIrpList: empties the list. */
    method MoveTo() returns (dest: seq<Entry>)
      modifies this
      ensures entries == []
      ensures dest == Forwarded(old(entries))
    {
      dest := [];
      while entries != []
        invariant dest + Forwarded(entries) == Forwarded(old(entries))
        decreases |entries|
      {
        var entry := entries[0];
        entries := entries[1..];
        if entry.fate.Owned? || entry.fate.ForcedCanceled? {
          dest := dest + [entry];
        }
      }
    }
  }

  /**
    Second pass of DokanCompleteIrp. `unmountAt` is the iteration in which the unmount flag is first
    seen; from there on the entries are abandoned.
  */
  method CompleteReplies(complete: seq<Entry>, read: nat -> Info, length: nat, unmountAt: nat)
    returns (replies: seq<Option<Info>>)
    ensures var all := Deal(complete, read, length, 0);
            && |all| == |complete|
            && replies == if unmountAt < |complete| then all[..unmountAt] else all
  {
    var offset: nat, i: nat := 0, 0;
    replies := [];
    ghost var all := Deal(complete, read, length, 0);
    DealLength(complete, read, length, 0);
    while i < |complete| && i < unmountAt
      invariant i == |replies| <= |complete| && i <= unmountAt
      invariant replies + Deal(complete[i..], read, length, offset) == all
    {
      DealStep(replies, complete, i, read, length, offset);
      if offset >= length {
        replies := replies + [None];
      } else {
        var info := read(offset);
        replies := replies + [Some(info)];
        offset := Advance(offset, complete[i], info);
      }
      i := i + 1;
    }
    DealLength(complete[i..], read, length, offset);
  }

  // ------------------------------------------------------------------------------------------
  // The second pass recomputes the offsets of the first
  // ------------------------------------------------------------------------------------------

  /** Each match sits at the offset reached after the matches before it, with its whole header in the buffer. */
  predicate Chained(matches: seq<Match>, read: nat -> Info, length: nat, offset: nat)
    decreases |matches|
  {
    matches != [] ==>
      && matches[0].offset == offset && offset + SIZEOF_EVENT_INFORMATION <= length
      && read(offset).serial == matches[0].entry.serial
      && Chained(matches[1..], read, length, Advance(offset, matches[0].entry, read(offset)))
  }

  lemma {:induction false} WalkChains(list: seq<Entry>, read: nat -> Info, length: nat, batching: bool,
                                      offset: nat, last: nat)
    requires offset + SIZEOF_EVENT_INFORMATION <= length
    ensures Chained(Walk(list, read, length, batching, offset, last).matches, read, length, offset)
    decreases |list|
  {
    if list != [] {
      var info := read(offset);
      if info.serial >= last {
        if list[0].serial != info.serial {
          WalkChains(list[1..], read, length, batching, offset, info.serial);
        } else {
          var next := Advance(offset, list[0], info);
          if StopAfter(info, next, length, batching).None? {
            WalkChains(list[1..], read, length, batching, next, info.serial);
          }
        }
      }
    }
  }

  /** Where the first pass stands after its matches. */
  function Behind(matches: seq<Match>, read: nat -> Info, offset: nat): nat
    decreases |matches|
  {
    if matches == [] then offset
    else Behind(matches[1..], read, Advance(matches[0].offset, matches[0].entry, read(matches[0].offset)))
  }

  /** Why the first pass ends, told by where it stands after its last match and what is left of the buffer there. */
  predicate EndIs(w: Walked, read: nat -> Info, length: nat, batching: bool, offset: nat, last: nat) {
    var n, next := |w.matches|, Behind(w.matches, read, offset);
    var overflow := n > 0 && read(w.matches[n - 1].offset).overflow;
    var goesOn := n == 0 || (batching && !overflow && next + SIZEOF_EVENT_INFORMATION <= length);
    && (w.end == TooLarge <==> n > 0 && next > length)
    && (w.end == UnexpectedBatch <==> n > 0 && !overflow && !batching && next < length)
    && (w.end == Fragment <==>
          n > 0 && !overflow && batching && next < length && next + SIZEOF_EVENT_INFORMATION > length)
    && (w.end == NotSorted ==>
          goesOn && w.rest != [] && read(next).serial < if n > 0 then read(w.matches[n - 1].offset).serial else last)
    && (w.end == Finished ==>
          || goesOn
          || next == length || (overflow && next <= length))
    && (w.end == Finished && n == 0 ==>
          forall k :: 0 <= k < |w.rest| ==> w.rest[k].serial != read(offset).serial)
  }

  lemma EndIsAfter(v: Walked, m: Match, read: nat -> Info, length: nat, batching: bool, last: nat)
    requires read(m.offset).serial >= last
    requires EndIs(v, read, length, batching, Advance(m.offset, m.entry, read(m.offset)), read(m.offset).serial)
    requires StopAfter(read(m.offset), Advance(m.offset, m.entry, read(m.offset)), length, batching).None?
    ensures EndIs(v.(matches := [m] + v.matches), read, length, batching, m.offset, last)
  {
    var w := v.(matches := [m] + v.matches);
    assert w.matches[1..] == v.matches;
    if v.matches != [] { assert w.matches[|w.matches| - 1] == v.matches[|v.matches| - 1]; }
  }

  /** For any list and any buffer of a header or more, why the first pass ends; without batching it takes one reply. */
  lemma {:induction false} EndMeans(list: seq<Entry>, read: nat -> Info, length: nat, batching: bool, offset: nat,
                                    last: nat)
    requires offset + SIZEOF_EVENT_INFORMATION <= length
    ensures EndIs(Walk(list, read, length, batching, offset, last), read, length, batching, offset, last)
    ensures !batching ==> |Walk(list, read, length, batching, offset, last).matches| <= 1
    decreases |list|, 1
  {
    if list != [] {
      var info := read(offset);
      if info.serial >= last {
        if list[0].serial != info.serial {
          EndMeans(list[1..], read, length, batching, offset, info.serial);
        } else {
          EndAfterMatch(list, read, length, batching, offset, last);
        }
      }
    }
  }

  lemma {:induction false} EndAfterMatch(list: seq<Entry>, read: nat -> Info, length: nat, batching: bool, offset: nat,
                                         last: nat)
    requires offset + SIZEOF_EVENT_INFORMATION <= length
    requires list != [] && list[0].serial == read(offset).serial >= last
    ensures EndIs(Walk(list, read, length, batching, offset, last), read, length, batching, offset, last)
    ensures !batching ==> |Walk(list, read, length, batching, offset, last).matches| <= 1
    decreases |list|, 0
  {
    var info, m := read(offset), Match(list[0], offset);
    var next := Advance(offset, list[0], info);
    if StopAfter(info, next, length, batching).None? {
      EndMeans(list[1..], read, length, batching, next, info.serial);
      EndIsAfter(Walk(list[1..], read, length, batching, next, info.serial), m, read, length, batching, last);
    } else {
      assert [m][1..] == [];
    }
  }

  /** Where the second pass reads the reply for each entry; None when it ran off the buffer. */
  function DealOffsets(complete: seq<Entry>, read: nat -> Info, length: nat, offset: nat): seq<Option<nat>> {
    if complete == [] then []
    else if offset >= length then [None] + DealOffsets(complete[1..], read, length, offset)
    else [Some(offset)] + DealOffsets(complete[1..], read, length, Advance(offset, complete[0], read(offset)))
  }

  /** Where the first pass found the reply of each entry it owns. */
  function OwnOffsets(matches: seq<Match>): seq<Option<nat>> {
    if matches == [] then []
    else (if matches[0].entry.fate.Owned? then [Some(matches[0].offset)] else []) + OwnOffsets(matches[1..])
  }

  lemma {:induction false} NoOwnOffsets(matches: seq<Match>)
    requires forall k :: 0 <= k < |matches| ==> !matches[k].entry.fate.Owned?
    ensures OwnOffsets(matches) == []
  {
    if matches != [] { NoOwnOffsets(matches[1..]); }
  }

  /** Without a detour the second pass reads each reply where the first one found it. */
  lemma {:induction false} NoDetourRereads(matches: seq<Match>, read: nat -> Info, length: nat, offset: nat)
    requires Chained(matches, read, length, offset) && NoDetour(matches)
    ensures DealOffsets(WithFate(matches, Owned), read, length, offset) == OwnOffsets(matches)
    decreases |matches|
  {
    if matches != [] {
      if matches[0].entry.fate.Owned? {
        var rest := matches[1..];
        assert NoDetour(rest);
        NoDetourRereads(rest, read, length, Advance(offset, matches[0].entry, read(offset)));
        assert WithFate(matches, Owned)[1..] == WithFate(rest, Owned);
      } else {
        NoneOwned(matches);
        NoOwnOffsets(matches);
      }
    }
  }

  /** Every header that is read lies inside the buffer. */
  predicate HeadersInside(offsets: seq<Option<nat>>, length: nat) {
    forall k :: 0 <= k < |offsets| && offsets[k].Some? ==> offsets[k].value + SIZEOF_EVENT_INFORMATION <= length
  }

  lemma {:induction false} OwnHeadersInside(matches: seq<Match>, read: nat -> Info, length: nat, offset: nat)
    requires Chained(matches, read, length, offset)
    ensures HeadersInside(OwnOffsets(matches), length)
    decreases |matches|
  {
    if matches != [] {
      OwnHeadersInside(matches[1..], read, length, Advance(offset, matches[0].entry, read(offset)));
    }
  }

  /**
    For any list and any buffer of at least one reply: without a detour, every completed IRP gets the very
    reply that it was matched with, and no header is read across the end of the buffer.
  */
  lemma {:induction false} PairingWithoutDetour(list: seq<Entry>, read: nat -> Info, length: nat, batching: bool)
    requires SIZEOF_EVENT_INFORMATION <= length && NoDetour(Walk(list, read, length, batching, 0, 0).matches)
    ensures var matches := Walk(list, read, length, batching, 0, 0).matches;
            var complete := WithFate(matches, Owned);
            && DealOffsets(complete, read, length, 0) == OwnOffsets(matches)
            && AllPaired(complete, Deal(complete, read, length, 0))
            && HeadersInside(DealOffsets(complete, read, length, 0), length)
  {
    var matches := Walk(list, read, length, batching, 0, 0).matches;
    WalkChains(list, read, length, batching, 0, 0);
    NoDetourRereads(matches, read, length, 0);
    NoDetourPairs(matches, read, length, 0);
    OwnHeadersInside(matches, read, length, 0);
  }

  /** What the second pass hands out is what it reads at its offsets, and once it is off the buffer it stays there. */
  lemma {:induction false} DealReads(complete: seq<Entry>, read: nat -> Info, length: nat, offset: nat)
    ensures var replies, offsets := Deal(complete, read, length, offset), DealOffsets(complete, read, length, offset);
            && |replies| == |offsets| == |complete|
            && (forall k :: 0 <= k < |complete| ==>
                  replies[k] == if offsets[k].Some? then Some(read(offsets[k].value)) else None)
            && (forall k :: 0 <= k < |complete| && offsets[k].Some? ==> offsets[k].value < length)
            && (forall j, k :: 0 <= j < k < |complete| && offsets[j].None? ==> offsets[k].None?)
            && (complete != [] && offset < length ==> offsets[0] == Some(offset))
    ensures offset >= length ==>
              forall k :: 0 <= k < |complete| ==> DealOffsets(complete, read, length, offset)[k].None?
  {
    if complete != [] {
      DealReads(complete[1..], read, length,
                if offset >= length then offset else Advance(offset, complete[0], read(offset)));
    }
  }

  /** One match in front of the rest of a walk. */
  lemma {:induction false} WalkOne(e: Entry, rest: seq<Entry>, read: nat -> Info, length: nat, offset: nat, last: nat)
    requires read(offset).serial == e.serial >= last
    requires StopAfter(read(offset), Advance(offset, e, read(offset)), length, true).None?
    ensures var v := Walk(rest, read, length, true, Advance(offset, e, read(offset)), e.serial);
            Walk([e] + rest, read, length, true, offset, last) == v.(matches := [Match(e, offset)] + v.matches)
  {
    assert ([e] + rest)[1..] == rest;
  }

  lemma {:induction false} WithFateCons(m: Match, rest: seq<Match>, fate: Fate)
    ensures WithFate([m] + rest, fate) == (if m.entry.fate == fate then [m.entry] else []) + WithFate(rest, fate)
  {
    assert ([m] + rest)[1..] == rest;
  }

  lemma {:induction false} DealOne(e: Entry, rest: seq<Entry>, read: nat -> Info, length: nat, offset: nat)
    requires offset < length
    ensures DealOffsets([e] + rest, read, length, offset)
         == [Some(offset)] + DealOffsets(rest, read, length, Advance(offset, e, read(offset)))
  {
    assert ([e] + rest)[1..] == rest;
  }

  /**
    After a detour a header can lie across the end: the reply to a diverted write notes the bytes written,
    and the next entry, a read, takes that for the length of a buffer.
  */
  lemma {:induction false} DetourLeavesBuffer(read: nat -> Info)
    requires read(0) == Info(1, false, 60) && read(48) == Info(2, false, 8) && read(96) == Info(3, false, 8)
    ensures var a, b, c := Entry(1, true, RoutineTaken), Entry(2, false, Owned), Entry(3, false, Owned);
            var w := Walk([a] + ([b] + [c]), read, 144, true, 0, 0);
            var offsets := DealOffsets(WithFate(w.matches, Owned), read, 144, 0);
            w.end == Finished && offsets == [Some(0), Some(100)] && !HeadersInside(offsets, 144)
  {
    var a, b, c := Entry(1, true, RoutineTaken), Entry(2, false, Owned), Entry(3, false, Owned);
    var mc := [Match(c, 96)];
    assert Walk([c], read, 144, true, 96, 2) == Walked([], mc, Finished);
    WalkOne(b, [c], read, 144, 48, 1);
    WalkOne(a, [b] + [c], read, 144, 0, 0);
    var w := Walk([a] + ([b] + [c]), read, 144, true, 0, 0);
    assert w == Walked([], [Match(a, 0)] + ([Match(b, 48)] + mc), Finished);
    assert WithFate(w.matches, Owned) == [b] + [c] by {
      assert WithFate(mc, Owned) == [c] by { assert mc[1..] == []; }
      WithFateCons(Match(b, 48), mc, Owned);
      WithFateCons(Match(a, 0), [Match(b, 48)] + mc, Owned);
    }
    DetourOffsets(read, b, c);
    var offsets: seq<Option<nat>> := [Some(0), Some(100)];
    assert offsets[1].Some? && offsets[1].value + SIZEOF_EVENT_INFORMATION > 144;
  }

  lemma {:induction false} DetourOffsets(read: nat -> Info, b: Entry, c: Entry)
    requires read(0) == Info(1, false, 60) && !b.write
    ensures DealOffsets([b] + [c], read, 144, 0) == [Some(0), Some(100)]
  {
    DealOne(b, [c], read, 144, 0);
    assert [c] == [c] + [];
    DealOne(c, [], read, 144, 100);
  }

  /** Every completed entry is handed a reply with its own serial number. */
  predicate AllPaired(complete: seq<Entry>, replies: seq<Option<Info>>) {
    && |replies| == |complete|
    && forall k :: 0 <= k < |complete| ==> replies[k].Some? && replies[k].value.serial == complete[k].serial
  }

  /** No matched entry was diverted to cancellation before one that is completed. */
  predicate NoDetour(matches: seq<Match>) {
    forall j, k :: 0 <= j < k < |matches| && matches[k].entry.fate.Owned? ==> matches[j].entry.fate.Owned?
  }

  lemma {:induction false} NoneOwned(matches: seq<Match>)
    requires forall k :: 0 <= k < |matches| ==> !matches[k].entry.fate.Owned?
    ensures WithFate(matches, Owned) == []
  {
    if matches != [] { NoneOwned(matches[1..]); }
  }

  lemma {:induction false} NoDetourPairs(matches: seq<Match>, read: nat -> Info, length: nat, offset: nat)
    requires Chained(matches, read, length, offset) && NoDetour(matches)
    ensures AllPaired(WithFate(matches, Owned), Deal(WithFate(matches, Owned), read, length, offset))
    decreases |matches|
  {
    if matches != [] {
      if matches[0].entry.fate.Owned? {
        var rest := matches[1..];
        assert NoDetour(rest);
        NoDetourPairs(rest, read, length, Advance(offset, matches[0].entry, read(offset)));
        assert WithFate(matches, Owned)[1..] == WithFate(rest, Owned);
      } else {
        NoneOwned(matches);
      }
    }
  }

  predicate DistinctSerials(matches: seq<Match>) {
    forall j, k :: 0 <= j < k < |matches| ==> matches[j].entry.serial != matches[k].entry.serial
  }

  predicate IsFirst(matches: seq<Match>, k: nat)
    requires k < |matches| && WithFate(matches, Owned) != []
  {
    matches[k].entry == WithFate(matches, Owned)[0]
  }

  /** The first completed entry of `matches` is one of the matched entries. */
  lemma {:induction false} FirstOwned(matches: seq<Match>)
    requires WithFate(matches, Owned) != []
    ensures exists k :: 0 <= k < |matches| && matches[k].entry.fate.Owned? && IsFirst(matches, k)
  {
    if !matches[0].entry.fate.Owned? {
      FirstOwned(matches[1..]);
      var k :| 0 <= k < |matches[1..]| && matches[1..][k].entry.fate.Owned? && IsFirst(matches[1..], k);
      assert IsFirst(matches, k + 1);
    }
  }

  lemma {:induction false} SomeOwned(matches: seq<Match>, k: nat)
    requires k < |matches| && matches[k].entry.fate.Owned?
    ensures WithFate(matches, Owned) != []
  {
    if k > 0 { SomeOwned(matches[1..], k - 1); }
  }

  /** After a detour the reply of the diverted entry goes to the next completed one. */
  lemma {:induction false} DetourMispairs(matches: seq<Match>, read: nat -> Info, length: nat, offset: nat)
    requires Chained(matches, read, length, offset) && DistinctSerials(matches) && !NoDetour(matches)
    ensures !AllPaired(WithFate(matches, Owned), Deal(WithFate(matches, Owned), read, length, offset))
    decreases |matches|
  {
    var j, k :| 0 <= j < k < |matches| && matches[k].entry.fate.Owned? && !matches[j].entry.fate.Owned?;
    var complete := WithFate(matches, Owned);
    var replies := Deal(complete, read, length, offset);
    if matches[0].entry.fate.Owned? {
      var rest := matches[1..];
      assert rest[j - 1] == matches[j] && rest[k - 1] == matches[k];
      DetourMispairs(rest, read, length, Advance(offset, matches[0].entry, read(offset)));
      assert complete[1..] == WithFate(rest, Owned);
      if AllPaired(complete, replies) {
        assert replies[1..] == Deal(complete[1..], read, length, Advance(offset, complete[0], read(offset)));
        forall i | 0 <= i < |complete[1..]|
          ensures replies[1..][i].Some? && replies[1..][i].value.serial == complete[1..][i].serial
        {
          assert replies[i + 1].Some? && replies[i + 1].value.serial == complete[i + 1].serial;
        }
        assert AllPaired(complete[1..], replies[1..]);
      }
    } else {
      SomeOwned(matches, k);
      FirstOwned(matches);
      var m :| 0 <= m < |matches| && matches[m].entry.fate.Owned? && IsFirst(matches, m);
      assert m > 0;
      assert replies[0] == Some(read(offset));
    }
  }

  /** A reply starts at `offset` after `n` others, however long a reader takes them to be. */
  ghost predicate IsReply(read: nat -> Info, offset: nat, n: nat)
    decreases n
  {
    if n == 0 then offset == 0
    else exists p: nat, write :: IsReply(read, p, n - 1) && offset == (p + EventInfoSize(write, read(p))) % U32_RANGE
  }

  /** No reply in the buffer carries serial number 0. */
  ghost predicate NoZeroReply(read: nat -> Info, length: nat) {
    forall offset: nat, n: nat :: IsReply(read, offset, n) && offset < length ==> read(offset).serial != 0
  }

  /**
    For any sorted list and any buffer of at least one reply, none with serial number 0: each completed IRP
    gets the reply with its own serial number exactly when no matched entry was diverted to cancellation
    before one that is completed.
  */
  lemma {:induction false} PairingIsExact(list: seq<Entry>, read: nat -> Info, length: nat, batching: bool)
    requires SIZEOF_EVENT_INFORMATION <= length && AscendingList(list) && NoZeroReply(read, length)
    ensures var matches := Walk(list, read, length, batching, 0, 0).matches;
            var complete := WithFate(matches, Owned);
            AllPaired(complete, Deal(complete, read, length, 0)) <==> NoDetour(matches)
  {
    var matches := Walk(list, read, length, batching, 0, 0).matches;
    WalkChains(list, read, length, batching, 0, 0);
    if NoDetour(matches) {
      NoDetourPairs(matches, read, length, 0);
    } else {
      WalkSerialsDistinct(list, read, length, batching, 0, 0, 0);
      DetourMispairs(matches, read, length, 0);
    }
  }

  // ------------------------------------------------------------------------------------------
  // The single pass matches the longest pending prefix of a batch
  // ------------------------------------------------------------------------------------------

  /** Leaving out the zeros, serial numbers strictly increase along the list. */
  predicate AscendingList(list: seq<Entry>) {
    forall j, k :: 0 <= j < k < |list| ==> list[k].serial == 0 || list[j].serial < list[k].serial
  }

  predicate AscendingBatch(batch: seq<Info>) {
    && (forall k :: 0 <= k < |batch| ==> batch[k].serial > 0 && !batch[k].overflow)
    && (forall j, k :: 0 <= j < k < |batch| ==> batch[j].serial < batch[k].serial)
  }

  /** `sizes[k]` is the size of reply `k`, whatever entry asks for it. */
  predicate SizesAgree(batch: seq<Info>, sizes: seq<nat>, list: seq<Entry>) {
    && |sizes| == |batch|
    && (forall k :: 0 <= k < |sizes| ==> SIZEOF_EVENT_INFORMATION <= sizes[k])
    && (forall i, k :: 0 <= i < |list| && 0 <= k < |batch| && list[i].serial == batch[k].serial ==>
          EventInfoSize(list[i].write, batch[k]) == sizes[k])
  }

  /** The replies lie back to back from `offset` to the end of the buffer. */
  predicate PackedAt(batch: seq<Info>, sizes: seq<nat>, read: nat -> Info, length: nat, offset: nat)
    requires |sizes| == |batch|
  {
    if batch == [] then offset == length
    else read(offset) == batch[0] && PackedAt(batch[1..], sizes[1..], read, length, offset + sizes[0])
  }

  predicate IsPending(list: seq<Entry>, serial: nat) { exists k :: 0 <= k < |list| && list[k].serial == serial }

  /** Number of replies up to the first one whose IRP is no longer pending. */
  function PendingPrefix(batch: seq<Info>, list: seq<Entry>): (n: nat)
    ensures n <= |batch|
  {
    if batch == [] || !IsPending(list, batch[0].serial) then 0 else 1 + PendingPrefix(batch[1..], list)
  }

  function SerialsOf(matches: seq<Match>): seq<nat> {
    seq(|matches|, k requires 0 <= k < |matches| => matches[k].entry.serial)
  }

  function BatchSerials(batch: seq<Info>): seq<nat> {
    seq(|batch|, k requires 0 <= k < |batch| => batch[k].serial)
  }

  /** The list without the entries that carry one of the serial numbers. */
  function Unmatched(list: seq<Entry>, serials: seq<nat>): seq<Entry> {
    if list == [] then []
    else (if list[0].serial in serials then [] else [list[0]]) + Unmatched(list[1..], serials)
  }

  lemma {:induction false} PackedBounds(batch: seq<Info>, sizes: seq<nat>, read: nat -> Info, length: nat, offset: nat)
    requires |sizes| == |batch| && PackedAt(batch, sizes, read, length, offset)
    requires forall k :: 0 <= k < |sizes| ==> SIZEOF_EVENT_INFORMATION <= sizes[k]
    ensures offset <= length
    ensures batch != [] ==> offset + SIZEOF_EVENT_INFORMATION <= length
    decreases |batch|
  {
    if batch != [] { PackedBounds(batch[1..], sizes[1..], read, length, offset + sizes[0]); }
  }

  /** An entry below all replies of a batch does not matter for it. */
  lemma {:induction false} PrefixSkips(batch: seq<Info>, list: seq<Entry>)
    requires list != [] && forall k :: 0 <= k < |batch| ==> batch[k].serial != list[0].serial
    ensures PendingPrefix(batch, list) == PendingPrefix(batch, list[1..])
    decreases |batch|
  {
    if batch != [] {
      var n := batch[0].serial;
      if IsPending(list, n) {
        var k :| 0 <= k < |list| && list[k].serial == n;
        assert list[1..][k - 1].serial == n;
      }
      if IsPending(list[1..], n) {
        var k :| 0 <= k < |list[1..]| && list[1..][k].serial == n;
        assert list[k + 1].serial == n;
      }
      PrefixSkips(batch[1..], list);
    }
  }

  lemma {:induction false} UnmatchedNone(list: seq<Entry>)
    ensures Unmatched(list, []) == list
  {
    if list != [] { UnmatchedNone(list[1..]); }
  }

  /** A serial number that no entry carries makes no difference. */
  lemma {:induction false} UnmatchedAbsent(list: seq<Entry>, n: nat, serials: seq<nat>)
    requires forall k :: 0 <= k < |list| ==> list[k].serial != n
    ensures Unmatched(list, [n] + serials) == Unmatched(list, serials)
  {
    if list != [] { UnmatchedAbsent(list[1..], n, serials); }
  }

  lemma {:induction false} UnmatchedHead(list: seq<Entry>, serials: seq<nat>)
    requires list != [] && AscendingList(list) && list[0].serial > 0
    ensures Unmatched(list, [list[0].serial] + serials) == Unmatched(list[1..], serials)
  {
    UnmatchedAbsent(list[1..], list[0].serial, serials);
  }

  lemma {:induction false} SkipHead(batch: seq<Info>, list: seq<Entry>)
    requires batch != [] && list != [] && AscendingList(list) && AscendingBatch(batch)
    requires list[0].serial != batch[0].serial
    ensures var p := PendingPrefix(batch, list);
            && p == PendingPrefix(batch, list[1..])
            && list[0].serial !in BatchSerials(batch)[..p]
  {
    if IsPending(list, batch[0].serial) {
      var k :| 0 <= k < |list| && list[k].serial == batch[0].serial;
      assert list[0].serial < batch[0].serial;
      PrefixSkips(batch, list);
    }
  }

  lemma SizesAgreeTail(batch: seq<Info>, sizes: seq<nat>, list: seq<Entry>)
    requires SizesAgree(batch, sizes, list) && list != [] && batch != []
    ensures SizesAgree(batch, sizes, list[1..]) && SizesAgree(batch[1..], sizes[1..], list[1..])
  {
  }

  predicate BatchOutcome(w: Walked, batch: seq<Info>, list: seq<Entry>) {
    var serials := BatchSerials(batch)[..PendingPrefix(batch, list)];
    SerialsOf(w.matches) == serials && w.rest == Unmatched(list, serials) && w.end == Finished
  }

  lemma {:induction false} BatchWalk(batch: seq<Info>, sizes: seq<nat>, list: seq<Entry>, read: nat -> Info,
                                     length: nat, offset: nat, last: nat)
    requires AscendingList(list) && AscendingBatch(batch) && SizesAgree(batch, sizes, list)
    requires batch != [] && last <= batch[0].serial
    requires PackedAt(batch, sizes, read, length, offset) && length < U32_RANGE
    ensures BatchOutcome(Walk(list, read, length, true, offset, last), batch, list)
    decreases |list|
  {
    if list == [] {
    } else if list[0].serial != batch[0].serial {
      SizesAgreeTail(batch, sizes, list);
      BatchWalk(batch, sizes, list[1..], read, length, offset, batch[0].serial);
      SkipHead(batch, list);
    } else {
      SizesAgreeTail(batch, sizes, list);
      PackedBounds(batch, sizes, read, length, offset);
      PackedBounds(batch[1..], sizes[1..], read, length, offset + sizes[0]);
      assert list[0].serial == batch[0].serial && EventInfoSize(list[0].write, batch[0]) == sizes[0];
      BatchMatch(batch, sizes, list, read, length, offset, last);
      if |batch| > 1 {
        assert batch[1..][0] == batch[1];
        BatchWalk(batch[1..], sizes[1..], list[1..], read, length, offset + sizes[0], batch[0].serial);
      }
    }
  }

  /** The walk takes the head of the list for the head of the batch, and goes on with both tails. */
  lemma {:induction false} BatchMatch(batch: seq<Info>, sizes: seq<nat>, list: seq<Entry>, read: nat -> Info,
                   length: nat, offset: nat, last: nat)
    requires AscendingList(list) && AscendingBatch(batch)
    requires batch != [] && list != [] && |sizes| == |batch| && last <= batch[0].serial == list[0].serial
    requires PackedAt(batch, sizes, read, length, offset) && length < U32_RANGE
    requires EventInfoSize(list[0].write, batch[0]) == sizes[0] && offset + sizes[0] <= length
    requires |batch| > 1 ==> offset + sizes[0] + SIZEOF_EVENT_INFORMATION <= length
    ensures var w := Walk(list, read, length, true, offset, last);
            if |batch| == 1 then
              BatchOutcome(w, batch, list)
            else
              BatchOutcome(Walk(list[1..], read, length, true, offset + sizes[0], batch[0].serial), batch[1..],
                list[1..]) ==>
                BatchOutcome(w, batch, list)
  {
    WalkTakesHead(batch, sizes, list, read, length, offset, last);
    PrefixTakesHead(batch, list);
    var n := PendingPrefix(batch[1..], list[1..]);
    if |batch| == 1 {
      UnmatchedNone(list[1..]);
    }
  }

  /** The serials of the pending prefix, when the heads agree. */
  lemma {:induction false} PrefixTakesHead(batch: seq<Info>, list: seq<Entry>)
    requires AscendingList(list) && AscendingBatch(batch)
    requires batch != [] && list != [] && batch[0].serial == list[0].serial
    ensures var n := PendingPrefix(batch[1..], list[1..]);
            var serials := BatchSerials(batch[1..])[..n];
            && PendingPrefix(batch, list) == 1 + n
            && BatchSerials(batch)[..1 + n] == [list[0].serial] + serials
            && Unmatched(list, [list[0].serial] + serials) == Unmatched(list[1..], serials)
  {
    var tail := batch[1..];
    assert IsPending(list, batch[0].serial);
    PrefixSkips(tail, list);
    var n := PendingPrefix(tail, list[1..]);
    assert PendingPrefix(batch, list) == 1 + n;
    assert BatchSerials(batch)[..1 + n] == [list[0].serial] + BatchSerials(tail)[..n];
    UnmatchedHead(list, BatchSerials(tail)[..n]);
  }

  /** The walk takes the head of the list and goes on, or stops behind the last reply. */
  lemma {:induction false} WalkTakesHead(batch: seq<Info>, sizes: seq<nat>, list: seq<Entry>, read: nat -> Info,
                      length: nat, offset: nat, last: nat)
    requires batch != [] && list != [] && |sizes| == |batch| && last <= batch[0].serial == list[0].serial
    requires PackedAt(batch, sizes, read, length, offset) && length < U32_RANGE && !batch[0].overflow
    requires EventInfoSize(list[0].write, batch[0]) == sizes[0] && offset + sizes[0] <= length
    requires |batch| > 1 ==> offset + sizes[0] + SIZEOF_EVENT_INFORMATION <= length
    ensures var w := Walk(list, read, length, true, offset, last);
            if |batch| == 1 then
              SerialsOf(w.matches) == [list[0].serial] && w.rest == list[1..] && w.end == Finished
            else
              var v := Walk(list[1..], read, length, true, offset + sizes[0], batch[0].serial);
              SerialsOf(w.matches) == [list[0].serial] + SerialsOf(v.matches) && w.rest == v.rest && w.end == v.end
  {
    var next := Advance(offset, list[0], read(offset));
    assert next == offset + sizes[0];
    var w := Walk(list, read, length, true, offset, last);
    if |batch| > 1 {
      var v := Walk(list[1..], read, length, true, next, batch[0].serial);
      assert w.matches == [Match(list[0], offset)] + v.matches;
      assert SerialsOf(w.matches) == [list[0].serial] + SerialsOf(v.matches);
    }
  }

  /**
    For a batch sorted by serial number, with batching on: the pass takes exactly the entries of the
    longest prefix of replies that are all still pending, in order, and nothing else.
  */
  lemma {:induction false} BatchMatchesPendingPrefix(batch: seq<Info>, sizes: seq<nat>, list: seq<Entry>,
                                                     read: nat -> Info, length: nat)
    requires AscendingList(list) && AscendingBatch(batch) && SizesAgree(batch, sizes, list)
    requires batch != [] && PackedAt(batch, sizes, read, length, 0) && length < U32_RANGE
    ensures BatchOutcome(Walk(list, read, length, true, 0, 0), batch, list)
  {
    BatchWalk(batch, sizes, list, read, length, 0, 0);
  }

  // ------------------------------------------------------------------------------------------
  // Matched entries are distinct
  // ------------------------------------------------------------------------------------------

  lemma {:induction false} MatchedAreListed(list: seq<Entry>, read: nat -> Info, length: nat, batching: bool,
                                            offset: nat, last: nat)
    ensures forall m :: m in Walk(list, read, length, batching, offset, last).matches ==> m.entry in list
    decreases |list|
  {
    if list != [] {
      var info := read(offset);
      MatchedAreListed(list[1..], read, length, batching, offset, info.serial);
      MatchedAreListed(list[1..], read, length, batching, Advance(offset, list[0], info), info.serial);
    }
  }

  /** What the walk matches carries the serial numbers of replies. */
  lemma {:induction false} MatchedSerials(list: seq<Entry>, read: nat -> Info, length: nat, batching: bool,
                                          offset: nat, last: nat, n: nat)
    requires NoZeroReply(read, length) && IsReply(read, offset, n) && offset < length
    ensures forall m :: m in Walk(list, read, length, batching, offset, last).matches ==> m.entry.serial != 0
    decreases |list|
  {
    if list != [] {
      var info := read(offset);
      if info.serial >= last {
        if list[0].serial != info.serial {
          MatchedSerials(list[1..], read, length, batching, offset, info.serial, n);
        } else {
          var next := Advance(offset, list[0], info);
          assert IsReply(read, next, n + 1);
          if StopAfter(info, next, length, batching).None? {
            MatchedSerials(list[1..], read, length, batching, next, info.serial, n + 1);
          }
        }
      }
    }
  }

  lemma {:induction false} WalkSerialsDistinct(list: seq<Entry>, read: nat -> Info, length: nat, batching: bool,
                                               offset: nat, last: nat, n: nat)
    requires AscendingList(list) && NoZeroReply(read, length) && IsReply(read, offset, n) && offset < length
    ensures DistinctSerials(Walk(list, read, length, batching, offset, last).matches)
    decreases |list|
  {
    if list != [] {
      var info := read(offset);
      if info.serial >= last {
        if list[0].serial != info.serial {
          WalkSerialsDistinct(list[1..], read, length, batching, offset, info.serial, n);
        } else {
          var next := Advance(offset, list[0], info);
          assert IsReply(read, next, n + 1);
          if StopAfter(info, next, length, batching).None? {
            WalkSerialsDistinct(list[1..], read, length, batching, next, info.serial, n + 1);
            TailIsLater(list, read, length, batching, next, info.serial, n + 1);
            DistinctCons(Match(list[0], offset), Walk(list[1..], read, length, batching, next, info.serial).matches);
          }
        }
      }
    }
  }

  lemma {:induction false} TailIsLater(list: seq<Entry>, read: nat -> Info, length: nat, batching: bool,
                                       offset: nat, last: nat, n: nat)
    requires list != [] && AscendingList(list)
    requires NoZeroReply(read, length) && IsReply(read, offset, n) && offset < length
    ensures forall m :: m in Walk(list[1..], read, length, batching, offset, last).matches ==>
                          m.entry.serial > list[0].serial
  {
    MatchedSerials(list[1..], read, length, batching, offset, last, n);
    LaterSerials(list, read, length, batching, offset, last);
  }

  lemma DistinctCons(first: Match, matches: seq<Match>)
    requires DistinctSerials(matches)
    requires forall m :: m in matches ==> m.entry.serial > first.entry.serial
    ensures DistinctSerials([first] + matches)
  {
    var all := [first] + matches;
    forall j, k | 0 <= j < k < |all| ensures all[j].entry.serial != all[k].entry.serial {
      assert all[k] == matches[k - 1] && all[k] in matches && (j > 0 ==> all[j] == matches[j - 1]);
    }
  }

  /** Non-zero serials matched behind the head are larger than the head's. */
  lemma {:induction false} LaterSerials(list: seq<Entry>, read: nat -> Info, length: nat, batching: bool,
                                        offset: nat, last: nat)
    requires list != [] && AscendingList(list)
    ensures forall m :: m in Walk(list[1..], read, length, batching, offset, last).matches ==>
                          m.entry.serial == 0 || m.entry.serial > list[0].serial
  {
    var matches := Walk(list[1..], read, length, batching, offset, last).matches;
    MatchedAreListed(list[1..], read, length, batching, offset, last);
    forall m | m in matches ensures m.entry.serial == 0 || m.entry.serial > list[0].serial {
      var i :| 0 <= i < |list[1..]| && list[1..][i] == m.entry;
      assert list[i + 1] == m.entry;
    }
  }

  // ------------------------------------------------------------------------------------------
  // The detour condition on the list and the batch
  // ------------------------------------------------------------------------------------------

  function EntriesOf(matches: seq<Match>): seq<Entry> {
    seq(|matches|, k requires 0 <= k < |matches| => matches[k].entry)
  }

  /** The entries of the list that have one of the serial numbers. */
  function Picked(list: seq<Entry>, serials: seq<nat>): seq<Entry> {
    if list == [] then []
    else (if list[0].serial in serials then [list[0]] else []) + Picked(list[1..], serials)
  }

  lemma {:induction false} PickedNone(list: seq<Entry>, serials: seq<nat>)
    requires forall k :: 0 <= k < |list| ==> list[k].serial !in serials
    ensures Picked(list, serials) == []
  {
    if list != [] { PickedNone(list[1..], serials); }
  }

  lemma {:induction false} PickedAbsent(list: seq<Entry>, n: nat, serials: seq<nat>)
    requires forall k :: 0 <= k < |list| ==> list[k].serial != n
    ensures Picked(list, [n] + serials) == Picked(list, serials)
  {
    if list != [] { PickedAbsent(list[1..], n, serials); }
  }

  lemma {:induction false} SkippedSerial(list: seq<Entry>, serials: seq<nat>)
    requires list != [] && forall k :: 0 <= k < |serials| ==> serials[k] > list[0].serial
    ensures Picked(list, serials) == Picked(list[1..], serials)
  {
  }

  lemma {:induction false} TakenSerial(list: seq<Entry>, serials: seq<nat>)
    requires list != [] && AscendingList(list) && list[0].serial > 0
    ensures Picked(list, [list[0].serial] + serials) == [list[0]] + Picked(list[1..], serials)
  {
    PickedAbsent(list[1..], list[0].serial, serials);
  }

  /** The matched entries are the ones with the matched serial numbers, in list order. */
  lemma {:induction false} WalkPicks(list: seq<Entry>, read: nat -> Info, length: nat, batching: bool,
                                     offset: nat, last: nat)
    requires AscendingList(list)
    requires forall m :: m in Walk(list, read, length, batching, offset, last).matches ==> m.entry.serial != 0
    ensures var matches := Walk(list, read, length, batching, offset, last).matches;
            EntriesOf(matches) == Picked(list, SerialsOf(matches))
    decreases |list|
  {
    var matches := Walk(list, read, length, batching, offset, last).matches;
    if matches == [] {
      PickedNone(list, []);
      assert SerialsOf(matches) == [];
    } else {
      var info := read(offset);
      if list[0].serial != info.serial {
        WalkPicks(list[1..], read, length, batching, offset, info.serial);
        LaterSerials(list, read, length, batching, offset, info.serial);
        forall k | 0 <= k < |matches| ensures SerialsOf(matches)[k] > list[0].serial { assert matches[k] in matches; }
        SkippedSerial(list, SerialsOf(matches));
      } else {
        var next, rest := Advance(offset, list[0], info), matches[1..];
        assert matches == [Match(list[0], offset)] + rest && matches[0] in matches;
        assert SerialsOf(matches) == [list[0].serial] + SerialsOf(rest);
        assert EntriesOf(matches) == [list[0]] + EntriesOf(rest);
        TakenSerial(list, SerialsOf(rest));
        if StopAfter(info, next, length, batching).None? {
          forall m | m in rest ensures m.entry.serial != 0 { assert m in matches; }
          WalkPicks(list[1..], read, length, batching, next, info.serial);
        } else {
          PickedNone(list[1..], []);
          assert SerialsOf(rest) == [] && EntriesOf(rest) == [];
        }
      }
    }
  }

  /** No entry is diverted before one that is completed. */
  predicate NoDiversion(entries: seq<Entry>) {
    forall j, k :: 0 <= j < k < |entries| && entries[k].fate.Owned? ==> entries[j].fate.Owned?
  }

  lemma DetourIsDiversion(matches: seq<Match>)
    ensures NoDetour(matches) <==> NoDiversion(EntriesOf(matches))
  {
    var entries := EntriesOf(matches);
    if NoDetour(matches) {
      forall j, k | 0 <= j < k < |entries| && entries[k].fate.Owned? ensures entries[j].fate.Owned? {
        assert matches[k].entry == entries[k] && matches[j].entry == entries[j];
      }
    } else {
      var j, k :| 0 <= j < k < |matches| && matches[k].entry.fate.Owned? && !matches[j].entry.fate.Owned?;
      assert entries[k] == matches[k].entry && entries[j] == matches[j].entry;
    }
  }

  /**
    For a sorted batch the condition is one on list and batch: among the pending entries that the matched
    replies name, none is diverted before one that is owned.
  */
  lemma {:induction false} BatchPairing(batch: seq<Info>, sizes: seq<nat>, list: seq<Entry>, read: nat -> Info,
                                        length: nat)
    requires AscendingList(list) && AscendingBatch(batch) && SizesAgree(batch, sizes, list)
    requires batch != [] && PackedAt(batch, sizes, read, length, 0) && SIZEOF_EVENT_INFORMATION <= length < U32_RANGE
    ensures var complete := WithFate(Walk(list, read, length, true, 0, 0).matches, Owned);
            AllPaired(complete, Deal(complete, read, length, 0)) <==>
            NoDiversion(Picked(list, BatchSerials(batch)[..PendingPrefix(batch, list)]))
  {
    BatchMatchesPendingPrefix(batch, sizes, list, read, length);
    var matches := Walk(list, read, length, true, 0, 0).matches;
    var serials := SerialsOf(matches);
    var n := PendingPrefix(batch, list);
    assert |matches| == n by { assert |serials| == |BatchSerials(batch)[..n]|; }
    forall k | 0 <= k < n ensures matches[k].entry.serial == batch[k].serial {
      assert serials[k] == BatchSerials(batch)[..n][k];
    }
    forall m | m in matches ensures m.entry.serial != 0 {
      var k :| 0 <= k < |matches| && matches[k] == m;
    }
    WalkPicks(list, read, length, true, 0, 0);
    DetourIsDiversion(matches);
    WalkChains(list, read, length, true, 0, 0);
    if NoDetour(matches) { NoDetourPairs(matches, read, length, 0); } else { DetourMispairs(matches, read, length, 0); }
  }
}
