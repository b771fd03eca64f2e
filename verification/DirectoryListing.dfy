/**
  Directory queries: the library packs as many entries as fit from a given index on
  (dokan/directory.c), and the driver remembers the index for the next query (sys/directory.c).
*/
module DirectoryListing {
  import opened Bytes
  import opened EntryChain

  datatype InfoClass =
    | DirectoryInfo | FullDirectory | IdFullDirectory | Names
    | BothDirectory | IdBothDirectory | IdExtdDirectory | IdExtdBothDirectory

  /** A WIN32_FIND_DATAW. Times, sizes and attributes are only copied: `metadata` stands for them. */
  datatype FindData = FindData(name: seq<Wchar>, metadata: seq<Byte>)

  const MAX_PATH: nat := 260

  /** cFileName is a terminated string in an array of MAX_PATH characters. */
  predicate Valid(f: FindData) { |f.name| < MAX_PATH }

  predicate AllValid(list: seq<FindData>) { forall k :: 0 <= k < |list| ==> Valid(list[k]) }

  function StructSize(c: InfoClass): nat {
    match c
    case DirectoryInfo => 72 case FullDirectory => 72 case IdFullDirectory => 88 case Names => 16
    case BothDirectory => 96 case IdBothDirectory => 112 case IdExtdDirectory => 96 case IdExtdBothDirectory => 120
  }

  /** Offset of FileNameLength. */
  function LengthOffset(c: InfoClass): nat { if c == Names then 8 else 60 }

  /** Offset of FileName. */
  function NameOffset(c: InfoClass): nat {
    match c
    case DirectoryInfo => 64 case FullDirectory => 68 case IdFullDirectory => 80 case Names => 12
    case BothDirectory => 94 case IdBothDirectory => 104 case IdExtdDirectory => 88 case IdExtdBothDirectory => 114
  }

  // The offsets follow from the members of the structures and their natural alignment (section 2.4 of MS-FSCC).

  /** Where a ULONG ends that comes behind `offset`. */
  function BehindUlong(offset: nat): nat { (offset + 3) / 4 * 4 + 4 }

  function BehindLarge(offset: nat): nat { (offset + 7) / 8 * 8 + 8 }

  /** ShortNameLength, one byte, and ShortName, twelve characters. */
  function BehindShortName(offset: nat): nat { (offset + 1 + 1) / 2 * 2 + 24 }

  /** A FILE_ID_128, sixteen bytes. */
  function BehindFileId128(offset: nat): nat { offset + 16 }

  /** A structure is as long as its alignment asks for, with room for one character of the name. */
  function Padded(offset: nat, c: InfoClass): nat {
    if c == Names then (offset + SIZEOF_WCHAR + 3) / 4 * 4 else (offset + SIZEOF_WCHAR + 7) / 8 * 8
  }

  /** Behind NextEntryOffset and FileIndex: four times, two sizes and the attributes, except for names alone. */
  function BehindFront(c: InfoClass): nat {
    var front := BehindUlong(BehindUlong(0));
    if c == Names then front
    else BehindUlong(BehindLarge(BehindLarge(BehindLarge(BehindLarge(BehindLarge(BehindLarge(front)))))))
  }

  /** FileNameLength, and what lies between it and FileName. */
  function BehindBack(c: InfoClass, offset: nat): nat {
    var length := BehindUlong(offset);
    match c
    case DirectoryInfo => length
    case Names => length
    case FullDirectory => BehindUlong(length)
    case IdFullDirectory => BehindLarge(BehindUlong(length))
    case BothDirectory => BehindShortName(BehindUlong(length))
    case IdBothDirectory => BehindLarge(BehindShortName(BehindUlong(length)))
    case IdExtdDirectory => BehindFileId128(BehindUlong(BehindUlong(length)))
    case IdExtdBothDirectory => BehindShortName(BehindFileId128(BehindUlong(BehindUlong(length))))
  }

  /** The size of each structure is what its members ask for. */
  lemma SizeIsNatural(c: InfoClass)
    ensures StructSize(c) == Padded(NameOffset(c), c)
  {
    match c
    case DirectoryInfo => case FullDirectory => case IdFullDirectory => case Names =>
    case BothDirectory => case IdBothDirectory => case IdExtdDirectory => case IdExtdBothDirectory =>
  }

  /** FileNameLength lies where the members before it put it. */
  lemma FrontIsNatural(c: InfoClass)
    ensures LengthOffset(c) == BehindFront(c)
  {
    assert BehindUlong(0) == 4 && BehindUlong(4) == 8;
    assert BehindLarge(8) == 16 && BehindLarge(16) == 24 && BehindLarge(24) == 32;
    assert BehindLarge(32) == 40 && BehindLarge(40) == 48 && BehindLarge(48) == 56 && BehindUlong(56) == 60;
  }

  /** FileName lies where the members before it put it. */
  lemma BackIsNatural(c: InfoClass)
    ensures NameOffset(c) == BehindBack(c, LengthOffset(c))
  {
    assert BehindUlong(8) == 12 && BehindUlong(60) == 64 && BehindUlong(64) == 68 && BehindUlong(68) == 72;
    assert BehindLarge(68) == 80 && BehindShortName(68) == 94 && BehindLarge(94) == 104;
    assert BehindShortName(88) == 114;
    match c
    case DirectoryInfo => case FullDirectory => case IdFullDirectory => case Names =>
    case BothDirectory => case IdBothDirectory => case IdExtdDirectory => case IdExtdBothDirectory =>
  }

  /** The least multiple of eight that holds the structure, which has room for one character, and the name. */
  lemma EntrySizeIsLeast(c: InfoClass, f: FindData, n: nat)
    requires n % 8 == 0 && n >= StructSize(c) + SIZEOF_WCHAR * |f.name|
    ensures StructSize(c) + SIZEOF_WCHAR * |f.name| <= EntrySize(c, f) <= n
  {
  }

  function EntrySize(c: InfoClass, f: FindData): (n: nat)
    ensures n % 8 == 0 && NameOffset(c) + SIZEOF_WCHAR * |f.name| <= n
  {
    QuadAlign(SIZEOF_WCHAR * |f.name| + StructSize(c))
  }

  function Resize(s: seq<Byte>, n: nat): (r: seq<Byte>)
    ensures |r| == n
  {
    if |s| >= n then s[..n] else s + Zeros(n - |s|)
  }

  /** The fields between NextEntryOffset and FileName. */
  function Fields(c: InfoClass, f: FindData, index: nat): (s: seq<Byte>)
    requires Valid(f) && index < U32_RANGE
    ensures |s| == NameOffset(c) - LINK
  {
    var a, b := EncodeU32(index), Resize(f.metadata, LengthOffset(c) - 8);
    var l, d := EncodeU32(SIZEOF_WCHAR * |f.name|), Resize(f.metadata, NameOffset(c) - LengthOffset(c) - 4);
    ConcatFour(a, b, l, d);
    Concat([a, b, l, d])
  }

  function Body(c: InfoClass, f: FindData, index: nat): (r: Record)
    requires Valid(f) && index < U32_RANGE
    ensures Size(r) == EntrySize(c, f)
  {
    var a, b := Fields(c, f, index), EncodeWide(f.name);
    var gap := Zeros(EntrySize(c, f) - NameOffset(c) - |b|);
    ConcatThree(a, b, gap);
    Concat([a, b, gap])
  }

  // ------------------------------------------------------------------------------------------
  // What a query returns
  // ------------------------------------------------------------------------------------------

  function Filter(list: seq<FindData>, accepts: FindData -> bool): (r: seq<FindData>)
    ensures |r| <= |list|
    ensures AllValid(list) ==> AllValid(r)
  {
    if list == [] then []
    else if accepts(list[0]) then [list[0]] + Filter(list[1..], accepts)
    else Filter(list[1..], accepts)
  }

  /** Filtering keeps or drops each file for itself, and keeps the order. */
  lemma {:induction false} FilterJoins(a: seq<FindData>, b: seq<FindData>, accepts: FindData -> bool)
    ensures Filter(a + b, accepts) == Filter(a, accepts) + Filter(b, accepts)
  {
    if a == [] {
      assert a + b == b;
    } else {
      assert (a + b)[0] == a[0] && (a + b)[1..] == a[1..] + b;
      FilterJoins(a[1..], b, accepts);
    }
  }

  lemma FilterOne(f: FindData, accepts: FindData -> bool)
    ensures Filter([f], accepts) == if accepts(f) then [f] else []
  {
  }

  /** The index of every file fits its type. */
  predicate Indexed(list: seq<FindData>) { AllValid(list) && |list| < 0x8000_0000 }

  /** The entries of `list`. Each carries the index of the entry after it. */
  function Records(c: InfoClass, list: seq<FindData>): (rs: seq<Record>)
    requires Indexed(list)
    ensures |rs| == |list| && Linkable(rs) && Aligned(rs)
  {
    seq(|list|, k requires 0 <= k < |list| => Body(c, list[k], k + 1))
  }

  /** How many entries from `index` on fit; at most one if only one is wanted. */
  function Count(all: seq<Record>, index: nat, room: nat, single: bool): (n: nat)
    ensures index <= |all| ==> index + n <= |all|
    ensures n == 0 <==> index >= |all| || Size(all[index]) > room
    ensures single ==> n <= 1
    decreases |all| - index
  {
    if index >= |all| || Size(all[index]) > room then 0
    else if single then 1
    else 1 + Count(all, index + 1, room - Size(all[index]), single)
  }

  /** The entries from `index` up to `end`. */
  function Slice(all: seq<Record>, index: nat, end: nat): (rs: seq<Record>)
    requires end <= |all|
    ensures Linkable(all) ==> Linkable(rs)
    ensures Aligned(all) ==> Aligned(rs)
  {
    if index <= end then all[index..end] else []
  }

  function Page(all: seq<Record>, index: nat, room: nat, single: bool): (rs: seq<Record>)
    ensures Linkable(all) ==> Linkable(rs)
    ensures Aligned(all) ==> Aligned(rs)
    ensures |rs| == Count(all, index, room, single)
  {
    var n := Count(all, index, room, single);
    if n == 0 then [] else Slice(all, index, index + n)
  }

  /** The index after the page, -1 for NO_MORE_FILES, -2 for BUFFER_OVERFLOW. */
  function MatchResult(all: seq<Record>, index: nat, room: nat, single: bool): int {
    var n := Count(all, index, room, single);
    if n > 0 then index + n else if index >= |all| then -1 else -2
  }

  // ------------------------------------------------------------------------------------------
  // One entry in the buffer
  // ------------------------------------------------------------------------------------------

  /** Clears an entry and copies its fields and its name into it. */
  method FillEntry(buffer: array<Byte>, position: nat, n: nat, fields: seq<Byte>, name: seq<Byte>,
                   ghost entry: seq<Byte>)
    requires position + n <= buffer.Length && LINK + |fields| + |name| <= n
    requires |entry| == n && entry == Zeros(LINK) + fields + name + Zeros(n - LINK - |fields| - |name|)
    modifies buffer
    ensures buffer[..] == Overwrite(old(buffer[..]), position, entry)
  {
    ZeroFilled(buffer[..], position, n, fields, name);
    CopyMemory(buffer, position, Zeros(n));
    CopyMemory(buffer, position + LINK, fields);
    CopyMemory(buffer, position + LINK + |fields|, name);
  }

  /** DokanFillDirectoryInformation: writes one entry unless the room is too small. */
  method FillDirectoryInformation(c: InfoClass, buffer: array<Byte>, position: nat, room: nat, f: FindData,
                                  index: nat, ghost r: Record)
    returns (entrySize: nat)
    requires Valid(f) && index < U32_RANGE && position + room <= buffer.Length && r == Body(c, f, index)
    modifies buffer
    ensures entrySize == if Size(r) <= room then Size(r) else 0
    ensures buffer[..] == if Size(r) <= room then Overwrite(old(buffer[..]), position, Linked(0, r))
            else old(buffer[..])
  {
    entrySize := EntrySize(c, f);
    if room < entrySize { return 0; }
    var fields, name := Fields(c, f, index), EncodeWide(f.name);
    assert Linked(0, r) == Zeros(LINK) + fields + name + Zeros(entrySize - LINK - |fields| - |name|) by {
      BodyIs(c, f, index);
    }
    FillEntry(buffer, position, entrySize, fields, name, Linked(0, r));
  }

  lemma BodyIs(c: InfoClass, f: FindData, index: nat)
    requires Valid(f) && index < U32_RANGE
    ensures var a, b := Fields(c, f, index), EncodeWide(f.name);
            Linked(0, Body(c, f, index)) == Zeros(LINK) + a + b + Zeros(EntrySize(c, f) - LINK - |a| - |b|)
  {
    var a, b := Fields(c, f, index), EncodeWide(f.name);
    var gap := Zeros(EntrySize(c, f) - LINK - |a| - |b|);
    ZeroLink();
    ConcatThree(a, b, gap);
    AssocFour(Zeros(LINK), a, b, gap);
  }

  lemma AssocFour(a: seq<Byte>, b: seq<Byte>, c: seq<Byte>, d: seq<Byte>)
    ensures a + (b + c + d) == a + b + c + d
  {
  }

  lemma ZeroFilled(memory: seq<Byte>, position: nat, n: nat, a: seq<Byte>, b: seq<Byte>)
    requires position + n <= |memory| && LINK + |a| + |b| <= n
    ensures Overwrite(Overwrite(Overwrite(memory, position, Zeros(n)), position + LINK, a), position + LINK + |a|, b)
         == Overwrite(memory, position, Zeros(LINK) + a + b + Zeros(n - LINK - |a| - |b|))
  {
    OverwriteInside(memory, position, Zeros(n), LINK, a);
    OverwriteInside(memory, position, Overwrite(Zeros(n), LINK, a), LINK + |a|, b);
    ZeroFill(n, a, b);
  }

  lemma OverwriteInside(memory: seq<Byte>, p: nat, s: seq<Byte>, q: nat, t: seq<Byte>)
    requires p + |s| <= |memory| && q + |t| <= |s|
    ensures Overwrite(Overwrite(memory, p, s), p + q, t) == Overwrite(memory, p, Overwrite(s, q, t))
  {
  }

  lemma ZeroFill(n: nat, a: seq<Byte>, b: seq<Byte>)
    requires LINK + |a| + |b| <= n
    ensures Overwrite(Overwrite(Zeros(n), LINK, a), LINK + |a|, b) == Zeros(LINK) + a + b + Zeros(n - LINK - |a| - |b|)
  {
    assert Overwrite(Zeros(n), LINK, a) == Zeros(LINK) + a + Zeros(n - LINK - |a|);
  }

  /** The chain can be continued: its last entry points behind itself. */
  ghost predicate Continues(bytes: seq<Byte>, memory: seq<Byte>, rs: seq<Record>, link: nat) {
    Holds(bytes, memory, rs, link) && (rs != [] ==> link == Size(Last(rs)))
  }

  method SetLink(buffer: array<Byte>, position: nat, next: nat, ghost memory: seq<Byte>, ghost rs: seq<Record>,
                 ghost link: nat)
    requires rs != [] && Holds(buffer[..], memory, rs, link) && next < U32_RANGE && position == Extent(Front(rs))
    modifies buffer
    ensures Holds(buffer[..], memory, rs, next)
  {
    Relink(buffer[..], memory, rs, link, next);
    CopyMemory(buffer, position, EncodeU32(next));
  }

  /** What MatchFiles does with match number `index`: fill it if it fits, and link it unless only one is wanted. */
  method PackEntry(c: InfoClass, buffer: array<Byte>, position: nat, room: nat, f: FindData, index: nat, single: bool,
                   ghost memory: seq<Byte>, ghost rs: seq<Record>, ghost link: nat, ghost r: Record,
                   ghost matches: seq<FindData>)
    returns (entrySize: nat)
    requires EntryOf(c, matches, index, f, r)
    requires Continues(buffer[..], memory, rs, link) && position == Extent(rs) && position + room <= buffer.Length
    modifies buffer
    ensures entrySize == if Size(r) <= room then Size(r) else 0
    ensures Size(r) <= room ==> Holds(buffer[..], memory, rs + [r], if single then 0 else Size(r))
    ensures Size(r) > room ==> buffer[..] == old(buffer[..])
  {
    if Size(r) <= room { Append(buffer[..], memory, rs, link, 0, r); }
    entrySize := FillMatch(c, buffer, position, room, f, index, r, matches);
    if entrySize != 0 && !single {
      assert Front(rs + [r]) == rs;
      SetLink(buffer, position, entrySize, memory, rs + [r], 0);
    }
  }

  /** `f` is match number `index`, and `r` its entry. */
  ghost predicate EntryOf(c: InfoClass, matches: seq<FindData>, index: nat, f: FindData, r: Record) {
    Indexed(matches) && index < |matches| && f == matches[index] && r == Records(c, matches)[index]
      && Size(r) < U32_RANGE
  }

  method FillMatch(c: InfoClass, buffer: array<Byte>, position: nat, room: nat, f: FindData, index: nat,
                   ghost r: Record, ghost matches: seq<FindData>)
    returns (entrySize: nat)
    requires EntryOf(c, matches, index, f, r) && position + room <= buffer.Length
    modifies buffer
    ensures entrySize == if Size(r) <= room then Size(r) else 0
    ensures buffer[..] == if Size(r) <= room then Overwrite(old(buffer[..]), position, Linked(0, r))
            else old(buffer[..])
  {
    entrySize := FillDirectoryInformation(c, buffer, position, room, f, index + 1, r);
  }

  // ------------------------------------------------------------------------------------------
  // MatchFiles
  // ------------------------------------------------------------------------------------------

  /** The number of files and the index fit their types. */
  predicate Queryable(list: seq<FindData>, fileIndex: nat) {
    Indexed(list) && fileIndex < U32_RANGE
  }

  /** The entries of all matches. */
  function Matches(c: InfoClass, list: seq<FindData>, accepts: FindData -> bool): (rs: seq<Record>)
    requires Indexed(list)
    ensures |rs| == |Filter(list, accepts)| && Linkable(rs) && Aligned(rs)
  {
    Records(c, Filter(list, accepts))
  }

  lemma FilterStep(list: seq<FindData>, i: nat, accepts: FindData -> bool)
    requires i < |list|
    ensures Filter(list[i..], accepts) == (if accepts(list[i]) then [list[i]] else []) + Filter(list[i + 1..], accepts)
  {
    assert list[i..][1..] == list[i + 1..];
  }

  /** The next file is a match: it is match number `index`, and its entry is that of the list. */
  lemma {:induction false} NextMatch(c: InfoClass, list: seq<FindData>, accepts: FindData -> bool, i: nat, index: nat)
    requires Indexed(list) && i < |list| && Remaining(list, accepts, i, index)
    ensures accepts(list[i]) ==>
              && index < |Filter(list, accepts)|
              && EntryOf(c, Filter(list, accepts), index, list[i], Matches(c, list, accepts)[index])
              && Remaining(list, accepts, i + 1, index + 1)
    ensures !accepts(list[i]) ==> Remaining(list, accepts, i + 1, index)
  {
    FilterStep(list, i, accepts);
    var matches := Filter(list, accepts);
    if accepts(list[i]) {
      assert matches[index..][0] == matches[index] && matches[index..][1..] == matches[index + 1..];
    }
  }

  /** Clears the link of the last entry, or the start of the buffer when there is none. */
  method CloseChain(buffer: array<Byte>, last: nat, ghost memory: seq<Byte>, ghost rs: seq<Record>, ghost link: nat)
    requires Holds(buffer[..], memory, rs, link) && LINK <= buffer.Length
    requires last == if rs == [] then 0 else Extent(Front(rs))
    modifies buffer
    ensures rs != [] ==> buffer[..] == Closed(rs) + memory[Extent(rs)..]
  {
    if rs != [] { Relink(buffer[..], memory, rs, link, 0); }
    CopyMemory(buffer, last, EncodeU32(0));
    if rs != [] { HoldsClosed(buffer[..], memory, rs); }
  }

  /** The local variables of MatchFiles. */
  datatype Cursor = Cursor(left: nat, current: nat, last: nat, index: nat, overflow: bool, stop: bool)

  /** Where the entries packed so far lie. */
  ghost predicate PackedAt(bytes: seq<Byte>, memory: seq<Byte>, rs: seq<Record>, link: nat, room: nat, at: Cursor) {
    && Holds(bytes, memory, rs, link) && at.left + Extent(rs) == room
    && (!at.stop ==> Continues(bytes, memory, rs, link) && at.current == Extent(rs))
    && at.last == if rs == [] then 0 else Extent(Front(rs))
  }

  /** How far the scan of the matches is. */
  ghost predicate ScanAt(all: seq<Record>, fileIndex: nat, room: nat, single: bool, at: Cursor) {
    var n := Count(all, fileIndex, room, single);
    && at.index <= |all|
    && if at.stop then
         if n == 0 then at.index <= fileIndex && at.overflow && fileIndex < |all| else at.index == fileIndex + n
       else
         && !at.overflow
         && (at.index < fileIndex ==> at.left == room)
         && (at.index >= fileIndex ==> n == at.index - fileIndex + Count(all, at.index, at.left, single))
         && (single ==> at.index <= fileIndex)
  }

  /** The cursor after match number `index`, of size `size`. */
  function Advance(at: Cursor, size: nat, single: bool): Cursor {
    if size > at.left then at.(overflow := true, stop := true)
    else if single then at.(left := at.left - size, last := at.current, index := at.index + 1, stop := true)
    else at.(left := at.left - size, last := at.current, current := at.current + size, index := at.index + 1)
  }

  lemma ScanMatch(all: seq<Record>, fileIndex: nat, room: nat, single: bool, at: Cursor)
    requires !at.stop && ScanAt(all, fileIndex, room, single, at) && fileIndex <= at.index < |all|
    ensures var r, rs := all[at.index], Slice(all, fileIndex, at.index);
            var next := Advance(at, Size(r), single);
            ScanAt(all, fileIndex, room, single, next)
            && Slice(all, fileIndex, next.index) == if Size(r) <= at.left then rs + [r] else rs
  {
  }

  /** At the end of the scan. */
  lemma ScanEnd(all: seq<Record>, fileIndex: nat, room: nat, single: bool, at: Cursor)
    requires ScanAt(all, fileIndex, room, single, at) && (at.stop || at.index == |all|)
    ensures Slice(all, fileIndex, at.index) == Page(all, fileIndex, room, single)
    ensures MatchResult(all, fileIndex, room, single)
         == if at.index <= fileIndex then (if at.overflow then -2 else -1) else at.index
  {
  }

  /** One match from `fileIndex` on. */
  method PackMatch(c: InfoClass, buffer: array<Byte>, f: FindData, single: bool, at: Cursor,
                   ghost memory: seq<Byte>, ghost rs: seq<Record>, ghost link: nat, ghost r: Record,
                   ghost matches: seq<FindData>, ghost room: nat)
    returns (next: Cursor, ghost packed: seq<Record>, ghost newLink: nat)
    requires EntryOf(c, matches, at.index, f, r)
    requires !at.stop && PackedAt(buffer[..], memory, rs, link, room, at) && room <= buffer.Length
    modifies buffer
    ensures next == Advance(at, Size(r), single) && packed == if Size(r) <= at.left then rs + [r] else rs
    ensures PackedAt(buffer[..], memory, packed, newLink, room, next)
  {
    next, packed, newLink := at, rs, link;
    var entrySize := PackEntry(c, buffer, at.current, at.left, f, at.index, single, memory, rs, link, r, matches);
    if entrySize == 0 {
      next := next.(overflow := true, stop := true);
    } else {
      ExtentSnoc(rs, r);
      packed := rs + [r];
      assert Front(packed) == rs && Last(packed) == r;
      next := next.(left := at.left - entrySize, last := at.current, index := at.index + 1);
      if single {
        newLink, next := 0, next.(stop := true);
      } else {
        newLink, next := entrySize, next.(current := at.current + entrySize);
      }
    }
  }

  /** What the loop of MatchFiles keeps. */
  ghost predicate Midway(bytes: seq<Byte>, memory: seq<Byte>, all: seq<Record>, fileIndex: nat, room: nat,
                         single: bool, link: nat, at: Cursor) {
    ScanAt(all, fileIndex, room, single, at) && PackedAt(bytes, memory, Slice(all, fileIndex, at.index), link, room, at)
  }

  /** The matches among the files from `i` on are those from `index` on. */
  ghost predicate Remaining(list: seq<FindData>, accepts: FindData -> bool, i: nat, index: nat) {
    i <= |list| && index <= |Filter(list, accepts)| && Filter(list[i..], accepts) == Filter(list, accepts)[index..]
  }

  /** One match. */
  method VisitMatch(c: InfoClass, buffer: array<Byte>, f: FindData, fileIndex: nat, single: bool, at: Cursor,
                    ghost memory: seq<Byte>, ghost all: seq<Record>, ghost matches: seq<FindData>, ghost room: nat,
                    ghost link: nat)
    returns (next: Cursor, ghost newLink: nat)
    requires !at.stop && Midway(buffer[..], memory, all, fileIndex, room, single, link, at) && room <= buffer.Length
    requires at.index < |all| && EntryOf(c, matches, at.index, f, all[at.index])
    modifies buffer
    ensures Midway(buffer[..], memory, all, fileIndex, room, single, newLink, next)
    ensures !next.stop ==> next.index == at.index + 1
  {
    if fileIndex <= at.index {
      ScanMatch(all, fileIndex, room, single, at);
      ghost var rs;
      next, rs, newLink := PackMatch(c, buffer, f, single, at, memory, Slice(all, fileIndex, at.index), link,
        all[at.index], matches, room);
    } else {
      next, newLink := at.(index := at.index + 1), link;
    }
  }

  /** The loop of MatchFiles. */
  method ScanFiles(c: InfoClass, buffer: array<Byte>, room: nat, list: seq<FindData>, accepts: FindData -> bool,
                   fileIndex: nat, single: bool, ghost memory: seq<Byte>, ghost all: seq<Record>)
    returns (at: Cursor, ghost link: nat)
    requires Indexed(list) && all == Matches(c, list, accepts)
    requires room <= buffer.Length && memory == buffer[..]
    modifies buffer
    ensures Midway(buffer[..], memory, all, fileIndex, room, single, link, at) && (at.stop || at.index == |all|)
  {
    at, link := Cursor(room, 0, 0, 0, false, false), 0;
    var i := 0;
    ScanStart(buffer[..], all, fileIndex, room, single, list, accepts);
    while i < |list| && !at.stop
      invariant Midway(buffer[..], memory, all, fileIndex, room, single, link, at)
      invariant i <= |list| && (!at.stop ==> Remaining(list, accepts, i, at.index))
    {
      at, link := VisitFile(c, buffer, list, accepts, i, fileIndex, single, at, memory, all, room, link);
      i := i + 1;
    }
    assert list[|list|..] == [];
  }

  lemma ScanStart(memory: seq<Byte>, all: seq<Record>, fileIndex: nat, room: nat, single: bool, list: seq<FindData>,
                  accepts: FindData -> bool)
    ensures Midway(memory, memory, all, fileIndex, room, single, 0, Cursor(room, 0, 0, 0, false, false))
    ensures Remaining(list, accepts, 0, 0)
  {
    assert list[0..] == list && Slice(all, fileIndex, 0) == [];
  }

  /** One file of the listing. */
  method VisitFile(c: InfoClass, buffer: array<Byte>, list: seq<FindData>, accepts: FindData -> bool, i: nat,
                   fileIndex: nat, single: bool,
                   at: Cursor, ghost memory: seq<Byte>, ghost all: seq<Record>, ghost room: nat, ghost link: nat)
    returns (next: Cursor, ghost newLink: nat)
    requires Indexed(list) && all == Matches(c, list, accepts) && i < |list| && room <= buffer.Length
    requires !at.stop && Midway(buffer[..], memory, all, fileIndex, room, single, link, at)
             && Remaining(list, accepts, i, at.index)
    modifies buffer
    ensures Midway(buffer[..], memory, all, fileIndex, room, single, newLink, next)
    ensures !next.stop ==> Remaining(list, accepts, i + 1, next.index)
  {
    NextMatch(c, list, accepts, i, at.index);
    if accepts(list[i]) {
      next, newLink := VisitMatch(c, buffer, list[i], fileIndex, single, at, memory, all, Filter(list, accepts), room,
        link);
    } else {
      next, newLink := at, link;
    }
  }

  /** `accepts` is the pattern test; without one it accepts everything. */
  method MatchFiles(c: InfoClass, buffer: array<Byte>, room: nat, list: seq<FindData>, accepts: FindData -> bool,
                    fileIndex: nat, single: bool)
    returns (result: int, used: nat)
    requires Queryable(list, fileIndex) && room <= buffer.Length && LINK <= buffer.Length
    modifies buffer
    ensures var all := Matches(c, list, accepts);
            var page := Page(all, fileIndex, room, single);
            && result == MatchResult(all, fileIndex, room, single)
            && used == Extent(page) <= room
            && (page != [] ==> buffer[..] == Closed(page) + old(buffer[..])[used..])
  {
    ghost var memory, all := buffer[..], Matches(c, list, accepts);
    var at;
    ghost var link;
    at, link := ScanFiles(c, buffer, room, list, accepts, fileIndex, single, memory, all);
    ScanEnd(all, fileIndex, room, single, at);
    CloseChain(buffer, at.last, memory, Page(all, fileIndex, room, single), link);
    used := room - at.left;
    result := if at.index <= fileIndex then (if at.overflow then -2 else -1) else at.index;
  }

  // ------------------------------------------------------------------------------------------
  // Reading a reply
  // ------------------------------------------------------------------------------------------

  /** What a reader finds at the start of an entry. */
  ghost predicate Reads(bytes: seq<Byte>, start: nat, c: InfoClass, f: FindData, index: nat) {
    && start + NameOffset(c) + SIZEOF_WCHAR * |f.name| <= |bytes|
    && ReadU32(bytes, start + LINK) == index
    && ReadU32(bytes, start + LengthOffset(c)) == SIZEOF_WCHAR * |f.name|
    && At(bytes, start + NameOffset(c), EncodeWide(f.name))
    && (forall k :: 0 <= k < LengthOffset(c) - 8 ==> bytes[start + 8 + k] == MetadataAt(f, k))
    && (forall k :: 0 <= k < NameOffset(c) - LengthOffset(c) - 4 ==>
          bytes[start + LengthOffset(c) + 4 + k] == MetadataAt(f, k))
  }

  function MetadataAt(f: FindData, k: nat): Byte { if k < |f.metadata| then f.metadata[k] else 0 }

  lemma MetadataReads(bytes: seq<Byte>, position: nat, f: FindData, n: nat)
    requires At(bytes, position, Resize(f.metadata, n))
    ensures forall k :: 0 <= k < n ==> bytes[position + k] == MetadataAt(f, k)
  {
    forall k | 0 <= k < n ensures bytes[position + k] == MetadataAt(f, k) {
      assert bytes[position..position + n][k] == bytes[position + k];
    }
  }

  /** An entry gives its index, its name and what is known of the file back. */
  lemma EntryReads(bytes: seq<Byte>, start: nat, c: InfoClass, f: FindData, index: nat)
    requires Valid(f) && index < U32_RANGE && At(bytes, start + LINK, Body(c, f, index))
    ensures Reads(bytes, start, c, f, index)
  {
    var fields, name := Fields(c, f, index), EncodeWide(f.name);
    var gap := Zeros(EntrySize(c, f) - NameOffset(c) - |name|);
    ConcatThree(fields, name, gap);
    AtPart(bytes, start + LINK, fields + name, gap);
    AtPart(bytes, start + LINK, fields, name);
    FieldsRead(bytes, start, c, f, index);
    MetadataRead(bytes, start, c, f, index);
  }

  lemma MetadataRead(bytes: seq<Byte>, start: nat, c: InfoClass, f: FindData, index: nat)
    requires Valid(f) && index < U32_RANGE && At(bytes, start + LINK, Fields(c, f, index))
    ensures start + NameOffset(c) <= |bytes|
    ensures forall k :: 0 <= k < LengthOffset(c) - 8 ==> bytes[start + 8 + k] == MetadataAt(f, k)
    ensures forall k :: 0 <= k < NameOffset(c) - LengthOffset(c) - 4 ==>
              bytes[start + LengthOffset(c) + 4 + k] == MetadataAt(f, k)
  {
    FieldsRead(bytes, start, c, f, index);
    MetadataReads(bytes, start + 8, f, LengthOffset(c) - 8);
    MetadataReads(bytes, start + LengthOffset(c) + 4, f, NameOffset(c) - LengthOffset(c) - 4);
  }

  lemma FieldsRead(bytes: seq<Byte>, start: nat, c: InfoClass, f: FindData, index: nat)
    requires Valid(f) && index < U32_RANGE && At(bytes, start + LINK, Fields(c, f, index))
    ensures start + NameOffset(c) <= |bytes|
    ensures ReadU32(bytes, start + LINK) == index
    ensures ReadU32(bytes, start + LengthOffset(c)) == SIZEOF_WCHAR * |f.name|
    ensures At(bytes, start + 8, Resize(f.metadata, LengthOffset(c) - 8))
    ensures At(bytes, start + LengthOffset(c) + 4, Resize(f.metadata, NameOffset(c) - LengthOffset(c) - 4))
  {
    var n := SIZEOF_WCHAR * |f.name|;
    var a, b := EncodeU32(index), Resize(f.metadata, LengthOffset(c) - 8);
    var l, d := EncodeU32(n), Resize(f.metadata, NameOffset(c) - LengthOffset(c) - 4);
    ConcatFour(a, b, l, d);
    AtPart(bytes, start + LINK, a + b + l, d);
    AtPart(bytes, start + LINK, a + b, l);
    AtPart(bytes, start + LINK, a, b);
    ReadEncodedU32(bytes, start + LINK, index);
    ReadEncodedU32(bytes, start + LengthOffset(c), n);
  }

  lemma PageAt(all: seq<Record>, index: nat, room: nat, single: bool, k: nat)
    requires k < |Page(all, index, room, single)|
    ensures index + k < |all| && Page(all, index, room, single)[k] == all[index + k]
  {
  }

  lemma {:induction false} MatchAt(c: InfoClass, list: seq<FindData>, accepts: FindData -> bool, k: nat)
    requires Indexed(list) && k < |Filter(list, accepts)|
    ensures Matches(c, list, accepts)[k] == Body(c, Filter(list, accepts)[k], k + 1)
  {
  }

  /**
    Entry `k` of the page from `fileIndex` on is match number fileIndex + k, and carries the index of the one
    after it.
  */
  lemma {:induction false} ReplyEntry(c: InfoClass, list: seq<FindData>, accepts: FindData -> bool, fileIndex: nat,
                                      room: nat,
                                      single: bool, k: nat)
    requires Queryable(list, fileIndex)
    ensures k < |Page(Matches(c, list, accepts), fileIndex, room, single)| ==>
              && fileIndex + k < |Filter(list, accepts)|
              && Page(Matches(c, list, accepts), fileIndex, room, single)[k]
              == Body(c, Filter(list, accepts)[fileIndex + k], fileIndex + k + 1)
  {
    var all := Matches(c, list, accepts);
    if k < |Page(all, fileIndex, room, single)| {
      assert fileIndex + k < |all| && Page(all, fileIndex, room, single)[k] == all[fileIndex + k] by {
        PageAt(all, fileIndex, room, single, k);
      }
      MatchAt(c, list, accepts, fileIndex + k);
    }
  }

  /** The page is as long as the room allows. */
  lemma {:induction false} PageIsMaximal(all: seq<Record>, index: nat, room: nat, single: bool)
    ensures var page := Page(all, index, room, single);
            && Extent(page) <= room
            && (!single && index + |page| < |all| ==> Extent(page) + Size(all[index + |page|]) > room)
    decreases |all| - index
  {
    var page := Page(all, index, room, single);
    if page != [] {
      assert page[0] == all[index];
      if single {
        assert page[1..] == [];
      } else {
        PageIsMaximal(all, index + 1, room - Size(all[index]), single);
        assert page[1..] == Page(all, index + 1, room - Size(all[index]), single);
      }
    }
  }

  // ------------------------------------------------------------------------------------------
  // The reply and the stored index
  // ------------------------------------------------------------------------------------------

  datatype Status = Success | NoSuchFile | NoMoreFiles | BufferOverflow | InsufficientResources

  function ReplyStatus(all: seq<Record>, fileIndex: nat, room: nat, single: bool): Status {
    if Page(all, fileIndex, room, single) != [] then Success
    else if fileIndex < |all| then BufferOverflow
    else if fileIndex == 0 then NoSuchFile
    else NoMoreFiles
  }

  method WriteDirectoryResults(c: InfoClass, buffer: array<Byte>, room: nat, list: seq<FindData>,
                               accepts: FindData -> bool,
                               fileIndex: nat, single: bool)
    returns (status: Status, index: nat, used: nat)
    requires Queryable(list, fileIndex) && room <= buffer.Length && LINK <= buffer.Length
    modifies buffer
    ensures var page := Page(Matches(c, list, accepts), fileIndex, room, single);
            && status == ReplyStatus(Matches(c, list, accepts), fileIndex, room, single)
            && index == fileIndex + |page|
            && used == Extent(page) <= room
            && At(buffer[..], 0, Closed(page))
  {
    var result;
    result, used := MatchFiles(c, buffer, room, list, accepts, fileIndex, single);
    status := Success;
    if result < 0 {
      if result == -1 {
        status := if fileIndex == 0 then NoSuchFile else NoMoreFiles;
      } else {
        status := BufferOverflow;
      }
      index := fileIndex;
    } else {
      index := result;
    }
  }

  datatype Query = Query(indexSpecified: bool, fileIndex: nat, restart: bool, single: bool, length: nat)

  /** The index from which the driver asks for entries; `context` is the stored one. */
  function QueryIndex(q: Query, context: nat): nat {
    if q.indexSpecified then q.fileIndex else if q.restart then 0 else context
  }

  datatype Answer = Answer(status: Status, page: seq<Record>, context: nat)

  /** One query, as the caller sees it, and the index stored for the next one. */
  function AnswerTo(all: seq<Record>, context: nat, q: Query): Answer {
    var index := QueryIndex(q, context);
    if q.length == 0 then Answer(InsufficientResources, [], context)
    else
      var page := Page(all, index, q.length, q.single);
      Answer(ReplyStatus(all, index, q.length, q.single), page, index + |page|)
  }

  /** The driver's state of an open directory. */
  class Ccb {
    var context: nat

    constructor ()
      ensures context == 0
    {
      context := 0;
    }

    /** A query from the request to its completion; `reply` is the library's buffer, `user` the caller's. */
    method QueryDirectory(c: InfoClass, list: seq<FindData>, accepts: FindData -> bool, q: Query, reply: array<Byte>,
                          user: array<Byte>)
      returns (status: Status, information: nat)
      requires Queryable(list, QueryIndex(q, context)) && reply != user
      requires q.length <= reply.Length && LINK <= reply.Length && user.Length == q.length
      modifies this, reply, user
      ensures var answer := AnswerTo(Matches(c, list, accepts), old(context), q);
              && status == answer.status && context == answer.context
              && information == Extent(answer.page) <= q.length
              && (q.length > 0 ==> user[..] == Closed(answer.page) + Zeros(q.length - information))
    {
      var index := if q.indexSpecified then q.fileIndex else if q.restart then 0 else context;
      var next, used;
      status, next, used := WriteDirectoryResults(c, reply, q.length, list, accepts, index, q.single);
      if q.length == 0 || q.length < used {
        PageIsMaximal(Matches(c, list, accepts), index, q.length, q.single);
        status, information := InsufficientResources, 0;
      } else {
        CopyReply(user, reply[..used]);
        context := next;
        information := used;
      }
    }
  }

  /** RtlZeroMemory and RtlCopyMemory of the completion. */
  method CopyReply(user: array<Byte>, s: seq<Byte>)
    requires |s| <= user.Length
    modifies user
    ensures user[..] == s + Zeros(user.Length - |s|)
  {
    CopyMemory(user, 0, Zeros(user.Length));
    CopyMemory(user, 0, s);
  }

  // ------------------------------------------------------------------------------------------
  // Enumerating a directory
  // ------------------------------------------------------------------------------------------

  /** The answers to a run of queries on a fixed listing. */
  function Answers(all: seq<Record>, context: nat, qs: seq<Query>): (r: seq<Answer>)
    ensures |r| == |qs|
    decreases |qs|
  {
    if qs == [] then [] else
      var first := AnswerTo(all, context, qs[0]);
      [first] + Answers(all, first.context, qs[1..])
  }

  function Pages(answers: seq<Answer>): seq<Record> {
    if answers == [] then [] else answers[0].page + Pages(answers[1..])
  }

  /** The index stored after the run. */
  function ContextAfter(all: seq<Record>, context: nat, qs: seq<Query>): nat
    decreases |qs|
  {
    if qs == [] then context else ContextAfter(all, AnswerTo(all, context, qs[0]).context, qs[1..])
  }

  /** Queries that go on where the last one ended. */
  predicate Continuing(qs: seq<Query>) {
    forall k :: 0 <= k < |qs| ==> !qs[k].indexSpecified && !qs[k].restart
  }

  /** Each buffer holds at least the entry that is next. */
  predicate Roomy(all: seq<Record>, context: nat, qs: seq<Query>)
    decreases |qs|
  {
    qs == [] ||
    (&& qs[0].length > 0
     && (context < |all| ==> Size(all[context]) <= qs[0].length)
     && Roomy(all, AnswerTo(all, context, qs[0]).context, qs[1..]))
  }

  lemma SliceJoin(all: seq<Record>, i: nat, j: nat, k: nat)
    requires i <= j <= k <= |all|
    ensures all[i..j] + all[j..k] == all[i..k]
  {
  }

  lemma PageIsSlice(all: seq<Record>, context: nat, q: Query)
    requires context <= |all| && !q.indexSpecified && !q.restart
    ensures context <= AnswerTo(all, context, q).context <= |all|
    ensures AnswerTo(all, context, q).page == all[context..AnswerTo(all, context, q).context]
  {
  }

  /** Whatever the buffers and modes, the pages of a run follow each other without gap or duplicate. */
  lemma {:induction false} NoGapNoDuplicate(all: seq<Record>, context: nat, qs: seq<Query>)
    requires context <= |all| && Continuing(qs)
    ensures context <= ContextAfter(all, context, qs) <= |all|
    ensures Pages(Answers(all, context, qs)) == all[context..ContextAfter(all, context, qs)]
    decreases |qs|
  {
    if qs != [] {
      var first := AnswerTo(all, context, qs[0]);
      PageIsSlice(all, context, qs[0]);
      NoGapNoDuplicate(all, first.context, qs[1..]);
      SliceJoin(all, context, first.context, ContextAfter(all, context, qs));
      assert Answers(all, context, qs)[1..] == Answers(all, first.context, qs[1..]);
    }
  }

  /** What a query answers that asks for the entries from `index` on: a page, too small a buffer, or the end. */
  predicate AnswersFrom(all: seq<Record>, index: nat, length: nat, a: Answer) {
    if index >= |all| then
      a.page == [] && a.context == index && a.status == if index == 0 then NoSuchFile else NoMoreFiles
    else if Size(all[index]) > length then
      a.page == [] && a.context == index && a.status == BufferOverflow
    else
      index < a.context <= |all| && a.page == all[index..a.context] && a.status == Success
  }

  /**
    Where a query starts: at the index that the caller specifies, even with a restart; or else at the beginning, after a
    restart; or else where the last one ended. Without a buffer it fails and the next one starts at the same place.
  */
  lemma QueryOutcome(all: seq<Record>, context: nat, q: Query)
    ensures var a := AnswerTo(all, context, q);
            && (q.length == 0 ==> a == Answer(InsufficientResources, [], context))
            && (q.length > 0 && q.indexSpecified ==> AnswersFrom(all, q.fileIndex, q.length, a))
            && (q.length > 0 && !q.indexSpecified && q.restart ==> AnswersFrom(all, 0, q.length, a))
            && (q.length > 0 && !q.indexSpecified && !q.restart ==> AnswersFrom(all, context, q.length, a))
  {
  }

  function EndStatus(context: nat): Status { if context == 0 then NoSuchFile else NoMoreFiles }

  /** While entries are left, an answer is a non-empty page; when none is left, it says so. */
  lemma {:induction false} AnswerKinds(all: seq<Record>, context: nat, qs: seq<Query>, k: nat)
    requires context <= |all| && Continuing(qs) && Roomy(all, context, qs) && k < |qs|
    ensures var before, answer := ContextAfter(all, context, qs[..k]), Answers(all, context, qs)[k];
            if before < |all| then answer.status == Success && answer.page != []
            else answer.status == EndStatus(before) && answer.page == []
    decreases |qs|
  {
    var first := AnswerTo(all, context, qs[0]);
    PageIsSlice(all, context, qs[0]);
    if k == 0 {
      assert qs[..0] == [];
    } else {
      AnswerKinds(all, first.context, qs[1..], k - 1);
      assert qs[..k][0] == qs[0] && qs[..k][1..] == qs[1..][..k - 1];
    }
  }

  /** Each query with room makes progress. */
  lemma {:induction false} Progress(all: seq<Record>, context: nat, qs: seq<Query>)
    requires context <= |all| && Continuing(qs) && Roomy(all, context, qs)
    ensures ContextAfter(all, context, qs) == |all| || ContextAfter(all, context, qs) >= context + |qs|
    decreases |qs|
  {
    if qs != [] {
      PageIsSlice(all, context, qs[0]);
      var next := AnswerTo(all, context, qs[0]).context;
      Progress(all, next, qs[1..]);
      NoGapNoDuplicate(all, next, qs[1..]);
    }
  }

  /**
    A complete enumeration: more queries than entries, each with room for the next entry, in any mix of modes
    and buffer sizes. The pages are exactly the listing, and the last answer is NO_MORE_FILES, or
    NO_SUCH_FILE when nothing matches at all.
  */
  lemma {:induction false} EnumerationIsComplete(all: seq<Record>, qs: seq<Query>)
    requires Continuing(qs) && Roomy(all, 0, qs) && |qs| > |all|
    ensures Pages(Answers(all, 0, qs)) == all
    ensures Answers(all, 0, qs)[|qs| - 1].status == if all == [] then NoSuchFile else NoMoreFiles
  {
    LastAnswer(all, qs);
    AllPages(all, qs);
  }

  lemma {:induction false} LastAnswer(all: seq<Record>, qs: seq<Query>)
    requires Continuing(qs) && Roomy(all, 0, qs) && |qs| > |all|
    ensures Answers(all, 0, qs)[|qs| - 1].status == if all == [] then NoSuchFile else NoMoreFiles
  {
    var init := qs[..|qs| - 1];
    RoomyPrefix(all, 0, qs, |qs| - 1);
    assert ContextAfter(all, 0, init) == |all| by { Exhausted(all, init); }
    AnswerKinds(all, 0, qs, |qs| - 1);
  }

  lemma {:induction false} AllPages(all: seq<Record>, qs: seq<Query>)
    requires Continuing(qs) && Roomy(all, 0, qs) && |qs| >= |all|
    ensures Pages(Answers(all, 0, qs)) == all
  {
    Exhausted(all, qs);
    NoGapNoDuplicate(all, 0, qs);
    assert all[0..|all|] == all;
  }

  lemma {:induction false} Exhausted(all: seq<Record>, qs: seq<Query>)
    requires Continuing(qs) && Roomy(all, 0, qs) && |qs| >= |all|
    ensures ContextAfter(all, 0, qs) == |all|
  {
    Progress(all, 0, qs);
    NoGapNoDuplicate(all, 0, qs);
  }

  lemma {:induction false} RoomyPrefix(all: seq<Record>, context: nat, qs: seq<Query>, k: nat)
    requires Roomy(all, context, qs) && k <= |qs|
    ensures Roomy(all, context, qs[..k])
    decreases |qs|
  {
    if k > 0 {
      RoomyPrefix(all, AnswerTo(all, context, qs[0]).context, qs[1..], k - 1);
      assert qs[..k][1..] == qs[1..][..k - 1];
    }
  }
}
