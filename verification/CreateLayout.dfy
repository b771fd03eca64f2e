/**
  The create event: the driver packs a security descriptor, two counted strings and the file name
  behind the fixed part of the event (sys/create.c), and the library finds them again through
  relative offsets (dokan/create.c). Offsets are those of the 64-bit structures.
*/
module CreateLayout {
  import opened Options
  import opened Bytes
  import opened Structures

  const SIZEOF_INTERMEDIATE: nat := 6   // DOKAN_UNICODE_STRING_INTERMEDIATE: two USHORTs and one WCHAR
  const CREATE: nat := 40               // Operation.Create, and its first member AccessState
  const COMMON: nat := 36               // bytes between Length and Operation

  datatype AccessState = AccessState(
    booleans: (Byte, Byte, Byte, Byte), // SecurityEvaluated, GenerateAudit, GenerateOnClose, AuditPrivileges
    rights: (nat, nat, nat, nat),       // Flags, Remaining-, PreviouslyGranted- and OriginalDesiredAccess
    descriptor: seq<Byte>,              // empty when there is none
    objectName: seq<Byte>,
    objectTypeName: seq<Byte>)

  datatype Request = Request(
    access: Option<AccessState>,
    desiredAccess: nat, fileAttributes: nat, createOptions: nat, shareAccess: nat,
    fileName: seq<Wchar>,
    readOnlyDevice: bool)

  function PointerAlignSize(n: nat): (r: nat)
    ensures n <= r < n + 8 && r % 8 == 0
  {
    if n % 8 > 0 then n + (8 - n % 8) else n
  }

  // ------------------------------------------------------------------------------------------
  // Sizes and the image of the event
  // ------------------------------------------------------------------------------------------

  function Descriptor(r: Request): seq<Byte> { if r.access.Some? then r.access.value.descriptor else [] }

  function ObjectName(r: Request): seq<Byte> { if r.access.Some? then r.access.value.objectName else [] }

  function ObjectTypeName(r: Request): seq<Byte> { if r.access.Some? then r.access.value.objectTypeName else [] }

  function DescriptorSize(r: Request): nat { PointerAlignSize(|Descriptor(r)|) }

  function StringSize(s: seq<Byte>): (n: nat)
    ensures n % 8 == 0 && |s| + SIZEOF_INTERMEDIATE <= n
  {
    PointerAlignSize(if |s| > 0 then SIZEOF_INTERMEDIATE + |s| + SIZEOF_WCHAR else SIZEOF_INTERMEDIATE)
  }

  function NamePosition(r: Request): nat { SIZEOF_EVENT_CONTEXT + DescriptorSize(r) }

  function TypePosition(r: Request): nat { NamePosition(r) + StringSize(ObjectName(r)) }

  function FilePosition(r: Request): nat { TypePosition(r) + StringSize(ObjectTypeName(r)) }

  function EventLength(r: Request): nat { FilePosition(r) + SIZEOF_WCHAR * |r.fileName| + SIZEOF_WCHAR }

  predicate IsU32(n: nat) { n < U32_RANGE }

  /** The fields have their declared widths. Lengths of strings are USHORTs. */
  predicate Valid(r: Request) {
    && IsU32(r.desiredAccess) && IsU32(r.fileAttributes) && IsU32(r.createOptions) && IsU32(r.shareAccess)
    && |ObjectName(r)| < U16_RANGE && |ObjectTypeName(r)| < U16_RANGE
    && (r.access.Some? ==>
          var (flags, remaining, granted, original) := r.access.value.rights;
          IsU32(flags) && IsU32(remaining) && IsU32(granted) && IsU32(original))
    && IsU32(EventLength(r))
  }

  const DISPOSITION_UNIT: nat := 0x100_0000 // the disposition is the high byte of the create options
  const FILE_OPEN: nat := 1
  const FILE_OPEN_IF: nat := 3

  /** A device that cannot be written to is asked to open what it would have to create. */
  function PackedOptions(r: Request): (n: nat)
    ensures n <= r.createOptions
  {
    if r.readOnlyDevice && r.createOptions / DISPOSITION_UNIT == FILE_OPEN_IF
      then FILE_OPEN * DISPOSITION_UNIT + r.createOptions % DISPOSITION_UNIT
    else r.createOptions
  }

  /** The thirteen ULONGs of Operation.Create behind the four booleans. */
  function Fields(r: Request): (f: seq<nat>)
    requires Valid(r)
    ensures |f| == 13 && forall k :: 0 <= k < 13 ==> f[k] < U32_RANGE
  {
    var (flags, remaining, granted, original) := if r.access.Some? then r.access.value.rights else (0, 0, 0, 0);
    var present := r.access.Some?;
    [flags, remaining, granted, original,
     if DescriptorSize(r) > 0 then SIZEOF_EVENT_CONTEXT - CREATE else 0,
     if present then NamePosition(r) - CREATE else 0,
     if present then TypePosition(r) - CREATE else 0,
     r.desiredAccess, r.fileAttributes, PackedOptions(r), r.shareAccess,
     SIZEOF_WCHAR * |r.fileName|, FilePosition(r) - CREATE]
  }

  function EncodeAll(f: seq<nat>): (s: seq<Byte>)
    requires forall k :: 0 <= k < |f| ==> f[k] < U32_RANGE
    ensures |s| == 4 * |f|
  {
    if f == [] then [] else EncodeU32(f[0]) + EncodeAll(f[1..])
  }

  function Booleans(r: Request): (s: seq<Byte>)
    ensures |s| == 4
  {
    if r.access.Some? then var b := r.access.value.booleans; [b.0, b.1, b.2, b.3] else Zeros(4)
  }

  function Header(r: Request, common: seq<Byte>): (s: seq<Byte>)
    requires Valid(r) && |common| == COMMON
    ensures |s| == SIZEOF_EVENT_CONTEXT
  {
    EncodeU32(EventLength(r)) + common + Booleans(r) + EncodeAll(Fields(r)) + Zeros(SIZEOF_EVENT_CONTEXT - 96)
  }

  function Padded(s: seq<Byte>, n: nat): (r: seq<Byte>)
    requires |s| <= n
    ensures |r| == n
  {
    s + Zeros(n - |s|)
  }

  /** A DOKAN_UNICODE_STRING_INTERMEDIATE with its string, the terminator and the alignment gap. */
  function StringRegion(s: seq<Byte>): (r: seq<Byte>)
    requires |s| < U16_RANGE
    ensures |r| == StringSize(s)
  {
    Padded(EncodeU16(|s|) + EncodeU16(StringSize(s) % U16_RANGE) + s, StringSize(s))
  }

  /** Without an access state the regions exist but nothing is written to them. */
  function OptionalRegion(r: Request, s: seq<Byte>): (t: seq<Byte>)
    requires |s| < U16_RANGE
    ensures |t| == StringSize(s)
  {
    if r.access.Some? then StringRegion(s) else Zeros(StringSize(s))
  }

  function FileRegion(s: seq<Wchar>): (r: seq<Byte>)
    ensures |r| == SIZEOF_WCHAR * |s| + SIZEOF_WCHAR
  {
    EncodeWide(s) + [0, 0]
  }

  function Image(r: Request, common: seq<Byte>): (s: seq<Byte>)
    requires Valid(r) && |common| == COMMON
    ensures |s| == EventLength(r)
  {
    Header(r, common) + Padded(Descriptor(r), DescriptorSize(r))
    + OptionalRegion(r, ObjectName(r)) + OptionalRegion(r, ObjectTypeName(r))
    + FileRegion(r.fileName)
  }

  // ------------------------------------------------------------------------------------------
  // The driver's side
  // ------------------------------------------------------------------------------------------

  /** The event is written up to `done`, the rest is still zero. */
  ghost predicate Written(bytes: seq<Byte>, done: seq<Byte>) {
    |done| <= |bytes| && bytes == done + Zeros(|bytes| - |done|)
  }

  lemma WriteNext(bytes: seq<Byte>, done: seq<Byte>, s: seq<Byte>)
    requires Written(bytes, done) && |done| + |s| <= |bytes|
    ensures Written(Overwrite(bytes, |done|, s), done + s)
  {
    assert Overwrite(bytes, |done|, s) == done + s + Zeros(|bytes| - |done| - |s|);
  }

  /** Zeros are already there. */
  lemma SkipNext(bytes: seq<Byte>, done: seq<Byte>, n: nat)
    requires Written(bytes, done) && |done| + n <= |bytes|
    ensures Written(bytes, done + Zeros(n))
  {
    assert Zeros(|bytes| - |done|) == Zeros(n) + Zeros(|bytes| - |done| - n);
  }

  /** Copies `s` behind what is written. */
  method Append(event: array<Byte>, position: nat, s: seq<Byte>, ghost done: seq<Byte>)
    requires Written(event[..], done) && position == |done| && |done| + |s| <= event.Length
    modifies event
    ensures Written(event[..], done + s)
  {
    WriteNext(event[..], done, s);
    CopyMemory(event, position, s);
  }

  /** One of the two counted strings, at `position`. */
  method WriteString(event: array<Byte>, position: nat, s: seq<Byte>, size: nat, ghost done: seq<Byte>)
    requires |s| < U16_RANGE && size == StringSize(s)
    requires Written(event[..], done) && position == |done| && |done| + size <= event.Length
    modifies event
    ensures Written(event[..], done + StringRegion(s))
  {
    WriteLengths(event, position, |s|, size % U16_RANGE, done);
    ghost var filled := done + (EncodeU16(|s|) + EncodeU16(size % U16_RANGE));
    if |s| > 0 {
      Append(event, position + 4, s, filled);
      Append(event, position + 4 + |s|, [0, 0], filled + s);
    } else {
      Append(event, position + 4, [0, 0], filled);
      assert filled + s == filled;
    }
    SkipNext(event[..], filled + s + [0, 0], size - |s| - 6);
    assert done + StringRegion(s) == filled + s + [0, 0] + Zeros(size - |s| - 6) by {
      StringParts(done, EncodeU16(|s|) + EncodeU16(size % U16_RANGE), s, size - |s| - 6);
    }
  }

  lemma StringParts(done: seq<Byte>, lengths: seq<Byte>, s: seq<Byte>, gap: nat)
    ensures done + (lengths + s + Zeros(gap + 2)) == done + lengths + s + [0, 0] + Zeros(gap)
  {
    assert Zeros(gap + 2) == [0, 0] + Zeros(gap);
  }

  method WriteLengths(event: array<Byte>, position: nat, length: nat, maximumLength: nat, ghost done: seq<Byte>)
    requires length < U16_RANGE && maximumLength < U16_RANGE
    requires Written(event[..], done) && position == |done| && |done| + 4 <= event.Length
    modifies event
    ensures Written(event[..], done + (EncodeU16(length) + EncodeU16(maximumLength)))
  {
    Append(event, position, EncodeU16(length), done);
    Append(event, position + 2, EncodeU16(maximumLength), done + EncodeU16(length));
    Assoc(done, EncodeU16(length), EncodeU16(maximumLength));
  }

  method RegionSizes(r: Request)
    returns (securityDescriptorSize: nat, alignedObjectNameSize: nat, alignedObjectTypeNameSize: nat)
    ensures securityDescriptorSize == DescriptorSize(r)
    ensures alignedObjectNameSize == StringSize(ObjectName(r))
    ensures alignedObjectTypeNameSize == StringSize(ObjectTypeName(r))
  {
    securityDescriptorSize := 0;
    alignedObjectNameSize := PointerAlignSize(SIZEOF_INTERMEDIATE);
    alignedObjectTypeNameSize := PointerAlignSize(SIZEOF_INTERMEDIATE);
    if r.access.Some? {
      securityDescriptorSize := PointerAlignSize(|r.access.value.descriptor|);
      if |r.access.value.objectName| > 0 {
        alignedObjectNameSize := PointerAlignSize(SIZEOF_INTERMEDIATE + |r.access.value.objectName| + SIZEOF_WCHAR);
      }
      if |r.access.value.objectTypeName| > 0 {
        alignedObjectTypeNameSize :=
          PointerAlignSize(SIZEOF_INTERMEDIATE + |r.access.value.objectTypeName| + SIZEOF_WCHAR);
      }
    }
  }

  /** `common` is what AllocateEventContext and the flags of the FCB put between Length and Operation. */
  method PackCreateEvent(r: Request, common: seq<Byte>) returns (result: Option<seq<Byte>>)
    requires Valid(r) && |common| == COMMON
    ensures result.Some? <==> EventLength(r) <= MAXULONG - SIZEOF_DRIVER_EVENT_CONTEXT
    ensures result.Some? ==> result.value == Image(r, common)
  {
    var alignedEventContextSize := PointerAlignSize(SIZEOF_EVENT_CONTEXT);
    var securityDescriptorSize, alignedObjectNameSize, alignedObjectTypeNameSize := RegionSizes(r);
    var filePosition := alignedEventContextSize + securityDescriptorSize + alignedObjectNameSize
      + alignedObjectTypeNameSize;
    var eventLength := filePosition + SIZEOF_WCHAR * |r.fileName| + SIZEOF_WCHAR;
    if eventLength > MAXULONG - SIZEOF_DRIVER_EVENT_CONTEXT {
      return None;
    }
    var event := new Byte[eventLength](_ => 0);
    assert Written(event[..], []);
    WriteHeader(event, r, common);
    WriteDescriptor(event, r, Header(r, common));
    ghost var done := Header(r, common) + Padded(Descriptor(r), DescriptorSize(r));
    WriteStrings(event, r, alignedObjectNameSize, alignedObjectTypeNameSize, done);
    done := done + OptionalRegion(r, ObjectName(r)) + OptionalRegion(r, ObjectTypeName(r));
    WriteFileName(event, filePosition, r.fileName, done);
    return Some(event[..]);
  }

  method WriteStrings(event: array<Byte>, r: Request, nameSize: nat, typeSize: nat, ghost done: seq<Byte>)
    requires Valid(r) && event.Length == EventLength(r) && |done| == NamePosition(r) && Written(event[..], done)
    requires nameSize == StringSize(ObjectName(r)) && typeSize == StringSize(ObjectTypeName(r))
    modifies event
    ensures Written(event[..], done + OptionalRegion(r, ObjectName(r)) + OptionalRegion(r, ObjectTypeName(r)))
  {
    ghost var named := done + OptionalRegion(r, ObjectName(r));
    if r.access.Some? {
      var position := NamePosition(r);
      WriteString(event, position, r.access.value.objectName, nameSize, done);
      WriteString(event, position + nameSize, r.access.value.objectTypeName, typeSize, named);
    } else {
      SkipNext(event[..], done, nameSize);
      SkipNext(event[..], named, typeSize);
    }
  }

  method WriteHeader(event: array<Byte>, r: Request, common: seq<Byte>)
    requires Valid(r) && |common| == COMMON && event.Length == EventLength(r) && Written(event[..], [])
    modifies event
    ensures Written(event[..], Header(r, common))
  {
    var front := EncodeU32(EventLength(r)) + common + Booleans(r) + EncodeAll(Fields(r));
    assert [] + front == front;
    Append(event, 0, front, []);
    SkipNext(event[..], front, SIZEOF_EVENT_CONTEXT - 96);
  }

  method WriteDescriptor(event: array<Byte>, r: Request, ghost done: seq<Byte>)
    requires event.Length == EventLength(r) && |done| == SIZEOF_EVENT_CONTEXT && Written(event[..], done)
    modifies event
    ensures Written(event[..], done + Padded(Descriptor(r), DescriptorSize(r)))
  {
    var d := Descriptor(r);
    Append(event, SIZEOF_EVENT_CONTEXT, d, done);
    SkipNext(event[..], done + d, DescriptorSize(r) - |d|);
    assert done + d + Zeros(DescriptorSize(r) - |d|) == done + Padded(d, DescriptorSize(r));
  }

  method WriteFileName(event: array<Byte>, position: nat, fileName: seq<Wchar>, ghost done: seq<Byte>)
    requires Written(event[..], done) && position == |done|
    requires event.Length == |done| + SIZEOF_WCHAR * |fileName| + SIZEOF_WCHAR
    modifies event
    ensures event[..] == done + FileRegion(fileName)
  {
    var name := EncodeWide(fileName);
    Append(event, position, name, done);
    Append(event, position + |name|, [0, 0], done + name);
    assert event[..] == done + name + [0, 0] + Zeros(0);
  }

  // ------------------------------------------------------------------------------------------
  // The library's side
  // ------------------------------------------------------------------------------------------

  /** A UNICODE_STRING that points into the event. */
  datatype StringView = StringView(length: nat, maximumLength: nat, buffer: nat)

  /** `base` is the address of AccessState, relative to the event. */
  function DescriptorAt(event: seq<Byte>): Option<nat>
    requires |event| >= SIZEOF_EVENT_CONTEXT
  {
    var offset := ReadU32(event, CREATE + 20);
    if offset > 0 then Some(CREATE + offset) else None
  }

  /** The string whose intermediate form is at `position`; None is a read outside the event. */
  function ViewAt(event: seq<Byte>, position: nat): Option<StringView> {
    if position + 4 <= |event|
      then Some(StringView(ReadU16(event, position), ReadU16(event, position + 2), position + 4))
    else None
  }

  function ObjectNameView(event: seq<Byte>): Option<StringView>
    requires |event| >= SIZEOF_EVENT_CONTEXT
  {
    ViewAt(event, CREATE + ReadU32(event, CREATE + 24))
  }

  function ObjectTypeView(event: seq<Byte>): Option<StringView>
    requires |event| >= SIZEOF_EVENT_CONTEXT
  {
    ViewAt(event, CREATE + ReadU32(event, CREATE + 28))
  }

  /** The C string at `position`; None when no terminator comes before the end of the event. */
  function WideStringAt(event: seq<Byte>, position: nat): Option<seq<Wchar>>
    decreases |event| - position
  {
    if position + 2 > |event| then None
    else if ReadU16(event, position) == 0 then Some([])
    else
      var rest := WideStringAt(event, position + 2);
      if rest.Some? then Some([ReadU16(event, position)] + rest.value) else None
  }

  /** The part of DOKAN_IO_SECURITY_CONTEXT that SetIOSecurityContext copies field by field. */
  datatype SecurityContext = SecurityContext(
    securityEvaluated: Byte, generateAudit: Byte, generateOnClose: Byte, auditPrivileges: Byte,
    flags: nat, remainingDesiredAccess: nat, previouslyGrantedAccess: nat, originalDesiredAccess: nat,
    desiredAccess: nat)

  function SecurityContextOf(event: seq<Byte>): SecurityContext
    requires |event| >= SIZEOF_EVENT_CONTEXT
  {
    SecurityContext(
      event[CREATE], event[CREATE + 1], event[CREATE + 2], event[CREATE + 3],
      ReadU32(event, CREATE + 4), ReadU32(event, CREATE + 8), ReadU32(event, CREATE + 12), ReadU32(event, CREATE + 16),
      ReadU32(event, CREATE + 32))
  }

  /** What DispatchCreate reads of CREATE_CONTEXT behind the security context. */
  datatype Parameters = Parameters(
    fileAttributes: nat, disposition: nat, options: nat, shareAccess: nat, fileNameLength: nat)

  function ParametersOf(event: seq<Byte>): Parameters
    requires |event| >= SIZEOF_EVENT_CONTEXT
  {
    var createOptions := ReadU32(event, CREATE + 40);
    Parameters(ReadU32(event, CREATE + 36), createOptions / DISPOSITION_UNIT, createOptions % DISPOSITION_UNIT,
               ReadU32(event, CREATE + 44), ReadU32(event, CREATE + 48))
  }

  function FileName(event: seq<Byte>): Option<seq<Wchar>>
    requires |event| >= SIZEOF_EVENT_CONTEXT
  {
    WideStringAt(event, CREATE + ReadU32(event, CREATE + 52))
  }

  function UpToNul(s: seq<Wchar>): (r: seq<Wchar>)
    ensures r <= s && 0 !in r && (|r| < |s| ==> s[|r|] == 0)
    ensures r == s <==> 0 !in s
  {
    if s == [] || s[0] == 0 then [] else [s[0]] + UpToNul(s[1..])
  }

  lemma {:induction false} FieldAt(event: seq<Byte>, position: nat, f: seq<nat>, k: nat)
    requires (forall j :: 0 <= j < |f| ==> f[j] < U32_RANGE) && k < |f| && At(event, position, EncodeAll(f))
    ensures position + 4 * k + 4 <= |event| && ReadU32(event, position + 4 * k) == f[k]
    decreases k
  {
    AtPart(event, position, EncodeU32(f[0]), EncodeAll(f[1..]));
    if k == 0 {
      ReadEncodedU32(event, position, f[0]);
    } else {
      FieldAt(event, position + 4, f[1..], k - 1);
    }
  }

  lemma FiveParts(a: seq<Byte>, b: seq<Byte>, c: seq<Byte>, d: seq<Byte>, f: seq<Byte>)
    ensures var e := a + b + c + d + f;
            && At(e, 0, a) && At(e, |a|, b) && At(e, |a| + |b|, c) && At(e, |a| + |b| + |c|, d)
            && At(e, |a| + |b| + |c| + |d|, f)
  {
    AtJoin(a, b);
    AtJoin(a + b, c);
    AtJoin(a + b + c, d);
    AtJoin(a + b + c + d, f);
    AtKept(a + b, c, 0, a);
    AtKept(a + b, c, |a|, b);
    AtKept(a + b + c, d, 0, a);
    AtKept(a + b + c, d, |a|, b);
    AtKept(a + b + c, d, |a| + |b|, c);
    AtKept(a + b + c + d, f, 0, a);
    AtKept(a + b + c + d, f, |a|, b);
    AtKept(a + b + c + d, f, |a| + |b|, c);
    AtKept(a + b + c + d, f, |a| + |b| + |c|, d);
  }

  lemma AtJoin(a: seq<Byte>, b: seq<Byte>)
    ensures At(a + b, 0, a) && At(a + b, |a|, b)
  {
  }

  lemma AtKept(x: seq<Byte>, y: seq<Byte>, position: nat, s: seq<Byte>)
    requires At(x, position, s)
    ensures At(x + y, position, s)
  {
    assert (x + y)[position..position + |s|] == x[position..position + |s|];
  }

  /** The header and the four regions lie one behind the other. */
  lemma Regions(r: Request, common: seq<Byte>)
    requires Valid(r) && |common| == COMMON
    ensures At(Image(r, common), 0, Header(r, common))
    ensures At(Image(r, common), SIZEOF_EVENT_CONTEXT, Padded(Descriptor(r), DescriptorSize(r)))
    ensures At(Image(r, common), NamePosition(r), OptionalRegion(r, ObjectName(r)))
    ensures At(Image(r, common), TypePosition(r), OptionalRegion(r, ObjectTypeName(r)))
    ensures At(Image(r, common), FilePosition(r), FileRegion(r.fileName))
  {
    FiveParts(Header(r, common), Padded(Descriptor(r), DescriptorSize(r)),
              OptionalRegion(r, ObjectName(r)), OptionalRegion(r, ObjectTypeName(r)), FileRegion(r.fileName));
  }

  /** Each ULONG of the create context is read back as it was written. */
  lemma HeaderField(e: seq<Byte>, r: Request, common: seq<Byte>, k: nat)
    requires Valid(r) && |common| == COMMON && k < 13
    requires |e| >= SIZEOF_EVENT_CONTEXT && At(e, 0, Header(r, common))
    ensures ReadU32(e, CREATE + 4 + 4 * k) == Fields(r)[k]
  {
    var front, f := EncodeU32(EventLength(r)) + common + Booleans(r), EncodeAll(Fields(r));
    AtPart(e, 0, front + f, Zeros(SIZEOF_EVENT_CONTEXT - 96));
    AtPart(e, 0, front, f);
    FieldAt(e, CREATE + 4, Fields(r), k);
  }

  /** A view of `s`: its length, its bytes, the terminator, and the aligned size cut to a USHORT. */
  predicate Recovers(event: seq<Byte>, view: Option<StringView>, s: seq<Byte>) {
    && view.Some?
    && view.value.length == |s| && At(event, view.value.buffer, s)
    && At(event, view.value.buffer + view.value.length, [0, 0])
    && view.value.maximumLength == StringSize(s) % U16_RANGE
  }

  lemma RegionRoundTrip(event: seq<Byte>, position: nat, s: seq<Byte>)
    requires |s| < U16_RANGE && At(event, position, StringRegion(s))
    ensures Recovers(event, ViewAt(event, position), s)
  {
    var a, b := EncodeU16(|s|), EncodeU16(StringSize(s) % U16_RANGE);
    var n := StringSize(s) - |s| - 4;
    assert a + b + s + Zeros(n) == (a + b + s + [0, 0]) + Zeros(n - 2) by { assert Zeros(n) == [0, 0] + Zeros(n - 2); }
    AtPart(event, position, a + b + s + [0, 0], Zeros(n - 2));
    AtPart(event, position, a + b + s, [0, 0]);
    AtPart(event, position, a + b, s);
    AtPart(event, position, a, b);
    ReadEncodedU16(event, position, |s|);
    ReadEncodedU16(event, position + 2, StringSize(s) % U16_RANGE);
  }

  lemma {:induction false} WideRoundTrip(event: seq<Byte>, position: nat, s: seq<Wchar>)
    requires At(event, position, EncodeWide(s) + [0, 0])
    ensures WideStringAt(event, position) == Some(UpToNul(s))
    decreases |s|
  {
    if s == [] {
      assert Encode(0, 1) == [0] && EncodeWide(s) + [0, 0] == EncodeU16(0);
      ReadEncodedU16(event, position, 0);
    } else {
      assert EncodeWide(s) + [0, 0] == EncodeU16(s[0]) + (EncodeWide(s[1..]) + [0, 0]);
      AtPart(event, position, EncodeU16(s[0]), EncodeWide(s[1..]) + [0, 0]);
      ReadEncodedU16(event, position, s[0]);
      WideRoundTrip(event, position + 2, s[1..]);
    }
  }

  // ------------------------------------------------------------------------------------------
  // Round trips
  // ------------------------------------------------------------------------------------------

  /** The four offsets that the library follows. */
  predicate OffsetsOf(e: seq<Byte>, r: Request)
    requires |e| >= SIZEOF_EVENT_CONTEXT
  {
    && ReadU32(e, CREATE + 20) == (if Descriptor(r) == [] then 0 else SIZEOF_EVENT_CONTEXT - CREATE)
    && ReadU32(e, CREATE + 24) == (if r.access.Some? then NamePosition(r) - CREATE else 0)
    && ReadU32(e, CREATE + 28) == (if r.access.Some? then TypePosition(r) - CREATE else 0)
    && ReadU32(e, CREATE + 52) == FilePosition(r) - CREATE
  }

  lemma OffsetsRoundTrip(e: seq<Byte>, r: Request, common: seq<Byte>)
    requires Valid(r) && |common| == COMMON && |e| >= SIZEOF_EVENT_CONTEXT && At(e, 0, Header(r, common))
    ensures OffsetsOf(e, r)
  {
    FirstOffsets(e, r, common);
    HeaderField(e, r, common, 6);
    HeaderField(e, r, common, 12);
  }

  lemma FirstOffsets(e: seq<Byte>, r: Request, common: seq<Byte>)
    requires Valid(r) && |common| == COMMON && |e| >= SIZEOF_EVENT_CONTEXT && At(e, 0, Header(r, common))
    ensures ReadU32(e, CREATE + 20) == (if Descriptor(r) == [] then 0 else SIZEOF_EVENT_CONTEXT - CREATE)
    ensures ReadU32(e, CREATE + 24) == (if r.access.Some? then NamePosition(r) - CREATE else 0)
  {
    HeaderField(e, r, common, 4);
    HeaderField(e, r, common, 5);
  }

  lemma ImageOffsets(r: Request, common: seq<Byte>)
    requires Valid(r) && |common| == COMMON
    ensures OffsetsOf(Image(r, common), r)
  {
    assert At(Image(r, common), 0, Header(r, common)) by { Regions(r, common); }
    OffsetsRoundTrip(Image(r, common), r, common);
  }

  lemma HeaderFront(e: seq<Byte>, r: Request, common: seq<Byte>)
    requires Valid(r) && |common| == COMMON && |e| >= SIZEOF_EVENT_CONTEXT && At(e, 0, Header(r, common))
    ensures ReadU32(e, 0) == EventLength(r) && At(e, 4, common) && At(e, CREATE, Booleans(r))
  {
    var length, f := EncodeU32(EventLength(r)), EncodeAll(Fields(r));
    AtPart(e, 0, length + common + Booleans(r) + f, Zeros(SIZEOF_EVENT_CONTEXT - 96));
    AtPart(e, 0, length + common + Booleans(r), f);
    AtPart(e, 0, length + common, Booleans(r));
    AtPart(e, 0, length, common);
    ReadEncodedU32(e, 0, EventLength(r));
  }

  /** The event starts with its own length, and the opaque part follows. */
  lemma LengthRoundTrip(r: Request, common: seq<Byte>)
    requires Valid(r) && |common| == COMMON
    ensures ReadU32(Image(r, common), 0) == |Image(r, common)| && At(Image(r, common), 4, common)
  {
    assert At(Image(r, common), 0, Header(r, common)) by { Regions(r, common); }
    HeaderFront(Image(r, common), r, common);
  }

  /** The four booleans at the start of Operation.Create. */
  lemma BooleansRoundTrip(e: seq<Byte>, r: Request, common: seq<Byte>)
    requires Valid(r) && |common| == COMMON && |e| >= SIZEOF_EVENT_CONTEXT && At(e, 0, Header(r, common))
    ensures var c := SecurityContextOf(e);
            (c.securityEvaluated, c.generateAudit, c.generateOnClose, c.auditPrivileges) ==
            if r.access.Some? then r.access.value.booleans else (0, 0, 0, 0)
  {
    HeaderFront(e, r, common);
    var b := e[CREATE..CREATE + 4];
    assert e[CREATE] == b[0] && e[CREATE + 1] == b[1] && e[CREATE + 2] == b[2] && e[CREATE + 3] == b[3];
  }

  lemma RightsRoundTrip(e: seq<Byte>, r: Request, common: seq<Byte>)
    requires Valid(r) && |common| == COMMON && |e| >= SIZEOF_EVENT_CONTEXT && At(e, 0, Header(r, common))
    ensures var c := SecurityContextOf(e);
            && (c.flags, c.remainingDesiredAccess, c.previouslyGrantedAccess, c.originalDesiredAccess) ==
               (if r.access.Some? then r.access.value.rights else (0, 0, 0, 0))
            && c.desiredAccess == r.desiredAccess
  {
    HeaderField(e, r, common, 0);
    HeaderField(e, r, common, 1);
    HeaderField(e, r, common, 2);
    HeaderField(e, r, common, 3);
    HeaderField(e, r, common, 7);
  }

  /** SetIOSecurityContext gives the callback the booleans, rights and access of the request. */
  lemma SecurityContextRoundTrip(r: Request, common: seq<Byte>)
    requires Valid(r) && |common| == COMMON
    ensures var c := SecurityContextOf(Image(r, common));
            && (c.securityEvaluated, c.generateAudit, c.generateOnClose, c.auditPrivileges) ==
               (if r.access.Some? then r.access.value.booleans else (0, 0, 0, 0))
            && (c.flags, c.remainingDesiredAccess, c.previouslyGrantedAccess, c.originalDesiredAccess) ==
               (if r.access.Some? then r.access.value.rights else (0, 0, 0, 0))
            && c.desiredAccess == r.desiredAccess
  {
    assert At(Image(r, common), 0, Header(r, common)) by { Regions(r, common); }
    BooleansRoundTrip(Image(r, common), r, common);
    RightsRoundTrip(Image(r, common), r, common);
  }

  lemma ParameterFields(e: seq<Byte>, r: Request, common: seq<Byte>)
    requires Valid(r) && |common| == COMMON && |e| >= SIZEOF_EVENT_CONTEXT && At(e, 0, Header(r, common))
    ensures ReadU32(e, CREATE + 36) == r.fileAttributes && ReadU32(e, CREATE + 40) == PackedOptions(r)
    ensures ReadU32(e, CREATE + 44) == r.shareAccess && ReadU32(e, CREATE + 48) == SIZEOF_WCHAR * |r.fileName|
  {
    HeaderField(e, r, common, 8);
    HeaderField(e, r, common, 9);
    HeaderField(e, r, common, 10);
    HeaderField(e, r, common, 11);
  }

  /**
    The callback gets the attributes, options, share access and disposition of the request, except that
    FILE_OPEN_IF becomes FILE_OPEN on a device that cannot be written to.
  */
  lemma ParametersRoundTrip(r: Request, common: seq<Byte>)
    requires Valid(r) && |common| == COMMON
    ensures var p := ParametersOf(Image(r, common));
            && p.fileAttributes == r.fileAttributes && p.shareAccess == r.shareAccess
            && p.fileNameLength == 2 * |r.fileName|
            && p.options == r.createOptions % 0x100_0000
            && p.disposition == if r.readOnlyDevice && r.createOptions / 0x100_0000 == 3 then 1
                                else r.createOptions / 0x100_0000
  {
    assert At(Image(r, common), 0, Header(r, common)) by { Regions(r, common); }
    ParameterFields(Image(r, common), r, common);
    OptionsSplit(r);
  }

  lemma OptionsSplit(r: Request)
    ensures PackedOptions(r) % DISPOSITION_UNIT == r.createOptions % DISPOSITION_UNIT
    ensures PackedOptions(r) / DISPOSITION_UNIT ==
            if r.readOnlyDevice && r.createOptions / DISPOSITION_UNIT == FILE_OPEN_IF then FILE_OPEN
            else r.createOptions / DISPOSITION_UNIT
  {
  }

  /** The descriptor is found exactly when one was packed, and where it was packed. */
  lemma DescriptorRoundTrip(r: Request, common: seq<Byte>)
    requires Valid(r) && |common| == COMMON
    ensures var e := Image(r, common);
            && DescriptorAt(e) == (if Descriptor(r) == [] then None else Some(SIZEOF_EVENT_CONTEXT))
            && At(e, SIZEOF_EVENT_CONTEXT, Descriptor(r))
  {
    var e := Image(r, common);
    assert OffsetsOf(e, r) by { ImageOffsets(r, common); }
    assert At(e, SIZEOF_EVENT_CONTEXT, Padded(Descriptor(r), DescriptorSize(r))) by { Regions(r, common); }
    AtPart(e, SIZEOF_EVENT_CONTEXT, Descriptor(r), Zeros(DescriptorSize(r) - |Descriptor(r)|));
  }

  /** With an access state, both counted strings come back with their lengths, bytes and terminators. */
  lemma StringsRoundTrip(r: Request, common: seq<Byte>)
    requires Valid(r) && |common| == COMMON && r.access.Some?
    ensures var e := Image(r, common);
            Recovers(e, ObjectNameView(e), ObjectName(r)) && Recovers(e, ObjectTypeView(e), ObjectTypeName(r))
  {
    var e := Image(r, common);
    assert OffsetsOf(e, r) by { ImageOffsets(r, common); }
    assert Recovers(e, ObjectNameView(e), ObjectName(r)) by {
      assert At(e, NamePosition(r), StringRegion(ObjectName(r))) by { Regions(r, common); }
      ObjectNameFound(e, NamePosition(r), ObjectName(r));
    }
    assert Recovers(e, ObjectTypeView(e), ObjectTypeName(r)) by {
      assert At(e, TypePosition(r), StringRegion(ObjectTypeName(r))) by { Regions(r, common); }
      ObjectTypeFound(e, TypePosition(r), ObjectTypeName(r));
    }
  }

  lemma ObjectNameFound(e: seq<Byte>, p: nat, s: seq<Byte>)
    requires |e| >= SIZEOF_EVENT_CONTEXT && |s| < U16_RANGE && At(e, p, StringRegion(s))
    requires CREATE + ReadU32(e, CREATE + 24) == p
    ensures Recovers(e, ObjectNameView(e), s)
  {
    RegionRoundTrip(e, p, s);
  }

  lemma ObjectTypeFound(e: seq<Byte>, p: nat, s: seq<Byte>)
    requires |e| >= SIZEOF_EVENT_CONTEXT && |s| < U16_RANGE && At(e, p, StringRegion(s))
    requires CREATE + ReadU32(e, CREATE + 28) == p
    ensures Recovers(e, ObjectTypeView(e), s)
  {
    RegionRoundTrip(e, p, s);
  }

  /** With or without an access state, the file name comes back up to its first NUL. */
  lemma FileNameRoundTrip(r: Request, common: seq<Byte>)
    requires Valid(r) && |common| == COMMON
    ensures FileName(Image(r, common)) == Some(UpToNul(r.fileName))
  {
    var e := Image(r, common);
    assert OffsetsOf(e, r) by { ImageOffsets(r, common); }
    assert At(e, FilePosition(r), EncodeWide(r.fileName) + [0, 0]) by { Regions(r, common); }
    WideRoundTrip(e, FilePosition(r), r.fileName);
  }

  /** The regions start on pointer boundaries, in order, without gap or overlap, and end with the event. */
  lemma RegionsFillTheEvent(r: Request, common: seq<Byte>)
    requires Valid(r) && |common| == COMMON
    ensures NamePosition(r) % 8 == 0 && TypePosition(r) % 8 == 0 && FilePosition(r) % 8 == 0
    ensures SIZEOF_EVENT_CONTEXT + |Descriptor(r)| <= NamePosition(r)
    ensures NamePosition(r) + 4 + |ObjectName(r)| + 2 <= TypePosition(r)
    ensures TypePosition(r) + 4 + |ObjectTypeName(r)| + 2 <= FilePosition(r)
    ensures FilePosition(r) + 2 * |r.fileName| + 2 == |Image(r, common)|
  {
    AlignedSum(SIZEOF_EVENT_CONTEXT, DescriptorSize(r));
    AlignedSum(NamePosition(r), StringSize(ObjectName(r)));
    AlignedSum(TypePosition(r), StringSize(ObjectTypeName(r)));
  }

  lemma AlignedSum(a: nat, b: nat)
    requires a % 8 == 0 && b % 8 == 0
    ensures (a + b) % 8 == 0
  {
  }

  /** The USHORT MaximumLength covers the string exactly when the aligned size was not truncated. */
  lemma MaximumLengthCovers(s: seq<Byte>)
    requires |s| < U16_RANGE
    ensures StringSize(s) % U16_RANGE >= |s| <==> |s| <= 65520
  {
  }

  // ------------------------------------------------------------------------------------------
  // CheckFileName
  // ------------------------------------------------------------------------------------------

  const BACKSLASH: Wchar := 0x5C

  /** One of two leading separators goes, and then a trailing one. */
  function Checked(s: seq<Wchar>): seq<Wchar> {
    var t := if |s| >= 2 && s[0] == BACKSLASH && s[1] == BACKSLASH then s[1..] else s;
    if |t| > 2 && t[|t| - 1] == BACKSLASH then t[..|t| - 1] else t
  }

  /**
    What is left of a name: the name without at most one character at each end, each of them a separator; in front when
    the name starts with two, at the end when more than two characters would stay and the last one is a separator.
  */
  lemma CheckedIs(s: seq<Wchar>)
    ensures var doubled := |s| >= 2 && s[0] == BACKSLASH && s[1] == BACKSLASH;
            var front := if doubled then 1 else 0;
            var back := if |s| - front > 2 && s[|s| - 1] == BACKSLASH then 1 else 0;
            && |Checked(s)| == |s| - front - back
            && forall k :: 0 <= k < |Checked(s)| ==> Checked(s)[k] == s[k + front]
  {
  }

  /** `s` is the C string at the start of the array. */
  ghost predicate Holds(a: seq<Wchar>, s: seq<Wchar>) {
    |s| < |a| && a[..|s|] == s && a[|s|] == 0 && 0 !in s
  }

  method WcsLen(a: array<Wchar>, ghost s: seq<Wchar>) returns (n: nat)
    requires Holds(a[..], s)
    ensures n == |s|
  {
    n := 0;
    while a[n] != 0
      invariant n <= |s|
      decreases |s| - n
    {
      assert a[..][..|s|][n] == a[n] && s[n] in s;
      n := n + 1;
    }
  }

  method CheckFileName(a: array<Wchar>, ghost s: seq<Wchar>)
    requires Holds(a[..], s)
    modifies a
    ensures Holds(a[..], Checked(s))
  {
    var len := WcsLen(a, s);
    ghost var t := s;
    if len >= 2 && a[0] == BACKSLASH && a[1] == BACKSLASH {
      ShiftLeft(a, s);
      t := s[1..];
    }
    len := WcsLen(a, t);
    if len > 2 && a[len - 1] == BACKSLASH {
      a[len - 1] := 0;
      assert a[..][..len - 1] == t[..len - 1];
    }
  }

  /** Moves every character one place to the front. */
  method ShiftLeft(a: array<Wchar>, ghost s: seq<Wchar>)
    requires Holds(a[..], s) && s != []
    modifies a
    ensures Holds(a[..], s[1..])
  {
    var i := 0;
    while a[i + 1] != 0
      invariant i < |s|
      invariant forall k :: 0 <= k < i ==> a[k] == s[k + 1]
      invariant forall k :: i < k < |s| ==> a[k] == s[k]
      invariant a[|s|] == 0
      decreases |s| - i
    {
      a[i] := a[i + 1];
      i := i + 1;
    }
    a[i] := 0;
    assert a[..][..|s| - 1] == s[1..];
  }
}
