/**
  Transport of events to user mode: `PullEvents` (sys/fscontrol.c) packs queued events into the
  caller's buffer, and `DispatchBatchIoCallback` (dokan/dokan.c) takes the buffer apart again.
*/
module EventQueue {
  import opened Options
  import opened Bytes
  import opened Structures

  /** A DRIVER_EVENT_CONTEXT: its address, and the EVENT_CONTEXT with its variable-length tail. */
  datatype Event = Event(id: nat, body: seq<Byte>)

  /** The first field of an EVENT_CONTEXT is its own length. */
  predicate WellFormed(body: seq<Byte>) {
    SIZEOF_EVENT_CONTEXT <= |body| <= MAXULONG && ReadU32(body, 0) == |body|
  }

  /** AllocateEventContextRaw: the only source of events. */
  method AllocateEventContextRaw(length: nat) returns (body: Option<seq<Byte>>)
    requires length <= MAXULONG
    ensures body.Some? <==> SIZEOF_EVENT_CONTEXT <= length <= MAXULONG - SIZEOF_DRIVER_EVENT_CONTEXT
    ensures body.Some? ==> WellFormed(body.value) && |body.value| == length
  {
    if length < SIZEOF_EVENT_CONTEXT || length > MAXULONG - SIZEOF_DRIVER_EVENT_CONTEXT {
      return None;
    }
    var bytes := Overwrite(Zeros(length), 0, EncodeU32(length));
    ReadEncodedU32(bytes, 0, length);
    return Some(bytes);
  }

  predicate DistinctIds(q: seq<Event>) { forall i, j :: 0 <= i < j < |q| ==> q[i].id != q[j].id }

  predicate AllWellFormed(q: seq<Event>) { forall e :: e in q ==> WellFormed(e.body) }

  /** The bytes of the events, back to back. */
  function Flatten(q: seq<Event>): seq<Byte> {
    if q == [] then [] else q[0].body + Flatten(q[1..])
  }

  // ------------------------------------------------------------------------------------------
  // What one pull takes and leaves
  // ------------------------------------------------------------------------------------------

  /** Batch mode: each event in turn is taken if it fits the room left by those before it. */
  function Taken(q: seq<Event>, room: nat): seq<Event> {
    if q == [] then []
    else if |q[0].body| <= room then [q[0]] + Taken(q[1..], room - |q[0].body|)
    else Taken(q[1..], room)
  }

  function Skipped(q: seq<Event>, room: nat): seq<Event> {
    if q == [] then []
    else if |q[0].body| <= room then Skipped(q[1..], room - |q[0].body|)
    else [q[0]] + Skipped(q[1..], room)
  }

  /** Room left when the turn of event `k` comes. */
  function RoomAt(q: seq<Event>, room: nat, k: nat): nat
    requires k <= |q|
  {
    if k == 0 then room
    else RoomAt(q[1..], if |q[0].body| <= room then room - |q[0].body| else room, k - 1)
  }

  /** Single mode: the first event that fits, or |q|. */
  function FirstFit(q: seq<Event>, room: nat): (k: nat)
    ensures k <= |q|
    ensures forall j :: 0 <= j < k ==> |q[j].body| > room
    ensures k < |q| ==> |q[k].body| <= room
  {
    if q == [] || |q[0].body| <= room then 0 else 1 + FirstFit(q[1..], room)
  }

  function Rotate(q: seq<Event>): seq<Event> { if q == [] then [] else q[1..] + [q[0]] }

  function Pulled(q: seq<Event>, room: nat, batching: bool): seq<Event> {
    if batching then Taken(q, room)
    else
      var k := FirstFit(q, room);
      if k < |q| then [q[k]] else []
  }

  function Left(q: seq<Event>, room: nat, batching: bool): seq<Event> {
    if batching then Rotate(Skipped(q, room))
    else
      var k := FirstFit(q, room);
      if k < |q| then q[k + 1..] + q[..k] else Rotate(q)
  }

  lemma {:induction false} FlattenSnoc(q: seq<Event>, e: Event)
    ensures Flatten(q + [e]) == Flatten(q) + e.body
  {
    if q == [] {
      assert q + [e] == [e];
    } else {
      FlattenSnoc(q[1..], e);
      assert (q + [e])[1..] == q[1..] + [e];
    }
  }

  /** In the middle of a pull: the events `todo` still wait for their turn, the queue is todo + skipped. */
  ghost predicate MidPull(q: seq<Event>, todo: seq<Event>, taken: seq<Event>, skipped: seq<Event>,
                          length: nat, remaining: nat, batching: bool)
  {
    && DistinctIds(skipped + todo)
    && (forall e :: e in skipped ==> |e.body| > remaining)
    && (batching ==>
          && Taken(q, length) == taken + Taken(todo, remaining)
          && Skipped(q, length) == skipped + Skipped(todo, remaining))
    && (!batching ==> taken == [] && q == skipped + todo && remaining == length)
  }

  /** The queue and the first event that did not fit, in the middle of a pull. */
  ghost predicate AtTurn(items: seq<Event>, seen: Option<nat>, todo: seq<Event>, skipped: seq<Event>) {
    items == todo + skipped && seen == if skipped == [] then None else Some(skipped[0].id)
  }

  function SeenAfter(seen: Option<nat>, id: nat): Option<nat> { if seen == None then Some(id) else seen }

  lemma SkipStep(items: seq<Event>, seen: Option<nat>, q: seq<Event>, todo: seq<Event>, taken: seq<Event>,
                 skipped: seq<Event>,
                 length: nat, remaining: nat, batching: bool)
    requires AtTurn(items, seen, todo, skipped) && MidPull(q, todo, taken, skipped, length, remaining, batching)
    requires todo != [] && |todo[0].body| > remaining
    ensures MidPull(q, todo[1..], taken, skipped + [todo[0]], length, remaining, batching)
    ensures AtTurn(items[1..] + [items[0]], SeenAfter(seen, items[0].id), todo[1..], skipped + [todo[0]])
    ensures seen != Some(items[0].id)
  {
    assert skipped + todo == (skipped + [todo[0]]) + todo[1..];
    if skipped != [] {
      assert (skipped + todo)[0] == skipped[0] && (skipped + todo)[|skipped|] == todo[0];
    }
    assert items[0] == todo[0] && items[1..] + [todo[0]] == todo[1..] + (skipped + [todo[0]]);
  }

  /** A pass over the whole queue ends at the first event that did not fit. */
  lemma PassEnds(items: seq<Event>, seen: Option<nat>, q: seq<Event>, taken: seq<Event>, skipped: seq<Event>,
                 length: nat, remaining: nat, batching: bool)
    requires AtTurn(items, seen, [], skipped) && MidPull(q, [], taken, skipped, length, remaining, batching)
    ensures taken == Pulled(q, length, batching)
    ensures items == [] ==> items == Left(q, length, batching)
    ensures items != [] ==>
              && |items[0].body| > remaining && seen == Some(items[0].id)
              && items[1..] + [items[0]] == Left(q, length, batching)
  {
    assert items == skipped;
    EndOfQueue(q, taken, skipped, length, remaining, batching);
    if items != [] { assert skipped[0] in skipped; }
  }

  lemma TakeStep(q: seq<Event>, todo: seq<Event>, taken: seq<Event>, skipped: seq<Event>, length: nat, remaining: nat)
    requires MidPull(q, todo, taken, skipped, length, remaining, true)
    requires todo != [] && |todo[0].body| <= remaining
    ensures MidPull(q, todo[1..], taken + [todo[0]], skipped, length, remaining - |todo[0].body|, true)
  {
    var s, t := skipped + todo[1..], skipped + todo;
    forall i, j | 0 <= i < j < |s| ensures s[i].id != s[j].id {
      assert s[i] == t[if i < |skipped| then i else i + 1] && s[j] == t[if j < |skipped| then j else j + 1];
    }
  }

  lemma SingleTake(q: seq<Event>, todo: seq<Event>, taken: seq<Event>, skipped: seq<Event>, length: nat, remaining: nat)
    requires MidPull(q, todo, taken, skipped, length, remaining, false)
    requires todo != [] && |todo[0].body| <= remaining
    ensures taken + [todo[0]] == Pulled(q, length, false) && todo[1..] + skipped == Left(q, length, false)
  {
    var k := |skipped|;
    forall j | 0 <= j < k ensures |q[j].body| > length { assert skipped[j] in skipped; }
    assert q[k] == todo[0];
    assert FirstFit(q, length) == k;
  }

  lemma EndOfQueue(q: seq<Event>, taken: seq<Event>, skipped: seq<Event>, length: nat, remaining: nat, batching: bool)
    requires MidPull(q, [], taken, skipped, length, remaining, batching)
    ensures taken == Pulled(q, length, batching)
    ensures Rotate(skipped) == Left(q, length, batching)
  {
    assert taken + [] == taken && skipped + [] == skipped;
    if !batching {
      forall j | 0 <= j < |q| ensures |q[j].body| > length { assert q[j] in skipped; }
      assert FirstFit(q, length) == |q|;
    }
  }

  /** What the loop of a pull keeps: it is at the turn of todo[0], or done. */
  ghost predicate Pulling(items: seq<Event>, seen: Option<nat>, q: seq<Event>, todo: seq<Event>, taken: seq<Event>,
                          skipped: seq<Event>, length: nat, remaining: nat, batching: bool, done: bool)
  {
    if done then taken == Pulled(q, length, batching) && items == Left(q, length, batching)
    else AtTurn(items, seen, todo, skipped) && MidPull(q, todo, taken, skipped, length, remaining, batching)
  }

  function Rest(q: seq<Event>): (r: seq<Event>)
    ensures |r| < |q| || q == []
  {
    if q == [] then [] else q[1..]
  }

  lemma DoesNotFit(items: seq<Event>, seen: Option<nat>, q: seq<Event>, todo: seq<Event>, taken: seq<Event>,
                   skipped: seq<Event>, length: nat, remaining: nat, batching: bool)
    requires Pulling(items, seen, q, todo, taken, skipped, length, remaining, batching, false)
    requires items != [] && |items[0].body| > remaining
    ensures todo == [] ==> seen == Some(items[0].id)
    ensures Pulling(items[1..] + [items[0]], SeenAfter(seen, items[0].id), q, Rest(todo), taken,
                    skipped + [items[0]], length, remaining, batching, seen == Some(items[0].id))
  {
    if todo == [] {
      PassEnds(items, seen, q, taken, skipped, length, remaining, batching);
    } else {
      SkipStep(items, seen, q, todo, taken, skipped, length, remaining, batching);
    }
  }

  lemma Fits(items: seq<Event>, seen: Option<nat>, q: seq<Event>, todo: seq<Event>, taken: seq<Event>,
             skipped: seq<Event>, length: nat, remaining: nat, batching: bool)
    requires Pulling(items, seen, q, todo, taken, skipped, length, remaining, batching, false)
    requires items != [] && |items[0].body| <= remaining
    ensures todo != []
    ensures Pulling(items[1..], seen, q, Rest(todo), taken + [items[0]], skipped,
                    length, remaining - |items[0].body|, batching, !batching)
  {
    if todo == [] {
      PassEnds(items, seen, q, taken, skipped, length, remaining, batching);
    } else {
      assert items[0] == todo[0] && items[1..] == todo[1..] + skipped;
      if batching {
        TakeStep(q, todo, taken, skipped, length, remaining);
      } else {
        SingleTake(q, todo, taken, skipped, length, remaining);
      }
    }
  }

  lemma QueueEmpty(items: seq<Event>, seen: Option<nat>, q: seq<Event>, todo: seq<Event>, taken: seq<Event>,
                   skipped: seq<Event>, length: nat, remaining: nat, batching: bool, done: bool)
    requires Pulling(items, seen, q, todo, taken, skipped, length, remaining, batching, done)
    requires items == [] || done
    ensures taken == Pulled(q, length, batching) && items == Left(q, length, batching)
  {
    if !done {
      PassEnds(items, seen, q, taken, skipped, length, remaining, batching);
    }
  }

  /** The events `taken` are packed at the start of the buffer, the rest is as in `memory`. */
  ghost predicate Packed(bytes: seq<Byte>, memory: seq<Byte>, taken: seq<Event>, used: nat) {
    used == |Flatten(taken)| <= |memory| && bytes == Flatten(taken) + memory[used..]
  }

  /** Copies one event behind the others. */
  method CopyEvent(buffer: array<Byte>, used: nat, e: Event, ghost memory: seq<Byte>, ghost taken: seq<Event>)
    requires Packed(buffer[..], memory, taken, used) && used + |e.body| <= buffer.Length
    modifies buffer
    ensures Packed(buffer[..], memory, taken + [e], used + |e.body|)
  {
    CopyMemory(buffer, used, e.body);
    FlattenSnoc(taken, e);
    assert buffer[..] == Flatten(taken) + e.body + memory[used + |e.body|..];
  }

  /** The kernel's queue of events that user mode has not seen. */
  class NotifyQueue {
    var items: seq<Event>

    constructor ()
      ensures items == []
    {
      items := [];
    }

    /** DokanEventNotification. */
    method Notify(e: Event)
      requires DistinctIds(items) && AllWellFormed(items)
      requires WellFormed(e.body) && forall f :: f in items ==> f.id != e.id
      modifies this
      ensures items == old(items) + [e]
      ensures DistinctIds(items) && AllWellFormed(items)
    {
      items := items + [e];
    }

    /** `buffer` is the system buffer of the request, `length` its OutputBufferLength. */
    method PullEvents(buffer: array<Byte>, length: nat, batching: bool) returns (information: nat)
      requires length <= buffer.Length && DistinctIds(items)
      modifies this, buffer
      ensures items == Left(old(items), length, batching)
      ensures information <= length
      ensures Packed(buffer[..], old(buffer[..]), Pulled(old(items), length, batching), information)
    {
      ghost var q, memory := items, buffer[..];
      ghost var todo, taken: seq<Event>, skipped: seq<Event> := items, [], [];
      var remaining: nat, alreadySeen: Option<nat>, done := length, None, false;
      information := 0;
      while items != [] && !done
        invariant information + remaining == length
        invariant Pulling(items, alreadySeen, q, todo, taken, skipped, length, remaining, batching, done)
        invariant Packed(buffer[..], memory, taken, information)
        decreases |todo|, if done then 0 else 1
      {
        var workItem := items[0];
        if remaining < |workItem.body| {
          DoesNotFit(items, alreadySeen, q, todo, taken, skipped, length, remaining, batching);
          items := items[1..] + [workItem];
          done, alreadySeen := alreadySeen == Some(workItem.id), SeenAfter(alreadySeen, workItem.id);
          skipped := skipped + [workItem];
        } else {
          Fits(items, alreadySeen, q, todo, taken, skipped, length, remaining, batching);
          items := items[1..];
          CopyEvent(buffer, information, workItem, memory, taken);
          remaining := remaining - |workItem.body|;
          information := information + |workItem.body|;
          done := !batching;
          taken := taken + [workItem];
        }
        todo := Rest(todo);
      }
      QueueEmpty(items, alreadySeen, q, todo, taken, skipped, length, remaining, batching, done);
    }
  }

  // ------------------------------------------------------------------------------------------
  // What a pull guarantees
  // ------------------------------------------------------------------------------------------

  function Total(q: seq<Event>): nat { if q == [] then 0 else |q[0].body| + Total(q[1..]) }

  lemma {:induction false} TakenPlusSkipped(q: seq<Event>, room: nat)
    ensures multiset(Taken(q, room)) + multiset(Skipped(q, room)) == multiset(q)
  {
    if q != [] {
      assert q == [q[0]] + q[1..];
      TakenPlusSkipped(q[1..], if |q[0].body| <= room then room - |q[0].body| else room);
    }
  }

  lemma RotateKeeps(q: seq<Event>)
    ensures multiset(Rotate(q)) == multiset(q)
  {
    if q != [] { assert q == [q[0]] + q[1..]; }
  }

  /** No event is lost or duplicated by a pull. */
  lemma PullConserves(q: seq<Event>, room: nat, batching: bool)
    ensures multiset(Pulled(q, room, batching)) + multiset(Left(q, room, batching)) == multiset(q)
  {
    if batching {
      TakenPlusSkipped(q, room);
      RotateKeeps(Skipped(q, room));
    } else {
      var k := FirstFit(q, room);
      if k < |q| {
        assert q == q[..k] + [q[k]] + q[k + 1..];
      } else {
        RotateKeeps(q);
      }
    }
  }

  lemma {:induction false} TakenFits(q: seq<Event>, room: nat)
    ensures Total(Taken(q, room)) <= room
    ensures forall e :: e in Skipped(q, room) ==> |e.body| > room - Total(Taken(q, room))
  {
    if q != [] { TakenFits(q[1..], if |q[0].body| <= room then room - |q[0].body| else room); }
  }

  lemma {:induction false} FromQueue(q: seq<Event>, room: nat)
    ensures forall e :: e in Taken(q, room) ==> e in q
    ensures forall e :: e in Skipped(q, room) ==> e in q
  {
    if q != [] { FromQueue(q[1..], if |q[0].body| <= room then room - |q[0].body| else room); }
  }

  /** In batch mode an event is copied exactly when it fits at its turn; otherwise it stays queued. */
  lemma {:induction false} CopiedIffFits(q: seq<Event>, room: nat, k: nat)
    requires k < |q| && DistinctIds(q)
    ensures q[k] in Taken(q, room) <==> |q[k].body| <= RoomAt(q, room, k)
    ensures q[k] in Skipped(q, room) <==> |q[k].body| > RoomAt(q, room, k)
  {
    var rest := if |q[0].body| <= room then room - |q[0].body| else room;
    FromQueue(q[1..], rest);
    assert forall j :: 0 < j < |q| ==> q[j] != q[0];
    assert forall e :: e in q[1..] ==> e != q[0];
    if k > 0 {
      assert q[1..][k - 1] == q[k];
      CopiedIffFits(q[1..], rest, k - 1);
    }
  }

  /** After a pull in batch mode, nothing left in the queue fits the space that remained. */
  lemma NothingLeftFits(q: seq<Event>, room: nat)
    ensures Total(Pulled(q, room, true)) <= room
    ensures forall e :: e in Left(q, room, true) ==> |e.body| > room - Total(Pulled(q, room, true))
  {
    TakenFits(q, room);
    var s := Skipped(q, room);
    assert forall e :: e in Rotate(s) ==> e in s;
  }

  lemma {:induction false} SkippedDistinct(q: seq<Event>, room: nat)
    requires DistinctIds(q)
    ensures DistinctIds(Skipped(q, room))
  {
    if q != [] {
      var rest := if |q[0].body| <= room then room - |q[0].body| else room;
      SkippedDistinct(q[1..], rest);
      FromQueue(q[1..], rest);
      var s := Skipped(q[1..], rest);
      forall j | 0 <= j < |s| ensures s[j].id != q[0].id {
        assert s[j] in s && s[j] in q[1..];
      }
    }
  }

  lemma RotateShape(q: seq<Event>)
    requires AllWellFormed(q) && DistinctIds(q)
    ensures AllWellFormed(Rotate(q)) && DistinctIds(Rotate(q))
  {
    assert forall e :: e in Rotate(q) ==> e in q;
  }

  lemma CutShape(q: seq<Event>, k: nat)
    requires AllWellFormed(q) && DistinctIds(q) && k < |q|
    ensures AllWellFormed([q[k]]) && AllWellFormed(q[k + 1..] + q[..k]) && DistinctIds(q[k + 1..] + q[..k])
  {
    var left := q[k + 1..] + q[..k];
    assert q[k] in q && forall e :: e in left ==> e in q;
    var n := |q| - k - 1;
    forall i, j | 0 <= i < j < |left| ensures left[i].id != left[j].id {
      assert left[i] == q[if i < n then i + k + 1 else i - n] && left[j] == q[if j < n then j + k + 1 else j - n];
    }
  }

  /** What a pull leaves is again a queue of distinct, well-formed events. */
  lemma KeepsQueueShape(q: seq<Event>, room: nat, batching: bool)
    requires AllWellFormed(q) && DistinctIds(q)
    ensures AllWellFormed(Pulled(q, room, batching)) && AllWellFormed(Left(q, room, batching))
    ensures DistinctIds(Left(q, room, batching))
  {
    if batching {
      FromQueue(q, room);
      SkippedDistinct(q, room);
      RotateShape(Skipped(q, room));
    } else {
      var k := FirstFit(q, room);
      if k < |q| { CutShape(q, k); } else { RotateShape(q); }
    }
  }

  lemma LeftShrinks(q: seq<Event>, room: nat, batching: bool)
    requires q != [] && |q[0].body| <= room
    ensures Pulled(q, room, batching) != []
    ensures |Left(q, room, batching)| < |q|
    ensures forall e :: e in Left(q, room, batching) ==> e in q
  {
    PullConserves(q, room, batching);
    FromQueue(q, room);
    var s := Skipped(q, room);
    assert forall e :: e in Rotate(s) ==> e in s;
    assert |Pulled(q, room, batching)| + |Left(q, room, batching)| == |q| by {
      assert |multiset(Pulled(q, room, batching)) + multiset(Left(q, room, batching))| == |multiset(q)|;
    }
  }

  /** The events delivered by pulling again and again with a buffer that any of them fits. */
  function Delivered(q: seq<Event>, room: nat, batching: bool): seq<Event>
    requires forall e :: e in q ==> |e.body| <= room
    decreases |q|
  {
    if q == [] then []
    else
      LeftShrinks(q, room, batching);
      Pulled(q, room, batching) + Delivered(Left(q, room, batching), room, batching)
  }

  /** Every queued event reaches user mode exactly once. */
  lemma {:induction false} EveryEventIsDelivered(q: seq<Event>, room: nat, batching: bool)
    requires forall e :: e in q ==> |e.body| <= room
    ensures multiset(Delivered(q, room, batching)) == multiset(q)
    decreases |q|
  {
    if q != [] {
      LeftShrinks(q, room, batching);
      PullConserves(q, room, batching);
      EveryEventIsDelivered(Left(q, room, batching), room, batching);
    }
  }

  // ------------------------------------------------------------------------------------------
  // The receiving side
  // ------------------------------------------------------------------------------------------

  function Bodies(q: seq<Event>): seq<seq<Byte>> {
    seq(|q|, k requires 0 <= k < |q| => q[k].body)
  }

  lemma {:induction false} HeadLength(q: seq<Event>, buffer: seq<Byte>, offset: nat)
    requires q != [] && WellFormed(q[0].body)
    requires offset + |Flatten(q)| <= |buffer| && buffer[offset..offset + |Flatten(q)|] == Flatten(q)
    ensures ReadU32(buffer, offset) == |q[0].body|
    ensures buffer[offset..offset + |q[0].body|] == q[0].body
    ensures |Flatten(q)| == |q[0].body| + |Flatten(q[1..])|
    ensures var next := offset + |q[0].body|; buffer[next..next + |Flatten(q[1..])|] == Flatten(q[1..])
  {
    SplitSlice(buffer, offset, q[0].body, Flatten(q[1..]));
    SameHead(buffer, offset, q[0].body);
  }

  lemma SameHead(buffer: seq<Byte>, offset: nat, s: seq<Byte>)
    requires 4 <= |s| && offset + |s| <= |buffer| && buffer[offset..offset + |s|] == s
    ensures ReadU32(buffer, offset) == ReadU32(s, 0)
  {
    assert s[0..4] == buffer[offset..offset + 4];
    SameField(s, 0, buffer, offset, 4);
  }

  lemma SplitSlice(buffer: seq<Byte>, offset: nat, s: seq<Byte>, t: seq<Byte>)
    requires offset + |s| + |t| <= |buffer| && buffer[offset..offset + |s| + |t|] == s + t
    ensures buffer[offset..offset + |s|] == s
    ensures buffer[offset + |s|..offset + |s| + |t|] == t
  {
    var f := buffer[offset..offset + |s| + |t|];
    assert buffer[offset..offset + |s|] == f[..|s|];
    assert buffer[offset + |s|..offset + |s| + |t|] == f[|s|..];
  }

  /** From `context` to `end` the buffer holds exactly the events `rest`. */
  ghost predicate Facing(buffer: seq<Byte>, context: nat, end: nat, rest: seq<Event>) {
    && AllWellFormed(rest)
    && context + |Flatten(rest)| == end <= |buffer|
    && buffer[context..end] == Flatten(rest)
  }

  lemma FacingStep(buffer: seq<Byte>, context: nat, end: nat, rest: seq<Event>)
    requires Facing(buffer, context, end, rest)
    ensures context < end <==> rest != []
    ensures rest != [] ==>
              && context + 4 <= |buffer|
              && ReadU32(buffer, context) == |rest[0].body| > 0
              && context + |rest[0].body| <= end
              && buffer[context..context + |rest[0].body|] == rest[0].body
              && Facing(buffer, context + |rest[0].body|, end, rest[1..])
  {
    if rest != [] { HeadLength(rest, buffer, context); }
  }

  /** The walk that counts the events: `currentNumberOfBytesTransferred` goes down to zero. */
  method CountEvents(buffer: seq<Byte>, transferred: nat, ghost events: seq<Event>) returns (count: nat)
    requires Facing(buffer, 0, transferred, events)
    ensures count == |events|
  {
    count := 0;
    var left: nat, context: nat := transferred, 0;
    ghost var rest := events;
    FacingStep(buffer, context, transferred, rest);
    while left != 0
      invariant context + left == transferred && count + |rest| == |events|
      invariant Facing(buffer, context, transferred, rest) && (left != 0 <==> rest != [])
      decreases |rest|
    {
      FacingStep(buffer, context, transferred, rest);
      var length := ReadU32(buffer, context);
      count := count + 1;
      left := left - length;
      context := context + length;
      rest := rest[1..];
      FacingStep(buffer, context, transferred, rest);
    }
  }

  /**
    DispatchBatchIoCallback: hands all events but the last to the thread pool, in order, and keeps
    the last for the current thread.
  */
  method DispatchBatch(buffer: seq<Byte>, transferred: nat, ghost events: seq<Event>)
    returns (queued: seq<seq<Byte>>, own: seq<Byte>)
    requires Facing(buffer, 0, transferred, events) && transferred != 0
    ensures queued + [own] == Bodies(events)
  {
    FacingStep(buffer, 0, transferred, events);
    var count := CountEvents(buffer, transferred, events);
    var context: nat := 0;
    queued, own := [], [];
    ghost var rest := events;
    while count != 0
      invariant count == |rest| && Facing(buffer, context, transferred, rest)
      invariant if count > 0 then queued + Bodies(rest) == Bodies(events) else queued + [own] == Bodies(events)
      decreases count
    {
      FacingStep(buffer, context, transferred, rest);
      assert Bodies(rest) == [rest[0].body] + Bodies(rest[1..]);
      var length := ReadU32(buffer, context);
      var event := buffer[context..context + length];
      count := count - 1;
      context := context + length;
      if count != 0 {
        queued := queued + [event];
      } else {
        own := event;
      }
      rest := rest[1..];
    }
  }

  /** One round trip: what the kernel queued is what the library dispatches, each event once and in order. */
  method PullAndDispatch(queue: NotifyQueue, buffer: array<Byte>, batching: bool)
    returns (queued: seq<seq<Byte>>, own: Option<seq<Byte>>)
    requires DistinctIds(queue.items) && AllWellFormed(queue.items)
    modifies queue, buffer
    ensures queue.items == Left(old(queue.items), buffer.Length, batching)
    ensures queued + (if own.Some? then [own.value] else [])
            == Bodies(Pulled(old(queue.items), buffer.Length, batching))
    ensures own.None? ==> queued == []
  {
    ghost var events := Pulled(queue.items, buffer.Length, batching);
    KeepsQueueShape(queue.items, buffer.Length, batching);
    var transferred := queue.PullEvents(buffer, buffer.Length, batching);
    queued, own := [], None;
    assert buffer[..][0..transferred] == Flatten(events);
    FacingStep(buffer[..], 0, transferred, events);
    if transferred != 0 {
      var last: seq<Byte>;
      queued, last := DispatchBatch(buffer[..], transferred, events);
      own := Some(last);
    }
  }
}
