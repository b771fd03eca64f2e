/**
  The life of batch buffers: pool threads pull events into a buffer, hand them out and give their
  references back in any order (dokan/dokan.c, dokan/dokan_pool.c). Every interlocked operation,
  every critical section and every access of the dispatching thread is a step of its own.
*/
module BatchBuffer {
  const POOL_CAPACITY: nat := 1024

  /** What the thread that popped the buffer does with it next. */
  datatype Dispatcher =
    | Pulling                                // waits in DeviceIoControl for the driver to fill it
    | Counting(left: nat)                    // walks the contexts, `left` of them to go
    | Dispatching(next: nat, remaining: nat) // walks again, handing out context `next`
    | Gone

  datatype EventState = Waiting | Running | Released

  /** One use of a buffer, from PopIoBatchBuffer to its return. */
  datatype Lease = Lease(
    address: nat,
    dispatcher: Dispatcher,
    events: seq<EventState>,
    returning: nat,  // threads that saw a count of zero or less and are about to give it back
    returned: nat)   // how often the buffer was given back

  /** `memory` maps an allocated buffer to its EventContextBatchCount. */
  datatype State = State(memory: map<nat, int>, pool: seq<nat>, leases: seq<Lease>, fault: bool)

  const INIT := State(map[], [], [], false)

  datatype Action =
    | Pop(block: nat)              // PopIoBatchBuffer; `block` is what malloc returns
    | Fail(lease: nat)             // the pull failed or transferred nothing
    | Fill(lease: nat, count: nat) // the pull transferred `count` events
    | Count(lease: nat)            // ++EventContextBatchCount
    | Start(lease: nat)            // the local copy of the count is taken
    | Dispatch(lease: nat)         // context `next` is read, then queued or kept
    | Release(lease: nat, event: nat) // InterlockedDecrement for a finished event
    | Return(lease: nat)           // the pool's critical section, or free

  /** The buffer is allocated and nobody else can pop it. */
  predicate Live(s: State, address: nat) { address in s.memory && address !in s.pool }

  predicate Enabled(s: State, a: Action) {
    match a
    case Pop(block) => s.pool == [] ==> block !in s.memory
    case Fail(l) => l < |s.leases| && s.leases[l].dispatcher == Pulling
    case Fill(l, n) => l < |s.leases| && s.leases[l].dispatcher == Pulling && n > 0
    case Count(l) => l < |s.leases| && s.leases[l].dispatcher.Counting? && s.leases[l].dispatcher.left > 0
    case Start(l) => l < |s.leases| && s.leases[l].dispatcher == Counting(0)
    case Dispatch(l) => l < |s.leases| && s.leases[l].dispatcher.Dispatching?
    case Release(l, k) => l < |s.leases| && k < |s.leases[l].events| && s.leases[l].events[k] == Running
    case Return(l) => l < |s.leases| && s.leases[l].returning > 0
  }

  /** Reads the count through the lease's pointer. */
  function CountOf(s: State, l: Lease): int { if l.address in s.memory then s.memory[l.address] else 0 }

  function Put(s: State, i: nat, l: Lease): State
    requires i < |s.leases|
  {
    s.(leases := s.leases[i := l], fault := s.fault || !Live(s, s.leases[i].address))
  }

  function PutCount(s: State, i: nat, l: Lease, count: int): State
    requires i < |s.leases|
  {
    Put(s, i, l).(memory := s.memory[l.address := count])
  }

  /** The second half of PushIoBatchBuffer. */
  function Decremented(l: Lease, count: int): Lease {
    if count > 0 then l else l.(returning := l.returning + 1)
  }

  function Step(s: State, a: Action): State
    requires Enabled(s, a)
  {
    match a
    case Pop(block) =>
      var n := |s.pool|;
      var address := if n > 0 then s.pool[n - 1] else block;
      s.(memory := s.memory[address := 0], pool := if n > 0 then s.pool[..n - 1] else [],
         leases := s.leases + [Lease(address, Pulling, [], 0, 0)])
    case Fail(i) =>
      var l := s.leases[i];
      var count := CountOf(s, l) - 1;
      PutCount(s, i, Decremented(l.(dispatcher := Gone), count), count)
    case Fill(i, n) =>
      Put(s, i, s.leases[i].(dispatcher := Counting(n), events := seq(n, _ => Waiting)))
    case Count(i) =>
      var l := s.leases[i];
      PutCount(s, i, l.(dispatcher := Counting(l.dispatcher.left - 1)), CountOf(s, l) + 1)
    case Start(i) =>
      var l := s.leases[i];
      Put(s, i, l.(dispatcher := if CountOf(s, l) <= 0 then Gone else Dispatching(0, CountOf(s, l))))
    case Dispatch(i) =>
      var l := s.leases[i];
      var d := l.dispatcher;
      Put(s, i, l.(events := if d.next < |l.events| then l.events[d.next := Running] else l.events,
                   dispatcher := if d.remaining <= 1 then Gone else Dispatching(d.next + 1, d.remaining - 1)))
    case Release(i, k) =>
      var l := s.leases[i];
      var count := CountOf(s, l) - 1;
      PutCount(s, i, Decremented(l.(events := l.events[k := Released]), count), count)
    case Return(i) =>
      var l := s.leases[i];
      var t := Put(s, i, l.(returning := l.returning - 1, returned := l.returned + 1));
      if |s.pool| < POOL_CAPACITY then t.(pool := s.pool + [l.address])
      else t.(memory := s.memory - {l.address})
  }

  predicate IsRun(s: State, run: seq<Action>)
    decreases |run|
  {
    run != [] ==> Enabled(s, run[0]) && IsRun(Step(s, run[0]), run[1..])
  }

  function After(s: State, run: seq<Action>): State
    requires IsRun(s, run)
    decreases |run|
  {
    if run == [] then s else After(Step(s, run[0]), run[1..])
  }

  // ------------------------------------------------------------------------------------------
  // The invariant
  // ------------------------------------------------------------------------------------------

  /** Events that still hold their reference to the buffer. */
  function Unreleased(events: seq<EventState>): (n: nat)
    ensures n <= |events|
  {
    if events == [] then 0 else (if events[0] == Released then 0 else 1) + Unreleased(events[1..])
  }

  lemma {:induction false} UnreleasedUpdate(events: seq<EventState>, k: nat, e: EventState)
    requires k < |events|
    ensures Unreleased(events[k := e])
         == Unreleased(events) - (if events[k] == Released then 0 else 1) + (if e == Released then 0 else 1)
  {
    if k > 0 {
      UnreleasedUpdate(events[1..], k - 1, e);
      assert events[k := e][1..] == events[1..][k - 1 := e];
    } else {
      assert events[k := e][1..] == events[1..];
    }
  }

  lemma {:induction false} UnreleasedAny(events: seq<EventState>)
    ensures Unreleased(events) == 0 <==> forall k :: 0 <= k < |events| ==> events[k] == Released
    ensures (forall k :: 0 <= k < |events| ==> events[k] != Released) ==> Unreleased(events) == |events|
  {
    if events != [] {
      UnreleasedAny(events[1..]);
      assert forall k :: 0 < k < |events| ==> events[k] == events[1..][k - 1];
      assert forall k :: 0 <= k < |events| - 1 ==> events[1..][k] == events[k + 1];
    }
  }

  /** The thread walking the buffer has handed out the events before `next` and none after. */
  predicate WalkOk(l: Lease) {
    match l.dispatcher
    case Pulling => l.events == []
    case Counting(left) =>
      && |l.events| > 0 && left <= |l.events|
      && (forall k :: 0 <= k < |l.events| ==> l.events[k] == Waiting)
    case Dispatching(next, remaining) =>
      && remaining > 0 && next + remaining == |l.events|
      && (forall k :: 0 <= k < next ==> l.events[k] != Waiting)
      && (forall k :: next <= k < |l.events| ==> l.events[k] == Waiting)
    case Gone => forall k :: 0 <= k < |l.events| ==> l.events[k] != Waiting
  }

  /** The value of the interlocked counter while the lease is open. */
  function ExpectedCount(l: Lease): int {
    match l.dispatcher
    case Pulling => 0
    case Counting(left) => |l.events| - left
    case Dispatching(_, _) => Unreleased(l.events)
    case Gone => if l.events == [] then -1 else Unreleased(l.events)
  }

  predicate Finished(l: Lease) { l.dispatcher == Gone && Unreleased(l.events) == 0 }

  predicate LeaseOk(l: Lease) {
    WalkOk(l) && l.returning + l.returned == if Finished(l) then 1 else 0
  }

  predicate Open(l: Lease) { l.returned == 0 }

  /** An open lease owns its buffer. */
  predicate Owned(s: State, l: Lease) {
    Open(l) ==> Live(s, l.address) && s.memory[l.address] == ExpectedCount(l)
  }

  predicate PoolOk(s: State) {
    && |s.pool| <= POOL_CAPACITY
    && (forall i :: 0 <= i < |s.pool| ==> s.pool[i] in s.memory)
    && (forall i, j :: 0 <= i < j < |s.pool| ==> s.pool[i] != s.pool[j])
  }

  predicate Apart(leases: seq<Lease>) {
    forall i, j :: 0 <= i < j < |leases| && Open(leases[i]) && Open(leases[j]) ==>
      leases[i].address != leases[j].address
  }

  predicate Inv(s: State) {
    && !s.fault && PoolOk(s) && Apart(s.leases)
    && (forall i :: 0 <= i < |s.leases| ==> LeaseOk(s.leases[i]))
    && (forall i :: 0 <= i < |s.leases| ==> Owned(s, s.leases[i]))
  }

  /** A thread that may still touch the buffer has its lease open. */
  predicate Touched(l: Lease) {
    l.dispatcher != Gone || l.returning > 0 || exists k :: 0 <= k < |l.events| && l.events[k] == Running
  }

  lemma TouchedIsOpen(l: Lease)
    requires LeaseOk(l) && Touched(l)
    ensures Open(l)
  {
    UnreleasedAny(l.events);
  }

  /** A step of the dispatching thread, on the lease alone. */
  lemma DispatcherStep(s: State, a: Action)
    requires Enabled(s, a) && (a.Fail? || a.Fill? || a.Count? || a.Start? || a.Dispatch?)
    requires LeaseOk(s.leases[a.lease]) && Owned(s, s.leases[a.lease])
    ensures var l := Step(s, a).leases[a.lease];
            LeaseOk(l) && Open(l) && CountOf(Step(s, a), l) == ExpectedCount(l)
  {
    var l := s.leases[a.lease];
    UnreleasedAny(l.events);
    match a {
      case Fill(_, n) => UnreleasedAny(seq(n, _ => Waiting));
      case Dispatch(_) => DispatchOne(s, a);
      case _ =>
    }
  }

  lemma DispatchOne(s: State, a: Action)
    requires Enabled(s, a) && a.Dispatch? && LeaseOk(s.leases[a.lease]) && Owned(s, s.leases[a.lease])
    ensures var l := Step(s, a).leases[a.lease];
            LeaseOk(l) && Open(l) && CountOf(Step(s, a), l) == ExpectedCount(l)
  {
    var l := s.leases[a.lease];
    UnreleasedAny(l.events);
    UnreleasedUpdate(l.events, l.dispatcher.next, Running);
  }

  /** A finished event gives its reference back. */
  lemma ReleaseStep(s: State, a: Action)
    requires Enabled(s, a) && a.Release?
    requires LeaseOk(s.leases[a.lease]) && Owned(s, s.leases[a.lease])
    ensures var l := Step(s, a).leases[a.lease];
            LeaseOk(l) && Open(l) && CountOf(Step(s, a), l) == ExpectedCount(l)
  {
    var l := s.leases[a.lease];
    assert Touched(l);
    TouchedIsOpen(l);
    var events := l.events[a.event := Released];
    UnreleasedUpdate(l.events, a.event, Released);
    UnreleasedAny(events);
    if l.dispatcher.Dispatching? {
      assert events[l.dispatcher.next] == Waiting;
    }
  }

  /** The lease after each step other than Pop. */
  lemma AdvancedLeaseOk(s: State, a: Action, i: nat)
    requires Inv(s) && Enabled(s, a) && !a.Pop? && i == a.lease
    ensures Touched(s.leases[i])
    ensures LeaseOk(Step(s, a).leases[i]) && Step(s, a).leases[i].address == s.leases[i].address
    ensures !a.Return? ==>
              var l := Step(s, a).leases[i];
              Open(l) && CountOf(Step(s, a), s.leases[i]) == ExpectedCount(l)
  {
    assert LeaseOk(s.leases[i]) && Owned(s, s.leases[i]);
    if a.Release? {
      ReleaseStep(s, a);
    } else if !a.Return? {
      DispatcherStep(s, a);
    }
  }

  /** A popped buffer is in no open lease and no longer in the pool. */
  lemma PopOwned(s: State, a: Action, i: nat)
    requires Inv(s) && Enabled(s, a) && a.Pop? && i < |Step(s, a).leases|
    ensures var t := Step(s, a); LeaseOk(t.leases[i]) && Owned(t, t.leases[i])
  {
    if i < |s.leases| { assert LeaseOk(s.leases[i]) && Owned(s, s.leases[i]); }
  }

  lemma PopPool(s: State, a: Action)
    requires PoolOk(s) && Enabled(s, a) && a.Pop?
    ensures PoolOk(Step(s, a))
  {
  }

  lemma PopApart(s: State, a: Action)
    requires Inv(s) && Enabled(s, a) && a.Pop?
    ensures Apart(Step(s, a).leases) && !Step(s, a).fault
  {
    forall i | 0 <= i < |s.leases| && Open(s.leases[i])
      ensures s.leases[i].address != Step(s, a).leases[|s.leases|].address
    {
      assert Owned(s, s.leases[i]);
    }
  }

  lemma KeepsPop(s: State, a: Action)
    requires Inv(s) && Enabled(s, a) && a.Pop?
    ensures Inv(Step(s, a))
  {
    PopPool(s, a);
    PopApart(s, a);
    forall i: nat | i < |Step(s, a).leases|
      ensures LeaseOk(Step(s, a).leases[i]) && Owned(Step(s, a), Step(s, a).leases[i])
    {
      PopOwned(s, a, i);
    }
  }

  /** The other leases neither change nor lose their buffers. */
  lemma OthersKeep(s: State, a: Action, j: nat)
    requires Inv(s) && Enabled(s, a) && !a.Pop? && j < |s.leases| && j != a.lease
    ensures Step(s, a).leases[j] == s.leases[j] && Owned(Step(s, a), s.leases[j])
  {
    var i := a.lease;
    assert Owned(s, s.leases[i]) && Owned(s, s.leases[j]);
    AdvancedLeaseOk(s, a, i);
    TouchedIsOpen(s.leases[i]);
  }

  lemma KeepsOther(s: State, a: Action)
    requires Inv(s) && Enabled(s, a) && !a.Pop?
    ensures Inv(Step(s, a))
  {
    var t, i := Step(s, a), a.lease;
    AdvancedLeaseOk(s, a, i);
    TouchedIsOpen(s.leases[i]);
    assert Owned(s, s.leases[i]);
    forall j | 0 <= j < |t.leases| ensures LeaseOk(t.leases[j]) && Owned(t, t.leases[j]) {
      if j != i { OthersKeep(s, a, j); }
    }
  }

  lemma {:induction false} KeepsRun(s: State, run: seq<Action>)
    requires Inv(s) && IsRun(s, run)
    ensures Inv(After(s, run))
    decreases |run|
  {
    if run != [] {
      if run[0].Pop? { KeepsPop(s, run[0]); } else { KeepsOther(s, run[0]); }
      KeepsRun(Step(s, run[0]), run[1..]);
    }
  }

  // ------------------------------------------------------------------------------------------
  // What holds in every run
  // ------------------------------------------------------------------------------------------

  /** No thread ever touches a buffer that was freed or can be popped by another thread. */
  lemma {:induction false} NoAccessAfterReturn(run: seq<Action>)
    requires IsRun(INIT, run)
    ensures !After(INIT, run).fault
    ensures forall l :: l in After(INIT, run).leases && Touched(l) ==> Live(After(INIT, run), l.address)
  {
    KeepsRun(INIT, run);
    var s := After(INIT, run);
    forall l | l in s.leases && Touched(l) ensures Live(s, l.address) {
      var i :| 0 <= i < |s.leases| && s.leases[i] == l;
      assert LeaseOk(s.leases[i]) && Owned(s, s.leases[i]);
      TouchedIsOpen(l);
    }
  }

  /** The counter of a buffer whose events are being handed out or processed is the number of unreleased events. */
  lemma {:induction false} CountIsUnreleased(run: seq<Action>, l: Lease)
    requires IsRun(INIT, run) && l in After(INIT, run).leases
    requires Open(l) && l.events != [] && !l.dispatcher.Counting?
    ensures l.address in After(INIT, run).memory
    ensures After(INIT, run).memory[l.address] == Unreleased(l.events)
  {
    KeepsRun(INIT, run);
    var s := After(INIT, run);
    var i :| 0 <= i < |s.leases| && s.leases[i] == l;
    assert LeaseOk(s.leases[i]) && Owned(s, s.leases[i]);
  }

  /** A buffer is given back at most once per lease, never early, and somebody gives it back. */
  lemma {:induction false} ReturnedExactlyOnce(run: seq<Action>, l: Lease)
    requires IsRun(INIT, run) && l in After(INIT, run).leases
    ensures l.returning + l.returned <= 1
    ensures l.returning + l.returned == 1 <==>
              l.dispatcher == Gone && forall k :: 0 <= k < |l.events| ==> l.events[k] == Released
  {
    KeepsRun(INIT, run);
    var s := After(INIT, run);
    var i :| 0 <= i < |s.leases| && s.leases[i] == l;
    assert LeaseOk(s.leases[i]);
    UnreleasedAny(l.events);
  }

  /** The pool never holds a buffer twice, nor one in use, and two leases never share a buffer. */
  lemma {:induction false} PoolIsSound(run: seq<Action>)
    requires IsRun(INIT, run)
    ensures PoolOk(After(INIT, run)) && Apart(After(INIT, run).leases)
    ensures forall l :: l in After(INIT, run).leases && Open(l) ==> l.address !in After(INIT, run).pool
  {
    KeepsRun(INIT, run);
    var s := After(INIT, run);
    forall l | l in s.leases && Open(l) ensures l.address !in s.pool {
      var i :| 0 <= i < |s.leases| && s.leases[i] == l;
      assert Owned(s, s.leases[i]);
    }
  }

  // ------------------------------------------------------------------------------------------
  // No buffer leaks
  // ------------------------------------------------------------------------------------------

  predicate InUse(s: State, a: nat, i: nat) { i < |s.leases| && Open(s.leases[i]) && s.leases[i].address == a }

  /** An allocated buffer is in the pool or in use. */
  ghost predicate Accounted(s: State, a: nat) {
    a in s.memory ==> a in s.pool || exists i: nat :: InUse(s, a, i)
  }

  lemma PopAccounts(s: State, a: Action, b: nat)
    requires Inv(s) && Enabled(s, a) && a.Pop? && Accounted(s, b)
    ensures Accounted(Step(s, a), b)
  {
    var t, n := Step(s, a), |s.leases|;
    if b in t.memory {
      if b == t.leases[n].address {
        assert InUse(t, b, n);
      } else if i: nat :| InUse(s, b, i) {
        assert InUse(t, b, i);
      }
    }
  }

  /** A buffer that is given back is kept for reuse exactly when the pool has room for it, and freed otherwise. */
  lemma ReturnedBuffer(s: State, a: Action)
    requires Inv(s) && Enabled(s, a) && a.Return?
    ensures var t, b := Step(s, a), s.leases[a.lease].address;
            && (b in t.pool <==> |s.pool| < POOL_CAPACITY) && (b in t.memory <==> |s.pool| < POOL_CAPACITY)
            && forall c :: c != b ==> (c in t.pool <==> c in s.pool) && (c in t.memory <==> c in s.memory)
  {
    var l := s.leases[a.lease];
    assert Owned(s, l) && LeaseOk(l);
    TouchedIsOpen(l);
  }

  /** A step on a lease that stays open. */
  lemma UseAccounts(s: State, a: Action, b: nat)
    requires Inv(s) && Enabled(s, a) && !a.Pop? && !a.Return? && Accounted(s, b)
    ensures Accounted(Step(s, a), b)
  {
    AdvancedLeaseOk(s, a, a.lease);
    var t, l := Step(s, a), s.leases[a.lease];
    TouchedIsOpen(l);
    assert Owned(s, l) && InUse(t, l.address, a.lease);
    if b != l.address && b in t.memory && b !in t.pool {
      var i: nat :| InUse(s, b, i);
      assert InUse(t, b, i);
    }
  }

  lemma ReturnAccounts(s: State, a: Action, b: nat)
    requires Inv(s) && Enabled(s, a) && a.Return? && Accounted(s, b)
    ensures Accounted(Step(s, a), b)
  {
    var t, l := Step(s, a), s.leases[a.lease];
    if b in t.memory && b !in t.pool {
      assert b in s.memory && b !in s.pool;
      var i: nat :| InUse(s, b, i);
      if i != a.lease { assert InUse(t, b, i); }
    }
  }

  lemma {:induction false} AccountedFrom(s: State, run: seq<Action>, b: nat)
    requires Inv(s) && IsRun(s, run) && Accounted(s, b)
    ensures Accounted(After(s, run), b)
    decreases |run|
  {
    if run != [] {
      var a := run[0];
      if a.Pop? { KeepsPop(s, a); } else { KeepsOther(s, a); }
      if a.Pop? { PopAccounts(s, a, b); } else if a.Return? { ReturnAccounts(s, a, b); } else { UseAccounts(s, a, b); }
      AccountedFrom(Step(s, a), run[1..], b);
    }
  }

  /** In every interleaving each buffer that was allocated and not freed is in the pool, or in use. */
  lemma {:induction false} NoBufferLeaks(run: seq<Action>, b: nat)
    requires IsRun(INIT, run) && b in After(INIT, run).memory
    ensures b in After(INIT, run).pool || exists i: nat :: InUse(After(INIT, run), b, i)
  {
    AccountedFrom(INIT, run, b);
  }

  // ------------------------------------------------------------------------------------------
  // No buffer is stuck
  // ------------------------------------------------------------------------------------------

  /** Steps that the threads of a lease can still take. */
  function Work(l: Lease): nat {
    match l.dispatcher
    case Pulling => 2
    case Counting(left) => left + 2 * |l.events| + 2
    case Dispatching(_, remaining) => remaining + Unreleased(l.events) + 1
    case Gone => Unreleased(l.events) + (if l.returned > 0 then 0 else 1)
  }

  /** While a buffer is not given back, one of its threads can take a step, and there is less to do afterwards. */
  lemma NextStep(s: State, i: nat) returns (a: Action)
    requires Inv(s) && i < |s.leases| && Open(s.leases[i])
    ensures !a.Pop? && a.lease == i && Enabled(s, a) && Work(Step(s, a).leases[i]) < Work(s.leases[i])
  {
    var l := s.leases[i];
    assert LeaseOk(l) && Owned(s, l);
    UnreleasedAny(l.events);
    match l.dispatcher
    case Pulling =>
      a := Fail(i);
    case Counting(left) =>
      a := if left > 0 then Count(i) else Start(i);
    case Dispatching(next, _) =>
      a := Dispatch(i);
      UnreleasedUpdate(l.events, next, Running);
    case Gone =>
      if Unreleased(l.events) == 0 {
        a := Return(i);
      } else {
        var k :| 0 <= k < |l.events| && l.events[k] != Released;
        a := Release(i, k);
        UnreleasedUpdate(l.events, k, Released);
      }
  }

  /** From every reachable state, every buffer in use can be given back by the steps of its own threads. */
  lemma {:induction false} CanFinish(s: State, i: nat) returns (run: seq<Action>)
    requires Inv(s) && i < |s.leases|
    ensures IsRun(s, run) && i < |After(s, run).leases| && After(s, run).leases[i].returned == 1
    decreases Work(s.leases[i])
  {
    if !Open(s.leases[i]) {
      assert LeaseOk(s.leases[i]);
      run := [];
    } else {
      var a := NextStep(s, i);
      KeepsOther(s, a);
      var rest := CanFinish(Step(s, a), i);
      run := [a] + rest;
      assert run[1..] == rest;
    }
  }

  lemma BuffersCanBeReturned(before: seq<Action>, i: nat) returns (run: seq<Action>)
    requires IsRun(INIT, before) && i < |After(INIT, before).leases|
    ensures IsRun(After(INIT, before), run)
    ensures var t := After(After(INIT, before), run); i < |t.leases| && t.leases[i].returned == 1
  {
    KeepsRun(INIT, before);
    run := CanFinish(After(INIT, before), i);
  }
}
