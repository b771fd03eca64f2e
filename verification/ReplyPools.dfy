/**
  Reply buffers: small replies come from a pool, some large ones from pools of four more sizes, the
  rest from the heap; a freed buffer goes back by the size that was noted (dokan/dokan.c,
  dokan/dokan_pool.c). Pools are used inside critical sections, so each operation is one step.
*/
module ReplyPools {
  import opened Options
  import opened Bytes
  import opened Structures

  const CLASSES: nat := 5

  /** The buffer bytes of each class. */
  function ClassBuffer(i: nat): nat
    requires i < CLASSES
  {
    [4096, 16 * 1024, 32 * 1024, 64 * 1024, 128 * 1024][i]
  }

  function ClassSize(i: nat): nat
    requires i < CLASSES
  {
    EVENT_INFORMATION_BUFFER + ClassBuffer(i)
  }

  function Capacity(i: nat): nat { if i == 0 then 1024 else 128 }

  /** DispatchGetEventInformationLength, in ULONG arithmetic. */
  function EventInformationLength(n: nat): nat
    requires n <= MAXULONG
  {
    var size := (EVENT_INFORMATION_BUFFER + n) % U32_RANGE;
    if size < SIZEOF_EVENT_INFORMATION then SIZEOF_EVENT_INFORMATION else size
  }

  /** What a reply of `n` bytes needs. */
  function Needed(n: nat): nat {
    if EVENT_INFORMATION_BUFFER + n < SIZEOF_EVENT_INFORMATION then SIZEOF_EVENT_INFORMATION
      else EVENT_INFORMATION_BUFFER + n
  }

  /** The pool that serves a reply of `n` bytes. */
  function ClassFor(n: nat, extra: bool): (c: Option<nat>)
    ensures c.Some? ==> c.value < CLASSES && n <= ClassBuffer(c.value)
  {
    if n <= 4096 then Some(0)
    else if !extra then None
    else if n <= 16 * 1024 then Some(1)
    else if n <= 32 * 1024 then Some(2)
    else if n <= 64 * 1024 then Some(3)
    else if n <= 128 * 1024 then Some(4)
    else None
  }

  /** The pool to which FreeIoEventResult returns a buffer of a given size. */
  function ClassOfSize(size: nat): (c: Option<nat>)
    ensures c.Some? ==> c.value < CLASSES
  {
    if size <= ClassSize(0) then Some(0)
    else if size <= ClassSize(1) then Some(1)
    else if size <= ClassSize(2) then Some(2)
    else if size <= ClassSize(3) then Some(3)
    else if size <= ClassSize(4) then Some(4)
    else None
  }

  /** A buffer handed out: EventResultSize and PoolAllocated of the event, and the length asked for. */
  datatype Loan = Loan(size: nat, pooled: bool, asked: nat)

  /** `blocks` are the allocated buffers with their true sizes. */
  datatype State = State(pools: seq<seq<nat>>, blocks: map<nat, nat>, lent: map<nat, Loan>)

  const INIT := State([[], [], [], [], []], map[], map[])

  function Take(s: State, i: nat, block: nat): (State, nat)
    requires i < CLASSES == |s.pools|
  {
    var n := |s.pools[i]|;
    if n > 0 then (s.(pools := s.pools[i := s.pools[i][..n - 1]]), s.pools[i][n - 1])
    else (s.(blocks := s.blocks[block := ClassSize(i)]), block)
  }

  /** CreateDispatchCommon; `block` is what malloc returns if it is called. */
  function Allocate(s: State, n: nat, extra: bool, block: nat): (State, nat)
    requires |s.pools| == CLASSES && n <= MAXULONG
  {
    var c := ClassFor(n, extra);
    if c.Some? then
      var (t, address) := Take(s, c.value, block);
      (t.(lent := t.lent[address := Loan(ClassSize(c.value), true, n)]), address)
    else
      var size := EventInformationLength(n);
      (s.(blocks := s.blocks[block := size], lent := s.lent[block := Loan(size, false, n)]), block)
  }

  /** FreeIoEventResult of a buffer that is lent. */
  function Free(s: State, address: nat): State
    requires |s.pools| == CLASSES && address in s.lent
  {
    var loan := s.lent[address];
    var t := s.(lent := s.lent - {address});
    var c := ClassOfSize(loan.size);
    if loan.pooled && c == None then t // assert(FALSE)
    else if loan.pooled && |s.pools[c.value]| < Capacity(c.value)
    then t.(pools := s.pools[c.value := s.pools[c.value] + [address]])
    else t.(blocks := s.blocks - {address})
  }

  class Pools {
    var state: State

    constructor ()
      ensures state == INIT
    {
      state := INIT;
    }

    method CreateDispatchCommon(n: nat, extra: bool, block: nat) returns (address: nat, size: nat, pooled: bool)
      requires Inv(state) && n <= MAXULONG && block !in state.blocks
      modifies this
      ensures (state, address) == Allocate(old(state), n, extra, block) && Inv(state)
      ensures address in state.lent && state.lent[address] == Loan(size, pooled, n)
    {
      var result: Option<nat> := None;
      if n <= 4096 {
        result := Pop(0, block);
        size, pooled := ClassSize(0), true;
      } else {
        if extra {
          if n <= 16 * 1024 {
            result := Pop(1, block);
            size, pooled := ClassSize(1), true;
          } else if n <= 32 * 1024 {
            result := Pop(2, block);
            size, pooled := ClassSize(2), true;
          } else if n <= 64 * 1024 {
            result := Pop(3, block);
            size, pooled := ClassSize(3), true;
          } else if n <= 128 * 1024 {
            result := Pop(4, block);
            size, pooled := ClassSize(4), true;
          }
        }
        if result == None {
          size, pooled := EventInformationLength(n), false;
          state := state.(blocks := state.blocks[block := size]);
          result := Some(block);
        }
      }
      address := result.value;
      state := state.(lent := state.lent[address := Loan(size, pooled, n)]);
      KeepsAllocate(old(state), n, extra, block);
    }

    /** The Pop functions. */
    method Pop(i: nat, block: nat) returns (address: Option<nat>)
      requires i < CLASSES == |state.pools|
      modifies this
      ensures address.Some? && (state, address.value) == Take(old(state), i, block)
    {
      var n := |state.pools[i]|;
      if n > 0 {
        address := Some(state.pools[i][n - 1]);
        state := state.(pools := state.pools[i := state.pools[i][..n - 1]]);
      } else {
        state := state.(blocks := state.blocks[block := ClassSize(i)]);
        address := Some(block);
      }
    }

    method FreeIoEventResult(address: nat, size: nat, pooled: bool)
      requires Inv(state) && address in state.lent
      requires size == state.lent[address].size && pooled == state.lent[address].pooled
      modifies this
      ensures state == Free(old(state), address) && Inv(state)
    {
      KeepsFree(state, address);
      SizeFindsClass(state, address);
      state := state.(lent := state.lent - {address});
      if !pooled {
        state := state.(blocks := state.blocks - {address});
      } else if size <= ClassSize(0) {
        Push(0, address);
      } else if size <= ClassSize(1) {
        Push(1, address);
      } else if size <= ClassSize(2) {
        Push(2, address);
      } else if size <= ClassSize(3) {
        Push(3, address);
      } else {
        Push(4, address);
      }
    }

    /** The Push functions: a full pool frees the buffer. */
    method Push(i: nat, address: nat)
      requires i < CLASSES == |state.pools|
      modifies this
      ensures state == if |old(state).pools[i]| < Capacity(i)
                       then old(state).(pools := old(state).pools[i := old(state).pools[i] + [address]])
                       else old(state).(blocks := old(state).blocks - {address})
    {
      if |state.pools[i]| < Capacity(i) {
        state := state.(pools := state.pools[i := state.pools[i] + [address]]);
      } else {
        state := state.(blocks := state.blocks - {address});
      }
    }
  }

  // ------------------------------------------------------------------------------------------
  // What every sequence of operations keeps
  // ------------------------------------------------------------------------------------------

  predicate Distinct(pool: seq<nat>) { forall k, l :: 0 <= k < l < |pool| ==> pool[k] != pool[l] }

  /** Pool `i` holds distinct buffers of its size that are not lent. */
  predicate PoolOk(s: State, i: nat)
    requires i < CLASSES == |s.pools|
  {
    && |s.pools[i]| <= Capacity(i) && Distinct(s.pools[i])
    && forall k :: 0 <= k < |s.pools[i]| ==> Idle(s, i, s.pools[i][k])
  }

  predicate Idle(s: State, i: nat, a: nat)
    requires i < CLASSES
  {
    a in s.blocks && s.blocks[a] == ClassSize(i) && a !in s.lent
  }

  /** A lent buffer has the size that was noted, and a pooled one the size of its class. */
  predicate LoanOk(s: State, a: nat)
    requires a in s.lent
  {
    && a in s.blocks && s.blocks[a] == s.lent[a].size
    && (s.lent[a].pooled ==>
          var c := ClassFor(s.lent[a].asked, true);
          c.Some? && s.lent[a].size == ClassSize(c.value))
    && (!s.lent[a].pooled ==> s.lent[a].asked <= MAXULONG && s.lent[a].size == EventInformationLength(s.lent[a].asked))
  }

  predicate Inv(s: State) {
    && |s.pools| == CLASSES
    && (forall i :: 0 <= i < CLASSES ==> PoolOk(s, i))
    && (forall a :: a in s.lent ==> LoanOk(s, a))
  }

  lemma ClassRoundTrip(i: nat)
    requires i < CLASSES
    ensures ClassOfSize(ClassSize(i)) == Some(i)
  {
  }

  /** The noted size leads a pooled buffer back to a class. */
  lemma SizeFindsClass(s: State, a: nat)
    requires Inv(s) && a in s.lent
    ensures s.lent[a].pooled ==>
              var c := ClassOfSize(s.lent[a].size);
              c.Some? && s.blocks[a] == ClassSize(c.value)
  {
    assert LoanOk(s, a);
    if s.lent[a].pooled {
      ClassRoundTrip(ClassFor(s.lent[a].asked, true).value);
    }
  }

  /** Two pools never hold the same buffer: their sizes differ. */
  lemma PoolsApart(s: State, i: nat, k: nat, j: nat, l: nat)
    requires Inv(s) && i < CLASSES && j < CLASSES && k < |s.pools[i]| && l < |s.pools[j]|
             && s.pools[i][k] == s.pools[j][l]
    ensures i == j && k == l
  {
    assert PoolOk(s, i) && PoolOk(s, j);
    assert Idle(s, i, s.pools[i][k]) && Idle(s, j, s.pools[j][l]);
    ClassRoundTrip(i);
    ClassRoundTrip(j);
  }

  lemma KeepsTake(s: State, i: nat, block: nat, n: nat)
    requires Inv(s) && i < CLASSES && block !in s.blocks && ClassFor(n, true) == Some(i)
    ensures var (t, a) := Take(s, i, block);
            a !in s.lent && Inv(t.(lent := t.lent[a := Loan(ClassSize(i), true, n)]))
  {
    var (t, a) := Take(s, i, block);
    var u := t.(lent := t.lent[a := Loan(ClassSize(i), true, n)]);
    var m := |s.pools[i]|;
    assert PoolOk(s, i);
    if m > 0 {
      assert Idle(s, i, s.pools[i][m - 1]);
    } else {
      assert block in s.lent ==> LoanOk(s, block);
    }
    forall j | 0 <= j < CLASSES ensures PoolOk(u, j) {
      assert PoolOk(s, j);
      forall k | 0 <= k < |u.pools[j]| ensures Idle(u, j, u.pools[j][k]) {
        assert Idle(s, j, s.pools[j][k]) && u.pools[j][k] == s.pools[j][k];
        ClassRoundTrip(i);
        ClassRoundTrip(j);
      }
    }
    forall b | b in u.lent ensures LoanOk(u, b) {
      if b != a { assert LoanOk(s, b); }
    }
  }

  lemma KeepsAllocate(s: State, n: nat, extra: bool, block: nat)
    requires Inv(s) && n <= MAXULONG && block !in s.blocks
    ensures Inv(Allocate(s, n, extra, block).0)
  {
    var c := ClassFor(n, extra);
    if c.Some? {
      KeepsTake(s, c.value, block, n);
    } else {
      var t := Allocate(s, n, extra, block).0;
      forall j | 0 <= j < CLASSES ensures PoolOk(t, j) {
        assert PoolOk(s, j);
        forall k | 0 <= k < |t.pools[j]| ensures Idle(t, j, t.pools[j][k]) { assert Idle(s, j, s.pools[j][k]); }
      }
      forall b | b in t.lent ensures LoanOk(t, b) {
        if b != block { assert LoanOk(s, b); }
      }
    }
  }

  lemma KeepsFree(s: State, a: nat)
    requires Inv(s) && a in s.lent
    ensures Inv(Free(s, a))
  {
    var t := Free(s, a);
    SizeFindsClass(s, a);
    assert LoanOk(s, a);
    forall j | 0 <= j < CLASSES ensures PoolOk(t, j) {
      assert PoolOk(s, j);
      forall k | 0 <= k < |s.pools[j]|
        ensures s.pools[j][k] != a && Idle(t, j, s.pools[j][k])
      {
        assert Idle(s, j, s.pools[j][k]);
      }
      assert t.pools[j] == s.pools[j] || t.pools[j] == s.pools[j] + [a];
    }
    forall b | b in t.lent ensures LoanOk(t, b) { assert LoanOk(s, b); }
  }

  datatype Action = Alloc(n: nat, extra: bool, block: nat) | Release(address: nat)

  predicate Enabled(s: State, a: Action) {
    |s.pools| == CLASSES &&
    match a
    case Alloc(n, _, block) => n <= MAXULONG && block !in s.blocks
    case Release(address) => address in s.lent
  }

  function Step(s: State, a: Action): State
    requires Enabled(s, a)
  {
    match a
    case Alloc(n, extra, block) => Allocate(s, n, extra, block).0
    case Release(address) => Free(s, address)
  }

  predicate IsRun(s: State, run: seq<Action>)
    decreases |run|
  {
    run != [] ==> Enabled(s, run[0]) && IsRun(Step(s, run[0]), run[1..])
  }

  function After(s: State, run: seq<Action>): State
    requires IsRun(s, run)
    decreases |run|
  {
    if run == [] then s else After(Step(s, run[0]), run[1..])
  }

  lemma {:induction false} KeepsRun(s: State, run: seq<Action>)
    requires Inv(s) && IsRun(s, run)
    ensures Inv(After(s, run))
    decreases |run|
  {
    if run != [] {
      match run[0] {
        case Alloc(n, extra, block) => KeepsAllocate(s, n, extra, block);
        case Release(address) => KeepsFree(s, address);
      }
      KeepsRun(Step(s, run[0]), run[1..]);
    }
  }

  /**
    After any run, every pool holds only buffers of its size, none of them lent, none in two places, within its
    capacity.
  */
  lemma {:induction false} PoolsHoldTheirClass(run: seq<Action>, i: nat, k: nat)
    requires IsRun(INIT, run) && i < CLASSES
    ensures var s := After(INIT, run);
            && |s.pools| == CLASSES && |s.pools[i]| <= Capacity(i) && Distinct(s.pools[i])
            && (k < |s.pools[i]| ==> Idle(s, i, s.pools[i][k]))
  {
    KeepsRun(INIT, run);
    assert PoolOk(After(INIT, run), i);
  }

  /** Only the first class is for everybody, and the class is the smallest that holds the reply. */
  lemma ClassIsSmallest(n: nat, extra: bool, i: nat)
    requires i < CLASSES
    ensures ClassFor(n, extra) == Some(i) <==>
              && n <= ClassBuffer(i) && (i == 0 || (extra && n > ClassBuffer(i - 1)))
    ensures ClassFor(n, extra) == None <==> n > ClassBuffer(if extra then CLASSES - 1 else 0)
  {
  }

  predicate InPool(s: State, a: nat, i: nat) { i < |s.pools| && a in s.pools[i] }

  /** An allocated buffer is lent or in a pool. */
  ghost predicate Accounted(s: State, a: nat) { a in s.blocks ==> a in s.lent || exists i: nat :: InPool(s, a, i) }

  lemma AllocAccounts(s: State, n: nat, extra: bool, block: nat, a: nat)
    requires Inv(s) && n <= MAXULONG && Accounted(s, a)
    ensures Accounted(Allocate(s, n, extra, block).0, a)
  {
    var (t, address) := Allocate(s, n, extra, block);
    if a in t.blocks && a != address && a !in t.lent {
      var i: nat :| InPool(s, a, i);
      var k :| 0 <= k < |s.pools[i]| && s.pools[i][k] == a;
      assert t.pools[i] == s.pools[i] || (k < |t.pools[i]| && t.pools[i][k] == a);
      assert InPool(t, a, i);
    }
  }

  lemma FreeAccounts(s: State, address: nat, a: nat)
    requires Inv(s) && address in s.lent && Accounted(s, a)
    ensures Accounted(Free(s, address), a)
  {
    SizeFindsClass(s, address);
    var t := Free(s, address);
    if a in t.blocks && a !in t.lent {
      if a == address {
        assert InPool(t, a, ClassOfSize(s.lent[address].size).value);
      } else {
        var i: nat :| InPool(s, a, i);
        assert InPool(t, a, i);
      }
    }
  }

  /** A pooled buffer is kept for reuse exactly when its pool has room for it; any other buffer is freed. */
  lemma FreedBuffer(s: State, address: nat, i: nat)
    requires Inv(s) && address in s.lent && i < CLASSES
    ensures var t, loan := Free(s, address), s.lent[address];
            && address !in t.lent
            && (address in t.blocks <==> exists j: nat :: InPool(t, address, j))
            && (InPool(t, address, i) <==> loan.pooled && loan.size == ClassSize(i) && |s.pools[i]| < Capacity(i))
  {
    SizeFindsClass(s, address);
    assert LoanOk(s, address);
    ClassRoundTrip(i);
    var t := Free(s, address);
    forall j: nat | j < CLASSES ensures address !in s.pools[j] {
      assert PoolOk(s, j);
      forall k | 0 <= k < |s.pools[j]| ensures s.pools[j][k] != address { assert Idle(s, j, s.pools[j][k]); }
    }
    if s.lent[address].pooled {
      var c := ClassOfSize(s.lent[address].size).value;
      ClassRoundTrip(c);
      if |s.pools[c]| < Capacity(c) { assert InPool(t, address, c); }
    }
  }

  lemma {:induction false} AccountedFrom(s: State, run: seq<Action>, a: nat)
    requires Inv(s) && IsRun(s, run) && Accounted(s, a)
    ensures Accounted(After(s, run), a)
    decreases |run|
  {
    if run != [] {
      match run[0] {
        case Alloc(n, extra, block) =>
          KeepsAllocate(s, n, extra, block);
          AllocAccounts(s, n, extra, block, a);
        case Release(address) =>
          KeepsFree(s, address);
          FreeAccounts(s, address, a);
      }
      AccountedFrom(Step(s, run[0]), run[1..], a);
    }
  }

  /** After any run, each buffer that was allocated and not freed is lent or in a pool. */
  lemma {:induction false} NoBufferLeaks(run: seq<Action>, a: nat)
    requires IsRun(INIT, run) && a in After(INIT, run).blocks
    ensures a in After(INIT, run).lent || exists i: nat :: InPool(After(INIT, run), a, i)
  {
    AccountedFrom(INIT, run, a);
  }

  /** After any run, a pooled buffer is freed into the pool of its true size. */
  lemma {:induction false} BackToItsClass(run: seq<Action>, address: nat)
    requires IsRun(INIT, run) && address in After(INIT, run).lent && After(INIT, run).lent[address].pooled
    ensures var s := After(INIT, run);
            var c := ClassOfSize(s.lent[address].size);
            && c.Some? && address in s.blocks && s.blocks[address] == ClassSize(c.value)
            && ClassFor(s.lent[address].asked, true) == c
  {
    KeepsRun(INIT, run);
    var s := After(INIT, run);
    assert LoanOk(s, address);
    ClassRoundTrip(ClassFor(s.lent[address].asked, true).value);
  }

  /** After any run, a lent buffer holds the reply exactly when its length does not overflow a ULONG. */
  lemma {:induction false} LargeEnough(run: seq<Action>, address: nat)
    requires IsRun(INIT, run) && address in After(INIT, run).lent
    ensures var s := After(INIT, run);
            && address in s.blocks
            && (s.blocks[address] >= Needed(s.lent[address].asked) <==>
              s.lent[address].asked <= MAXULONG - EVENT_INFORMATION_BUFFER)
  {
    KeepsRun(INIT, run);
    assert LoanOk(After(INIT, run), address);
  }
}
