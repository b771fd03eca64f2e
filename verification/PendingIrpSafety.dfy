/**
  Safety of the pending-IRP protocol over every interleaving.

  `Inv` is kept by each action and implies the results at the end of the module: no IRP is
  completed twice, no entry and no write context is freed twice or used after it was freed, and a
  drained list stays empty.
*/
module PendingIrpSafety {
  import opened Options
  import opened PendingIrp

  // ------------------------------------------------------------------------------------------
  // IRPs and entries
  // ------------------------------------------------------------------------------------------

  predicate Quiet(c: Cancel) { c.NoCancel? || c.Flagged? || c.Finished? }

  predicate IsLocal(p: Place) {
    p.ToReply? || p.ToComplete? || p.ToForceCancel? || p.ToTimeOut? || p.ToRelease? || p.ToRetry?
  }

  predicate IsWaiting(p: Place) { p.Allocated? || InRegistration(p) || p.OnList? }

  /** The registration of the entry owns the lock. */
  predicate InRegistration(p: Place) { p.Armed? || p.Doubted? || p.Linking? }

  /** The entry through which the IRP will be completed, or freed by its cancel routine. */
  function ActiveEntry(irp: Irp): Option<nat> {
    match irp.holder
    case Listed(e) => Some(e)
    case Local(e) => Some(e)
    case Canceling => if irp.cancel.IrpUnlocked? then None else irp.driverEntry
    case _ => None
  }

  /** An IRP whose entry is being registered or waits on a list, with nobody committed to it yet. */
  predicate ListedOk(irp: Irp, e: nat, entry: Entry) {
    match entry.at
    case Allocated => irp.slot.None? && Quiet(irp.cancel) && !entry.forced
    case Armed => ArmedOk(irp, e, entry)
    case Doubted => ArmedOk(irp, e, entry) && !irp.cancel.NoCancel?
    case Linking => ArmedOk(irp, e, entry) && !(irp.slot.Some? && irp.cancel.Finished?)
    case OnList => ArmedOk(irp, e, entry) && !(irp.slot.Some? && irp.cancel.Finished?)
    case _ => false
  }

  predicate ArmedOk(irp: Irp, e: nat, entry: Entry) {
    && irp.driverEntry == Some(e)
    && (|| (irp.slot.Some? && Quiet(irp.cancel) && !entry.forced)
        || (irp.slot.None? && (irp.cancel.CreateStart? || irp.cancel == CreateHave(e)) && !entry.forced)
        || (irp.slot.None? && irp.cancel.Finished? && entry.forced && irp.kind.Create?))
  }

  /** DokanIrpCancelRoutine is running: it is the only one that will complete the IRP. */
  predicate CancelingOk(irp: Irp, entry: Entry) {
    && (irp.cancel.IrpStart? || (irp.cancel.IrpHave? && irp.driverEntry == Some(irp.cancel.entry)))
    && !entry.forced
    && (InRegistration(entry.at) || entry.at.OnList? || (entry.at.Orphan? && entry.routineFrees))
    && (irp.slot.Some? ==> entry.at.Orphan?)
  }

  /** An IRP that was dropped, a create perhaps while its cancel routine was under way: nobody will complete it. */
  predicate LostOk(s: State, i: nat)
    requires i in s.irps
  {
    match s.irps[i].cancel
    case Finished => true
    case NoCancel => s.irps[i].slot.None?
    case Flagged => s.irps[i].slot.None?
    case CreateStart => s.irps[i].driverEntry.Some? && OrphanOf(s, s.irps[i].driverEntry.value, i)
    case CreateHave(e) => OrphanOf(s, e, i)
    case _ => false
  }

  predicate OrphanOf(s: State, e: nat, i: nat) { EntryAt(s, e, Orphan) && s.entries[e].irp == Some(i) }

  predicate IrpOk(s: State, i: nat)
    requires i in s.irps
  {
    var irp := s.irps[i];
    && irp.completions == (if irp.holder.Done? then 1 else 0)
    && (irp.dispatching <==> irp.holder.Dispatch?) && (irp.posted <==> irp.holder.Posted?)
    && (irp.slot == Some(CreateRoutine) || irp.cancel.CreateStart? || irp.cancel.CreateHave? ==> irp.kind.Create?)
    && (ActiveEntry(irp).Some? ==>
          var e := ActiveEntry(irp).value;
          && e in s.entries
          && s.entries[e].irp == Some(i)
          && (irp.holder.Listed? ==> ListedOk(irp, e, s.entries[e]))
          && (irp.holder.Local? ==> IsLocal(s.entries[e].at) && irp.slot.None? && Quiet(irp.cancel))
          && (irp.holder.Canceling? ==> CancelingOk(irp, s.entries[e])))
    && match irp.holder
       case Dispatch => irp.slot.None? && Quiet(irp.cancel)
       case Posted => irp.slot.None? && Quiet(irp.cancel)
       case Canceling => irp.cancel.IrpUnlocked? || irp.driverEntry.Some?
       case Lost => LostOk(s, i)
       case Done => Quiet(irp.cancel) && (irp.slot.Some? ==> irp.cancel.Finished?)
       case _ => true
  }

  predicate EntryOk(s: State, e: nat)
    requires e in s.entries
  {
    var entry := s.entries[e];
    && entry.frees == (if entry.at.Freed? then 1 else 0)
    && (IsWaiting(entry.at) || IsLocal(entry.at) ==>
          Resolved(s, e) && ActiveEntry(s.irps[entry.irp.value]) == Some(e))
    && (IsWaiting(entry.at) ==> !entry.routineFrees)
  }

  predicate CoreOk(s: State) {
    && (forall i {:trigger IrpOk(s, i)} :: i in s.irps ==> IrpOk(s, i))
    && (forall e {:trigger EntryOk(s, e)} :: e in s.entries ==> EntryOk(s, e))
  }

  // ------------------------------------------------------------------------------------------
  // Lists and locks
  // ------------------------------------------------------------------------------------------

  predicate NoRepeat(s: seq<nat>) { forall i, j :: 0 <= i < j < |s| ==> s[i] != s[j] }

  /** The list holds each entry that is on it once, and nothing else. */
  predicate ListOk(s: State, l: ListId) {
    && NoRepeat(s.List(l))
    && (forall e :: e in s.List(l) ==> EntryAt(s, e, OnList) && s.entries[e].list == l)
    && (forall e :: e in s.entries && s.entries[e].at.OnList? && s.entries[e].list == l ==> e in s.List(l))
  }

  /** The entry the owner of the lock is registering, if any. */
  function Registering(lock: Lock): Option<nat> {
    match lock
    case Arming(e) => Some(e)
    case BackingOut(e) => Some(e)
    case Inserting(e) => Some(e)
    case _ => None
  }

  /** The place of the entry that the owner of the lock is registering. */
  function RegisteringAt(lock: Lock): Place {
    match lock
    case Inserting(_) => Linking
    case BackingOut(_) => Doubted
    case _ => Armed
  }

  predicate LockOk(s: State, l: ListId) {
    var lock := s.LockOf(l);
    && (Registering(lock).Some? ==>
          var e := Registering(lock).value;
          EntryAt(s, e, RegisteringAt(lock)) && s.entries[e].list == l)
    && (forall e :: e in s.entries && InRegistration(s.entries[e].at) && s.entries[e].list == l ==>
          Registering(lock) == Some(e))
    && (lock.Draining? ==> lock.dest.ToRelease? || lock.dest.ToRetry?)
    && (l.Retry? ==> !lock.Replying? && !lock.WritingEvent? && !lock.Scanning?)
  }

  // ------------------------------------------------------------------------------------------
  // Write contexts, serial numbers, unmount
  // ------------------------------------------------------------------------------------------

  predicate ContextsOk(s: State) {
    && (forall c :: c in s.contexts ==> s.contexts[c].frees <= 1)
    && (forall i :: i in s.irps && s.irps[i].driverEvent.Some? ==>
          var c := s.irps[i].driverEvent.value;
          c in s.contexts && s.contexts[c].frees == 0 && s.contexts[c].irp == i)
  }

  /** The serial numbers of the listed entries, in list order. */
  function Serials(entries: map<nat, Entry>, list: seq<nat>): seq<nat>
    requires forall e :: e in list ==> e in entries
  {
    seq(|list|, k requires 0 <= k < |list| => assert list[k] in list; entries[list[k]].serial)
  }

  /** Leaving out the zeros, the numbers strictly increase. */
  predicate Ascending(serials: seq<nat>) {
    forall j, k :: 0 <= j < k < |serials| ==> serials[k] == 0 || serials[j] < serials[k]
  }

  predicate AllAtMost(serials: seq<nat>, n: nat) { forall k :: 0 <= k < |serials| ==> serials[k] <= n }

  predicate AllBelow(serials: seq<nat>, n: nat) { forall k :: 0 <= k < |serials| ==> serials[k] < n }

  predicate SerialsOk(s: State) {
    && (forall e :: e in s.pending ==> e in s.entries)
    && var serials := Serials(s.entries, s.pending);
       && Ascending(serials)
       && AllAtMost(serials, s.serial)
       && (Registering(s.pendingLock).Some? && Registering(s.pendingLock).value in s.entries ==>
             var n := s.entries[Registering(s.pendingLock).value].serial;
             n <= s.serial && (n == 0 || AllBelow(serials, n)))
  }

  predicate Drained(s: State, l: ListId) {
    s.release.DrainedBoth? || (l.Pending? && s.release.DrainedPending?)
  }

  predicate ReleaseOk(s: State) {
    && (forall l :: Drained(s, l) ==> s.List(l) == [] && Registering(s.LockOf(l)).None?)
    && (s.pendingLock == Draining(ToRelease) ==> s.release.Dismounting?)
    && (s.retryLock == Draining(ToRelease) ==> s.release.DrainedPending?)
  }

  predicate Inv(s: State) {
    && CoreOk(s)
    && ListOk(s, Pending) && ListOk(s, Retry)
    && LockOk(s, Pending) && LockOk(s, Retry)
    && ContextsOk(s)
    && SerialsOk(s)
    && ReleaseOk(s)
  }

  // ------------------------------------------------------------------------------------------
  // An action touches at most one IRP and at most one entry, the IRP's own
  // ------------------------------------------------------------------------------------------

  ghost predicate Touches(s: State, s': State, i: nat, e: nat) {
    && (forall j :: j in s'.irps <==> j in s.irps || j == i)
    && (forall j :: j in s.irps && j != i ==> s'.irps[j] == s.irps[j])
    && (forall f :: f in s.entries ==> f in s'.entries)
    && (forall f :: f in s'.entries && f != e ==> f in s.entries && s'.entries[f] == s.entries[f])
    && (e in s.entries ==> s.entries[e].irp == Some(i))
    && (i in s.irps && ActiveEntry(s.irps[i]).Some? ==> ActiveEntry(s.irps[i]) == Some(e))
  }

  lemma CoreFrame(s: State, s': State, i: nat, e: nat)
    requires CoreOk(s) && Touches(s, s', i, e)
    requires IrpOk(s', i)
    requires e in s'.entries ==> EntryOk(s', e)
    ensures CoreOk(s')
  {
    forall j | j in s'.irps && j != i ensures IrpOk(s', j) {
      assert IrpOk(s, j);
    }
    forall f | f in s'.entries && f != e ensures EntryOk(s', f) {
      assert EntryOk(s, f);
    }
  }

  /** Entry `f` plays the same role for the lists and locks in both states. */
  predicate SameRole(s: State, s': State, f: nat) {
    && f in s.entries && f in s'.entries
    && s'.entries[f].at == s.entries[f].at
    && s'.entries[f].list == s.entries[f].list
    && s'.entries[f].serial == s.entries[f].serial
  }

  /** Entry `f` is on no list and in no registration. */
  predicate NoRole(s: State, f: nat) {
    f in s.entries ==> !s.entries[f].at.OnList? && !InRegistration(s.entries[f].at)
  }

  predicate SameLists(s: State, s': State) {
    && s'.pending == s.pending && s'.retry == s.retry
    && s'.pendingLock == s.pendingLock && s'.retryLock == s.retryLock
    && s'.serial == s.serial && s'.release == s.release
  }

  /** Actions that leave the lists and locks alone. */
  lemma KeepsAside(s: State, s': State, i: nat, e: nat)
    requires Inv(s) && Touches(s, s', i, e) && SameLists(s, s')
    requires IrpOk(s', i) && (e in s'.entries ==> EntryOk(s', e)) && ContextsOk(s')
    requires SameRole(s, s', e) || (NoRole(s, e) && NoRole(s', e))
    ensures Inv(s')
  {
    assert CoreOk(s') by { CoreFrame(s, s', i, e); }
    assert ListOk(s', Pending) && LockOk(s', Pending) by { ListAside(s, s', Pending, e); }
    assert ListOk(s', Retry) && LockOk(s', Retry) by { ListAside(s, s', Retry, e); }
    assert SerialsOk(s') by { SerialsAside(s, s', e); }
  }

  /** Only entry `e` changes, and not its role. */
  ghost predicate Aside(s: State, s': State, e: nat) {
    && (forall f :: f in s.entries ==> f in s'.entries)
    && (forall f :: f in s'.entries && f != e ==> f in s.entries && s'.entries[f] == s.entries[f])
    && (SameRole(s, s', e) || (NoRole(s, e) && NoRole(s', e)))
  }

  lemma ListAside(s: State, s': State, l: ListId, e: nat)
    requires ListOk(s, l) && LockOk(s, l) && Aside(s, s', e)
    requires s'.List(l) == s.List(l) && s'.LockOf(l) == s.LockOf(l)
    ensures ListOk(s', l) && LockOk(s', l)
  {
  }

  lemma SerialsAside(s: State, s': State, e: nat)
    requires SerialsOk(s) && ListOk(s, Pending) && LockOk(s, Pending) && Aside(s, s', e) && SameLists(s, s')
    ensures SerialsOk(s')
  {
    assert Serials(s'.entries, s'.pending) == Serials(s.entries, s.pending);
  }

  lemma WithoutMembers(s: seq<nat>, k: nat)
    requires k < |s| && NoRepeat(s)
    ensures NoRepeat(Without(s, k))
    ensures forall e :: e in Without(s, k) <==> e in s && e != s[k]
  {
    var t := Without(s, k);
    forall e | e in s && e != s[k] ensures e in t {
      var j :| 0 <= j < |s| && s[j] == e;
      assert t[if j < k then j else j - 1] == e;
    }
  }

  lemma SerialsWithout(s: State, s': State, k: nat)
    requires k < |s.pending| && s'.pending == Without(s.pending, k)
    requires forall f :: f in s.pending ==>
                           f in s.entries && f in s'.entries && s'.entries[f].serial == s.entries[f].serial
    requires Ascending(Serials(s.entries, s.pending))
    ensures forall f :: f in s'.pending ==> f in s'.entries
    ensures Ascending(Serials(s'.entries, s'.pending))
    ensures forall n :: AllAtMost(Serials(s.entries, s.pending), n) ==> AllAtMost(Serials(s'.entries, s'.pending), n)
    ensures forall n :: AllBelow(Serials(s.entries, s.pending), n) ==> AllBelow(Serials(s'.entries, s'.pending), n)
  {
    assert forall f :: f in s'.pending ==> f in s.pending;
    var a, b := Serials(s.entries, s.pending), Serials(s'.entries, s'.pending);
    forall j | 0 <= j < |b| ensures b[j] == a[if j < k then j else j + 1] {
      assert s'.pending[j] == s.pending[if j < k then j else j + 1];
      assert s'.pending[j] in s.pending;
    }
  }

  /** All entries but `e` are the same in both states, and `e` left its list. */
  ghost predicate Leaves(s: State, s': State, e: nat) {
    && (forall f :: f in s.entries <==> f in s'.entries)
    && (forall f :: f in s.entries && f != e ==> s'.entries[f] == s.entries[f])
    && e in s.entries
    && s'.entries[e].serial == s.entries[e].serial
    && NoRole(s', e)
  }

  lemma ListWithout(s: State, s': State, l: ListId, k: nat)
    requires ListOk(s, l) && LockOk(s, l) && k < |s.List(l)|
    requires Leaves(s, s', s.List(l)[k])
    requires s'.List(l) == Without(s.List(l), k) && s'.LockOf(l) == s.LockOf(l)
    ensures ListOk(s', l) && LockOk(s', l)
  {
    var e := s.List(l)[k];
    assert e in s.List(l);
    WithoutMembers(s.List(l), k);
  }

  lemma OtherList(s: State, s': State, l: ListId, e: nat)
    requires ListOk(s, l) && LockOk(s, l)
    requires Leaves(s, s', e) && EntryAt(s, e, OnList) && s.entries[e].list != l
    requires s'.List(l) == s.List(l) && s'.LockOf(l) == s.LockOf(l)
    ensures ListOk(s', l) && LockOk(s', l)
  {
  }

  lemma SerialsUnlink(s: State, s': State, l: ListId, k: nat)
    requires SerialsOk(s) && k < |s.List(l)|
    requires SameLists(s.WithList(l, Without(s.List(l), k)), s')
    requires Leaves(s, s', s.List(l)[k])
    ensures SerialsOk(s')
  {
    if l.Pending? {
      SerialsWithout(s, s', k);
    } else {
      assert Serials(s'.entries, s'.pending) == Serials(s.entries, s.pending);
    }
  }

  /** Actions that take the entry at position `k` off a list. */
  lemma KeepsUnlink(s: State, s': State, l: ListId, k: nat, i: nat)
    requires Inv(s) && k < |s.List(l)|
    requires SameLists(s.WithList(l, Without(s.List(l), k)), s')
    requires Leaves(s, s', s.List(l)[k])
    requires Touches(s, s', i, s.List(l)[k])
    requires IrpOk(s', i) && EntryOk(s', s.List(l)[k]) && ContextsOk(s')
    ensures Inv(s')
  {
    var e := s.List(l)[k];
    assert e in s.List(l) && EntryAt(s, e, OnList) && s.entries[e].list == l;
    assert CoreOk(s') by { CoreFrame(s, s', i, e); }
    assert ListOk(s', l) && LockOk(s', l) by { ListWithout(s, s', l, k); }
    var other := if l.Pending? then Retry else Pending;
    assert ListOk(s', other) && LockOk(s', other) by { OtherList(s, s', other, e); }
    SerialsUnlink(s, s', l, k);
  }

  lemma KeepsDiscardFree(s: State, l: ListId, k: nat)
    requires Inv(s) && k < |s.List(l)|
    ensures Resolved(s, s.List(l)[k])
    ensures ActiveEntry(s.irps[s.entries[s.List(l)[k]].irp.value]) == Some(s.List(l)[k])
    ensures EntryAt(s, s.List(l)[k], OnList)
    ensures var irp := s.irps[s.entries[s.List(l)[k]].irp.value]; irp.holder.Listed? || irp.holder.Canceling?
  {
    assert s.List(l)[k] in s.List(l);
    assert EntryOk(s, s.List(l)[k]);
    assert IrpOk(s, s.entries[s.List(l)[k]].irp.value);
  }

  /** What `Inv` says about one entry of a list. */
  predicate ListedEntryOk(s: State, e: nat) {
    && EntryAt(s, e, OnList) && Resolved(s, e) && EntryOk(s, e)
    && IrpOk(s, s.entries[e].irp.value)
  }

  lemma AbandonOk(s: State, l: ListId, k: nat, slot: Option<Routine>)
    requires k < |s.List(l)| && ListedEntryOk(s, s.List(l)[k])
    requires s.irps[s.entries[s.List(l)[k]].irp.value].slot.None? && slot != Some(CreateRoutine)
    ensures var e, s' := s.List(l)[k], Abandon(s, l, k, slot);
            IrpOk(s', s.entries[e].irp.value) && EntryOk(s', e)
  {
  }

  lemma AbandonUnlinks(s: State, l: ListId, k: nat, slot: Option<Routine>)
    requires k < |s.List(l)| && Resolved(s, s.List(l)[k]) && ContextsOk(s)
    requires ActiveEntry(s.irps[s.entries[s.List(l)[k]].irp.value]) == Some(s.List(l)[k])
    ensures var e, s' := s.List(l)[k], Abandon(s, l, k, slot);
            && SameLists(s.WithList(l, Without(s.List(l), k)), s') && Leaves(s, s', e)
            && Touches(s, s', s.entries[e].irp.value, e) && ContextsOk(s')
  {
  }

  lemma KeepsAbandon(s: State, l: ListId, k: nat, slot: Option<Routine>)
    requires Inv(s) && k < |s.List(l)|
    requires Resolved(s, s.List(l)[k])
    requires s.irps[s.entries[s.List(l)[k]].irp.value].slot.None? && slot != Some(CreateRoutine)
    ensures Inv(Abandon(s, l, k, slot))
  {
    KeepsDiscardFree(s, l, k);
    assert EntryOk(s, s.List(l)[k]) && IrpOk(s, s.entries[s.List(l)[k]].irp.value);
    AbandonOk(s, l, k, slot);
    AbandonUnlinks(s, l, k, slot);
    KeepsUnlink(s, Abandon(s, l, k, slot), l, k, s.entries[s.List(l)[k]].irp.value);
  }

  lemma ClaimOk(s: State, l: ListId, k: nat, dest: Place, driverEntry: Option<nat>)
    requires k < |s.List(l)| && ListedEntryOk(s, s.List(l)[k]) && IsLocal(dest)
    requires s.irps[s.entries[s.List(l)[k]].irp.value].slot.Some? || s.entries[s.List(l)[k]].forced
    ensures var e, s' := s.List(l)[k], Claim(s, l, k, dest, driverEntry);
            IrpOk(s', s.entries[e].irp.value) && EntryOk(s', e)
  {
  }

  lemma ClaimUnlinks(s: State, l: ListId, k: nat, dest: Place, driverEntry: Option<nat>)
    requires k < |s.List(l)| && Resolved(s, s.List(l)[k]) && ContextsOk(s) && IsLocal(dest)
    requires ActiveEntry(s.irps[s.entries[s.List(l)[k]].irp.value]) == Some(s.List(l)[k])
    ensures var e, s' := s.List(l)[k], Claim(s, l, k, dest, driverEntry);
            && SameLists(s.WithList(l, Without(s.List(l), k)), s') && Leaves(s, s', e)
            && Touches(s, s', s.entries[e].irp.value, e) && ContextsOk(s')
  {
  }

  lemma KeepsClaim(s: State, l: ListId, k: nat, dest: Place, driverEntry: Option<nat>)
    requires Inv(s) && k < |s.List(l)|
    requires Resolved(s, s.List(l)[k]) && IsLocal(dest)
    requires s.irps[s.entries[s.List(l)[k]].irp.value].slot.Some? || s.entries[s.List(l)[k]].forced
    ensures Inv(Claim(s, l, k, dest, driverEntry))
  {
    KeepsDiscardFree(s, l, k);
    assert EntryOk(s, s.List(l)[k]) && IrpOk(s, s.entries[s.List(l)[k]].irp.value);
    ClaimOk(s, l, k, dest, driverEntry);
    ClaimUnlinks(s, l, k, dest, driverEntry);
    KeepsUnlink(s, Claim(s, l, k, dest, driverEntry), l, k, s.entries[s.List(l)[k]].irp.value);
  }

  /** What is about IRPs, entries and write contexts does not depend on locks and flags. */
  lemma CoreKept(s: State, s': State)
    requires CoreOk(s) && ContextsOk(s)
    requires s'.irps == s.irps && s'.entries == s.entries && s'.contexts == s.contexts
    ensures CoreOk(s') && ContextsOk(s')
  {
    forall i | i in s'.irps ensures IrpOk(s', i) { assert IrpOk(s, i); }
    forall e | e in s'.entries ensures EntryOk(s', e) { assert EntryOk(s, e); }
  }

  /** The list `l` and its lock are in order after the lock was taken or dropped outside registration. */
  lemma RelockHere(s: State, l: ListId, lock: Lock)
    requires ListOk(s, l) && LockOk(s, l) && Registering(s.LockOf(l)).None? && Registering(lock).None?
    requires lock.Draining? ==> lock.dest.ToRelease? || lock.dest.ToRetry?
    requires l.Retry? ==> !lock.Replying? && !lock.WritingEvent? && !lock.Scanning?
    ensures ListOk(s.WithLock(l, lock), l) && LockOk(s.WithLock(l, lock), l)
  {
  }

  lemma RelockThere(s: State, l: ListId, lock: Lock, other: ListId)
    requires ListOk(s, other) && LockOk(s, other) && other != l
    ensures ListOk(s.WithLock(l, lock), other) && LockOk(s.WithLock(l, lock), other)
  {
  }

  lemma RelockSerials(s: State, l: ListId, lock: Lock)
    requires SerialsOk(s) && Registering(lock).None?
    ensures SerialsOk(s.WithLock(l, lock))
  {
  }

  lemma RelockRelease(s: State, l: ListId, lock: Lock)
    requires ReleaseOk(s) && Registering(lock).None?
    requires lock == Draining(ToRelease) ==> s.release == if l.Pending? then Dismounting else DrainedPending
    ensures ReleaseOk(s.WithLock(l, lock))
  {
    var s' := s.WithLock(l, lock);
    forall m | Drained(s', m) ensures s'.List(m) == [] && Registering(s'.LockOf(m)).None? {
      assert Drained(s, m);
    }
  }

  /** Taking or dropping a lock outside registration. */
  lemma KeepsRelock(s: State, l: ListId, lock: Lock)
    requires Inv(s)
    requires Registering(s.LockOf(l)).None? && Registering(lock).None?
    requires lock.Draining? ==> lock.dest.ToRelease? || lock.dest.ToRetry?
    requires l.Retry? ==> !lock.Replying? && !lock.WritingEvent? && !lock.Scanning?
    requires lock == Draining(ToRelease) ==> s.release == if l.Pending? then Dismounting else DrainedPending
    ensures Inv(s.WithLock(l, lock))
  {
    var other := if l.Pending? then Retry else Pending;
    CoreKept(s, s.WithLock(l, lock));
    RelockHere(s, l, lock);
    RelockThere(s, l, lock, other);
    RelockSerials(s, l, lock);
    RelockRelease(s, l, lock);
  }

  lemma KeepsReplyMatch(s: State, k: nat)
    requires Inv(s) && WalkEnabled(s, ReplyMatch(k))
    ensures Inv(WalkStep(s, ReplyMatch(k)))
  {
    KeepsDiscardFree(s, Pending, k);
    var entry := s.entries[s.pending[k]];
    if entry.forced {
      KeepsClaim(s, Pending, k, ToForceCancel, None);
    } else if s.irps[entry.irp.value].slot.None? {
      KeepsAbandon(s, Pending, k, None);
    } else {
      KeepsClaim(s, Pending, k, ToReply, None);
    }
  }

  lemma KeepsScanExpire(s: State, k: nat)
    requires Inv(s) && WalkEnabled(s, ScanExpire(k))
    ensures Inv(WalkStep(s, ScanExpire(k)))
  {
    KeepsDiscardFree(s, Pending, k);
    var entry := s.entries[s.pending[k]];
    if !entry.forced && s.irps[entry.irp.value].slot.None? {
      KeepsAbandon(s, Pending, k, None);
    } else {
      KeepsClaim(s, Pending, k, ToTimeOut, None);
    }
  }

  lemma KeepsDrainPop(s: State, l: ListId)
    requires Inv(s) && WalkEnabled(s, DrainPop(l))
    ensures Inv(WalkStep(s, DrainPop(l)))
  {
    KeepsDiscardFree(s, l, 0);
    var entry := s.entries[s.List(l)[0]];
    if s.irps[entry.irp.value].slot.None? && !entry.forced {
      KeepsAbandon(s, l, 0, None);
    } else {
      KeepsClaim(s, l, 0, s.LockOf(l).dest, s.irps[entry.irp.value].driverEntry);
    }
  }

  /** A write context is freed together with the IRP's only pointer to it. */
  lemma ContextReleased(s: State, s': State, i: nat)
    requires ContextsOk(s) && i in s.irps && s.irps[i].driverEvent.Some?
    requires s'.irps.Keys == s.irps.Keys
    requires forall j :: j in s.irps && j != i ==> s'.irps[j].driverEvent == s.irps[j].driverEvent
    requires s'.irps[i].driverEvent.None?
    requires s'.contexts == FreeContext(s, s.irps[i].driverEvent.value).contexts
    ensures ContextsOk(s')
  {
  }

  lemma KeepsHandOver(s: State, i: nat, e: nat)
    requires Inv(s) && ListedEntryOk(s, e) && s.entries[e].irp == Some(i)
    requires s.irps[i].slot.Some? && s.irps[i].holder == Listed(e)
    ensures Inv(HandOver(s, i))
  {
    var s' := HandOver(s, i);
    assert ContextsOk(s') by {
      if s'.irps[i].driverEvent != s.irps[i].driverEvent { ContextReleased(s, s', i); }
    }
    KeepsAside(s, s', i, e);
  }

  lemma KeepsHandOverStep(s: State, k: nat)
    requires Inv(s) && s.pendingLock.WritingEvent? && k < |s.pending| && Resolved(s, s.pending[k])
    requires ListedEntryOk(s, s.pending[k]) && s.irps[s.entries[s.pending[k]].irp.value].slot.Some?
    requires s.irps[s.entries[s.pending[k]].irp.value].holder == Listed(s.pending[k])
    ensures Inv(HandOver(s.WithLock(Pending, Free), s.entries[s.pending[k]].irp.value))
  {
    KeepsRelock(s, Pending, Free);
    KeepsHandOver(s.WithLock(Pending, Free), s.entries[s.pending[k]].irp.value, s.pending[k]);
  }

  lemma KeepsWriteMatch(s: State, k: nat)
    requires Inv(s) && WalkEnabled(s, WriteMatch(k))
    ensures Inv(WriteMatchStep(s, k)) && s.pending[k] in s.entries
  {
    KeepsDiscardFree(s, Pending, k);
    var e := s.pending[k];
    var i := s.entries[e].irp.value;
    assert ListedEntryOk(s, e);
    if s.irps[i].slot.None? {
      KeepsAbandon(s, Pending, k, Some(IrpRoutine));
    } else {
      KeepsHandOverStep(s, k);
    }
  }

  /** Actions on an IRP that no entry waits for. */
  lemma KeepsInactive(s: State, s': State, i: nat)
    requires Inv(s) && SameLists(s, s') && s'.entries == s.entries
    requires forall j :: j in s'.irps <==> j in s.irps || j == i
    requires forall j :: j in s.irps && j != i ==> s'.irps[j] == s.irps[j]
    requires i in s.irps ==> ActiveEntry(s.irps[i]).None?
    requires IrpOk(s', i) && ContextsOk(s')
    ensures Inv(s')
  {
    assert CoreOk(s') by {
      forall j | j in s'.irps && j != i ensures IrpOk(s', j) { assert IrpOk(s, j); }
      forall f | f in s'.entries ensures EntryOk(s', f) { assert EntryOk(s, f); }
    }
  }

  /** One IRP changes and its active entry does not. */
  lemma KeepsIrp(s: State, i: nat, irp: Irp)
    requires Inv(s) && i in s.irps
    requires irp.driverEvent == s.irps[i].driverEvent
    requires ActiveEntry(irp) == ActiveEntry(s.irps[i])
    requires IrpOk(s.WithIrp(i, irp), i)
    ensures Inv(s.WithIrp(i, irp))
  {
    var s' := s.WithIrp(i, irp);
    assert IrpOk(s, i);
    assert ContextsOk(s');
    match ActiveEntry(irp)
    case Some(e) =>
      assert EntryOk(s, e);
      KeepsAside(s, s', i, e);
    case None =>
      KeepsInactive(s, s', i);
  }

  // ------------------------------------------------------------------------------------------
  // Dispatch, cancellation, completion of local entries
  // ------------------------------------------------------------------------------------------

  lemma KeepsArrive(s: State, i: nat, kind: Kind)
    requires Inv(s) && DispatchEnabled(s, Arrive(i, kind))
    ensures Inv(DispatchStep(s, Arrive(i, kind)))
  {
    KeepsInactive(s, DispatchStep(s, Arrive(i, kind)), i);
  }

  lemma KeepsDispatchComplete(s: State, i: nat)
    requires Inv(s) && DispatchEnabled(s, DispatchComplete(i))
    ensures Inv(DispatchStep(s, DispatchComplete(i)))
  {
    assert IrpOk(s, i);
    KeepsIrp(s, i, DispatchStep(s, DispatchComplete(i)).irps[i]);
  }

  lemma KeepsAttachContext(s: State, i: nat, c: nat)
    requires Inv(s) && DispatchEnabled(s, AttachContext(i, c))
    ensures Inv(DispatchStep(s, AttachContext(i, c)))
  {
    assert IrpOk(s, i);
    KeepsInactive(s, DispatchStep(s, AttachContext(i, c)), i);
  }

  lemma KeepsDropContext(s: State, i: nat)
    requires Inv(s) && DispatchEnabled(s, DropContext(i))
    ensures Inv(DispatchStep(s, DropContext(i)))
  {
    assert IrpOk(s, i);
    var s' := DispatchStep(s, DropContext(i));
    ContextReleased(s, s', i);
    KeepsInactive(s, s', i);
  }

  lemma KeepsPost(s: State, i: nat)
    requires Inv(s) && DispatchEnabled(s, Post(i))
    ensures Inv(DispatchStep(s, Post(i)))
  {
    assert IrpOk(s, i);
    KeepsIrp(s, i, DispatchStep(s, Post(i)).irps[i]);
  }

  lemma KeepsOplockFail(s: State, i: nat)
    requires Inv(s) && DispatchEnabled(s, OplockFail(i))
    ensures Inv(DispatchStep(s, OplockFail(i)))
  {
    assert IrpOk(s, i);
    KeepsIrp(s, i, DispatchStep(s, OplockFail(i)).irps[i]);
  }

  /** Nobody hears of the refusal, and nobody is left to complete the IRP. */
  lemma KeepsRefuse(s: State, i: nat, why: Refusal)
    requires Inv(s) && DispatchEnabled(s, Refuse(i, why))
    ensures Inv(DispatchStep(s, Refuse(i, why)))
  {
    assert IrpOk(s, i);
    KeepsIrp(s, i, DispatchStep(s, Refuse(i, why)).irps[i]);
  }

  lemma KeepsAllocate(s: State, i: nat, e: nat, l: ListId)
    requires Inv(s) && DispatchEnabled(s, Allocate(i, e, l))
    ensures Inv(AllocateStep(s, i, e, l))
  {
    assert IrpOk(s, i);
    AllocateOk(s, i, e, l);
    KeepsAside(s, AllocateStep(s, i, e, l), i, e);
  }

  lemma AllocateOk(s: State, i: nat, e: nat, l: ListId)
    requires i in s.irps && RegistersOn(s.irps[i], l) && e !in s.entries && IrpOk(s, i) && ContextsOk(s)
    ensures var s' := AllocateStep(s, i, e, l);
            IrpOk(s', i) && EntryOk(s', e) && ContextsOk(s') && Touches(s, s', i, e) && SameLists(s, s')
              && NoRole(s', e)
  {
  }

  lemma KeepsRaiseCancel(s: State, i: nat)
    requires Inv(s) && CancelEnabled(s, RaiseCancel(i))
    ensures Inv(CancelStep(s, RaiseCancel(i)))
  {
    assert IrpOk(s, i);
    KeepsIrp(s, i, CancelStep(s, RaiseCancel(i)).irps[i]);
  }

  lemma TakeRoutineOk(s: State, i: nat)
    requires CancelEnabled(s, TakeRoutine(i)) && IrpOk(s, i)
    ensures var s' := TakeRoutineStep(s, i);
            && IrpOk(s', i) && ActiveEntry(s'.irps[i]) == ActiveEntry(s.irps[i])
            && s' == s.WithIrp(i, s'.irps[i]) && s'.irps[i].driverEvent == s.irps[i].driverEvent
  {
  }

  lemma KeepsTakeRoutine(s: State, i: nat)
    requires Inv(s) && CancelEnabled(s, TakeRoutine(i))
    ensures Inv(TakeRoutineStep(s, i))
  {
    assert IrpOk(s, i);
    TakeRoutineOk(s, i);
    KeepsIrp(s, i, TakeRoutineStep(s, i).irps[i]);
  }

  lemma ReadEntryOk(s: State, i: nat)
    requires CancelEnabled(s, ReadEntry(i)) && IrpOk(s, i)
    ensures var s' := ReadEntryStep(s, i);
            && s.irps[i].driverEntry.Some?
            && IrpOk(s', i) && ActiveEntry(s'.irps[i]) == ActiveEntry(s.irps[i])
            && s' == s.WithIrp(i, s'.irps[i]) && s'.irps[i].driverEvent == s.irps[i].driverEvent
  {
  }

  lemma KeepsReadEntry(s: State, i: nat)
    requires Inv(s) && CancelEnabled(s, ReadEntry(i))
    ensures Inv(ReadEntryStep(s, i))
    ensures s.irps[i].driverEntry.Some?
  {
    assert IrpOk(s, i);
    ReadEntryOk(s, i);
    KeepsIrp(s, i, ReadEntryStep(s, i).irps[i]);
  }

  lemma MarkForcedOk(s: State, i: nat)
    requires CancelEnabled(s, MarkForced(i)) && IrpOk(s, i) && EntryOk(s, s.irps[i].cancel.entry)
    ensures var e, s' := s.irps[i].cancel.entry, MarkForcedStep(s, i);
            && IrpOk(s', i) && EntryOk(s', e)
            && SameRole(s, s', e) && s.entries[e].irp == Some(i)
            && (ActiveEntry(s.irps[i]).Some? ==> ActiveEntry(s.irps[i]) == Some(e))
  {
  }

  lemma KeepsMarkForced(s: State, i: nat)
    requires Inv(s) && CancelEnabled(s, MarkForced(i))
    ensures Inv(MarkForcedStep(s, i))
  {
    MarkForcedOk(s, i);
    var s' := MarkForcedStep(s, i);
    assert ContextsOk(s');
    KeepsAside(s, s', i, s.irps[i].cancel.entry);
  }

  lemma KeepsCancelComplete(s: State, i: nat)
    requires Inv(s) && CancelEnabled(s, CancelComplete(i))
    ensures Inv(CancelStep(s, CancelComplete(i)))
  {
    assert IrpOk(s, i);
    KeepsIrp(s, i, CancelStep(s, CancelComplete(i)).irps[i]);
  }

  lemma KeepsRetire(s: State, e: nat)
    requires Inv(s) && Resolved(s, e) && IsLocal(s.entries[e].at)
    ensures Inv(Retire(s, e))
  {
    var i := s.entries[e].irp.value;
    assert EntryOk(s, e) && IrpOk(s, i);
    RetireOk(s, e);
    KeepsAside(s, Retire(s, e), i, e);
  }

  lemma RetireOk(s: State, e: nat)
    requires Resolved(s, e) && IsLocal(s.entries[e].at) && EntryOk(s, e) && IrpOk(s, s.entries[e].irp.value)
             && ContextsOk(s)
    ensures var i, s' := s.entries[e].irp.value, Retire(s, e);
            IrpOk(s', i) && EntryOk(s', e) && ContextsOk(s') && Touches(s, s', i, e) && SameLists(s, s')
              && NoRole(s', e)
  {
  }

  lemma KeepsGiveBack(s: State, e: nat)
    requires Inv(s) && Resolved(s, e)
    requires IsLocal(s.entries[e].at) || s.entries[e].at.Allocated?
    ensures Inv(GiveBack(s, e))
  {
    var i := s.entries[e].irp.value;
    assert EntryOk(s, e) && IrpOk(s, i);
    GiveBackOk(s, e);
    KeepsAside(s, GiveBack(s, e), i, e);
  }

  /** A registration that fails after it has an entry, before it owns the lock. */
  lemma KeepsRefused(s: State, e: nat)
    requires Inv(s) && Resolved(s, e) && s.entries[e].at.Allocated?
    ensures Inv(Refused(s, e))
  {
    var i := s.entries[e].irp.value;
    if s.entries[e].heeded {
      KeepsGiveBack(s, e);
    } else {
      assert EntryOk(s, e) && IrpOk(s, i);
      DropOk(s, e);
      KeepsAside(s, Drop(s, e), i, e);
    }
  }

  lemma DropOk(s: State, e: nat)
    requires Resolved(s, e) && s.entries[e].at.Allocated?
    requires EntryOk(s, e) && IrpOk(s, s.entries[e].irp.value) && ContextsOk(s)
    ensures var i, s' := s.entries[e].irp.value, Drop(s, e);
            && IrpOk(s', i) && EntryOk(s', e) && ContextsOk(s')
            && Touches(s, s', i, e) && SameLists(s, s') && NoRole(s', e)
  {
  }

  /** The second pass of a reply finds the unmount flag clear for an entry. */
  lemma KeepsPass(s: State, e: nat)
    requires Inv(s) && Resolved(s, e) && s.entries[e].at.ToReply?
    ensures Inv(Pass(s, e))
  {
    var i := s.entries[e].irp.value;
    assert EntryOk(s, e) && IrpOk(s, i);
    PassOk(s, e);
    KeepsAside(s, Pass(s, e), i, e);
  }

  lemma PassOk(s: State, e: nat)
    requires Resolved(s, e) && s.entries[e].at.ToReply?
    requires EntryOk(s, e) && IrpOk(s, s.entries[e].irp.value) && ContextsOk(s)
    ensures var i, s' := s.entries[e].irp.value, Pass(s, e);
            && IrpOk(s', i) && EntryOk(s', e) && ContextsOk(s')
            && Touches(s, s', i, e) && SameLists(s, s') && NoRole(s', e)
  {
  }

  lemma KeepsForget(s: State, e: nat)
    requires Inv(s) && Resolved(s, e) && s.entries[e].at.ToReply?
    ensures Inv(Forget(s, e))
  {
    var i := s.entries[e].irp.value;
    assert EntryOk(s, e) && IrpOk(s, i);
    ForgetOk(s, e);
    KeepsAside(s, Forget(s, e), i, e);
  }

  lemma ForgetOk(s: State, e: nat)
    requires Resolved(s, e) && s.entries[e].at.ToReply?
    requires EntryOk(s, e) && IrpOk(s, s.entries[e].irp.value) && ContextsOk(s)
    ensures var i, s' := s.entries[e].irp.value, Forget(s, e);
            && IrpOk(s', i) && EntryOk(s', e) && ContextsOk(s')
            && Touches(s, s', i, e) && SameLists(s, s') && NoRole(s', e)
  {
  }

  lemma GiveBackOk(s: State, e: nat)
    requires Resolved(s, e) && (IsLocal(s.entries[e].at) || s.entries[e].at.Allocated?)
    requires EntryOk(s, e) && IrpOk(s, s.entries[e].irp.value) && ContextsOk(s)
    ensures var i, s' := s.entries[e].irp.value, GiveBack(s, e);
            IrpOk(s', i) && EntryOk(s', e) && ContextsOk(s') && Touches(s, s', i, e) && SameLists(s, s')
              && NoRole(s', e)
  {
  }

  // ------------------------------------------------------------------------------------------
  // Registration
  // ------------------------------------------------------------------------------------------

  /** Only entry `e`, which is not listed, and the lock of its list change. */
  ghost predicate Registers(s: State, s': State, e: nat) {
    && (forall f :: f in s.entries <==> f in s'.entries)
    && (forall f :: f in s.entries && f != e ==> s'.entries[f] == s.entries[f])
    && e in s.entries && !s.entries[e].at.OnList? && !s'.entries[e].at.OnList?
    && s'.entries[e].list == s.entries[e].list
    && s'.pending == s.pending && s'.retry == s.retry
    && s' == s'.WithLock(s.entries[e].list, s'.LockOf(s.entries[e].list))
    && (s.entries[e].list.Pending? ==> s'.retryLock == s.retryLock)
    && (s.entries[e].list.Retry? ==> s'.pendingLock == s.pendingLock)
  }

  lemma RegistersLists(s: State, s': State, e: nat)
    requires ListOk(s, Pending) && ListOk(s, Retry) && LockOk(s, Pending) && LockOk(s, Retry)
    requires Registers(s, s', e)
    requires var lock := s.LockOf(s.entries[e].list); Registering(lock) == None || Registering(lock) == Some(e)
    requires var lock', at' := s'.LockOf(s.entries[e].list), s'.entries[e].at;
             && (lock'.Free? || Registering(lock').Some?)
             && Registering(lock') == (if InRegistration(at') then Some(e) else None)
             && (Registering(lock').Some? ==> at' == RegisteringAt(lock'))
    ensures ListOk(s', Pending) && ListOk(s', Retry) && LockOk(s', Pending) && LockOk(s', Retry)
  {
    var l := s.entries[e].list;
    var other := if l.Pending? then Retry else Pending;
    RegistersHere(s, s', e);
    RegistersThere(s, s', e, other);
  }

  /** The list of the entry, with the lock that its registration owns, and the other list. */
  lemma RegistersHere(s: State, s': State, e: nat)
    requires Registers(s, s', e) && ListOk(s, s.entries[e].list) && LockOk(s, s.entries[e].list)
    requires var lock := s.LockOf(s.entries[e].list); Registering(lock) == None || Registering(lock) == Some(e)
    requires var lock', at' := s'.LockOf(s.entries[e].list), s'.entries[e].at;
             && (lock'.Free? || Registering(lock').Some?)
             && Registering(lock') == (if InRegistration(at') then Some(e) else None)
             && (Registering(lock').Some? ==> at' == RegisteringAt(lock'))
    ensures ListOk(s', s.entries[e].list) && LockOk(s', s.entries[e].list)
  {
  }

  lemma RegistersThere(s: State, s': State, e: nat, l: ListId)
    requires Registers(s, s', e) && s.entries[e].list != l && ListOk(s, l) && LockOk(s, l)
    ensures ListOk(s', l) && LockOk(s', l)
  {
  }

  lemma SerialsSame(s: State, s': State)
    requires SerialsOk(s) && s'.pending == s.pending && s'.serial >= s.serial
    requires forall f :: f in s.pending ==> f in s'.entries && s'.entries[f].serial == s.entries[f].serial
    requires Registering(s'.pendingLock).Some? && Registering(s'.pendingLock).value in s'.entries ==>
               var n := s'.entries[Registering(s'.pendingLock).value].serial;
               || n == 0
               || n == s.serial + 1 == s'.serial
               || (Registering(s.pendingLock) == Registering(s'.pendingLock)
                     && Registering(s.pendingLock).value in s.entries
                   && n == s.entries[Registering(s.pendingLock).value].serial)
    ensures SerialsOk(s')
  {
    assert Serials(s'.entries, s'.pending) == Serials(s.entries, s.pending);
  }

  /** A serial number is either kept, zero, or drawn from the counter while the lock is owned. */
  predicate DrawsSerial(s: State, s': State, e: nat)
    requires e in s.entries && e in s'.entries
  {
    && s'.serial >= s.serial
    && var n := s'.entries[e].serial;
       || n == 0
       || n == s.serial + 1 == s'.serial
       || (n == s.entries[e].serial && InRegistration(s.entries[e].at))
  }

  lemma SerialsRegister(s: State, s': State, e: nat)
    requires SerialsOk(s) && ListOk(s, Pending) && LockOk(s, Pending) && LockOk(s', Pending)
    requires Registers(s, s', e)
    requires DrawsSerial(s, s', e) || (!InRegistration(s'.entries[e].at) && s'.serial == s.serial)
    ensures SerialsOk(s')
  {
    assert e !in s.pending;
    SerialsSame(s, s');
  }

  /** The steps of RegisterPendingIrpMain under the lock, up to the insertion. */
  lemma KeepsRegistration(s: State, s': State, e: nat, i: nat)
    requires Inv(s) && Touches(s, s', i, e) && Registers(s, s', e)
    requires var lock := s.LockOf(s.entries[e].list); Registering(lock) == None || Registering(lock) == Some(e)
    requires var lock', at' := s'.LockOf(s.entries[e].list), s'.entries[e].at;
             && (lock'.Free? || Registering(lock').Some?)
             && Registering(lock') == (if InRegistration(at') then Some(e) else None)
             && (Registering(lock').Some? ==> at' == RegisteringAt(lock'))
    requires IrpOk(s', i) && EntryOk(s', e) && ContextsOk(s')
    requires s'.release == s.release
    requires Registering(s'.LockOf(s.entries[e].list)).Some? ==> !Drained(s, s.entries[e].list)
    requires DrawsSerial(s, s', e) || (!InRegistration(s'.entries[e].at) && s'.serial == s.serial)
    ensures Inv(s')
  {
    CoreFrame(s, s', i, e);
    RegistersRest(s, s', e);
  }

  lemma RegistersRest(s: State, s': State, e: nat)
    requires ListOk(s, Pending) && ListOk(s, Retry) && LockOk(s, Pending) && LockOk(s, Retry) && SerialsOk(s)
             && ReleaseOk(s)
    requires Registers(s, s', e) && s'.release == s.release
    requires var lock := s.LockOf(s.entries[e].list); Registering(lock) == None || Registering(lock) == Some(e)
    requires var lock', at' := s'.LockOf(s.entries[e].list), s'.entries[e].at;
             && (lock'.Free? || Registering(lock').Some?)
             && Registering(lock') == (if InRegistration(at') then Some(e) else None)
             && (Registering(lock').Some? ==> at' == RegisteringAt(lock'))
    requires Registering(s'.LockOf(s.entries[e].list)).Some? ==> !Drained(s, s.entries[e].list)
    requires DrawsSerial(s, s', e) || (!InRegistration(s'.entries[e].at) && s'.serial == s.serial)
    ensures ListOk(s', Pending) && ListOk(s', Retry) && LockOk(s', Pending) && LockOk(s', Retry)
    ensures SerialsOk(s') && ReleaseOk(s')
  {
    RegistersLists(s, s', e);
    SerialsRegister(s, s', e);
  }

  lemma ArmOk(s: State, e: nat)
    requires RegistrationEnabled(s, Arm(e)) && !s.UnmountPending()
    requires EntryOk(s, e) && IrpOk(s, s.entries[e].irp.value)
    ensures IrpOk(ArmStep(s, e), s.entries[e].irp.value) && EntryOk(ArmStep(s, e), e)
  {
  }

  lemma ArmTouches(s: State, e: nat)
    requires RegistrationEnabled(s, Arm(e)) && !s.UnmountPending()
    requires EntryOk(s, e)
    ensures Touches(s, ArmStep(s, e), s.entries[e].irp.value, e) && Registers(s, ArmStep(s, e), e)
    ensures ContextsOk(s) ==> ContextsOk(ArmStep(s, e))
  {
  }

  lemma KeepsArm(s: State, e: nat)
    requires Inv(s) && RegistrationEnabled(s, Arm(e))
    ensures Inv(ArmStep(s, e))
  {
    if s.UnmountPending() {
      KeepsRefused(s, e);
    } else {
      assert EntryOk(s, e) && IrpOk(s, s.entries[e].irp.value);
      ArmOk(s, e);
      ArmTouches(s, e);
      KeepsRegistration(s, ArmStep(s, e), e, s.entries[e].irp.value);
    }
  }

  lemma CommitOk(s: State, e: nat)
    requires Resolved(s, e) && (s.entries[e].at.Armed? || s.entries[e].at.Doubted?)
    requires EntryOk(s, e) && IrpOk(s, s.entries[e].irp.value)
    requires var irp := s.irps[s.entries[e].irp.value]; irp.cancel.NoCancel? || irp.slot.None?
    ensures var i, s' := s.entries[e].irp.value, CommitStep(s, e);
            IrpOk(s', i) && EntryOk(s', e) && Touches(s, s', i, e) && Registers(s, s', e)
    ensures ContextsOk(s) ==> ContextsOk(CommitStep(s, e))
  {
  }

  lemma KeepsCommit(s: State, e: nat)
    requires Inv(s) && Resolved(s, e) && (s.entries[e].at.Armed? || s.entries[e].at.Doubted?)
    requires var irp := s.irps[s.entries[e].irp.value]; irp.cancel.NoCancel? || irp.slot.None?
    ensures Inv(CommitStep(s, e))
  {
    var i := s.entries[e].irp.value;
    assert EntryOk(s, e) && IrpOk(s, i);
    CommitOk(s, e);
    KeepsRegistration(s, CommitStep(s, e), e, i);
  }

  lemma DoubtOk(s: State, e: nat)
    requires Resolved(s, e) && s.entries[e].at.Armed? && EntryOk(s, e) && IrpOk(s, s.entries[e].irp.value)
    requires !s.irps[s.entries[e].irp.value].cancel.NoCancel?
    ensures var i, s' := s.entries[e].irp.value, TestCancelStep(s, e);
            IrpOk(s', i) && EntryOk(s', e) && Touches(s, s', i, e) && Registers(s, s', e)
    ensures ContextsOk(s) ==> ContextsOk(TestCancelStep(s, e))
  {
  }

  lemma KeepsTestCancel(s: State, e: nat)
    requires Inv(s) && RegistrationEnabled(s, TestCancel(e))
    ensures Inv(TestCancelStep(s, e))
  {
    var i := s.entries[e].irp.value;
    if s.irps[i].cancel.NoCancel? {
      KeepsCommit(s, e);
    } else {
      assert EntryOk(s, e) && IrpOk(s, i);
      DoubtOk(s, e);
      KeepsRegistration(s, TestCancelStep(s, e), e, i);
    }
  }

  lemma BackOutOk(s: State, e: nat)
    requires Resolved(s, e) && s.entries[e].at.Doubted? && s.irps[s.entries[e].irp.value].slot.Some?
    requires EntryOk(s, e) && IrpOk(s, s.entries[e].irp.value)
    ensures IrpOk(BackOutStep(s, e), s.entries[e].irp.value) && EntryOk(BackOutStep(s, e), e)
  {
  }

  lemma BackOutTouches(s: State, e: nat)
    requires Resolved(s, e) && s.entries[e].at.Doubted? && s.irps[s.entries[e].irp.value].slot.Some?
    requires EntryOk(s, e)
    ensures Touches(s, BackOutStep(s, e), s.entries[e].irp.value, e) && Registers(s, BackOutStep(s, e), e)
    ensures ContextsOk(s) ==> ContextsOk(BackOutStep(s, e))
  {
  }

  lemma KeepsBackOut(s: State, e: nat)
    requires Inv(s) && RegistrationEnabled(s, BackOut(e))
    ensures Inv(BackOutStep(s, e))
  {
    var i := s.entries[e].irp.value;
    if s.irps[i].slot.None? {
      KeepsCommit(s, e);
    } else {
      assert EntryOk(s, e) && IrpOk(s, i);
      BackOutOk(s, e);
      BackOutTouches(s, e);
      KeepsRegistration(s, BackOutStep(s, e), e, i);
    }
  }

  // ------------------------------------------------------------------------------------------
  // Insertion
  // ------------------------------------------------------------------------------------------

  lemma InsertHere(s: State, e: nat)
    requires e in s.entries && ListOk(s, s.entries[e].list) && LockOk(s, s.entries[e].list)
    requires s.LockOf(s.entries[e].list) == Inserting(e)
    ensures ListOk(InsertStep(s, e), s.entries[e].list) && LockOk(InsertStep(s, e), s.entries[e].list)
  {
    var s', l := InsertStep(s, e), s.entries[e].list;
    assert e !in s.List(l);
    assert forall f :: f in s'.List(l) <==> f in s.List(l) || f == e;
    assert NoRepeat(s'.List(l));
  }

  lemma InsertThere(s: State, e: nat, l: ListId)
    requires e in s.entries && s.entries[e].list != l && ListOk(s, l) && LockOk(s, l)
    ensures ListOk(InsertStep(s, e), l) && LockOk(InsertStep(s, e), l)
  {
  }

  lemma InsertSerials(s: State, e: nat)
    requires SerialsOk(s) && e in s.entries && s.LockOf(s.entries[e].list) == Inserting(e)
    ensures SerialsOk(InsertStep(s, e))
  {
    var s' := InsertStep(s, e);
    if s.entries[e].list.Pending? {
      assert forall f :: f in s'.pending ==> f in s.pending || f == e;
      assert Serials(s'.entries, s'.pending) == Serials(s.entries, s.pending) + [s.entries[e].serial];
    } else {
      assert Serials(s'.entries, s'.pending) == Serials(s.entries, s.pending);
    }
  }

  lemma InsertOk(s: State, e: nat)
    requires Resolved(s, e) && s.entries[e].at.Linking?
    requires EntryOk(s, e) && IrpOk(s, s.entries[e].irp.value)
    ensures var i, s' := s.entries[e].irp.value, InsertStep(s, e);
            IrpOk(s', i) && EntryOk(s', e) && Touches(s, s', i, e)
  {
  }

  lemma KeepsInsert(s: State, e: nat)
    requires Inv(s) && Resolved(s, e) && s.LockOf(s.entries[e].list) == Inserting(e)
    ensures Inv(InsertStep(s, e))
  {
    var i, s', l := s.entries[e].irp.value, InsertStep(s, e), s.entries[e].list;
    assert CoreOk(s') by {
      InsertOk(s, e);
      CoreFrame(s, s', i, e);
    }
    var other := if l.Pending? then Retry else Pending;
    assert ListOk(s', l) && LockOk(s', l) by { InsertHere(s, e); }
    assert ListOk(s', other) && LockOk(s', other) by { InsertThere(s, e, other); }
    assert SerialsOk(s') by { InsertSerials(s, e); }
  }

  // ------------------------------------------------------------------------------------------
  // The cancel routine's section under the lock
  // ------------------------------------------------------------------------------------------

  lemma {:induction false} RemovedAbsent(s: seq<nat>, e: nat)
    requires e !in s
    ensures Removed(s, e) == s
  {
    if s != [] { RemovedAbsent(s[1..], e); }
  }

  lemma {:induction false} RemovedAt(s: seq<nat>, k: nat)
    requires k < |s| && NoRepeat(s)
    ensures Removed(s, s[k]) == Without(s, k)
  {
    if k > 0 {
      RemovedAt(s[1..], k - 1);
      assert Without(s, k) == [s[0]] + Without(s[1..], k - 1);
    }
  }

  /** The cancel routine of a consistent IRP finds the IRP's own entry. */
  lemma CancelSectionEntry(s: State, i: nat)
    requires CancelEnabled(s, CancelSection(i)) && IrpOk(s, i)
    ensures var e := s.irps[i].cancel.entry;
            && s.irps[i].holder.Canceling? && ActiveEntry(s.irps[i]) == Some(e) && s.entries[e].irp == Some(i)
            && CancelingOk(s.irps[i], s.entries[e])
  {
  }

  lemma CancelSectionTouches(s: State, i: nat)
    requires CancelEnabled(s, CancelSection(i)) && IrpOk(s, i)
    ensures Touches(s, CancelSectionStep(s, i), i, s.irps[i].cancel.entry)
  {
    CancelSectionEntry(s, i);
  }

  lemma CancelSectionOk(s: State, i: nat)
    requires CancelEnabled(s, CancelSection(i)) && IrpOk(s, i) && EntryOk(s, s.irps[i].cancel.entry)
    ensures var e, s' := s.irps[i].cancel.entry, CancelSectionStep(s, i);
            && IrpOk(s', i) && EntryOk(s', e) && NoRole(s', e)
            && s'.entries[e].serial == s.entries[e].serial
  {
    CancelSectionEntry(s, i);
  }

  lemma CancelSectionContexts(s: State, i: nat)
    requires CancelEnabled(s, CancelSection(i)) && ContextsOk(s)
    ensures ContextsOk(CancelSectionStep(s, i))
  {
    var s' := CancelSectionStep(s, i);
    if s.irps[i].kind.Write? && s.irps[i].driverEvent.Some? { ContextReleased(s, s', i); }
  }

  lemma KeepsCancelSection(s: State, i: nat)
    requires Inv(s) && CancelEnabled(s, CancelSection(i))
    ensures Inv(CancelSectionStep(s, i))
  {
    var e := s.irps[i].cancel.entry;
    assert IrpOk(s, i) && EntryOk(s, e);
    CancelSectionOk(s, i);
    CancelSectionTouches(s, i);
    CancelSectionContexts(s, i);
    if s.entries[e].at.OnList? { CancelListed(s, i, e); } else { CancelElsewhere(s, i, e); }
  }

  /** The section takes the entry off its list. */
  lemma CancelListed(s: State, i: nat, e: nat)
    requires Inv(s) && CancelEnabled(s, CancelSection(i)) && e == s.irps[i].cancel.entry && s.entries[e].at.OnList?
    requires var s' := CancelSectionStep(s, i);
             && Touches(s, s', i, e) && IrpOk(s', i) && EntryOk(s', e) && ContextsOk(s') && NoRole(s', e)
             && s'.entries[e].serial == s.entries[e].serial
    ensures Inv(CancelSectionStep(s, i))
  {
    var l := s.entries[e].list;
    var k := ListedPosition(s, i, e);
    KeepsUnlink(s, CancelSectionStep(s, i), l, k, i);
  }

  lemma ListedPosition(s: State, i: nat, e: nat) returns (k: nat)
    requires ListOk(s, Pending) && ListOk(s, Retry)
    requires CancelEnabled(s, CancelSection(i)) && e == s.irps[i].cancel.entry && s.entries[e].at.OnList?
    ensures var l := s.entries[e].list;
            && k < |s.List(l)| && s.List(l)[k] == e
            && SameLists(s.WithList(l, Without(s.List(l), k)), CancelSectionStep(s, i))
            && Leaves(s, CancelSectionStep(s, i), e)
  {
    var l := s.entries[e].list;
    k := PositionOf(s, l, e);
    RemovedAt(s.List(l), k);
    SectionUnlinks(s, i, l, k);
  }

  lemma SectionUnlinks(s: State, i: nat, l: ListId, k: nat)
    requires CancelEnabled(s, CancelSection(i)) && k < |s.List(l)| && s.List(l)[k] == s.irps[i].cancel.entry
    requires s.entries[s.List(l)[k]].list == l && Removed(s.List(l), s.List(l)[k]) == Without(s.List(l), k)
    ensures SameLists(s.WithList(l, Without(s.List(l), k)), CancelSectionStep(s, i))
    ensures Leaves(s, CancelSectionStep(s, i), s.List(l)[k])
  {
  }

  lemma PositionOf(s: State, l: ListId, e: nat) returns (k: nat)
    requires ListOk(s, l) && EntryAt(s, e, OnList) && s.entries[e].list == l
    ensures k < |s.List(l)| && s.List(l)[k] == e
  {
    k :| 0 <= k < |s.List(l)| && s.List(l)[k] == e;
  }

  /** The section finds the entry already off its list, or not yet on it. */
  lemma CancelElsewhere(s: State, i: nat, e: nat)
    requires Inv(s) && CancelEnabled(s, CancelSection(i)) && e == s.irps[i].cancel.entry && !s.entries[e].at.OnList?
    requires var s' := CancelSectionStep(s, i);
             Touches(s, s', i, e) && IrpOk(s', i) && EntryOk(s', e) && ContextsOk(s') && NoRole(s', e)
    ensures Inv(CancelSectionStep(s, i))
  {
    var l := s.entries[e].list;
    assert e !in s.List(l);
    RemovedAbsent(s.List(l), e);
    assert IrpOk(s, i);
    CancelSectionEntry(s, i);
    CancelUnlisted(s, CancelSectionStep(s, i), i, e);
  }

  /** The entry is on no list: it is alone, or its registration goes on. */
  lemma CancelUnlisted(s: State, s': State, i: nat, e: nat)
    requires Inv(s) && Touches(s, s', i, e) && SameLists(s, s')
    requires IrpOk(s', i) && (e in s'.entries ==> EntryOk(s', e)) && ContextsOk(s')
    requires NoRole(s, e) && NoRole(s', e)
    ensures Inv(s')
  {
    KeepsAside(s, s', i, e);
  }

  // ------------------------------------------------------------------------------------------
  // Unmount
  // ------------------------------------------------------------------------------------------

  lemma KeepsRelease(s: State, r: Release)
    requires Inv(s) && ReleaseOk(s.(release := r))
    ensures Inv(s.(release := r))
  {
    CoreKept(s, s.(release := r));
  }

  /** MoveIrpList left the list empty and drops the lock; the releaser records that it is done. */
  lemma KeepsDrainUnlock(s: State, l: ListId)
    requires Inv(s) && LockEnabled(s, DrainUnlock(l))
    ensures Inv(LockStep(s, DrainUnlock(l)))
  {
    var s1 := s.WithLock(l, Free);
    KeepsRelock(s, l, Free);
    if s.LockOf(l).dest.ToRelease? {
      KeepsRelease(s1, if l.Pending? then DrainedPending else DrainedBoth);
    }
  }

  // ------------------------------------------------------------------------------------------
  // Every action, every run
  // ------------------------------------------------------------------------------------------

  lemma KeepsDispatchAction(s: State, a: DispatchAction)
    requires Inv(s) && DispatchEnabled(s, a)
    ensures Inv(DispatchStep(s, a))
  {
    match a
    case Arrive(i, kind) => KeepsArrive(s, i, kind);
    case DispatchComplete(i) => KeepsDispatchComplete(s, i);
    case AttachContext(i, c) => KeepsAttachContext(s, i, c);
    case DropContext(i) => KeepsDropContext(s, i);
    case Post(i) => KeepsPost(s, i);
    case OplockFail(i) => KeepsOplockFail(s, i);
    case Refuse(i, why) => KeepsRefuse(s, i, why);
    case Allocate(i, e, l) => KeepsAllocate(s, i, e, l);
  }

  /** The steps of RegisterPendingIrpMain from the second unmount check on. */
  lemma KeepsRegistrationAction(s: State, a: RegistrationAction)
    requires Inv(s) && RegistrationEnabled(s, a)
    ensures Inv(RegistrationStep(s, a))
  {
    match a
    case Arm(e) => KeepsArm(s, e);
    case TestCancel(e) => KeepsTestCancel(s, e);
    case BackOut(e) => KeepsBackOut(s, e);
    case Insert(e) => KeepsInsert(s, e);
  }

  lemma KeepsCancelAction(s: State, a: CancelAction)
    requires Inv(s) && CancelEnabled(s, a)
    ensures Inv(CancelStep(s, a))
  {
    match a
    case RaiseCancel(i) => KeepsRaiseCancel(s, i);
    case TakeRoutine(i) => KeepsTakeRoutine(s, i);
    case ReadEntry(i) => KeepsReadEntry(s, i);
    case MarkForced(i) => KeepsMarkForced(s, i);
    case CancelSection(i) => KeepsCancelSection(s, i);
    case CancelComplete(i) => KeepsCancelComplete(s, i);
  }

  lemma KeepsWalkAction(s: State, a: WalkAction)
    requires Inv(s) && WalkEnabled(s, a)
    ensures Inv(WalkStep(s, a))
  {
    match a
    case ReplyMatch(k) => KeepsReplyMatch(s, k);
    case WriteMatch(k) => KeepsWriteMatch(s, k);
    case ScanExpire(k) => KeepsScanExpire(s, k);
    case DrainPop(l) => KeepsDrainPop(s, l);
  }

  lemma KeepsFinishAction(s: State, a: FinishAction)
    requires Inv(s) && FinishEnabled(s, a)
    ensures Inv(FinishStep(s, a))
  {
    FinishIsLocal(a);
    if a.Redispatch? { KeepsGiveBack(s, a.e); }
    else if a.ReplyAbandon? { KeepsForget(s, a.e); }
    else if a.ReplyCheck? { KeepsPass(s, a.e); }
    else { KeepsRetire(s, a.e); }
  }

  lemma FinishIsLocal(a: FinishAction)
    ensures IsLocal(FinishPlace(a))
  {
  }

  /** The lock that a walk of the pending list takes or drops. */
  function WalkLock(a: LockAction): Lock {
    match a
    case ReplyLock(todo) => Replying(todo)
    case WriteLock(serial) => WritingEvent(serial)
    case ScanLock => Scanning
    case _ => Free
  }

  predicate IsWalkLock(a: LockAction) {
    a.ReplyLock? || a.ReplyUnlock? || a.WriteLock? || a.WriteUnlock? || a.ScanLock? || a.ScanUnlock?
  }

  lemma WalkLockIs(s: State, a: LockAction)
    requires IsWalkLock(a) && LockEnabled(s, a)
    ensures LockStep(s, a) == s.WithLock(Pending, WalkLock(a)) && Registering(s.pendingLock).None?
  {
  }

  lemma KeepsLockAction(s: State, a: LockAction)
    requires Inv(s) && LockEnabled(s, a)
    ensures Inv(LockStep(s, a))
  {
    if IsWalkLock(a) {
      WalkLockIs(s, a);
      KeepsRelock(s, Pending, WalkLock(a));
    } else {
      match a
      case DrainLock(l, dest) => KeepsRelock(s, l, Draining(dest));
      case DrainUnlock(l) => KeepsDrainUnlock(s, l);
      case ClaimRelease => KeepsRelease(s, Claimed);
      case SetDismount => KeepsRelease(s, Dismounting);
    }
  }

  lemma KeepsStep(s: State, a: Action)
    requires Inv(s) && Enabled(s, a)
    ensures Inv(Step(s, a))
  {
    match a
    case OfDispatch(d) => KeepsDispatchAction(s, d);
    case OfRegistration(r) => KeepsRegistrationAction(s, r);
    case OfCancel(c) => KeepsCancelAction(s, c);
    case OfWalk(w) => KeepsWalkAction(s, w);
    case OfFinish(f) => KeepsFinishAction(s, f);
    case OfLock(l) => KeepsLockAction(s, l);
  }

  lemma {:induction false} KeepsRun(s: State, run: seq<Action>)
    requires Inv(s) && IsRun(s, run)
    ensures Inv(After(s, run))
    decreases |run|
  {
    if run != [] {
      KeepsStep(s, run[0]);
      KeepsRun(Step(s, run[0]), run[1..]);
    }
  }

  lemma InitOk()
    ensures Inv(INIT)
  {
  }

  // ------------------------------------------------------------------------------------------
  // Results
  // ------------------------------------------------------------------------------------------

  /** No IRP is completed twice, no entry and no write context is freed twice, in any interleaving. */
  lemma {:induction false} NothingHappensTwice(run: seq<Action>)
    requires IsRun(INIT, run)
    ensures var s := After(INIT, run);
            && (forall i :: i in s.irps ==> s.irps[i].completions <= 1)
            && (forall e :: e in s.entries ==> s.entries[e].frees <= 1)
            && (forall c :: c in s.contexts ==> s.contexts[c].frees <= 1)
  {
    InitOk();
    KeepsRun(INIT, run);
    var s := After(INIT, run);
    forall i | i in s.irps ensures s.irps[i].completions <= 1 { assert IrpOk(s, i); }
    forall e | e in s.entries ensures s.entries[e].frees <= 1 { assert EntryOk(s, e); }
  }

  /** Every listed entry still has its IRP, so the branches for an entry "already canceled" are dead. */
  lemma {:induction false} ListedEntriesHaveIrps(run: seq<Action>, l: ListId, k: nat)
    requires IsRun(INIT, run) && k < |After(INIT, run).List(l)|
    ensures var s := After(INIT, run);
            var e := s.List(l)[k];
            && Resolved(s, e)
            && s.entries[e].frees == 0
            && !s.entries[e].routineFrees
            && s.irps[s.entries[e].irp.value].completions == 0
  {
    InitOk();
    KeepsRun(INIT, run);
    var s := After(INIT, run);
    KeepsDiscardFree(s, l, k);
    assert EntryOk(s, s.List(l)[k]);
    assert IrpOk(s, s.entries[s.List(l)[k]].irp.value);
  }

  /** The list and the position at which a walk acts, and the entry there. */
  function WalkList(a: WalkAction): ListId { if a.DrainPop? then a.list else Pending }

  function WalkPosition(a: WalkAction): nat { if a.DrainPop? then 0 else a.k }

  function Matched(s: State, a: WalkAction): nat
    requires WalkEnabled(s, a)
  {
    s.List(WalkList(a))[WalkPosition(a)]
  }

  /** The entry that an action reads, writes or frees. */
  function Target(s: State, a: Action): Option<nat>
    requires Enabled(s, a)
  {
    match a
    case OfRegistration(r) => Some(r.e)
    case OfCancel(c) => if c.MarkForced? || c.CancelSection? then Some(s.irps[c.i].cancel.entry) else None
    case OfWalk(w) => Some(Matched(s, w))
    case OfFinish(f) => Some(f.e)
    case _ => None
  }

  lemma ListedTargetIsLive(s: State, l: ListId, k: nat)
    requires CoreOk(s) && ListOk(s, l) && k < |s.List(l)|
    ensures s.List(l)[k] in s.entries && s.entries[s.List(l)[k]].frees == 0
  {
    assert s.List(l)[k] in s.List(l);
    assert EntryOk(s, s.List(l)[k]);
  }

  lemma CancelTargetIsLive(s: State, i: nat)
    requires CoreOk(s) && (CancelEnabled(s, MarkForced(i)) || CancelEnabled(s, CancelSection(i)))
    ensures s.entries[s.irps[i].cancel.entry].frees == 0
  {
    assert IrpOk(s, i) && EntryOk(s, s.irps[i].cancel.entry);
  }

  /** The entry that the owner of a lock is registering is armed or being linked. */
  lemma RegisteringIsInPlace(s: State, e: nat)
    requires e in s.entries && LockOk(s, s.entries[e].list) && Registering(s.LockOf(s.entries[e].list)) == Some(e)
    ensures InRegistration(s.entries[e].at)
  {
  }

  lemma RegisteredTargetIsLive(s: State, a: RegistrationAction)
    requires CoreOk(s) && LockOk(s, Pending) && LockOk(s, Retry) && RegistrationEnabled(s, a)
    ensures s.entries[a.e].frees == 0
  {
    assert EntryOk(s, a.e);
    if !a.Arm? { RegisteringIsInPlace(s, a.e); }
  }

  lemma LocalTargetIsLive(s: State, e: nat)
    requires CoreOk(s) && e in s.entries && IsLocal(s.entries[e].at)
    ensures s.entries[e].frees == 0
  {
    assert EntryOk(s, e);
  }

  predicate IsLive(s: State, e: Option<nat>) {
    e.Some? ==> e.value in s.entries && s.entries[e.value].frees == 0
  }

  lemma TargetIsLive(s: State, a: Action)
    requires Inv(s) && Enabled(s, a)
    ensures IsLive(s, Target(s, a))
  {
    match a
    case OfRegistration(r) => RegisteredTargetIsLive(s, r);
    case OfCancel(c) => if c.MarkForced? || c.CancelSection? { CancelTargetIsLive(s, c.i); }
    case OfWalk(w) => ListedTargetIsLive(s, WalkList(w), WalkPosition(w));
    case OfFinish(f) =>
      FinishIsLocal(f);
      LocalTargetIsLive(s, f.e);
    case _ =>
  }

  /** No thread touches an entry after it was freed. */
  lemma {:induction false} NoUseAfterFree(run: seq<Action>, a: Action)
    requires IsRun(INIT, run) && Enabled(After(INIT, run), a)
    ensures IsLive(After(INIT, run), Target(After(INIT, run), a))
  {
    InitOk();
    KeepsRun(INIT, run);
    TargetIsLive(After(INIT, run), a);
  }

  /** When a cancel routine starts, DriverContext[DRIVER_CONTEXT_IRP_ENTRY] is never NULL. */
  lemma {:induction false} CancelRoutineFindsEntry(run: seq<Action>, i: nat)
    requires IsRun(INIT, run) && CancelEnabled(After(INIT, run), ReadEntry(i))
    ensures After(INIT, run).irps[i].driverEntry.Some?
  {
    InitOk();
    KeepsRun(INIT, run);
    KeepsReadEntry(After(INIT, run), i);
  }

  /** Leaving out zeros, serial numbers on the pending list strictly increase in every reachable state. */
  lemma {:induction false} SerialsAscend(run: seq<Action>)
    requires IsRun(INIT, run)
    ensures var s := After(INIT, run);
            && (forall e :: e in s.pending ==> e in s.entries)
            && Ascending(Serials(s.entries, s.pending))
            && AllAtMost(Serials(s.entries, s.pending), s.serial)
  {
    InitOk();
    KeepsRun(INIT, run);
  }

  lemma {:induction false} AfterConcat(s: State, r1: seq<Action>, r2: seq<Action>)
    requires IsRun(s, r1) && IsRun(After(s, r1), r2)
    ensures IsRun(s, r1 + r2) && After(s, r1 + r2) == After(After(s, r1), r2)
    decreases |r1|
  {
    if r1 == [] {
      assert r1 + r2 == r2;
    } else {
      AfterConcat(Step(s, r1[0]), r1[1..], r2);
      assert (r1 + r2)[1..] == r1[1..] + r2;
    }
  }

  /** Only the releaser changes the release. */
  lemma ReleaseUntouched(s: State, a: Action)
    requires Enabled(s, a) && !a.OfLock?
    ensures Step(s, a).release == s.release
  {
    match a
    case OfDispatch(d) => DispatchKeepsRelease(s, d);
    case OfRegistration(r) => RegistrationKeepsRelease(s, r);
    case OfCancel(c) => CancelKeepsRelease(s, c);
    case OfWalk(w) => WalkKeepsRelease(s, w);
    case OfFinish(_) =>
  }

  lemma RegistrationKeepsRelease(s: State, a: RegistrationAction)
    requires RegistrationEnabled(s, a)
    ensures RegistrationStep(s, a).release == s.release
  {
  }

  lemma DispatchKeepsRelease(s: State, a: DispatchAction)
    requires DispatchEnabled(s, a)
    ensures DispatchStep(s, a).release == s.release
  {
  }

  lemma WalkKeepsRelease(s: State, a: WalkAction)
    requires WalkEnabled(s, a)
    ensures WalkStep(s, a).release == s.release
  {
  }

  lemma CancelKeepsRelease(s: State, a: CancelAction)
    requires CancelEnabled(s, a)
    ensures CancelStep(s, a).release == s.release
  {
  }

  /** The unmount flag is set by the claim of the release and never cleared. */
  lemma UnmountFlag(s: State, a: Action)
    requires ReleaseOk(s) && Enabled(s, a)
    ensures Step(s, a).UnmountPending() <==> s.UnmountPending() || a == OfLock(ClaimRelease)
  {
    if !a.OfLock? { ReleaseUntouched(s, a); }
  }

  lemma DrainedStep(s: State, a: Action, l: ListId)
    requires ReleaseOk(s) && Drained(s, l) && Enabled(s, a)
    ensures Drained(Step(s, a), l)
  {
    if !a.OfLock? { ReleaseUntouched(s, a); }
  }

  lemma {:induction false} DrainedForever(s: State, run: seq<Action>, l: ListId)
    requires Inv(s) && Drained(s, l) && IsRun(s, run)
    ensures Drained(After(s, run), l)
    decreases |run|
  {
    if run != [] {
      KeepsStep(s, run[0]);
      DrainedStep(s, run[0], l);
      DrainedForever(Step(s, run[0]), run[1..], l);
    }
  }

  /** Once the release has drained a list, it is empty in every later state, whatever was in flight. */
  lemma {:induction false} DrainedStaysEmpty(run: seq<Action>, later: seq<Action>, l: ListId)
    requires IsRun(INIT, run) && Drained(After(INIT, run), l)
    requires IsRun(After(INIT, run), later)
    ensures After(After(INIT, run), later).List(l) == []
  {
    InitOk();
    KeepsRun(INIT, run);
    KeepsRun(After(INIT, run), later);
    DrainedForever(After(INIT, run), later, l);
  }

  lemma {:induction false} Cons(s: State, a: Action, rest: seq<Action>)
    requires Enabled(s, a) && IsRun(Step(s, a), rest)
    ensures IsRun(s, [a] + rest) && After(s, [a] + rest) == After(Step(s, a), rest)
  {
    assert ([a] + rest)[1..] == rest;
  }

  lemma {:induction false} Extend(run: seq<Action>, a: Action)
    requires IsRun(INIT, run) && Enabled(After(INIT, run), a)
    ensures IsRun(INIT, run + [a]) && After(INIT, run + [a]) == Step(After(INIT, run), a)
  {
    var s := After(INIT, run);
    Cons(s, a, []);
    assert [a] + [] == [a];
    AfterConcat(INIT, run, [a]);
  }
}
