/**
  What the pending-IRP protocol does not guarantee: exactly which steps lose an IRP, and exactly which IRPs
  are bound to be lost.
*/
module PendingIrpLoss {
  import opened Options
  import opened PendingIrp
  import opened PendingIrpSafety

  // ------------------------------------------------------------------------------------------
  // An action changes one IRP and one entry
  // ------------------------------------------------------------------------------------------

  /** The IRP that an action changes. */
  function Subject(s: State, a: Action): Option<nat>
    requires Enabled(s, a)
  {
    match a
    case OfDispatch(d) => Some(d.i)
    case OfRegistration(r) => s.entries[r.e].irp
    case OfCancel(c) => Some(c.i)
    case OfWalk(w) => if Matched(s, w) in s.entries then s.entries[Matched(s, w)].irp else None
    case OfFinish(f) => s.entries[f.e].irp
    case OfLock(_) => None
  }

  /** A walk meets an entry that has its IRP. */
  predicate Meets(s: State, a: WalkAction) { WalkEnabled(s, a) && Resolved(s, Matched(s, a)) }

  /** The exchange returns NULL, and the entry is left to the cancel routine. */
  predicate WalkAbandons(s: State, a: WalkAction)
    requires Meets(s, a)
  {
    var entry := s.entries[Matched(s, a)];
    s.irps[entry.irp.value].slot.None? && (a.WriteMatch? || !entry.forced)
  }

  /** The local list to which a walk moves an entry that it owns. */
  function ClaimDest(s: State, a: WalkAction): Place
    requires Meets(s, a)
  {
    match a
    case DrainPop(l) => s.LockOf(l).dest
    case ScanExpire(_) => ToTimeOut
    case _ => if s.entries[Matched(s, a)].forced then ToForceCancel else ToReply
  }

  /** A walk abandons the entry, claims it, or hands the write context over. */
  function MatchStep(s: State, a: WalkAction): State
    requires Meets(s, a)
  {
    var l, k := WalkList(a), WalkPosition(a);
    var i := s.entries[Matched(s, a)].irp.value;
    if WalkAbandons(s, a) then Abandon(s, l, k, if a.WriteMatch? then Some(IrpRoutine) else None)
    else if a.WriteMatch? then HandOver(s.WithLock(Pending, Free), i)
    else Claim(s, l, k, ClaimDest(s, a), if a.DrainPop? then s.irps[i].driverEntry else None)
  }

  lemma MatchStepIs(s: State, a: WalkAction)
    requires Meets(s, a)
    ensures WalkStep(s, a) == MatchStep(s, a)
  {
    match a
    case ReplyMatch(_) =>
    case WriteMatch(_) =>
    case ScanExpire(_) =>
    case DrainPop(_) =>
  }

  /** What `Inv` says about the entry that a walk meets. */
  lemma MatchedOk(s: State, a: WalkAction)
    requires Inv(s) && WalkEnabled(s, a)
    ensures Meets(s, a) && ListedEntryOk(s, Matched(s, a))
    ensures ActiveEntry(s.irps[s.entries[Matched(s, a)].irp.value]) == Some(Matched(s, a))
  {
    KeepsDiscardFree(s, WalkList(a), WalkPosition(a));
    assert EntryOk(s, Matched(s, a)) && IrpOk(s, s.entries[Matched(s, a)].irp.value);
  }

  /** All IRPs of `s` are there, and all but `j` are as they were. */
  predicate IrpsBut(s: State, t: State, j: nat) {
    && t.irps.Keys == s.irps.Keys
    && forall i :: i in s.irps && i != j ==> t.irps[i] == s.irps[i]
  }

  /** All entries of `s` are there, and all but `e` are as they were. */
  predicate EntriesBut(s: State, t: State, e: nat) {
    && t.entries.Keys == s.entries.Keys
    && forall f :: f in s.entries && f != e ==> t.entries[f] == s.entries[f]
  }

  lemma DispatchFrame(s: State, a: DispatchAction)
    requires DispatchEnabled(s, a)
    ensures var t := DispatchStep(s, a);
            && t.irps.Keys == s.irps.Keys + {a.i}
            && (forall i :: i in s.irps && i != a.i ==> t.irps[i] == s.irps[i])
            && (forall f :: f in s.entries ==> f in t.entries && t.entries[f] == s.entries[f])
            && SameLists(s, t)
  {
    match a
    case Arrive(_, _) =>
    case DispatchComplete(_) =>
    case AttachContext(_, _) =>
    case DropContext(_) =>
    case Post(_) =>
    case OplockFail(_) =>
    case Refuse(_, _) =>
    case Allocate(_, _, _) =>
  }

  lemma RefusedFrame(s: State, e: nat)
    requires Resolved(s, e)
    ensures var t := Refused(s, e);
            IrpsBut(s, t, s.entries[e].irp.value) && EntriesBut(s, t, e) && SameLists(s, t)
  {
  }

  lemma ArmFrame(s: State, e: nat)
    requires Resolved(s, e)
    ensures var t := ArmStep(s, e);
            && IrpsBut(s, t, s.entries[e].irp.value) && EntriesBut(s, t, e) && t.release == s.release
            && (s.entries[e].list.Retry? ==> t.pendingLock == s.pendingLock && t.pending == s.pending)
  {
    if s.UnmountPending() { RefusedFrame(s, e); }
  }

  lemma BackOutFrame(s: State, e: nat)
    requires Resolved(s, e)
    ensures var t := BackOutStep(s, e);
            && IrpsBut(s, t, s.entries[e].irp.value) && EntriesBut(s, t, e) && t.release == s.release
            && (s.entries[e].list.Retry? ==> t.pendingLock == s.pendingLock && t.pending == s.pending)
  {
    var i := s.entries[e].irp.value;
    RefusedFrame(s.WithLock(s.entries[e].list, Free).WithIrp(i, s.irps[i].(slot := None, driverEntry := None)), e);
  }

  lemma RegistrationFrame(s: State, a: RegistrationAction)
    requires RegistrationEnabled(s, a)
    ensures var t := RegistrationStep(s, a);
            && IrpsBut(s, t, s.entries[a.e].irp.value) && EntriesBut(s, t, a.e) && t.release == s.release
            && (s.entries[a.e].list.Retry? ==> t.pendingLock == s.pendingLock && t.pending == s.pending)
  {
    match a
    case Arm(e) => ArmFrame(s, e);
    case TestCancel(_) =>
    case BackOut(e) => BackOutFrame(s, e);
    case Insert(_) =>
  }

  lemma CancelFrame(s: State, a: CancelAction)
    requires CancelEnabled(s, a)
    ensures var t := CancelStep(s, a);
            && IrpsBut(s, t, a.i) && t.release == s.release && t.pendingLock == s.pendingLock
            && ((a.CancelSection? && s.entries[s.irps[a.i].cancel.entry].list.Pending?) || t.pending == s.pending)
            && if a.MarkForced? || a.CancelSection? then EntriesBut(s, t, s.irps[a.i].cancel.entry)
               else t.entries == s.entries
  {
    match a
    case RaiseCancel(_) =>
    case TakeRoutine(_) =>
    case ReadEntry(_) =>
    case MarkForced(_) =>
    case CancelSection(_) =>
    case CancelComplete(_) =>
  }

  lemma AbandonFrame(s: State, l: ListId, k: nat, slot: Option<Routine>)
    requires k < |s.List(l)| && Resolved(s, s.List(l)[k])
    ensures var t, e := Abandon(s, l, k, slot), s.List(l)[k];
            IrpsBut(s, t, s.entries[e].irp.value) && EntriesBut(s, t, e)
  {
  }

  lemma ClaimFrame(s: State, l: ListId, k: nat, dest: Place, driverEntry: Option<nat>)
    requires k < |s.List(l)| && Resolved(s, s.List(l)[k])
    ensures var t, e := Claim(s, l, k, dest, driverEntry), s.List(l)[k];
            IrpsBut(s, t, s.entries[e].irp.value) && EntriesBut(s, t, e)
  {
  }

  lemma WalkFrame(s: State, a: WalkAction)
    requires Meets(s, a)
    ensures var t := WalkStep(s, a);
            && IrpsBut(s, t, s.entries[Matched(s, a)].irp.value) && EntriesBut(s, t, Matched(s, a))
            && t.release == s.release && (!a.WriteMatch? ==> t.pendingLock == s.pendingLock)
            && (WalkList(a).Retry? ==> t.pending == s.pending)
  {
    MatchStepIs(s, a);
    var l, k := WalkList(a), WalkPosition(a);
    var i := s.entries[Matched(s, a)].irp.value;
    if WalkAbandons(s, a) { AbandonFrame(s, l, k, if a.WriteMatch? then Some(IrpRoutine) else None); }
    else if !a.WriteMatch? {
      ClaimFrame(s, l, k, ClaimDest(s, a), if a.DrainPop? then s.irps[i].driverEntry else None);
    }
  }

  lemma FinishFrame(s: State, a: FinishAction)
    requires Resolved(s, a.e)
    ensures var t := FinishStep(s, a);
            IrpsBut(s, t, s.entries[a.e].irp.value) && EntriesBut(s, t, a.e) && SameLists(s, t)
  {
  }

  lemma LockFrame(s: State, a: LockAction)
    requires LockEnabled(s, a)
    ensures var t := LockStep(s, a); t.irps == s.irps && t.entries == s.entries && t.pending == s.pending
  {
  }

  /** Only IRP `i` and entry `e` change, and only an arrival adds an IRP. */
  predicate Framed(s: State, t: State, arrived: set<nat>, i: Option<nat>, e: Option<nat>) {
    && t.irps.Keys == s.irps.Keys + arrived
    && (forall j :: j in s.irps && Some(j) != i ==> t.irps[j] == s.irps[j])
    && (forall f :: f in s.entries ==> f in t.entries)
    && (forall f :: f in s.entries && Some(f) != e ==> t.entries[f] == s.entries[f])
  }

  /** The IRP that an action brings in. */
  function New(a: Action): set<nat> { if a.OfDispatch? && a.d.Arrive? then {a.d.i} else {} }

  /** An action changes its subject and its target only. */
  lemma StepFramed(s: State, a: Action)
    requires Inv(s) && Enabled(s, a)
    ensures Framed(s, Step(s, a), New(a), Subject(s, a), Target(s, a))
  {
    match a
    case OfDispatch(d) => DispatchFrame(s, d);
    case OfRegistration(r) => RegistrationFrame(s, r);
    case OfCancel(c) => CancelFrame(s, c);
    case OfWalk(w) =>
      MatchedOk(s, w);
      WalkFrame(s, w);
    case OfFinish(f) => FinishFrame(s, f);
    case OfLock(l) => LockFrame(s, l);
  }

  lemma FinishCounts(s: State, a: FinishAction)
    requires Resolved(s, a.e)
    ensures var i := s.entries[a.e].irp.value; FinishStep(s, a).irps[i].completions >= s.irps[i].completions
  {
  }

  lemma WalkCounts(s: State, a: WalkAction)
    requires Meets(s, a)
    ensures var i := s.entries[Matched(s, a)].irp.value; WalkStep(s, a).irps[i].completions == s.irps[i].completions
  {
    MatchStepIs(s, a);
  }

  lemma DispatchCounts(s: State, a: DispatchAction)
    requires DispatchEnabled(s, a) && a.i in s.irps
    ensures DispatchStep(s, a).irps[a.i].completions >= s.irps[a.i].completions
  {
  }

  lemma RegistrationCounts(s: State, a: RegistrationAction)
    requires RegistrationEnabled(s, a)
    ensures var i := s.entries[a.e].irp.value; RegistrationStep(s, a).irps[i].completions == s.irps[i].completions
  {
    match a
    case Arm(_) =>
    case TestCancel(_) =>
    case BackOut(_) =>
    case Insert(_) =>
  }

  lemma CancelCounts(s: State, a: CancelAction)
    requires CancelEnabled(s, a)
    ensures CancelStep(s, a).irps[a.i].completions >= s.irps[a.i].completions
  {
  }

  lemma SubjectCounts(s: State, a: Action, j: nat)
    requires Enabled(s, a) && j in s.irps && Subject(s, a) == Some(j) && (a.OfWalk? ==> Meets(s, a.w))
    ensures j in Step(s, a).irps && Step(s, a).irps[j].completions >= s.irps[j].completions
  {
    match a
    case OfDispatch(d) => DispatchCounts(s, d);
    case OfRegistration(r) => RegistrationCounts(s, r);
    case OfCancel(c) => CancelCounts(s, c);
    case OfWalk(w) => WalkCounts(s, w);
    case OfFinish(f) => FinishCounts(s, f);
  }

  /** Completions are never taken back. */
  lemma CompletedStays(s: State, a: Action, j: nat)
    requires Inv(s) && Enabled(s, a) && j in s.irps
    ensures j in Step(s, a).irps && Step(s, a).irps[j].completions >= s.irps[j].completions
  {
    StepFramed(s, a);
    if a.OfWalk? { MatchedOk(s, a.w); }
    if Subject(s, a) == Some(j) { SubjectCounts(s, a, j); }
  }

  // ------------------------------------------------------------------------------------------
  // Exactly when an IRP is lost
  // ------------------------------------------------------------------------------------------

  predicate IsLost(s: State, i: nat) { i in s.irps && s.irps[i].holder.Lost? }

  /** A dispatch routine, the oplock package, a cancel routine or a thread with an entry has the IRP in hand. */
  predicate IsHeld(s: State, i: nat)
    requires i in s.irps
  {
    || s.irps[i].dispatching || s.irps[i].posted
    || s.irps[i].cancel.IrpStart? || s.irps[i].cancel.IrpHave? || s.irps[i].cancel.IrpUnlocked?
    || exists e :: e in s.entries && s.entries[e].irp == Some(i)
                   && (IsWaiting(s.entries[e].at) || IsLocal(s.entries[e].at))
  }

  lemma HeldByEntry(s: State, i: nat, e: nat)
    requires e in s.entries && EntryOk(s, e) && s.entries[e].irp == Some(i)
    requires IsWaiting(s.entries[e].at) || IsLocal(s.entries[e].at)
    ensures i in s.irps && ActiveEntry(s.irps[i]) == Some(e)
  {
  }

  /** In every reachable state an IRP is completed, in somebody's hands, or lost, and never two of these. */
  lemma {:induction false} CompletedHeldOrLost(run: seq<Action>, i: nat)
    requires IsRun(INIT, run) && i in After(INIT, run).irps
    ensures var s := After(INIT, run);
            && (IsLost(s, i) <==> s.irps[i].completions == 0 && !IsHeld(s, i))
            && (s.irps[i].completions == 1 ==> !IsHeld(s, i))
  {
    InitOk();
    KeepsRun(INIT, run);
    var s := After(INIT, run);
    assert IrpOk(s, i);
    forall e | e in s.entries && s.entries[e].irp == Some(i) && (IsWaiting(s.entries[e].at) || IsLocal(s.entries[e].at))
      ensures ActiveEntry(s.irps[i]) == Some(e)
    {
      assert EntryOk(s, e);
      HeldByEntry(s, i, e);
    }
    if s.irps[i].holder.Listed? || s.irps[i].holder.Local? {
      assert s.irps[i].holder.entry in s.entries;
    }
  }

  /** The walk finds the routine of a create taken: it leaves the entry to a routine that will not complete the IRP. */
  predicate DropsCreate(s: State, e: nat, eventWrite: bool, i: nat) {
    && Resolved(s, e) && s.entries[e].irp == Some(i)
    && s.irps[i].slot.None? && !s.irps[i].cancel.IrpStart? && !s.irps[i].cancel.IrpHave?
    && (eventWrite || !s.entries[e].forced)
  }

  /** A registration fails, and its caller takes no notice. */
  predicate RefusesUnheard(s: State, a: RegistrationAction, i: nat)
    requires RegistrationEnabled(s, a)
  {
    && s.entries[a.e].irp == Some(i) && !s.entries[a.e].heeded
    && ((a.Arm? && s.UnmountPending()) || (a.BackOut? && s.irps[i].slot.Some?))
  }

  /** The steps that lose IRP `i`. */
  predicate Loses(s: State, a: Action, i: nat)
    requires Enabled(s, a)
  {
    match a
    case OfDispatch(d) => d.Refuse? && d.i == i
    case OfRegistration(r) => RefusesUnheard(s, r, i)
    case OfWalk(w) => DropsCreate(s, Matched(s, w), w.WriteMatch?, i)
    case OfFinish(f) => f.ReplyAbandon? && s.entries[f.e].irp == Some(i)
    case _ => false
  }

  lemma DispatchLoses(s: State, a: DispatchAction, i: nat)
    requires DispatchEnabled(s, a) && a.i == i && i in s.irps && IrpOk(s, i)
    ensures IsLost(DispatchStep(s, a), i) <==> IsLost(s, i) || a.Refuse?
  {
    match a
    case DispatchComplete(_) =>
    case AttachContext(_, _) =>
    case DropContext(_) =>
    case Post(_) =>
    case OplockFail(_) =>
    case Refuse(_, _) =>
    case Allocate(_, _, _) =>
  }

  lemma RegistrationLoses(s: State, a: RegistrationAction, i: nat)
    requires RegistrationEnabled(s, a) && s.entries[a.e].irp == Some(i)
    requires IsWaiting(s.entries[a.e].at) && EntryOk(s, a.e)
    ensures IsLost(RegistrationStep(s, a), i) <==> IsLost(s, i) || RefusesUnheard(s, a, i)
  {
    match a
    case Arm(_) =>
    case TestCancel(_) =>
    case BackOut(_) =>
    case Insert(_) =>
  }

  lemma CancelLoses(s: State, a: CancelAction, i: nat)
    requires CancelEnabled(s, a) && a.i == i && IrpOk(s, i)
    ensures IsLost(CancelStep(s, a), i) <==> IsLost(s, i)
  {
    match a
    case RaiseCancel(_) =>
    case TakeRoutine(_) =>
    case ReadEntry(_) =>
    case MarkForced(_) =>
    case CancelSection(_) =>
    case CancelComplete(_) =>
  }

  /** A listed entry whose routine slot is empty belongs to a running cancel routine or to a cancelled create. */
  lemma ListedHolder(s: State, e: nat)
    requires ListedEntryOk(s, e)
    ensures var irp := s.irps[s.entries[e].irp.value];
            && !irp.holder.Lost?
            && (irp.slot.None? ==> (irp.holder.Listed? <==> !irp.cancel.IrpStart? && !irp.cancel.IrpHave?))
  {
  }

  lemma WalkLoses(s: State, a: WalkAction, i: nat)
    requires Meets(s, a) && ListedEntryOk(s, Matched(s, a)) && s.entries[Matched(s, a)].irp == Some(i)
    ensures IsLost(WalkStep(s, a), i) <==> IsLost(s, i) || DropsCreate(s, Matched(s, a), a.WriteMatch?, i)
  {
    MatchStepIs(s, a);
    ListedHolder(s, Matched(s, a));
  }

  lemma FinishLoses(s: State, a: FinishAction, i: nat)
    requires FinishEnabled(s, a) && s.entries[a.e].irp == Some(i) && EntryOk(s, a.e)
    ensures IsLost(FinishStep(s, a), i) <==> IsLost(s, i) || a.ReplyAbandon?
  {
    FinishIsLocal(a);
  }

  /** The entry that a registration works on waits. */
  lemma RegistrationWaits(s: State, a: RegistrationAction)
    requires LockOk(s, Pending) && LockOk(s, Retry) && RegistrationEnabled(s, a)
    ensures IsWaiting(s.entries[a.e].at)
  {
    if !a.Arm? { RegisteringIsInPlace(s, a.e); }
  }

  lemma SubjectLoses(s: State, a: Action, i: nat)
    requires Inv(s) && Enabled(s, a) && i in s.irps && Subject(s, a) == Some(i)
    ensures IsLost(Step(s, a), i) <==> IsLost(s, i) || Loses(s, a, i)
  {
    assert IrpOk(s, i);
    match a
    case OfDispatch(d) => DispatchLoses(s, d, i);
    case OfRegistration(r) =>
      RegistrationWaits(s, r);
      assert EntryOk(s, r.e);
      RegistrationLoses(s, r, i);
    case OfCancel(c) => CancelLoses(s, c, i);
    case OfWalk(w) =>
      MatchedOk(s, w);
      WalkLoses(s, w, i);
    case OfFinish(f) =>
      assert EntryOk(s, f.e);
      FinishLoses(s, f, i);
  }

  /** An IRP is lost after a step exactly when it was lost before or the step is one of those that lose it. */
  lemma StepLoses(s: State, a: Action, i: nat)
    requires Inv(s) && Enabled(s, a) && i in s.irps
    ensures IsLost(Step(s, a), i) <==> IsLost(s, i) || Loses(s, a, i)
  {
    if Subject(s, a) == Some(i) {
      SubjectLoses(s, a, i);
    } else {
      StepFramed(s, a);
    }
  }

  lemma NotYetLost(s: State, a: Action, i: nat)
    requires Inv(s) && Enabled(s, a) && i !in s.irps
    ensures !IsLost(Step(s, a), i) && !Loses(s, a, i)
  {
    StepFramed(s, a);
  }

  /** Some step of the run loses `i`. */
  predicate LosesIn(s: State, run: seq<Action>, i: nat)
    requires IsRun(s, run)
    decreases |run|
  {
    run != [] && (Loses(s, run[0], i) || LosesIn(Step(s, run[0]), run[1..], i))
  }

  lemma {:induction false} LostFrom(s: State, run: seq<Action>, i: nat)
    requires Inv(s) && IsRun(s, run)
    ensures IsLost(After(s, run), i) <==> IsLost(s, i) || LosesIn(s, run, i)
    decreases |run|
  {
    if run != [] {
      KeepsStep(s, run[0]);
      if i in s.irps { StepLoses(s, run[0], i); } else { NotYetLost(s, run[0], i); }
      LostFrom(Step(s, run[0]), run[1..], i);
    }
  }

  /**
    In every run: an IRP is lost at the end exactly when one of its steps is
    - a registration that fails while its caller, a callback of the oplock package, takes no notice;
    - a walk over the list that finds the cancel routine of a create taken, an event write at any time, the
      other walks before the routine ran;
    - an early return of the second pass of a reply with the IRP's entry still unprocessed.
  */
  lemma {:induction false} LostExactly(run: seq<Action>, i: nat)
    requires IsRun(INIT, run)
    ensures IsLost(After(INIT, run), i) <==> LosesIn(INIT, run, i)
  {
    InitOk();
    LostFrom(INIT, run, i);
  }

  /** A lost IRP is never completed. */
  lemma {:induction false} LostForever(run: seq<Action>, later: seq<Action>, i: nat)
    requires IsRun(INIT, run) && IsRun(After(INIT, run), later) && IsLost(After(INIT, run), i)
    ensures var t := After(After(INIT, run), later); IsLost(t, i) && t.irps[i].completions == 0
  {
    InitOk();
    KeepsRun(INIT, run);
    var s := After(INIT, run);
    KeepsRun(s, later);
    LostFrom(s, later, i);
    assert IrpOk(After(s, later), i);
  }

  // ------------------------------------------------------------------------------------------
  // Exactly which IRPs are bound to be lost
  // ------------------------------------------------------------------------------------------

  /** The entry is on the local list of a reply, whose second pass will see the unmount flag. */
  predicate TooLate(s: State, i: nat)
    requires i in s.irps
  {
    s.UnmountPending() && s.irps[i].holder.Local? && EntryAt(s, s.irps[i].holder.entry, ToReply)
  }

  predicate WaitsOnPending(s: State, e: nat) { EntryAt(s, e, OnList) && s.entries[e].list.Pending? }

  /** A reply under way will move the entry to its local list, and the unmount flag is set already. */
  predicate Overtaken(s: State, i: nat)
    requires i in s.irps
  {
    var irp := s.irps[i];
    && s.UnmountPending() && irp.holder.Listed? && irp.slot.Some? && irp.cancel.NoCancel?
    && WaitsOnPending(s, irp.holder.entry) && Replies(s, irp.holder.entry)
  }

  predicate RoutineGone(s: State, e: nat) { Resolved(s, e) ==> s.irps[s.entries[e].irp.value].slot.None? }

  /** The event write under way will get as far as position `k`. */
  predicate WriteReaches(s: State, k: nat) {
    && k < |s.pending| && Writes(s, s.pending[k])
    && forall j :: 0 <= j < k && Writes(s, s.pending[j]) ==> RoutineGone(s, s.pending[j])
  }

  /** An event write under way will come to a create whose cancel routine was taken. */
  predicate Condemned(s: State, i: nat)
    requires i in s.irps
  {
    var irp := s.irps[i];
    && irp.holder.Listed? && irp.slot.None? && WaitsOnPending(s, irp.holder.entry)
    && exists k: nat :: k < |s.pending| && s.pending[k] == irp.holder.entry && WriteReaches(s, k)
  }

  /** A callback of the oplock package registers the IRP, or will, and takes no notice that this fails. */
  predicate Unheard(s: State, i: nat)
    requires i in s.irps
  {
    var irp := s.irps[i];
    || (irp.posted && irp.kind.Create? && (s.UnmountPending() || irp.cancel.Finished?))
    || (&& irp.holder.Listed? && irp.holder.entry in s.entries && !s.entries[irp.holder.entry].heeded
        && match s.entries[irp.holder.entry].at
           case Allocated => s.UnmountPending() || irp.cancel.Finished?
           case Armed => irp.slot.Some? && irp.cancel.Finished?
           case Doubted => irp.slot.Some? && irp.cancel.Finished?
           case _ => false)
  }

  /** Lost, or bound to be lost. */
  predicate Hopeless(s: State, i: nat) {
    i in s.irps && (s.irps[i].holder.Lost? || TooLate(s, i) || Condemned(s, i) || Unheard(s, i))
  }

  /** Hopeless, or bound to be lost unless the operating system cancels the IRP in time. */
  predicate Stranded(s: State, i: nat) { i in s.irps && (Hopeless(s, i) || Overtaken(s, i)) }

  /** The event write sees in `t` what it sees in `s`. */
  predicate SameWrite(s: State, t: State) {
    && t.pending == s.pending
    && forall e :: e in s.pending ==> (Writes(s, e) <==> Writes(t, e)) && (RoutineGone(s, e) ==> RoutineGone(t, e))
  }

  /** Whatever strands `i` in `s` is there in `t`. */
  predicate Covers(s: State, t: State, i: nat)
    requires i in s.irps
  {
    && i in t.irps && t.irps[i] == s.irps[i]
    && (s.irps[i].holder.Listed? || s.irps[i].holder.Local? ==>
          var e := s.irps[i].holder.entry;
          e in s.entries ==> e in t.entries && t.entries[e] == s.entries[e])
    && (s.UnmountPending() ==> t.UnmountPending())
    && (Overtaken(s, i) ==> t.pendingLock == s.pendingLock)
    && (Condemned(s, i) ==> SameWrite(s, t))
  }

  lemma ReachesSame(s: State, t: State, k: nat)
    requires SameWrite(s, t) && WriteReaches(s, k)
    ensures WriteReaches(t, k)
  {
    assert s.pending[k] in s.pending;
    forall j | 0 <= j < k && Writes(t, t.pending[j]) ensures RoutineGone(t, t.pending[j]) {
      assert s.pending[j] in s.pending;
    }
  }

  lemma CoversStranded(s: State, t: State, i: nat)
    requires i in s.irps && Covers(s, t, i) && Stranded(s, i)
    ensures Stranded(t, i)
    ensures Hopeless(s, i) ==> Hopeless(t, i)
  {
    if Condemned(s, i) {
      var k: nat :| k < |s.pending| && s.pending[k] == s.irps[i].holder.entry && WriteReaches(s, k);
      ReachesSame(s, t, k);
      assert Condemned(t, i);
    }
  }

  // ------------------------------------------------------------------------------------------
  // A stranded IRP stays stranded
  // ------------------------------------------------------------------------------------------

  /** The entry that an action works on belongs to its subject. */
  lemma TargetIsOwn(s: State, a: Action)
    requires Inv(s) && Enabled(s, a) && Target(s, a).Some?
    ensures Target(s, a).value in s.entries && s.entries[Target(s, a).value].irp == Subject(s, a)
  {
    match a
    case OfCancel(c) => assert IrpOk(s, c.i);
    case OfWalk(w) => MatchedOk(s, w);
    case _ =>
  }

  /** The entry through which an IRP will be completed is its own. */
  lemma OwnEntry(s: State, i: nat)
    requires i in s.irps && IrpOk(s, i) && ActiveEntry(s.irps[i]).Some?
    ensures var e := ActiveEntry(s.irps[i]).value; e in s.entries && s.entries[e].irp == Some(i)
  {
  }

  /** An action on another IRP leaves the IRP and its entry alone. */
  lemma OthersEntry(s: State, a: Action, i: nat)
    requires Inv(s) && Enabled(s, a) && i in s.irps && Subject(s, a) != Some(i)
    ensures var t := Step(s, a);
            && i in t.irps && t.irps[i] == s.irps[i]
            && (ActiveEntry(s.irps[i]).Some? ==>
                  var e := ActiveEntry(s.irps[i]).value;
                  e in s.entries && e in t.entries && t.entries[e] == s.entries[e])
  {
    StepFramed(s, a);
    assert IrpOk(s, i);
    if ActiveEntry(s.irps[i]).Some? {
      OwnEntry(s, i);
      if Target(s, a).Some? { TargetIsOwn(s, a); }
    }
  }

  /** While a reply walks past a waiting entry it keeps the lock. */
  lemma OvertakenLock(s: State, a: Action, e: nat)
    requires ListOk(s, Pending) && LockOk(s, Pending) && LockOk(s, Retry) && Enabled(s, a)
    requires WaitsOnPending(s, e) && Replies(s, e) && (a.OfWalk? ==> Meets(s, a.w))
    ensures Step(s, a).pendingLock == s.pendingLock
  {
    assert e in s.pending;
    match a
    case OfDispatch(d) => DispatchFrame(s, d);
    case OfRegistration(r) => RegistrationFrame(s, r);
    case OfCancel(c) => CancelFrame(s, c);
    case OfWalk(w) => WalkFrame(s, w);
    case OfFinish(f) => FinishFrame(s, f);
    case OfLock(l) =>
  }

  /** While an event write has an entry to look at, only the write itself changes the list. */
  lemma WritingKeepsList(s: State, a: Action, e: nat)
    requires ListOk(s, Pending) && LockOk(s, Pending) && LockOk(s, Retry) && Enabled(s, a)
    requires e in s.pending && Writes(s, e) && (a.OfWalk? ==> Meets(s, a.w) && !a.w.WriteMatch?)
    ensures Step(s, a).pending == s.pending && Step(s, a).pendingLock == s.pendingLock
  {
    match a
    case OfDispatch(d) => DispatchFrame(s, d);
    case OfRegistration(r) => RegistrationFrame(s, r);
    case OfCancel(c) => CancelFrame(s, c);
    case OfWalk(w) => WalkFrame(s, w);
    case OfFinish(f) => FinishFrame(s, f);
    case OfLock(l) => LockFrame(s, l);
  }

  /** A cancel routine does not give its slot back, and does not change a listed entry's serial number. */
  lemma CancelLooks(s: State, a: CancelAction, f: nat)
    requires CancelEnabled(s, a) && ListedEntryOk(s, f) && s.entries[f].irp == Some(a.i)
    requires ActiveEntry(s.irps[a.i]) == Some(f) && !s.LockOf(s.entries[f].list).Free?
    ensures var t := CancelStep(s, a);
            && f in t.entries && t.entries[f].serial == s.entries[f].serial
            && (RoutineGone(s, f) ==> RoutineGone(t, f))
  {
    match a
    case RaiseCancel(_) =>
    case TakeRoutine(_) =>
    case ReadEntry(_) =>
    case MarkForced(_) =>
    case CancelSection(_) =>
    case CancelComplete(_) =>
  }

  /** The subject of an action other than a cancellation or a step of the write has no entry on the list. */
  lemma SubjectIsElsewhere(s: State, a: Action, f: nat)
    requires Inv(s) && Enabled(s, a) && f in s.pending && s.pendingLock.WritingEvent?
    requires !a.OfCancel? && (a.OfWalk? ==> !a.w.WriteMatch?)
    ensures f in s.entries && s.entries[f].irp != Subject(s, a)
  {
    assert EntryOk(s, f);
    assert IrpOk(s, s.entries[f].irp.value);
    match a
    case OfRegistration(r) =>
      RegistrationWaits(s, r);
      assert EntryOk(s, r.e);
    case OfWalk(w) => MatchedOk(s, w);
    case OfFinish(g) =>
      FinishIsLocal(g);
      assert EntryOk(s, g.e);
    case _ =>
  }

  lemma ListedLooks(s: State, a: Action, f: nat)
    requires Inv(s) && Enabled(s, a) && f in s.pending && s.pendingLock.WritingEvent?
    requires a.OfWalk? ==> !a.w.WriteMatch?
    ensures var t := Step(s, a);
            && f in t.entries && t.entries[f].serial == s.entries[f].serial
            && (RoutineGone(s, f) ==> RoutineGone(t, f))
  {
    assert EntryOk(s, f) && ActiveEntry(s.irps[s.entries[f].irp.value]) == Some(f);
    assert IrpOk(s, s.entries[f].irp.value);
    if !a.OfCancel? { SubjectIsElsewhere(s, a, f); }
    if Subject(s, a) == s.entries[f].irp {
      CancelLooks(s, a.c, f);
    } else {
      StepFramed(s, a);
      if Target(s, a).Some? { TargetIsOwn(s, a); }
    }
  }

  lemma WriteGoesOn(s: State, a: Action, i: nat)
    requires Inv(s) && Enabled(s, a) && i in s.irps && Condemned(s, i) && (a.OfWalk? ==> !a.w.WriteMatch?)
    ensures SameWrite(s, Step(s, a))
  {
    var t := Step(s, a);
    var k: nat :| k < |s.pending| && s.pending[k] == s.irps[i].holder.entry && WriteReaches(s, k);
    if a.OfWalk? { MatchedOk(s, a.w); }
    WritingKeepsList(s, a, s.pending[k]);
    forall e | e in s.pending
      ensures (Writes(s, e) <==> Writes(t, e)) && (RoutineGone(s, e) ==> RoutineGone(t, e))
    {
      ListedLooks(s, a, e);
    }
  }

  /** An event write that drops another entry comes nearer to this one. */
  lemma WriteMatchReaches(s: State, m: nat, k: nat)
    requires WalkEnabled(s, WriteMatch(m)) && Meets(s, WriteMatch(m)) && WriteReaches(s, k) && m != k
    requires forall j :: 0 <= j < |s.pending| && j != m ==>
               && Resolved(s, s.pending[j]) && s.pending[j] != s.pending[m]
               && s.entries[s.pending[j]].irp != s.entries[s.pending[m]].irp
    ensures m < k && WriteReaches(WalkStep(s, WriteMatch(m)), k - 1)
    ensures WalkStep(s, WriteMatch(m)).pending[k - 1] == s.pending[k]
  {
    MatchStepIs(s, WriteMatch(m));
    assert m < k && RoutineGone(s, s.pending[m]);
    var t := WalkStep(s, WriteMatch(m));
    assert t.pending == Without(s.pending, m);
    forall j | 0 <= j < k - 1 && Writes(t, t.pending[j]) ensures RoutineGone(t, t.pending[j]) {
      assert t.pending[j] == s.pending[if j < m then j else j + 1];
    }
  }

  /** Listed entries are different and belong to different IRPs. */
  lemma ListedApart(s: State, j: nat, m: nat)
    requires Inv(s) && j < |s.pending| && m < |s.pending| && j != m
    ensures Resolved(s, s.pending[j]) && s.pending[j] != s.pending[m]
    ensures s.entries[s.pending[j]].irp != s.entries[s.pending[m]].irp
  {
    KeepsDiscardFree(s, Pending, j);
    KeepsDiscardFree(s, Pending, m);
  }

  lemma CondemnedShift(s: State, m: nat, i: nat)
    requires WalkEnabled(s, WriteMatch(m)) && Meets(s, WriteMatch(m)) && i in s.irps && Condemned(s, i)
    requires s.entries[s.irps[i].holder.entry].irp == Some(i) && s.entries[s.pending[m]].irp != Some(i)
    requires forall j :: 0 <= j < |s.pending| && j != m ==>
               && Resolved(s, s.pending[j]) && s.pending[j] != s.pending[m]
               && s.entries[s.pending[j]].irp != s.entries[s.pending[m]].irp
    ensures Stranded(WalkStep(s, WriteMatch(m)), i)
    ensures Hopeless(s, i) ==> Hopeless(WalkStep(s, WriteMatch(m)), i)
  {
    var t := WalkStep(s, WriteMatch(m));
    WalkFrame(s, WriteMatch(m));
    var k: nat :| k < |s.pending| && s.pending[k] == s.irps[i].holder.entry && WriteReaches(s, k);
    WriteMatchReaches(s, m, k);
    assert t.pending[k - 1] == t.irps[i].holder.entry && WriteReaches(t, k - 1);
    assert Condemned(t, i);
  }

  lemma WriteStaysCondemned(s: State, m: nat, i: nat)
    requires Inv(s) && WalkEnabled(s, WriteMatch(m)) && i in s.irps && Condemned(s, i)
    requires s.entries[s.pending[m]].irp != Some(i)
    ensures Stranded(WalkStep(s, WriteMatch(m)), i)
    ensures Hopeless(s, i) ==> Hopeless(WalkStep(s, WriteMatch(m)), i)
  {
    assert IrpOk(s, i);
    OwnEntry(s, i);
    MatchedOk(s, WriteMatch(m));
    forall j: nat | 0 <= j < |s.pending| && j != m
      ensures Resolved(s, s.pending[j]) && s.pending[j] != s.pending[m]
      ensures s.entries[s.pending[j]].irp != s.entries[s.pending[m]].irp
    {
      ListedApart(s, j, m);
    }
    CondemnedShift(s, m, i);
  }

  lemma OtherStaysStranded(s: State, a: Action, i: nat)
    requires Inv(s) && Enabled(s, a) && Stranded(s, i) && Subject(s, a) != Some(i)
    ensures Stranded(Step(s, a), i)
    ensures Hopeless(s, i) ==> Hopeless(Step(s, a), i)
  {
    if Condemned(s, i) && a.OfWalk? && a.w.WriteMatch? {
      WriteStaysCondemned(s, a.w.k, i);
    } else {
      if Condemned(s, i) { WriteGoesOn(s, a, i); }
      OtherIsCovered(s, a, i);
      CoversStranded(s, Step(s, a), i);
    }
  }

  lemma OtherIsCovered(s: State, a: Action, i: nat)
    requires Inv(s) && Enabled(s, a) && i in s.irps && Subject(s, a) != Some(i)
    requires Condemned(s, i) ==> SameWrite(s, Step(s, a))
    ensures Covers(s, Step(s, a), i)
  {
    OthersEntry(s, a, i);
    UnmountFlag(s, a);
    if a.OfWalk? { MatchedOk(s, a.w); }
    if Overtaken(s, i) { OvertakenLock(s, a, s.irps[i].holder.entry); }
  }

  // The action concerns the IRP itself.

  lemma DispatchStrands(s: State, a: DispatchAction, i: nat)
    requires DispatchEnabled(s, a) && a.i == i && i in s.irps && IrpOk(s, i) && Stranded(s, i)
    ensures Stranded(DispatchStep(s, a), i)
    ensures Hopeless(s, i) ==> Hopeless(DispatchStep(s, a), i)
  {
    assert s.irps[i].posted && s.irps[i].kind.Create?;
    match a
    case Refuse(_, _) =>
    case Allocate(_, _, _) =>
    case _ =>
  }

  lemma RegistrationStrands(s: State, a: RegistrationAction, i: nat)
    requires RegistrationEnabled(s, a) && s.entries[a.e].irp == Some(i) && IrpOk(s, i) && EntryOk(s, a.e)
    requires a.Arm? || s.entries[a.e].at == RegisteringAt(s.LockOf(s.entries[a.e].list))
    requires Stranded(s, i)
    ensures Stranded(RegistrationStep(s, a), i)
    ensures Hopeless(s, i) ==> Hopeless(RegistrationStep(s, a), i)
  {
    assert Unheard(s, i);
    match a
    case Arm(_) =>
    case TestCancel(_) =>
    case BackOut(_) =>
    case Insert(_) =>
  }

  lemma CancelStrands(s: State, a: CancelAction, i: nat)
    requires CancelEnabled(s, a) && a.i == i && !a.RaiseCancel? && IrpOk(s, i) && Stranded(s, i) && !Condemned(s, i)
    ensures Stranded(CancelStep(s, a), i)
    ensures Hopeless(s, i) ==> Hopeless(CancelStep(s, a), i)
  {
    match a
    case TakeRoutine(_) =>
    case ReadEntry(_) =>
    case MarkForced(_) =>
    case CancelSection(_) =>
    case CancelComplete(_) =>
  }

  /** The routine of a condemned create only goes on. */
  lemma CancelCondemned(s: State, a: CancelAction, i: nat)
    requires CancelEnabled(s, a) && a.i == i && IrpOk(s, i) && Condemned(s, i)
    ensures var t := CancelStep(s, a);
            && i in t.irps && t.irps[i].holder == s.irps[i].holder && t.irps[i].slot.None?
            && WaitsOnPending(t, t.irps[i].holder.entry)
  {
    match a
    case RaiseCancel(_) =>
    case TakeRoutine(_) =>
    case ReadEntry(_) =>
    case MarkForced(_) =>
    case CancelSection(_) =>
    case CancelComplete(_) =>
  }

  lemma CancelStaysCondemned(s: State, a: CancelAction, i: nat)
    requires Inv(s) && CancelEnabled(s, a) && a.i == i && Condemned(s, i)
    ensures Stranded(CancelStep(s, a), i)
    ensures Hopeless(s, i) ==> Hopeless(CancelStep(s, a), i)
  {
    assert IrpOk(s, i);
    CancelCondemned(s, a, i);
    WriteGoesOn(s, OfCancel(a), i);
    var t := CancelStep(s, a);
    var k: nat :| k < |s.pending| && s.pending[k] == s.irps[i].holder.entry && WriteReaches(s, k);
    ReachesSame(s, t, k);
    assert t.pending[k] == t.irps[i].holder.entry;
    assert Condemned(t, i);
  }

  lemma WalkStrands(s: State, a: WalkAction, i: nat)
    requires Meets(s, a) && s.entries[Matched(s, a)].irp == Some(i) && ListedEntryOk(s, Matched(s, a))
    requires s.entries[Matched(s, a)].list == WalkList(a) && Stranded(s, i)
    ensures Stranded(WalkStep(s, a), i)
    ensures Hopeless(s, i) ==> Hopeless(WalkStep(s, a), i)
  {
    MatchStepIs(s, a);
    ListedHolder(s, Matched(s, a));
  }

  lemma FinishStrands(s: State, a: FinishAction, i: nat)
    requires FinishEnabled(s, a) && s.entries[a.e].irp == Some(i) && EntryOk(s, a.e) && IrpOk(s, i) && Stranded(s, i)
    ensures Stranded(FinishStep(s, a), i)
    ensures Hopeless(s, i) ==> Hopeless(FinishStep(s, a), i)
  {
    FinishIsLocal(a);
    assert TooLate(s, i);
  }

  lemma RegistrationStaysStranded(s: State, a: RegistrationAction, i: nat)
    requires Inv(s) && RegistrationEnabled(s, a) && s.entries[a.e].irp == Some(i) && Stranded(s, i)
    ensures Stranded(RegistrationStep(s, a), i)
    ensures Hopeless(s, i) ==> Hopeless(RegistrationStep(s, a), i)
  {
    assert IrpOk(s, i) && EntryOk(s, a.e);
    RegistrationStrands(s, a, i);
  }

  lemma WalkStaysStranded(s: State, a: WalkAction, i: nat)
    requires Inv(s) && WalkEnabled(s, a) && Stranded(s, i)
    requires Matched(s, a) in s.entries && s.entries[Matched(s, a)].irp == Some(i)
    ensures Stranded(WalkStep(s, a), i)
    ensures Hopeless(s, i) ==> Hopeless(WalkStep(s, a), i)
  {
    MatchedOk(s, a);
    assert Matched(s, a) in s.List(WalkList(a));
    WalkStrands(s, a, i);
  }

  lemma SubjectStaysStranded(s: State, a: Action, i: nat)
    requires Inv(s) && Enabled(s, a) && Stranded(s, i) && Subject(s, a) == Some(i)
    requires a != OfCancel(RaiseCancel(i))
    ensures Stranded(Step(s, a), i)
    ensures Hopeless(s, i) ==> Hopeless(Step(s, a), i)
  {
    assert IrpOk(s, i);
    match a
    case OfDispatch(d) => DispatchStrands(s, d, i);
    case OfRegistration(r) => RegistrationStaysStranded(s, r, i);
    case OfCancel(c) =>
      if Condemned(s, i) { CancelStaysCondemned(s, c, i); } else { CancelStrands(s, c, i); }
    case OfWalk(w) => WalkStaysStranded(s, w, i);
    case OfFinish(f) =>
      assert EntryOk(s, f.e);
      FinishStrands(s, f, i);
  }

  lemma StaysStranded(s: State, a: Action, i: nat)
    requires Inv(s) && Enabled(s, a) && Stranded(s, i) && a != OfCancel(RaiseCancel(i))
    ensures Stranded(Step(s, a), i)
    ensures Hopeless(s, i) ==> Hopeless(Step(s, a), i)
  {
    if Subject(s, a) == Some(i) { SubjectStaysStranded(s, a, i); } else { OtherStaysStranded(s, a, i); }
  }

  /** Being cancelled does not help an IRP that is hopeless. */
  lemma RaiseStaysHopeless(s: State, i: nat)
    requires Inv(s) && CancelEnabled(s, RaiseCancel(i)) && Hopeless(s, i)
    ensures Hopeless(CancelStep(s, RaiseCancel(i)), i)
  {
    assert IrpOk(s, i);
    if Condemned(s, i) { CancelStaysCondemned(s, RaiseCancel(i), i); }
  }

  lemma StaysHopeless(s: State, a: Action, i: nat)
    requires Inv(s) && Enabled(s, a) && Hopeless(s, i)
    ensures Hopeless(Step(s, a), i)
  {
    if a == OfCancel(RaiseCancel(i)) { RaiseStaysHopeless(s, i); } else { StaysStranded(s, a, i); }
  }

  lemma {:induction false} HopelessFrom(s: State, run: seq<Action>, i: nat)
    requires Inv(s) && IsRun(s, run) && Hopeless(s, i)
    ensures Hopeless(After(s, run), i)
    decreases |run|
  {
    if run != [] {
      KeepsStep(s, run[0]);
      StaysHopeless(s, run[0], i);
      HopelessFrom(Step(s, run[0]), run[1..], i);
    }
  }

  /** Whatever happens later, a hopeless IRP is not completed. */
  lemma {:induction false} HopelessForever(run: seq<Action>, later: seq<Action>, i: nat)
    requires IsRun(INIT, run) && IsRun(After(INIT, run), later) && Hopeless(After(INIT, run), i)
    ensures var t := After(After(INIT, run), later); Hopeless(t, i) && t.irps[i].completions == 0
  {
    InitOk();
    KeepsRun(INIT, run);
    var s := After(INIT, run);
    KeepsRun(s, later);
    HopelessFrom(s, later, i);
    StrandedIsOpen(After(s, later), i);
  }

  lemma {:induction false} StrandedFrom(s: State, run: seq<Action>, i: nat)
    requires Inv(s) && IsRun(s, run) && Stranded(s, i) && OfCancel(RaiseCancel(i)) !in run
    ensures Stranded(After(s, run), i)
    ensures Hopeless(s, i) ==> Hopeless(After(s, run), i)
    decreases |run|
  {
    if run != [] {
      assert run[0] in run;
      KeepsStep(s, run[0]);
      StaysStranded(s, run[0], i);
      StrandedFrom(Step(s, run[0]), run[1..], i);
    }
  }

  lemma StrandedIsOpen(s: State, i: nat)
    requires Inv(s) && Stranded(s, i)
    ensures s.irps[i].completions == 0
  {
    assert IrpOk(s, i);
  }

  /** Whatever happens later, unless the IRP is cancelled anew, a stranded IRP is not completed. */
  lemma {:induction false} StrandedForever(run: seq<Action>, later: seq<Action>, i: nat)
    requires IsRun(INIT, run) && IsRun(After(INIT, run), later) && Stranded(After(INIT, run), i)
    requires OfCancel(RaiseCancel(i)) !in later
    ensures var t := After(After(INIT, run), later); Stranded(t, i) && t.irps[i].completions == 0
  {
    InitOk();
    KeepsRun(INIT, run);
    var s := After(INIT, run);
    KeepsRun(s, later);
    StrandedFrom(s, later, i);
    StrandedIsOpen(After(s, later), i);
  }

  // ------------------------------------------------------------------------------------------
  // The same in the driver's own terms
  // ------------------------------------------------------------------------------------------

  /** What strands the IRP `i` through its entry `e`, told by the fields of both, the lock, the list and the flag. */
  ghost predicate EntryStrands(s: State, i: nat, e: nat)
    requires i in s.irps && e in s.entries
  {
    var irp, entry := s.irps[i], s.entries[e];
    match entry.at
    case Allocated => !entry.heeded && (s.UnmountPending() || irp.cancel.Finished?)
    case Armed => !entry.heeded && irp.slot.Some? && irp.cancel.Finished?
    case Doubted => !entry.heeded && irp.slot.Some? && irp.cancel.Finished?
    case OnList =>
      && entry.list.Pending?
      && if irp.slot.Some? then s.UnmountPending() && Replies(s, e) && irp.cancel.NoCancel?
         else
           && !irp.cancel.IrpStart? && !irp.cancel.IrpHave?
           && exists k: nat :: k < |s.pending| && s.pending[k] == e && WriteReaches(s, k)
    case ToReply => s.UnmountPending()
    case _ => false
  }

  lemma EntryStrandsIs(s: State, i: nat, e: nat)
    requires e in s.entries && EntryOk(s, e) && s.entries[e].irp == Some(i)
    requires IsWaiting(s.entries[e].at) || IsLocal(s.entries[e].at)
    requires i in s.irps && IrpOk(s, i)
    ensures EntryStrands(s, i, e) <==> Stranded(s, i)
  {
    if s.entries[e].at.OnList? { ListedHolder(s, e); }
  }

  /** An entry through which the IRP `i` is bound to be lost. */
  ghost predicate HasStrandingEntry(s: State, i: nat)
    requires i in s.irps
  {
    exists e :: e in s.entries && s.entries[e].irp == Some(i) && EntryStrands(s, i, e)
  }

  /** Which IRPs are stranded in a reachable state, without the auxiliary record of who holds them. */
  lemma {:induction false} StrandedExactly(run: seq<Action>, i: nat)
    requires IsRun(INIT, run) && i in After(INIT, run).irps
    ensures var s := After(INIT, run);
            Stranded(s, i) <==>
              && s.irps[i].completions == 0
              && (|| !IsHeld(s, i)
                  || (s.irps[i].posted && s.irps[i].kind.Create? && (s.UnmountPending() || s.irps[i].cancel.Finished?))
                  || HasStrandingEntry(s, i))
  {
    InitOk();
    KeepsRun(INIT, run);
    var s := After(INIT, run);
    CompletedHeldOrLost(run, i);
    assert IrpOk(s, i);
    if !IsLost(s, i) { StrandedThrough(s, i); }
  }

  lemma StrandedThrough(s: State, i: nat)
    requires CoreOk(s) && i in s.irps && IrpOk(s, i) && !IsLost(s, i)
    ensures Stranded(s, i) <==>
            || (s.irps[i].posted && s.irps[i].kind.Create? && (s.UnmountPending() || s.irps[i].cancel.Finished?))
            || HasStrandingEntry(s, i)
  {
    forall e | e in s.entries && s.entries[e].irp == Some(i) && EntryStrands(s, i, e) ensures Stranded(s, i) {
      assert EntryOk(s, e);
      EntryStrandsIs(s, i, e);
    }
    if Stranded(s, i) && !s.irps[i].posted {
      var e := s.irps[i].holder.entry;
      assert EntryOk(s, e);
      EntryStrandsIs(s, i, e);
    }
  }

  // ------------------------------------------------------------------------------------------
  // What it takes to lose an IRP
  // ------------------------------------------------------------------------------------------

  /** How the IRP `i` stands is explained by whether it waited for an oplock break and whether it was cancelled. */
  predicate Explained(s: State, i: nat, waited: bool, cancelled: bool) {
    i in s.irps ==>
      var irp := s.irps[i];
      && (irp.posted ==> waited)
      && (irp.holder.Listed? && irp.holder.entry in s.entries && !s.entries[irp.holder.entry].heeded ==> waited)
      && (cancelled || irp.cancel.NoCancel?)
      && (irp.holder.Lost? ==> s.UnmountPending() || waited || (irp.kind.Create? && cancelled))
  }

  lemma DispatchExplained(s: State, a: DispatchAction, i: nat, waited: bool, cancelled: bool)
    requires DispatchEnabled(s, a) && a.i == i && (i in s.irps ==> IrpOk(s, i)) && Explained(s, i, waited, cancelled)
    ensures Explained(DispatchStep(s, a), i, waited || a == Post(i), cancelled)
  {
    match a
    case Arrive(_, _) =>
    case DispatchComplete(_) =>
    case AttachContext(_, _) =>
    case DropContext(_) =>
    case Post(_) =>
    case OplockFail(_) =>
    case Refuse(_, _) =>
    case Allocate(_, _, _) =>
  }

  lemma RegistrationExplained(s: State, a: RegistrationAction, i: nat, waited: bool, cancelled: bool)
    requires RegistrationEnabled(s, a) && s.entries[a.e].irp == Some(i) && IrpOk(s, i) && EntryOk(s, a.e)
    requires IsWaiting(s.entries[a.e].at) && Explained(s, i, waited, cancelled)
    ensures Explained(RegistrationStep(s, a), i, waited, cancelled)
  {
    match a
    case Arm(_) =>
    case TestCancel(_) =>
    case BackOut(_) =>
    case Insert(_) =>
  }

  lemma CancelExplained(s: State, a: CancelAction, i: nat, waited: bool, cancelled: bool)
    requires CancelEnabled(s, a) && a.i == i && IrpOk(s, i) && Explained(s, i, waited, cancelled)
    ensures Explained(CancelStep(s, a), i, waited, cancelled || a == RaiseCancel(i))
  {
    match a
    case RaiseCancel(_) =>
    case TakeRoutine(_) =>
    case ReadEntry(_) =>
    case MarkForced(_) =>
    case CancelSection(_) =>
    case CancelComplete(_) =>
  }

  lemma WalkExplained(s: State, a: WalkAction, i: nat, waited: bool, cancelled: bool)
    requires Meets(s, a) && ListedEntryOk(s, Matched(s, a)) && s.entries[Matched(s, a)].irp == Some(i)
    requires Explained(s, i, waited, cancelled)
    ensures Explained(WalkStep(s, a), i, waited, cancelled)
  {
    MatchStepIs(s, a);
  }

  lemma FinishExplained(s: State, a: FinishAction, i: nat, waited: bool, cancelled: bool)
    requires FinishEnabled(s, a) && s.entries[a.e].irp == Some(i) && EntryOk(s, a.e) && IrpOk(s, i)
    requires Explained(s, i, waited, cancelled)
    ensures Explained(FinishStep(s, a), i, waited, cancelled)
  {
    FinishIsLocal(a);
  }

  lemma SubjectExplained(s: State, a: Action, i: nat, waited: bool, cancelled: bool)
    requires Inv(s) && Enabled(s, a) && Subject(s, a) == Some(i) && Explained(s, i, waited, cancelled)
    ensures Explained(Step(s, a), i, waited || a == OfDispatch(Post(i)), cancelled || a == OfCancel(RaiseCancel(i)))
  {
    if i in s.irps { assert IrpOk(s, i); }
    match a
    case OfDispatch(d) => DispatchExplained(s, d, i, waited, cancelled);
    case OfRegistration(r) =>
      RegistrationWaits(s, r);
      assert EntryOk(s, r.e);
      RegistrationExplained(s, r, i, waited, cancelled);
    case OfCancel(c) => CancelExplained(s, c, i, waited, cancelled);
    case OfWalk(w) =>
      MatchedOk(s, w);
      WalkExplained(s, w, i, waited, cancelled);
    case OfFinish(f) =>
      assert EntryOk(s, f.e);
      FinishExplained(s, f, i, waited, cancelled);
  }

  lemma StaysExplained(s: State, a: Action, i: nat, waited: bool, cancelled: bool)
    requires Inv(s) && Enabled(s, a) && Explained(s, i, waited, cancelled)
    ensures Explained(Step(s, a), i, waited || a == OfDispatch(Post(i)), cancelled || a == OfCancel(RaiseCancel(i)))
  {
    if Subject(s, a) == Some(i) {
      SubjectExplained(s, a, i, waited, cancelled);
    } else if i in s.irps {
      OthersEntry(s, a, i);
      UnmountFlag(s, a);
    } else {
      StepFramed(s, a);
    }
  }

  lemma {:induction false} ExplainedFrom(s: State, run: seq<Action>, i: nat, waited: bool, cancelled: bool)
    requires Inv(s) && IsRun(s, run) && Explained(s, i, waited, cancelled)
    ensures Explained(After(s, run), i, waited || OfDispatch(Post(i)) in run,
                      cancelled || OfCancel(RaiseCancel(i)) in run)
    decreases |run|
  {
    if run != [] {
      KeepsStep(s, run[0]);
      StaysExplained(s, run[0], i, waited, cancelled);
      ExplainedFrom(Step(s, run[0]), run[1..], i, waited || run[0] == OfDispatch(Post(i)),
                    cancelled || run[0] == OfCancel(RaiseCancel(i)));
      assert run == [run[0]] + run[1..];
    }
  }

  /**
    While no unmount has begun, an IRP is lost only if it waited for an oplock break, or is a create that was
    cancelled.
  */
  lemma {:induction false} LossNeedsCause(run: seq<Action>, i: nat)
    requires IsRun(INIT, run) && IsLost(After(INIT, run), i)
    ensures || After(INIT, run).UnmountPending()
            || OfDispatch(Post(i)) in run
            || (After(INIT, run).irps[i].kind.Create? && OfCancel(RaiseCancel(i)) in run)
  {
    InitOk();
    ExplainedFrom(INIT, run, i, false, false);
  }

  // ------------------------------------------------------------------------------------------
  // Runs that lose an IRP
  // ------------------------------------------------------------------------------------------

  /** One IRP whose dispatch routine is about to register it. */
  lemma AllocateRun(kind: Kind) returns (run: seq<Action>)
    ensures IsRun(INIT, run)
    ensures After(INIT, run) ==
            State(map[0 := Irp(kind, None, NoCancel, None, None, false, false, 0, Listed(0))],
                  map[0 := Entry(Some(0), Pending, true, true, 0, false, false, Allocated, 0)],
                  map[], [], [], Free, Free, 0, NotReleased)
  {
    run := [];
    Extend(run, OfDispatch(Arrive(0, kind)));
    run := run + [OfDispatch(Arrive(0, kind))];
    Extend(run, OfDispatch(Allocate(0, 0, Pending)));
    run := run + [OfDispatch(Allocate(0, 0, Pending))];
  }

  /** Its registration owns the lock and has installed the cancel routine. */
  lemma ArmRun(kind: Kind) returns (run: seq<Action>)
    ensures IsRun(INIT, run)
    ensures After(INIT, run) ==
            State(map[0 := Irp(kind, Some(RoutineFor(kind)), NoCancel, Some(0), None, false, false, 0, Listed(0))],
                  map[0 := Entry(Some(0), Pending, true, true, 1, false, false, Armed, 0)],
                  map[], [], [], Arming(0), Free, 1, NotReleased)
  {
    run := AllocateRun(kind);
    Extend(run, OfRegistration(Arm(0)));
    run := run + [OfRegistration(Arm(0))];
  }

  /** It is registered and waits on the pending list. */
  lemma RegisterRun(kind: Kind) returns (run: seq<Action>)
    ensures IsRun(INIT, run)
    ensures After(INIT, run) ==
            State(map[0 := Irp(kind, Some(RoutineFor(kind)), NoCancel, Some(0), None, false, false, 0, Listed(0))],
                  map[0 := Entry(Some(0), Pending, true, true, 1, false, false, OnList, 0)],
                  map[], [0], [], Free, Free, 1, NotReleased)
  {
    run := ArmRun(kind);
    Extend(run, OfRegistration(TestCancel(0)));
    run := run + [OfRegistration(TestCancel(0))];
    Extend(run, OfRegistration(Insert(0)));
    run := run + [OfRegistration(Insert(0))];
  }

  /** The operating system has taken the cancel routine of a waiting create. */
  lemma TakeRoutineRun() returns (run: seq<Action>)
    ensures IsRun(INIT, run)
    ensures After(INIT, run) ==
            State(map[0 := Irp(Create, None, CreateStart, Some(0), None, false, false, 0, Listed(0))],
                  map[0 := Entry(Some(0), Pending, true, true, 1, false, false, OnList, 0)],
                  map[], [0], [], Free, Free, 1, NotReleased)
  {
    run := RegisterRun(Create);
    Extend(run, OfCancel(RaiseCancel(0)));
    run := run + [OfCancel(RaiseCancel(0))];
    Extend(run, OfCancel(TakeRoutine(0)));
    run := run + [OfCancel(TakeRoutine(0))];
  }

  /** The reply to a create arrives after its cancel routine was taken and before it ran. */
  lemma CreateDroppedByReply() returns (run: seq<Action>)
    ensures IsRun(INIT, run) && IsLost(After(INIT, run), 0)
    ensures After(INIT, run).irps[0].kind.Create? && After(INIT, run).irps[0].cancel.CreateStart?
  {
    run := TakeRoutineRun();
    Extend(run, OfLock(ReplyLock({0})));
    run := run + [OfLock(ReplyLock({0}))];
    Extend(run, OfWalk(ReplyMatch(0)));
    run := run + [OfWalk(ReplyMatch(0))];
  }

  /** An event write names a create whose cancel routine has run to its end. */
  lemma CreateDroppedByEventWrite() returns (run: seq<Action>)
    ensures IsRun(INIT, run) && IsLost(After(INIT, run), 0)
    ensures After(INIT, run).irps[0].kind.Create? && After(INIT, run).irps[0].cancel.Finished?
  {
    run := MarkForcedRun();
    Extend(run, OfLock(WriteLock(1)));
    run := run + [OfLock(WriteLock(1))];
    Extend(run, OfWalk(WriteMatch(0)));
    run := run + [OfWalk(WriteMatch(0))];
  }

  lemma MarkForcedRun() returns (run: seq<Action>)
    ensures IsRun(INIT, run)
    ensures After(INIT, run) ==
            State(map[0 := Irp(Create, None, Finished, Some(0), None, false, false, 0, Listed(0))],
                  map[0 := Entry(Some(0), Pending, true, true, 1, true, false, OnList, 0)],
                  map[], [0], [], Free, Free, 1, NotReleased)
  {
    run := TakeRoutineRun();
    Extend(run, OfCancel(ReadEntry(0)));
    run := run + [OfCancel(ReadEntry(0))];
    Extend(run, OfCancel(MarkForced(0)));
    run := run + [OfCancel(MarkForced(0))];
  }

  lemma ReplyLockRun(kind: Kind) returns (run: seq<Action>)
    ensures IsRun(INIT, run)
    ensures After(INIT, run) ==
            State(map[0 := Irp(kind, Some(RoutineFor(kind)), NoCancel, Some(0), None, false, false, 0, Listed(0))],
                  map[0 := Entry(Some(0), Pending, true, true, 1, false, false, OnList, 0)],
                  map[], [0], [], Replying({0}), Free, 1, NotReleased)
  {
    run := RegisterRun(kind);
    Extend(run, OfLock(ReplyLock({0})));
    run := run + [OfLock(ReplyLock({0}))];
  }

  lemma ReplyRun(kind: Kind) returns (run: seq<Action>)
    ensures IsRun(INIT, run)
    ensures After(INIT, run) ==
            State(map[0 := Irp(kind, None, NoCancel, None, None, false, false, 0, Local(0))],
                  map[0 := Entry(Some(0), Pending, true, true, 1, false, false, ToReply, 0)],
                  map[], [], [], Free, Free, 1, NotReleased)
  {
    run := ReplyLockRun(kind);
    Extend(run, OfWalk(ReplyMatch(0)));
    run := run + [OfWalk(ReplyMatch(0))];
    Extend(run, OfLock(ReplyUnlock));
    run := run + [OfLock(ReplyUnlock)];
  }

  /** The reply to any IRP is matched, and an unmount begins before the IRP is completed. */
  lemma ReplyAbandoned(kind: Kind) returns (run: seq<Action>)
    ensures IsRun(INIT, run) && IsLost(After(INIT, run), 0) && After(INIT, run).irps[0].kind == kind
  {
    run := ReplyRun(kind);
    Extend(run, OfLock(ClaimRelease));
    run := run + [OfLock(ClaimRelease)];
    Extend(run, OfFinish(ReplyAbandon(0)));
    run := run + [OfFinish(ReplyAbandon(0))];
  }

  /** An IRP waits for an oplock break. */
  lemma PostRun(kind: Kind) returns (run: seq<Action>)
    ensures IsRun(INIT, run)
    ensures After(INIT, run) ==
            State(map[0 := Irp(kind, None, NoCancel, None, None, false, true, 0, Posted)],
                  map[], map[], [], [], Free, Free, 0, NotReleased)
  {
    run := [];
    Extend(run, OfDispatch(Arrive(0, kind)));
    run := run + [OfDispatch(Arrive(0, kind))];
    Extend(run, OfDispatch(Post(0)));
    run := run + [OfDispatch(Post(0))];
  }

  /** An IRP that waited for an oplock break is about to be registered. */
  lemma WaitRun(kind: Kind, list: ListId, cancelled: bool) returns (run: seq<Action>)
    requires list.Retry? ==> kind.Create?
    ensures IsRun(INIT, run)
    ensures After(INIT, run) ==
            State(map[0 := Irp(kind, None, if cancelled then Flagged else NoCancel, None, None, false, false, 0,
                               Listed(0))],
                  map[0 := Entry(Some(0), list, !kind.Create?, false, 0, false, false, Allocated, 0)],
                  map[], [], [], Free, Free, 0, NotReleased)
  {
    run := PostRun(kind);
    if cancelled {
      Extend(run, OfCancel(RaiseCancel(0)));
      run := run + [OfCancel(RaiseCancel(0))];
    }
    Extend(run, OfDispatch(Allocate(0, 0, list)));
    run := run + [OfDispatch(Allocate(0, 0, list))];
  }

  /** An unmount begins while the callback of the oplock package registers an IRP, on either list. */
  lemma CallbackRefused(kind: Kind, list: ListId) returns (run: seq<Action>)
    requires list.Retry? ==> kind.Create?
    ensures IsRun(INIT, run) && IsLost(After(INIT, run), 0) && After(INIT, run).irps[0].kind == kind
  {
    run := WaitRun(kind, list, false);
    Extend(run, OfLock(ClaimRelease));
    run := run + [OfLock(ClaimRelease)];
    Extend(run, OfRegistration(Arm(0)));
    run := run + [OfRegistration(Arm(0))];
  }

  lemma ArmWaitRun(kind: Kind, list: ListId) returns (run: seq<Action>)
    requires list.Retry? ==> kind.Create?
    ensures IsRun(INIT, run)
    ensures var s := After(INIT, run);
            && s.LockOf(list) == Arming(0) && !s.UnmountPending() && s.irps.Keys == {0} && s.entries.Keys == {0}
            && s.irps[0].slot.Some? && s.irps[0].kind == kind && s.irps[0].cancel.Flagged?
            && s.entries[0].irp == Some(0) && s.entries[0].list == list && !s.entries[0].heeded
  {
    run := WaitRun(kind, list, true);
    Extend(run, OfRegistration(Arm(0)));
    run := run + [OfRegistration(Arm(0))];
  }

  /** The registration of an IRP that was cancelled in the meantime is about to back out. */
  lemma DoubtRun(kind: Kind, list: ListId) returns (run: seq<Action>)
    requires list.Retry? ==> kind.Create?
    ensures IsRun(INIT, run)
    ensures var s := After(INIT, run);
            && s.LockOf(list) == BackingOut(0) && !s.UnmountPending() && s.irps.Keys == {0} && s.entries.Keys == {0}
            && s.irps[0].slot.Some? && s.irps[0].kind == kind
            && s.entries[0].irp == Some(0) && s.entries[0].list == list && !s.entries[0].heeded
  {
    run := ArmWaitRun(kind, list);
    Extend(run, OfRegistration(TestCancel(0)));
    run := run + [OfRegistration(TestCancel(0))];
  }

  /** An IRP of any kind that is cancelled while it waits for an oplock break is lost, without any unmount. */
  lemma CancelledWaitIsLost(kind: Kind, list: ListId) returns (run: seq<Action>)
    requires list.Retry? ==> kind.Create?
    ensures IsRun(INIT, run) && IsLost(After(INIT, run), 0) && After(INIT, run).irps[0].kind == kind
    ensures !After(INIT, run).UnmountPending()
  {
    run := DoubtRun(kind, list);
    Extend(run, OfRegistration(BackOut(0)));
    run := run + [OfRegistration(BackOut(0))];
  }
}
