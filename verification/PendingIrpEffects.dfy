/**
  What each step of the pending-IRP protocol completes, frees, numbers and clears, told resource by resource: the
  exact steps that complete an IRP, free an entry, free a write context, and hand out a serial number.
*/
module PendingIrpEffects {
  import opened Options
  import opened PendingIrp
  import opened PendingIrpSafety
  import opened PendingIrpLoss

  // ------------------------------------------------------------------------------------------
  // Write contexts
  // ------------------------------------------------------------------------------------------

  /** The write context of an IRP is its own and not freed. */
  predicate EventOk(s: State, i: nat)
    requires i in s.irps
  {
    s.irps[i].driverEvent.Some? ==>
      var c := s.irps[i].driverEvent.value;
      c in s.contexts && s.contexts[c].frees == 0 && s.contexts[c].irp == i
  }

  lemma EventIsOk(s: State, i: nat)
    requires ContextsOk(s) && i in s.irps
    ensures EventOk(s, i)
  {
  }

  /** The event write finds a write whose cancel routine was not taken. */
  predicate HandsOver(s: State, a: WalkAction, c: nat)
    requires WalkEnabled(s, a)
  {
    a.WriteMatch? && Resolved(s, Matched(s, a)) &&
    var irp := s.irps[s.entries[Matched(s, a)].irp.value];
    irp.slot.Some? && irp.kind.Write? && irp.driverEvent == Some(c)
  }

  /** The steps that free the write context `c`. */
  predicate FreesContext(s: State, a: Action, c: nat)
    requires Enabled(s, a)
  {
    match a
    case OfDispatch(d) => d.DropContext? && s.irps[d.i].driverEvent == Some(c)
    case OfCancel(x) => x.CancelSection? && s.irps[x.i].kind.Write? && s.irps[x.i].driverEvent == Some(c)
    case OfWalk(w) => HandsOver(s, w, c)
    case _ => false
  }

  /** DriverContext[DRIVER_CONTEXT_EVENT] of the IRP `i` after a step. */
  function EventAfter(s: State, a: Action, i: nat): Option<nat>
    requires Enabled(s, a) && i in s.irps
  {
    var event := s.irps[i].driverEvent;
    if a.OfDispatch? && a.d.AttachContext? && a.d.i == i then Some(a.d.c)
    else if a == OfCancel(MarkForced(i)) then None
    else if event.Some? && FreesContext(s, a, event.value) then None
    else event
  }

  /** The contexts are those of `s`, with `c` freed once more if there is one. */
  predicate ContextsAfter(s: State, t: State, c: Option<nat>) {
    && (forall b :: b in s.contexts ==> b in t.contexts && t.contexts[b].irp == s.contexts[b].irp
                                        && t.contexts[b].frees == s.contexts[b].frees + if c == Some(b) then 1 else 0)
    && (forall b :: b in t.contexts && b !in s.contexts ==> t.contexts[b].frees == 0)
  }

  lemma DispatchContexts(s: State, a: DispatchAction)
    requires DispatchEnabled(s, a)
    ensures ContextsAfter(s, DispatchStep(s, a), if a.DropContext? then s.irps[a.i].driverEvent else None)
  {
    match a
    case Arrive(_, _) =>
    case DispatchComplete(_) =>
    case AttachContext(_, _) =>
    case DropContext(_) =>
    case Post(_) =>
    case OplockFail(_) =>
    case Refuse(_, _) =>
    case Allocate(_, _, _) =>
  }

  lemma RegistrationContexts(s: State, a: RegistrationAction)
    requires RegistrationEnabled(s, a)
    ensures RegistrationStep(s, a).contexts == s.contexts
  {
    match a
    case Arm(_) =>
    case TestCancel(_) =>
    case BackOut(_) =>
    case Insert(_) =>
  }

  lemma CancelContexts(s: State, a: CancelAction)
    requires CancelEnabled(s, a) && EventOk(s, a.i)
    ensures ContextsAfter(s, CancelStep(s, a),
                          if a.CancelSection? && s.irps[a.i].kind.Write? then s.irps[a.i].driverEvent else None)
  {
    match a
    case RaiseCancel(_) =>
    case TakeRoutine(_) =>
    case ReadEntry(_) =>
    case MarkForced(_) =>
    case CancelSection(_) =>
    case CancelComplete(_) =>
  }

  lemma WalkContexts(s: State, a: WalkAction)
    requires Meets(s, a) && EventOk(s, s.entries[Matched(s, a)].irp.value)
    ensures var irp := s.irps[s.entries[Matched(s, a)].irp.value];
            ContextsAfter(s, WalkStep(s, a),
                          if a.WriteMatch? && irp.slot.Some? && irp.kind.Write? then irp.driverEvent else None)
  {
    MatchStepIs(s, a);
  }

  /** A step frees the context `c` exactly when it is one of three, and then once; no other context changes. */
  lemma ContextStep(s: State, a: Action, c: nat)
    requires Inv(s) && Enabled(s, a)
    ensures var t := Step(s, a);
            if c in s.contexts then
              && c in t.contexts && t.contexts[c].irp == s.contexts[c].irp
              && t.contexts[c].frees == s.contexts[c].frees + if FreesContext(s, a, c) then 1 else 0
            else !FreesContext(s, a, c) && (c in t.contexts ==> t.contexts[c].frees == 0)
  {
    match a
    case OfDispatch(d) => DispatchContexts(s, d);
    case OfRegistration(r) => RegistrationContexts(s, r);
    case OfCancel(x) =>
      EventIsOk(s, x.i);
      CancelContexts(s, x);
    case OfWalk(w) =>
      MatchedOk(s, w);
      EventIsOk(s, s.entries[Matched(s, w)].irp.value);
      WalkContexts(s, w);
    case OfFinish(f) =>
    case OfLock(l) => LockContexts(s, l);
  }

  lemma LockContexts(s: State, a: LockAction)
    requires LockEnabled(s, a)
    ensures LockStep(s, a).contexts == s.contexts
  {
  }

  lemma DispatchEvents(s: State, a: DispatchAction)
    requires DispatchEnabled(s, a) && a.i in s.irps
    ensures DispatchStep(s, a).irps[a.i].driverEvent ==
            if a.AttachContext? then Some(a.c) else if a.DropContext? then None else s.irps[a.i].driverEvent
  {
    match a
    case DispatchComplete(_) =>
    case AttachContext(_, _) =>
    case DropContext(_) =>
    case Post(_) =>
    case OplockFail(_) =>
    case Refuse(_, _) =>
    case Allocate(_, _, _) =>
  }

  lemma RegistrationEvents(s: State, a: RegistrationAction)
    requires RegistrationEnabled(s, a)
    ensures var i := s.entries[a.e].irp.value; RegistrationStep(s, a).irps[i].driverEvent == s.irps[i].driverEvent
  {
    match a
    case Arm(_) =>
    case TestCancel(_) =>
    case BackOut(_) =>
    case Insert(_) =>
  }

  lemma CancelEvents(s: State, a: CancelAction)
    requires CancelEnabled(s, a)
    ensures CancelStep(s, a).irps[a.i].driverEvent ==
            if a.MarkForced? || (a.CancelSection? && s.irps[a.i].kind.Write?) then None else s.irps[a.i].driverEvent
  {
    match a
    case RaiseCancel(_) =>
    case TakeRoutine(_) =>
    case ReadEntry(_) =>
    case MarkForced(_) =>
    case CancelSection(_) =>
    case CancelComplete(_) =>
  }

  lemma WalkEvents(s: State, a: WalkAction)
    requires Meets(s, a) && EventOk(s, s.entries[Matched(s, a)].irp.value)
    ensures var i := s.entries[Matched(s, a)].irp.value;
            WalkStep(s, a).irps[i].driverEvent ==
            if a.WriteMatch? && s.irps[i].slot.Some? && s.irps[i].kind.Write? then None else s.irps[i].driverEvent
  {
    MatchStepIs(s, a);
  }

  lemma FinishEvents(s: State, a: FinishAction)
    requires Resolved(s, a.e)
    ensures var i := s.entries[a.e].irp.value; FinishStep(s, a).irps[i].driverEvent == s.irps[i].driverEvent
  {
  }

  lemma WalkEvent(s: State, a: WalkAction, i: nat)
    requires Inv(s) && WalkEnabled(s, a) && i in s.irps && Subject(s, OfWalk(a)) == Some(i)
    ensures i in WalkStep(s, a).irps && WalkStep(s, a).irps[i].driverEvent == EventAfter(s, OfWalk(a), i)
  {
    MatchedOk(s, a);
    EventIsOk(s, i);
    WalkEvents(s, a);
    WalkFrame(s, a);
  }

  lemma SubjectEvent(s: State, a: Action, i: nat)
    requires Enabled(s, a) && i in s.irps && Subject(s, a) == Some(i) && !a.OfWalk?
    requires i in Step(s, a).irps
    ensures Step(s, a).irps[i].driverEvent == EventAfter(s, a, i)
  {
    match a
    case OfDispatch(d) => DispatchEvents(s, d);
    case OfRegistration(r) => RegistrationEvents(s, r);
    case OfCancel(x) => CancelEvents(s, x);
    case OfFinish(f) => FinishEvents(s, f);
  }

  /** A context belongs to one IRP, so a step that frees it has that IRP for its subject. */
  lemma OwnContext(s: State, a: Action, i: nat)
    requires Inv(s) && Enabled(s, a) && i in s.irps && Subject(s, a) != Some(i) && s.irps[i].driverEvent.Some?
    ensures !FreesContext(s, a, s.irps[i].driverEvent.value)
  {
    EventIsOk(s, i);
    if Subject(s, a).Some? && Subject(s, a).value in s.irps { EventIsOk(s, Subject(s, a).value); }
  }

  /** The IRP's pointer to its write context is set by the dispatcher, and cleared exactly when the context is freed
      or a create is marked as cancelled. */
  lemma EventStep(s: State, a: Action, i: nat)
    requires Inv(s) && Enabled(s, a) && i in s.irps
    ensures i in Step(s, a).irps && Step(s, a).irps[i].driverEvent == EventAfter(s, a, i)
  {
    StepFramed(s, a);
    if Subject(s, a) == Some(i) {
      if a.OfWalk? { WalkEvent(s, a.w, i); } else { SubjectEvent(s, a, i); }
    } else {
      if s.irps[i].driverEvent.Some? { OwnContext(s, a, i); }
    }
  }

  /** Some step of the run frees the context. */
  predicate ContextFreedIn(s: State, run: seq<Action>, c: nat)
    requires IsRun(s, run)
    decreases |run|
  {
    run != [] && (FreesContext(s, run[0], c) || ContextFreedIn(Step(s, run[0]), run[1..], c))
  }

  predicate IsFreed(s: State, c: nat) { c in s.contexts && s.contexts[c].frees > 0 }

  lemma {:induction false} ContextFreedFrom(s: State, run: seq<Action>, c: nat)
    requires Inv(s) && IsRun(s, run)
    ensures IsFreed(After(s, run), c) <==> IsFreed(s, c) || ContextFreedIn(s, run, c)
    decreases |run|
  {
    if run != [] {
      KeepsStep(s, run[0]);
      ContextStep(s, run[0], c);
      ContextFreedFrom(Step(s, run[0]), run[1..], c);
    }
  }

  /**
    In every run: a pending write context is freed at the end, once, exactly when the dispatcher gave it up, an event
    write handed it over, or the cancel routine of its write ran under the lock.
  */
  lemma {:induction false} ContextFreedExactly(run: seq<Action>, c: nat)
    requires IsRun(INIT, run) && c in After(INIT, run).contexts
    ensures After(INIT, run).contexts[c].frees == if ContextFreedIn(INIT, run, c) then 1 else 0
  {
    InitOk();
    KeepsRun(INIT, run);
    ContextFreedFrom(INIT, run, c);
    NothingHappensTwice(run);
  }

  // ------------------------------------------------------------------------------------------
  // Completions
  // ------------------------------------------------------------------------------------------

  /** The steps that call IoCompleteRequest for `i`. */
  predicate Completes(s: State, a: Action, i: nat)
    requires Enabled(s, a)
  {
    match a
    case OfDispatch(d) => (d.DispatchComplete? || d.OplockFail?) && d.i == i
    case OfCancel(c) => c == CancelComplete(i)
    case OfFinish(f) => s.entries[f.e].irp == Some(i) && !f.ReplyCheck? && !f.ReplyAbandon? && !f.Redispatch?
    case _ => false
  }

  lemma DispatchCompletes(s: State, a: DispatchAction)
    requires DispatchEnabled(s, a)
    ensures var before := if a.i in s.irps then s.irps[a.i].completions else 0;
            DispatchStep(s, a).irps[a.i].completions == before + if a.DispatchComplete? || a.OplockFail? then 1 else 0
  {
    match a
    case Arrive(_, _) =>
    case DispatchComplete(_) =>
    case AttachContext(_, _) =>
    case DropContext(_) =>
    case Post(_) =>
    case OplockFail(_) =>
    case Refuse(_, _) =>
    case Allocate(_, _, _) =>
  }

  lemma CancelCompletes(s: State, a: CancelAction)
    requires CancelEnabled(s, a)
    ensures CancelStep(s, a).irps[a.i].completions == s.irps[a.i].completions + if a.CancelComplete? then 1 else 0
  {
    match a
    case RaiseCancel(_) =>
    case TakeRoutine(_) =>
    case ReadEntry(_) =>
    case MarkForced(_) =>
    case CancelSection(_) =>
    case CancelComplete(_) =>
  }

  lemma FinishCompletes(s: State, a: FinishAction)
    requires Resolved(s, a.e)
    ensures var i := s.entries[a.e].irp.value;
            FinishStep(s, a).irps[i].completions ==
            s.irps[i].completions + if a.ReplyCheck? || a.ReplyAbandon? || a.Redispatch? then 0 else 1
  {
  }

  lemma SubjectCompletes(s: State, a: Action, i: nat)
    requires Enabled(s, a) && Subject(s, a) == Some(i) && (a.OfWalk? ==> Meets(s, a.w)) && i in Step(s, a).irps
    ensures var before := if i in s.irps then s.irps[i].completions else 0;
            Step(s, a).irps[i].completions == before + if Completes(s, a, i) then 1 else 0
  {
    match a
    case OfDispatch(d) => DispatchCompletes(s, d);
    case OfRegistration(r) => RegistrationCounts(s, r);
    case OfCancel(c) => CancelCompletes(s, c);
    case OfWalk(w) => WalkCounts(s, w);
    case OfFinish(f) => FinishCompletes(s, f);
  }

  lemma CompletionStep(s: State, a: Action, i: nat)
    requires Inv(s) && Enabled(s, a) && i in Step(s, a).irps
    ensures var before := if i in s.irps then s.irps[i].completions else 0;
            Step(s, a).irps[i].completions == before + if Completes(s, a, i) then 1 else 0
  {
    StepFramed(s, a);
    if a.OfWalk? { MatchedOk(s, a.w); }
    if Subject(s, a) == Some(i) { SubjectCompletes(s, a, i); }
  }

  predicate CompletedIn(s: State, run: seq<Action>, i: nat)
    requires IsRun(s, run)
    decreases |run|
  {
    run != [] && (Completes(s, run[0], i) || CompletedIn(Step(s, run[0]), run[1..], i))
  }

  predicate IsCompleted(s: State, i: nat) { i in s.irps && s.irps[i].completions > 0 }

  lemma CompletedStep(s: State, a: Action, i: nat)
    requires Inv(s) && Enabled(s, a)
    ensures IsCompleted(Step(s, a), i) <==> IsCompleted(s, i) || Completes(s, a, i)
    ensures i in s.irps ==> i in Step(s, a).irps
  {
    StepFramed(s, a);
    if i in Step(s, a).irps { CompletionStep(s, a, i); }
  }

  lemma {:induction false} CompletedFrom(s: State, run: seq<Action>, i: nat)
    requires Inv(s) && IsRun(s, run)
    ensures IsCompleted(After(s, run), i) <==> IsCompleted(s, i) || CompletedIn(s, run, i)
    decreases |run|
  {
    if run != [] {
      KeepsStep(s, run[0]);
      CompletedStep(s, run[0], i);
      CompletedFrom(Step(s, run[0]), run[1..], i);
    }
  }

  /** In every run: an IRP is completed at the end, once, exactly when the run has a step that completes it. */
  lemma {:induction false} CompletedExactly(run: seq<Action>, i: nat)
    requires IsRun(INIT, run) && i in After(INIT, run).irps
    ensures After(INIT, run).irps[i].completions == if CompletedIn(INIT, run, i) then 1 else 0
  {
    InitOk();
    KeepsRun(INIT, run);
    CompletedFrom(INIT, run, i);
    NothingHappensTwice(run);
  }

  // ------------------------------------------------------------------------------------------
  // Entries
  // ------------------------------------------------------------------------------------------

  /** The steps that call DokanFreeIrpEntry for `e`. */
  predicate FreesEntry(s: State, a: Action, e: nat)
    requires Enabled(s, a)
  {
    match a
    case OfRegistration(r) =>
      r.e == e && ((r.Arm? && s.UnmountPending()) || (r.BackOut? && s.irps[s.entries[e].irp.value].slot.Some?))
    case OfCancel(c) => c.CancelSection? && s.irps[c.i].cancel.entry == e && s.entries[e].routineFrees
    case OfFinish(f) => f.e == e && !f.ReplyCheck? && !f.ReplyAbandon?
    case _ => false
  }

  /** What a step makes of the fields of entry `e`, field by field. */
  predicate EntryChanges(s: State, a: Action, e: nat, t: State)
    requires Enabled(s, a) && e in s.entries
  {
    e in t.entries &&
    var x, y := s.entries[e], t.entries[e];
    var arms := a == OfRegistration(Arm(e)) && !s.UnmountPending();
    var cancels := a.OfCancel? && (a.c.MarkForced? || a.c.CancelSection?) && s.irps[a.c.i].cancel.entry == e;
    var abandons := a.OfWalk? && Meets(s, a.w) && Matched(s, a.w) == e && WalkAbandons(s, a.w);
    && y.frees == x.frees + (if FreesEntry(s, a, e) then 1 else 0)
    && y.serial == (if !arms then x.serial else if x.withEvent then s.serial + 1 else 0)
    && (y.forced <==> x.forced || (cancels && a.c.MarkForced?))
    && y.irp == (if cancels && a.c.CancelSection? then None else x.irp)
    && (y.routineFrees <==> x.routineFrees || abandons)
    && y.list == x.list && y.withEvent == x.withEvent && y.heeded == x.heeded
  }

  lemma ArmChanges(s: State, e: nat)
    requires RegistrationEnabled(s, Arm(e))
    ensures EntryChanges(s, OfRegistration(Arm(e)), e, ArmStep(s, e))
  {
  }

  lemma BackOutChanges(s: State, e: nat)
    requires RegistrationEnabled(s, BackOut(e))
    ensures EntryChanges(s, OfRegistration(BackOut(e)), e, BackOutStep(s, e))
  {
    BackOutEntry(s, e);
  }

  lemma BackOutEntry(s: State, e: nat)
    requires Resolved(s, e)
    ensures e in BackOutStep(s, e).entries
    ensures BackOutStep(s, e).entries[e] ==
            if s.irps[s.entries[e].irp.value].slot.None? then s.entries[e].(at := Linking)
            else s.entries[e].(at := Freed, frees := s.entries[e].frees + 1)
  {
  }

  lemma RegistrationChanges(s: State, a: RegistrationAction)
    requires RegistrationEnabled(s, a)
    ensures EntryChanges(s, OfRegistration(a), a.e, RegistrationStep(s, a))
  {
    match a
    case Arm(e) => ArmChanges(s, e);
    case TestCancel(_) =>
    case BackOut(e) => BackOutChanges(s, e);
    case Insert(_) =>
  }

  lemma CancelChanges(s: State, a: CancelAction)
    requires CancelEnabled(s, a) && (a.MarkForced? || a.CancelSection?)
    ensures EntryChanges(s, OfCancel(a), s.irps[a.i].cancel.entry, CancelStep(s, a))
  {
    match a
    case MarkForced(_) =>
    case CancelSection(_) =>
  }

  lemma WalkChanges(s: State, a: WalkAction)
    requires Meets(s, a)
    ensures EntryChanges(s, OfWalk(a), Matched(s, a), WalkStep(s, a))
  {
    MatchStepIs(s, a);
  }

  lemma FinishChanges(s: State, a: FinishAction)
    requires FinishEnabled(s, a)
    ensures EntryChanges(s, OfFinish(a), a.e, FinishStep(s, a))
  {
  }

  lemma TargetChanges(s: State, a: Action)
    requires Enabled(s, a) && Target(s, a).Some? && (a.OfWalk? ==> Meets(s, a.w)) && Target(s, a).value in s.entries
    ensures EntryChanges(s, a, Target(s, a).value, Step(s, a))
  {
    match a
    case OfRegistration(r) => RegistrationChanges(s, r);
    case OfCancel(c) => CancelChanges(s, c);
    case OfWalk(w) => WalkChanges(s, w);
    case OfFinish(f) => FinishChanges(s, f);
  }

  /** Each step changes the fields of each entry as `EntryChanges` says. */
  lemma EntryStep(s: State, a: Action, e: nat)
    requires Inv(s) && Enabled(s, a) && e in s.entries
    ensures EntryChanges(s, a, e, Step(s, a))
  {
    if a.OfWalk? { MatchedOk(s, a.w); }
    if Target(s, a) == Some(e) { TargetChanges(s, a); } else { StepFramed(s, a); }
  }

  /** An entry that a step brings in is that of an allocation, not freed and without a serial number. */
  lemma NewEntry(s: State, a: Action, e: nat)
    requires Inv(s) && Enabled(s, a) && e !in s.entries && e in Step(s, a).entries
    ensures a.OfDispatch? && a.d.Allocate? && a.d.e == e && Step(s, a).entries[e].irp == Some(a.d.i)
    ensures Step(s, a).entries[e].frees == 0 && Step(s, a).entries[e].serial == 0 && !Step(s, a).entries[e].forced
  {
    match a
    case OfDispatch(d) =>
    case OfRegistration(r) => RegistrationFrame(s, r);
    case OfCancel(c) => CancelFrame(s, c);
    case OfWalk(w) =>
      MatchedOk(s, w);
      WalkFrame(s, w);
    case OfFinish(f) => FinishFrame(s, f);
    case OfLock(l) => LockFrame(s, l);
  }

  predicate EntryFreedIn(s: State, run: seq<Action>, e: nat)
    requires IsRun(s, run)
    decreases |run|
  {
    run != [] && (FreesEntry(s, run[0], e) || EntryFreedIn(Step(s, run[0]), run[1..], e))
  }

  predicate IsEntryFreed(s: State, e: nat) { e in s.entries && s.entries[e].frees > 0 }

  lemma EntryFreedStep(s: State, a: Action, e: nat)
    requires Inv(s) && Enabled(s, a)
    ensures IsEntryFreed(Step(s, a), e) <==> IsEntryFreed(s, e) || FreesEntry(s, a, e)
  {
    if e in s.entries {
      EntryStep(s, a, e);
    } else {
      if e in Step(s, a).entries { NewEntry(s, a, e); }
      if a.OfWalk? { MatchedOk(s, a.w); }
      if Target(s, a) == Some(e) { TargetIsOwn(s, a); }
    }
  }

  lemma {:induction false} EntryFreedFrom(s: State, run: seq<Action>, e: nat)
    requires Inv(s) && IsRun(s, run)
    ensures IsEntryFreed(After(s, run), e) <==> IsEntryFreed(s, e) || EntryFreedIn(s, run, e)
    decreases |run|
  {
    if run != [] {
      KeepsStep(s, run[0]);
      EntryFreedStep(s, run[0], e);
      EntryFreedFrom(Step(s, run[0]), run[1..], e);
    }
  }

  /**
    In every run: an IRP_ENTRY is freed at the end, once, exactly when its registration was refused, its cancel routine
    ran after the entry had been left to it, or a thread finished it.
  */
  lemma {:induction false} EntryFreedExactly(run: seq<Action>, e: nat)
    requires IsRun(INIT, run) && e in After(INIT, run).entries
    ensures After(INIT, run).entries[e].frees == if EntryFreedIn(INIT, run, e) then 1 else 0
  {
    InitOk();
    KeepsRun(INIT, run);
    EntryFreedFrom(INIT, run, e);
    NothingHappensTwice(run);
  }

  // ------------------------------------------------------------------------------------------
  // Local lists
  // ------------------------------------------------------------------------------------------

  /** A cancel routine works on no entry of a local list. */
  lemma CancelIsElsewhere(s: State, a: CancelAction)
    requires CancelEnabled(s, a) && (a.MarkForced? || a.CancelSection?)
    requires IrpOk(s, a.i) && EntryOk(s, s.irps[a.i].cancel.entry)
    ensures !IsLocal(s.entries[s.irps[a.i].cancel.entry].at)
  {
    match a
    case MarkForced(_) =>
    case CancelSection(_) => CancelSectionEntry(s, a.i);
  }

  /** Whatever entry a step works on, no walk that put it on a local list is still under way. */
  lemma TargetIsFree(s: State, a: Action)
    requires Inv(s) && Enabled(s, a) && Target(s, a).Some?
    ensures Target(s, a).value in s.entries && WalkOver(s, Target(s, a).value)
  {
    match a
    case OfRegistration(r) => RegistrationWaits(s, r);
    case OfCancel(c) =>
      assert IrpOk(s, c.i) && EntryOk(s, s.irps[c.i].cancel.entry);
      CancelIsElsewhere(s, c);
    case OfWalk(w) => MatchedOk(s, w);
    case _ =>
  }

  /** While a walk that put an entry on its local list still owns the lock, no step changes the entry. */
  lemma LocalsWaitForUnlock(s: State, a: Action, e: nat)
    requires Inv(s) && Enabled(s, a) && e in s.entries && !WalkOver(s, e)
    ensures e in Step(s, a).entries && Step(s, a).entries[e] == s.entries[e]
  {
    if Target(s, a).Some? { TargetIsFree(s, a); }
    StepFramed(s, a);
  }

  // ------------------------------------------------------------------------------------------
  // What the retry list is for
  // ------------------------------------------------------------------------------------------

  lemma DispatchKinds(s: State, a: DispatchAction)
    requires DispatchEnabled(s, a) && a.i in s.irps
    ensures DispatchStep(s, a).irps[a.i].kind == s.irps[a.i].kind
  {
  }

  lemma RegistrationKinds(s: State, a: RegistrationAction)
    requires RegistrationEnabled(s, a)
    ensures var i := s.entries[a.e].irp.value; RegistrationStep(s, a).irps[i].kind == s.irps[i].kind
  {
    match a
    case Arm(_) =>
    case TestCancel(_) =>
    case BackOut(_) =>
    case Insert(_) =>
  }

  lemma CancelKinds(s: State, a: CancelAction)
    requires CancelEnabled(s, a)
    ensures CancelStep(s, a).irps[a.i].kind == s.irps[a.i].kind
  {
  }

  lemma WalkKinds(s: State, a: WalkAction)
    requires Meets(s, a)
    ensures var i := s.entries[Matched(s, a)].irp.value; WalkStep(s, a).irps[i].kind == s.irps[i].kind
  {
    MatchStepIs(s, a);
  }

  lemma FinishKinds(s: State, a: FinishAction)
    requires Resolved(s, a.e)
    ensures var i := s.entries[a.e].irp.value; FinishStep(s, a).irps[i].kind == s.irps[i].kind
  {
  }

  lemma SubjectKind(s: State, a: Action, i: nat)
    requires Enabled(s, a) && i in s.irps && Subject(s, a) == Some(i) && (a.OfWalk? ==> Meets(s, a.w))
    requires i in Step(s, a).irps
    ensures Step(s, a).irps[i].kind == s.irps[i].kind
  {
    match a
    case OfDispatch(d) => DispatchKinds(s, d);
    case OfRegistration(r) => RegistrationKinds(s, r);
    case OfCancel(c) => CancelKinds(s, c);
    case OfWalk(w) => WalkKinds(s, w);
    case OfFinish(f) => FinishKinds(s, f);
  }

  lemma KindStep(s: State, a: Action, i: nat)
    requires Inv(s) && Enabled(s, a) && i in s.irps
    ensures i in Step(s, a).irps && Step(s, a).irps[i].kind == s.irps[i].kind
  {
    StepFramed(s, a);
    if a.OfWalk? { MatchedOk(s, a.w); }
    if Subject(s, a) == Some(i) { SubjectKind(s, a, i); }
  }

  /** How entry `e` was registered: by a dispatcher with an event, or by a callback, for a create without one. */
  predicate RegisteredAs(s: State, e: nat) {
    e in s.entries ==>
      var entry := s.entries[e];
      && (entry.heeded ==> entry.list.Pending? && entry.withEvent)
      && (entry.irp.Some? && entry.irp.value in s.irps ==>
            (!entry.heeded ==> (entry.withEvent <==> !s.irps[entry.irp.value].kind.Create?))
            && (entry.list.Retry? ==> s.irps[entry.irp.value].kind.Create?))
  }

  lemma NewIsRegistered(s: State, a: Action, e: nat)
    requires Inv(s) && Enabled(s, a) && e !in s.entries
    ensures RegisteredAs(Step(s, a), e)
  {
    if e in Step(s, a).entries { NewEntry(s, a, e); }
  }

  lemma RegisteredStep(s: State, a: Action, e: nat)
    requires Inv(s) && Enabled(s, a) && RegisteredAs(s, e)
    requires e in s.entries && s.entries[e].irp.Some? ==> s.entries[e].irp.value in s.irps
    ensures RegisteredAs(Step(s, a), e)
  {
    if e in s.entries {
      EntryStep(s, a, e);
      if s.entries[e].irp.Some? { KindStep(s, a, s.entries[e].irp.value); }
    } else {
      NewIsRegistered(s, a, e);
    }
  }

  /** An entry's IRP exists. */
  predicate HasIrp(s: State, e: nat) {
    e in s.entries && s.entries[e].irp.Some? ==> s.entries[e].irp.value in s.irps
  }

  lemma HasIrpStep(s: State, a: Action, e: nat)
    requires Inv(s) && Enabled(s, a) && HasIrp(s, e)
    ensures HasIrp(Step(s, a), e)
  {
    StepFramed(s, a);
    if e in s.entries { EntryStep(s, a, e); } else if e in Step(s, a).entries { NewEntry(s, a, e); }
  }

  lemma {:induction false} RegisteredFrom(s: State, run: seq<Action>, e: nat)
    requires Inv(s) && IsRun(s, run) && RegisteredAs(s, e) && HasIrp(s, e)
    ensures RegisteredAs(After(s, run), e)
    decreases |run|
  {
    if run != [] {
      KeepsStep(s, run[0]);
      RegisteredStep(s, run[0], e);
      HasIrpStep(s, run[0], e);
      RegisteredFrom(Step(s, run[0]), run[1..], e);
    }
  }

  /**
    In every run: a dispatch routine registers with an event on the pending list; a callback of the oplock package
    registers creates, and only those, without one; and only creates wait on the retry list.
  */
  lemma {:induction false} RetryListIsForCreates(run: seq<Action>, e: nat)
    requires IsRun(INIT, run) && e in After(INIT, run).entries
    ensures RegisteredAs(After(INIT, run), e)
  {
    InitOk();
    RegisteredFrom(INIT, run, e);
  }

  // ------------------------------------------------------------------------------------------
  // Serial numbers
  // ------------------------------------------------------------------------------------------

  /** A registration with an event gets past the second unmount check. */
  predicate DrawsNumber(s: State, a: Action)
    requires Enabled(s, a)
  {
    a.OfRegistration? && a.r.Arm? && !s.UnmountPending() && s.entries[a.r.e].withEvent
  }

  lemma RegistrationCounter(s: State, a: RegistrationAction)
    requires RegistrationEnabled(s, a)
    ensures RegistrationStep(s, a).serial == s.serial + if DrawsNumber(s, OfRegistration(a)) then 1 else 0
  {
    match a
    case Arm(_) =>
    case TestCancel(_) =>
    case BackOut(_) =>
    case Insert(_) =>
  }

  lemma CancelCounter(s: State, a: CancelAction)
    requires CancelEnabled(s, a)
    ensures CancelStep(s, a).serial == s.serial
  {
    match a
    case RaiseCancel(_) =>
    case TakeRoutine(_) =>
    case ReadEntry(_) =>
    case MarkForced(_) =>
    case CancelSection(_) =>
    case CancelComplete(_) =>
  }

  lemma WalkCounter(s: State, a: WalkAction)
    requires Meets(s, a)
    ensures WalkStep(s, a).serial == s.serial
  {
    MatchStepIs(s, a);
  }

  lemma LockCounter(s: State, a: LockAction)
    requires LockEnabled(s, a)
    ensures LockStep(s, a).serial == s.serial
  {
  }

  lemma CounterStep(s: State, a: Action)
    requires Inv(s) && Enabled(s, a)
    ensures Step(s, a).serial == s.serial + if DrawsNumber(s, a) then 1 else 0
  {
    match a
    case OfDispatch(d) => DispatchFrame(s, d);
    case OfRegistration(r) => RegistrationCounter(s, r);
    case OfCancel(c) => CancelCounter(s, c);
    case OfWalk(w) =>
      MatchedOk(s, w);
      WalkCounter(s, w);
    case OfFinish(f) => FinishFrame(s, f);
    case OfLock(l) => LockCounter(s, l);
  }

  /** How many registrations with an event got past the second unmount check. */
  function Draws(s: State, run: seq<Action>): nat
    requires IsRun(s, run)
    decreases |run|
  {
    if run == [] then 0 else (if DrawsNumber(s, run[0]) then 1 else 0) + Draws(Step(s, run[0]), run[1..])
  }

  /** Only the arming entry gets another number. */
  lemma SerialStep(s: State, a: Action, e: nat)
    requires Inv(s) && Enabled(s, a) && e in Step(s, a).entries
    ensures var after, before := Step(s, a).entries[e].serial, if e in s.entries then s.entries[e].serial else 0;
            after == before || (a == OfRegistration(Arm(e)) && after == if DrawsNumber(s, a) then s.serial + 1 else 0)
  {
    if e in s.entries { EntryStep(s, a, e); } else { NewEntry(s, a, e); }
  }

  function SerialOf(s: State, e: nat): nat { if e in s.entries then s.entries[e].serial else 0 }

  /** Entry `e` has none of the numbers that are still to be drawn, and shares none with `f`. */
  predicate NumbersOk(s: State, e: nat, f: nat) {
    && SerialOf(s, e) <= s.serial && SerialOf(s, f) <= s.serial
    && (e != f && SerialOf(s, e) == SerialOf(s, f) ==> SerialOf(s, e) == 0)
  }

  lemma NumbersStep(s: State, a: Action, e: nat, f: nat)
    requires Inv(s) && Enabled(s, a) && NumbersOk(s, e, f)
    ensures NumbersOk(Step(s, a), e, f)
  {
    CounterStep(s, a);
    StepFramed(s, a);
    if e in Step(s, a).entries { SerialStep(s, a, e); }
    if f in Step(s, a).entries { SerialStep(s, a, f); }
  }

  lemma {:induction false} NumbersFrom(s: State, run: seq<Action>, e: nat, f: nat)
    requires Inv(s) && IsRun(s, run) && NumbersOk(s, e, f)
    ensures NumbersOk(After(s, run), e, f) && After(s, run).serial == s.serial + Draws(s, run)
    decreases |run|
  {
    if run != [] {
      KeepsStep(s, run[0]);
      CounterStep(s, run[0]);
      NumbersStep(s, run[0], e, f);
      NumbersFrom(Step(s, run[0]), run[1..], e, f);
    }
  }

  /**
    In every run: the counter is the number of events that were registered, no two entries, listed or not, ever share a
    serial number other than 0, and no entry has one that is still to come.
  */
  lemma {:induction false} SerialNumbersAreUnique(run: seq<Action>, e: nat, f: nat)
    requires IsRun(INIT, run) && e in After(INIT, run).entries && f in After(INIT, run).entries && e != f
    ensures var s := After(INIT, run);
            && s.serial == Draws(INIT, run) && s.entries[e].serial <= s.serial
            && (s.entries[e].serial == s.entries[f].serial ==> s.entries[e].serial == 0)
  {
    InitOk();
    NumbersFrom(INIT, run, e, f);
  }

  // ------------------------------------------------------------------------------------------
  // The routine and the entry that an IRP points to
  // ------------------------------------------------------------------------------------------

  /** What a walk leaves of the IRP's routine and of its pointer to the entry. */
  predicate WalkPointers(s: State, a: WalkAction, x: Irp, y: Irp)
    requires Meets(s, a)
  {
    if WalkAbandons(s, a) then
      y.slot == (if a.WriteMatch? then Some(IrpRoutine) else None) && y.driverEntry == x.driverEntry
    else if a.WriteMatch? then
      y.slot == Some(IrpRoutine) && y.driverEntry == x.driverEntry
    else
      y.slot == None && y.driverEntry == if a.DrainPop? then x.driverEntry else None
  }

  /** What a step makes of Irp->CancelRoutine and DriverContext[DRIVER_CONTEXT_IRP_ENTRY]. */
  predicate PointersChange(s: State, a: Action, x: Irp, y: Irp)
    requires Enabled(s, a)
  {
    match a
    case OfRegistration(Arm(e)) =>
      if s.UnmountPending() then y.slot == x.slot && y.driverEntry == x.driverEntry
      else y.driverEntry == Some(e) && y.slot == Some(if x.kind.Create? then CreateRoutine else IrpRoutine)
    case OfRegistration(BackOut(_)) => y.slot == None && y.driverEntry == if x.slot.None? then x.driverEntry else None
    case OfCancel(TakeRoutine(_)) => y.slot == None && y.driverEntry == x.driverEntry
    case OfCancel(CancelSection(_)) => y.slot == x.slot && y.driverEntry == None
    case OfWalk(w) => Meets(s, w) && WalkPointers(s, w, x, y)
    case _ => y.slot == x.slot && y.driverEntry == x.driverEntry
  }

  lemma DispatchPointers(s: State, a: DispatchAction)
    requires DispatchEnabled(s, a) && a.i in s.irps
    ensures PointersChange(s, OfDispatch(a), s.irps[a.i], DispatchStep(s, a).irps[a.i])
  {
    match a
    case DispatchComplete(_) =>
    case AttachContext(_, _) =>
    case DropContext(_) =>
    case Post(_) =>
    case OplockFail(_) =>
    case Refuse(_, _) =>
    case Allocate(_, _, _) =>
  }

  lemma ArmPointers(s: State, e: nat)
    requires RegistrationEnabled(s, Arm(e))
    ensures var i := s.entries[e].irp.value; PointersChange(s, OfRegistration(Arm(e)), s.irps[i], ArmStep(s, e).irps[i])
  {
  }

  lemma BackOutPointers(s: State, e: nat)
    requires RegistrationEnabled(s, BackOut(e))
    ensures var i := s.entries[e].irp.value;
            PointersChange(s, OfRegistration(BackOut(e)), s.irps[i], BackOutStep(s, e).irps[i])
  {
  }

  lemma RegistrationPointers(s: State, a: RegistrationAction)
    requires RegistrationEnabled(s, a)
    ensures var i := s.entries[a.e].irp.value;
            PointersChange(s, OfRegistration(a), s.irps[i], RegistrationStep(s, a).irps[i])
  {
    match a
    case Arm(e) => ArmPointers(s, e);
    case TestCancel(_) =>
    case BackOut(e) => BackOutPointers(s, e);
    case Insert(_) =>
  }

  lemma CancelPointers(s: State, a: CancelAction)
    requires CancelEnabled(s, a)
    ensures PointersChange(s, OfCancel(a), s.irps[a.i], CancelStep(s, a).irps[a.i])
  {
    match a
    case RaiseCancel(_) =>
    case TakeRoutine(_) =>
    case ReadEntry(_) =>
    case MarkForced(_) =>
    case CancelSection(_) =>
    case CancelComplete(_) =>
  }

  lemma WalkPointersAre(s: State, a: WalkAction)
    requires Meets(s, a)
    ensures var i := s.entries[Matched(s, a)].irp.value;
            WalkPointers(s, a, s.irps[i], WalkStep(s, a).irps[i])
  {
    MatchStepIs(s, a);
  }

  lemma FinishPointers(s: State, a: FinishAction)
    requires Resolved(s, a.e)
    ensures var i := s.entries[a.e].irp.value;
            && FinishStep(s, a).irps[i].slot == s.irps[i].slot
            && FinishStep(s, a).irps[i].driverEntry == s.irps[i].driverEntry
  {
  }

  lemma SubjectPointers(s: State, a: Action, i: nat)
    requires Enabled(s, a) && i in s.irps && Subject(s, a) == Some(i) && (a.OfWalk? ==> Meets(s, a.w))
    requires i in Step(s, a).irps
    ensures PointersChange(s, a, s.irps[i], Step(s, a).irps[i])
  {
    match a
    case OfDispatch(d) => DispatchPointers(s, d);
    case OfRegistration(r) => RegistrationPointers(s, r);
    case OfCancel(c) => CancelPointers(s, c);
    case OfWalk(w) => WalkPointersAre(s, w);
    case OfFinish(f) => FinishPointers(s, f);
  }

  /** Each step changes the routine and the entry pointer of its own IRP as `PointersChange` says, and no others. */
  lemma PointerStep(s: State, a: Action, i: nat)
    requires Inv(s) && Enabled(s, a) && i in s.irps
    ensures i in Step(s, a).irps
    ensures if Subject(s, a) == Some(i) then PointersChange(s, a, s.irps[i], Step(s, a).irps[i])
            else Step(s, a).irps[i] == s.irps[i]
  {
    StepFramed(s, a);
    if a.OfWalk? { MatchedOk(s, a.w); }
    if Subject(s, a) == Some(i) { SubjectPointers(s, a, i); }
  }
}
