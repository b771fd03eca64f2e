/**
  What the driver can do by itself: from every reachable state, whatever locks are held and wherever
  its threads stand, its own steps complete every IRP that is not stranded, and finish an unmount.
*/
module PendingIrpProgress {
  import opened Options
  import opened PendingIrp
  import opened PendingIrpSafety
  import opened PendingIrpLoss

  /**
    Steps that need no new request, no new cancellation and no new message from user mode: the driver's threads go
    on, a cancellation that began is carried through, and oplock breaks come to an end.
  */
  predicate IsDriverStep(a: Action) {
    match a
    case OfDispatch(d) => d.DispatchComplete? || d.OplockFail? || d.Allocate?
    case OfRegistration(_) => true
    case OfCancel(c) => !c.RaiseCancel?
    case OfWalk(_) => true
    case OfFinish(_) => true
    case OfLock(l) => !l.ReplyLock? && !l.WriteLock? && !l.ClaimRelease?
  }

  /** The same IRPs; what was completed stays so, and the same ones are stranded. */
  ghost predicate Onward(s: State, t: State) {
    && t.irps.Keys == s.irps.Keys
    && (forall j :: j in s.irps ==> t.irps[j].completions >= s.irps[j].completions)
    && (forall j :: j in s.irps ==> (Stranded(t, j) <==> Stranded(s, j)))
  }

  /** A run of the driver's own steps from `s` to `t`. */
  ghost predicate Leads(s: State, run: seq<Action>, t: State) {
    && IsRun(s, run) && After(s, run) == t && (forall a :: a in run ==> IsDriverStep(a))
    && Onward(s, t)
  }

  lemma {:induction false} LeadsNowhere(s: State)
    ensures Leads(s, [], s)
  {
  }

  lemma {:induction false} LeadsOn(s: State, first: seq<Action>, t: State, second: seq<Action>, u: State)
    requires Leads(s, first, t) && Leads(t, second, u)
    ensures Leads(s, first + second, u)
  {
    AfterConcat(s, first, second);
  }

  // ------------------------------------------------------------------------------------------
  // Steps that strand nobody
  // ------------------------------------------------------------------------------------------

  /** No cancel routine of a create is under way, and none of any IRP is about to be taken. */
  predicate CalmIrp(irp: Irp) {
    !irp.cancel.CreateStart? && !irp.cancel.CreateHave? && !(irp.cancel.Flagged? && irp.slot.Some?)
  }

  /** Of the steps that could strand an IRP, those that come at a good time. */
  predicate IsTimely(s: State, a: Action)
    requires Enabled(s, a)
  {
    && (s.pendingLock.WritingEvent? ==> a == OfLock(WriteUnlock) || (a.OfWalk? && a.w.WriteMatch?))
    && match a
       case OfDispatch(d) => d.Allocate? ==> s.irps[d.i].dispatching || s.irps[d.i].kind.Create?
       case OfRegistration(r) => r.BackOut? ==> CalmIrp(s.irps[s.entries[r.e].irp.value])
       case OfCancel(c) => c.TakeRoutine? ==> s.irps[c.i].slot.Some?
       case OfWalk(w) => w.WriteMatch? || (Meets(s, w) && CalmIrp(s.irps[s.entries[Matched(s, w)].irp.value]))
       case OfFinish(f) => !f.ReplyAbandon?
       case OfLock(_) => true
  }

  lemma DispatchStrandsNone(s: State, a: DispatchAction, i: nat)
    requires DispatchEnabled(s, a) && a.i == i && i in s.irps && IrpOk(s, i)
    requires a.DispatchComplete? || a.OplockFail? || (a.Allocate? && (s.irps[i].dispatching || s.irps[i].kind.Create?))
    requires Stranded(DispatchStep(s, a), i)
    ensures Stranded(s, i)
  {
    match a
    case DispatchComplete(_) =>
    case OplockFail(_) =>
    case Allocate(_, _, _) =>
  }

  lemma ArmStrandsNone(s: State, e: nat, i: nat)
    requires Resolved(s, e) && s.entries[e].irp == Some(i) && IrpOk(s, i) && EntryOk(s, e) && s.entries[e].at.Allocated?
    requires Stranded(ArmStep(s, e), i)
    ensures Unheard(s, i)
  {
  }

  lemma TestStrandsNone(s: State, e: nat, i: nat)
    requires Resolved(s, e) && s.entries[e].irp == Some(i) && IrpOk(s, i) && EntryOk(s, e) && s.entries[e].at.Armed?
    requires Stranded(TestCancelStep(s, e), i)
    ensures Unheard(s, i)
  {
  }

  lemma BackOutStrandsNone(s: State, e: nat, i: nat)
    requires Resolved(s, e) && s.entries[e].irp == Some(i) && IrpOk(s, i) && EntryOk(s, e) && s.entries[e].at.Doubted?
    requires CalmIrp(s.irps[i]) && Stranded(BackOutStep(s, e), i)
    ensures Unheard(s, i)
  {
  }

  lemma InsertStrandsNone(s: State, e: nat, i: nat)
    requires Resolved(s, e) && s.entries[e].irp == Some(i) && IrpOk(s, i) && EntryOk(s, e) && s.entries[e].at.Linking?
    ensures !Stranded(InsertStep(s, e), i)
  {
  }

  lemma RegistrationStrandsNone(s: State, a: RegistrationAction, i: nat)
    requires RegistrationEnabled(s, a) && s.entries[a.e].irp == Some(i) && IrpOk(s, i) && EntryOk(s, a.e)
    requires a.Arm? || s.entries[a.e].at == RegisteringAt(s.LockOf(s.entries[a.e].list))
    requires (a.BackOut? ==> CalmIrp(s.irps[i])) && Stranded(RegistrationStep(s, a), i)
    ensures Stranded(s, i)
  {
    match a
    case Arm(e) => ArmStrandsNone(s, e, i);
    case TestCancel(e) => TestStrandsNone(s, e, i);
    case BackOut(e) => BackOutStrandsNone(s, e, i);
    case Insert(e) => InsertStrandsNone(s, e, i);
  }

  lemma CancelStrandsNone(s: State, a: CancelAction, i: nat)
    requires CancelEnabled(s, a) && a.i == i && !a.RaiseCancel? && IrpOk(s, i)
    requires !s.pendingLock.WritingEvent? && (a.TakeRoutine? ==> s.irps[i].slot.Some?)
    requires Stranded(CancelStep(s, a), i)
    ensures Stranded(s, i)
  {
    match a
    case TakeRoutine(_) =>
    case ReadEntry(_) =>
    case MarkForced(_) =>
    case CancelSection(_) =>
    case CancelComplete(_) =>
  }

  lemma WalkStrandsNone(s: State, a: WalkAction, i: nat)
    requires Meets(s, a) && ListedEntryOk(s, Matched(s, a)) && s.entries[Matched(s, a)].irp == Some(i)
    requires s.entries[Matched(s, a)].list == WalkList(a)
    requires ActiveEntry(s.irps[i]) == Some(Matched(s, a))
    requires (a.WriteMatch? || CalmIrp(s.irps[i])) && (a.DrainPop? ==> !s.LockOf(a.list).dest.ToReply?)
    requires Stranded(WalkStep(s, a), i)
    ensures Stranded(s, i)
  {
    MatchStepIs(s, a);
    ListedHolder(s, Matched(s, a));
    if a.WriteMatch? && WalkAbandons(s, a) && s.irps[i].holder.Listed? {
      assert WriteReaches(s, a.k);
      assert Condemned(s, i);
    }
  }

  lemma FinishStrandsNone(s: State, a: FinishAction, i: nat)
    requires FinishEnabled(s, a) && s.entries[a.e].irp == Some(i) && EntryOk(s, a.e) && IrpOk(s, i)
    requires !a.ReplyAbandon?
    ensures !Stranded(FinishStep(s, a), i)
  {
    FinishIsLocal(a);
  }

  lemma RegistrationIsHarmless(s: State, a: RegistrationAction, i: nat)
    requires Inv(s) && RegistrationEnabled(s, a) && s.entries[a.e].irp == Some(i)
    requires (a.BackOut? ==> CalmIrp(s.irps[i])) && Stranded(RegistrationStep(s, a), i)
    ensures Stranded(s, i)
  {
    assert EntryOk(s, a.e) && IrpOk(s, i);
    RegistrationStrandsNone(s, a, i);
  }

  lemma WalkIsHarmless(s: State, a: WalkAction, i: nat)
    requires Inv(s) && WalkEnabled(s, a) && Meets(s, a) && s.entries[Matched(s, a)].irp == Some(i)
    requires a.WriteMatch? || CalmIrp(s.irps[i])
    requires Stranded(WalkStep(s, a), i)
    ensures Stranded(s, i)
  {
    MatchedOk(s, a);
    assert Matched(s, a) in s.List(WalkList(a));
    WalkStrandsNone(s, a, i);
  }

  lemma SubjectStrandsNone(s: State, a: Action, i: nat)
    requires Inv(s) && Enabled(s, a) && IsDriverStep(a) && IsTimely(s, a)
    requires i in s.irps && Subject(s, a) == Some(i) && Stranded(Step(s, a), i)
    ensures Stranded(s, i)
  {
    assert IrpOk(s, i);
    match a
    case OfDispatch(d) => DispatchStrandsNone(s, d, i);
    case OfRegistration(r) => RegistrationIsHarmless(s, r, i);
    case OfCancel(c) => CancelStrandsNone(s, c, i);
    case OfWalk(w) => WalkIsHarmless(s, w, i);
    case OfFinish(f) =>
      assert EntryOk(s, f.e);
      FinishStrandsNone(s, f, i);
  }

  lemma RegistrationBeginsNoWalk(s: State, a: RegistrationAction)
    requires RegistrationEnabled(s, a)
    ensures var lock := RegistrationStep(s, a).pendingLock;
            lock.Replying? || lock.WritingEvent? ==> lock == s.pendingLock
  {
    if s.entries[a.e].list.Retry? { RegistrationFrame(s, a); }
  }

  lemma LockBeginsNoWalk(s: State, a: LockAction)
    requires LockEnabled(s, a) && !a.ReplyLock? && !a.WriteLock?
    ensures var lock := LockStep(s, a).pendingLock;
            lock.Replying? || lock.WritingEvent? ==> lock == s.pendingLock
  {
  }

  /** A driver's step begins no reply and no event write. */
  lemma BeginsNoWalk(s: State, a: Action)
    requires Enabled(s, a) && IsDriverStep(a) && (a.OfWalk? ==> Meets(s, a.w))
    requires Step(s, a).pendingLock.Replying? || Step(s, a).pendingLock.WritingEvent?
    ensures Step(s, a).pendingLock == s.pendingLock
  {
    match a
    case OfDispatch(d) => DispatchFrame(s, d);
    case OfRegistration(r) => RegistrationBeginsNoWalk(s, r);
    case OfCancel(c) => CancelFrame(s, c);
    case OfWalk(w) => WalkFrame(s, w);
    case OfFinish(f) => FinishFrame(s, f);
    case OfLock(l) => LockBeginsNoWalk(s, l);
  }

  /** An event write that drops an entry does not change how another one looks. */
  lemma LooksTheSame(s: State, m: nat, e: nat)
    requires WalkEnabled(s, WriteMatch(m)) && Meets(s, WriteMatch(m)) && WalkAbandons(s, WriteMatch(m))
    requires Resolved(s, e) && e != s.pending[m] && s.entries[e].irp != s.entries[s.pending[m]].irp
    ensures var t := WalkStep(s, WriteMatch(m));
            (Writes(t, e) <==> Writes(s, e)) && (RoutineGone(t, e) <==> RoutineGone(s, e))
  {
    MatchStepIs(s, WriteMatch(m));
  }

  /** An event write that reaches an entry after a match would have reached it before. */
  lemma WriteReachedBefore(s: State, m: nat, k: nat)
    requires WalkEnabled(s, WriteMatch(m)) && Meets(s, WriteMatch(m)) && k < |s.pending| - 1
    requires WalkAbandons(s, WriteMatch(m)) && WriteReaches(WalkStep(s, WriteMatch(m)), k)
    requires forall j :: 0 <= j < |s.pending| && j != m ==>
               && Resolved(s, s.pending[j]) && s.pending[j] != s.pending[m]
               && s.entries[s.pending[j]].irp != s.entries[s.pending[m]].irp
    ensures WriteReaches(s, k + 1)
    ensures WalkStep(s, WriteMatch(m)).pending[k] == s.pending[k + 1]
  {
    MatchStepIs(s, WriteMatch(m));
    var t := WalkStep(s, WriteMatch(m));
    assert t.pending == Without(s.pending, m);
    assert t.pending[k] == s.pending[if k < m then k else k + 1];
    forall j: nat | j < k + 1 && Writes(s, s.pending[j]) ensures RoutineGone(s, s.pending[j]) {
      if j > m {
        assert t.pending[j - 1] == s.pending[j];
        LooksTheSame(s, m, s.pending[j]);
      }
    }
  }

  lemma CondemnedBefore(s: State, m: nat, i: nat)
    requires WalkEnabled(s, WriteMatch(m)) && Meets(s, WriteMatch(m)) && WalkAbandons(s, WriteMatch(m))
    requires i in s.irps && s.entries[s.pending[m]].irp != Some(i)
    requires s.irps[i].holder.Listed? ==>
               s.irps[i].holder.entry in s.entries && s.entries[s.irps[i].holder.entry].irp == Some(i)
    requires i in WalkStep(s, WriteMatch(m)).irps && Condemned(WalkStep(s, WriteMatch(m)), i)
    requires forall j :: 0 <= j < |s.pending| && j != m ==>
               && Resolved(s, s.pending[j]) && s.pending[j] != s.pending[m]
               && s.entries[s.pending[j]].irp != s.entries[s.pending[m]].irp
    ensures Condemned(s, i)
  {
    var t := WalkStep(s, WriteMatch(m));
    WalkFrame(s, WriteMatch(m));
    MatchStepIs(s, WriteMatch(m));
    var k: nat :| k < |t.pending| && t.pending[k] == t.irps[i].holder.entry && WriteReaches(t, k);
    WriteReachedBefore(s, m, k);
    assert s.pending[k + 1] == s.irps[i].holder.entry && WriteReaches(s, k + 1);
  }

  lemma WriteCondemnsNone(s: State, m: nat, i: nat)
    requires Inv(s) && WalkEnabled(s, WriteMatch(m)) && Meets(s, WriteMatch(m))
    requires i in s.irps && s.entries[s.pending[m]].irp != Some(i)
    requires i in WalkStep(s, WriteMatch(m)).irps && Condemned(WalkStep(s, WriteMatch(m)), i)
    ensures Stranded(s, i)
  {
    assert IrpOk(s, i);
    StillWriting(s, m);
    forall j: nat | 0 <= j < |s.pending| && j != m
      ensures Resolved(s, s.pending[j]) && s.pending[j] != s.pending[m]
      ensures s.entries[s.pending[j]].irp != s.entries[s.pending[m]].irp
    {
      ListedApart(s, j, m);
    }
    CondemnedBefore(s, m, i);
  }

  /** An event write that is not over has dropped an entry. */
  lemma StillWriting(s: State, m: nat)
    requires WalkEnabled(s, WriteMatch(m)) && Meets(s, WriteMatch(m))
    ensures WalkStep(s, WriteMatch(m)).pendingLock.WritingEvent? ==> WalkAbandons(s, WriteMatch(m))
  {
    MatchStepIs(s, WriteMatch(m));
  }

  lemma OtherStrandsNone(s: State, a: Action, i: nat)
    requires Inv(s) && Enabled(s, a) && IsDriverStep(a) && IsTimely(s, a)
    requires i in s.irps && Subject(s, a) != Some(i) && Stranded(Step(s, a), i)
    ensures Stranded(s, i)
  {
    var t := Step(s, a);
    OtherWasCovered(s, a, i);
    if Condemned(t, i) {
      MatchedOk(s, a.w);
      WriteCondemnsNone(s, a.w.k, i);
    } else {
      CoversStranded(t, s, i);
    }
  }

  lemma OtherWasCovered(s: State, a: Action, i: nat)
    requires Inv(s) && Enabled(s, a) && IsDriverStep(a) && IsTimely(s, a) && i in s.irps && Subject(s, a) != Some(i)
    ensures i in Step(s, a).irps
    ensures if Condemned(Step(s, a), i) then a.OfWalk? && a.w.WriteMatch? else Covers(Step(s, a), s, i)
  {
    OthersEntry(s, a, i);
    UnmountFlag(s, a);
    if a.OfWalk? { MatchedOk(s, a.w); }
    if Step(s, a).pendingLock.Replying? || Step(s, a).pendingLock.WritingEvent? { BeginsNoWalk(s, a); }
  }

  /** A timely step strands nobody and saves nobody. */
  lemma StepOnward(s: State, a: Action)
    requires Inv(s) && Enabled(s, a) && IsDriverStep(a) && IsTimely(s, a)
    ensures Inv(Step(s, a)) && Onward(s, Step(s, a))
  {
    KeepsStep(s, a);
    StepFramed(s, a);
    forall j | j in s.irps
      ensures Stranded(Step(s, a), j) <==> Stranded(s, j)
      ensures Step(s, a).irps[j].completions >= s.irps[j].completions
    {
      StrandsNone(s, a, j);
      CompletedStays(s, a, j);
    }
  }

  lemma StrandsNone(s: State, a: Action, j: nat)
    requires Inv(s) && Enabled(s, a) && IsDriverStep(a) && IsTimely(s, a) && j in s.irps
    ensures Stranded(Step(s, a), j) <==> Stranded(s, j)
  {
    if Stranded(s, j) {
      StaysStranded(s, a, j);
    } else if Stranded(Step(s, a), j) {
      if Subject(s, a) == Some(j) { SubjectStrandsNone(s, a, j); } else { OtherStrandsNone(s, a, j); }
    }
  }

  lemma {:induction false} OneStep(s: State, a: Action)
    requires Inv(s) && Enabled(s, a) && IsDriverStep(a) && IsTimely(s, a)
    ensures Leads(s, [a], Step(s, a)) && Inv(Step(s, a))
  {
    StepOnward(s, a);
    Cons(s, a, []);
    assert [a] + [] == [a];
  }

  // ------------------------------------------------------------------------------------------
  // An event write comes to its end
  // ------------------------------------------------------------------------------------------

  /** The first position from `k` on at which the event write under way finds what it looks for. */
  function NextWrite(s: State, k: nat): (r: nat)
    requires k <= |s.pending|
    ensures k <= r <= |s.pending| && (r < |s.pending| ==> Writes(s, s.pending[r]))
    ensures forall j :: k <= j < r ==> !Writes(s, s.pending[j])
    decreases |s.pending| - k
  {
    if k == |s.pending| || Writes(s, s.pending[k]) then k else NextWrite(s, k + 1)
  }

  lemma WriteStep(s: State, k: nat)
    requires WalkEnabled(s, WriteMatch(k)) && Meets(s, WriteMatch(k))
    ensures var t := WalkStep(s, WriteMatch(k)); t.pendingLock.WritingEvent? ==> |t.pending| < |s.pending|
  {
    MatchStepIs(s, WriteMatch(k));
  }

  lemma {:induction false} FinishWrite(s: State) returns (run: seq<Action>, t: State)
    requires Inv(s)
    ensures Leads(s, run, t) && Inv(t) && !t.pendingLock.WritingEvent?
    decreases |s.pending|
  {
    if !s.pendingLock.WritingEvent? {
      LeadsNowhere(s);
      run, t := [], s;
    } else if NextWrite(s, 0) < |s.pending| {
      var a := OfWalk(WriteMatch(NextWrite(s, 0)));
      MatchedOk(s, a.w);
      WriteStep(s, a.w.k);
      OneStep(s, a);
      var u := Step(s, a);
      if u.pendingLock.WritingEvent? { run, t := FinishWrite(u); } else { LeadsNowhere(u); run, t := [], u; }
      LeadsOn(s, [a], u, run, t);
      run := [a] + run;
    } else {
      run, t := [OfLock(WriteUnlock)], LockStep(s, WriteUnlock);
      OneStep(s, OfLock(WriteUnlock));
    }
  }

  // ------------------------------------------------------------------------------------------
  // How far an IRP is from completion
  // ------------------------------------------------------------------------------------------

  function Stage(s: State, i: nat): nat
    requires i in s.irps
  {
    match s.irps[i].holder
    case Done => 0
    case Lost => 0
    case Dispatch => 1
    case Posted => if s.irps[i].kind.Create? then 9 else 1
    case Local(e) => if EntryAt(s, e, ToRetry) || EntryAt(s, e, ToReply) then 2 else 1
    case Canceling => if s.irps[i].cancel.IrpUnlocked? then 1 else if s.irps[i].cancel.IrpHave? then 2 else 3
    case Listed(e) => if e in s.entries then ListedStage(s.entries[e].at) else 0
  }

  function ListedStage(p: Place): nat {
    match p
    case OnList => 4
    case Linking => 5
    case Doubted => 6
    case Armed => 7
    case _ => 8
  }

  // ------------------------------------------------------------------------------------------
  // Cancellations that have begun are carried through
  // ------------------------------------------------------------------------------------------

  function Restless(s: State): set<nat> { set i | i in s.irps && !CalmIrp(s.irps[i]) }

  /** No IRP got further from completion. */
  predicate NoFurther(s: State, t: State) {
    t.irps.Keys == s.irps.Keys && forall j :: j in s.irps ==> Stage(t, j) <= Stage(s, j)
  }

  /** The steps of a cancellation that need no lock. */
  predicate IsCancelStart(a: CancelAction) { a.TakeRoutine? || a.ReadEntry? || a.MarkForced? }

  lemma CancelStartEases(s: State, a: CancelAction, j: nat)
    requires CancelEnabled(s, a) && IsCancelStart(a) && (a.TakeRoutine? ==> s.irps[a.i].slot.Some?)
    requires j in s.irps && IrpOk(s, a.i)
    ensures j in CancelStep(s, a).irps && Stage(CancelStep(s, a), j) <= Stage(s, j)
  {
    match a
    case TakeRoutine(_) =>
    case ReadEntry(_) =>
    case MarkForced(_) =>
  }

  lemma CancelStartIs(s: State, a: CancelAction)
    requires Inv(s) && CancelEnabled(s, a) && IsCancelStart(a) && (a.TakeRoutine? ==> s.irps[a.i].slot.Some?)
    requires !s.pendingLock.WritingEvent?
    ensures var t := CancelStep(s, a);
            && Leads(s, [OfCancel(a)], t) && Inv(t) && NoFurther(s, t) && t.pendingLock == s.pendingLock
            && IrpsBut(s, t, a.i)
  {
    CancelFrame(s, a);
    OneStep(s, OfCancel(a));
    assert IrpOk(s, a.i);
    forall j | j in s.irps ensures Stage(CancelStep(s, a), j) <= Stage(s, j) { CancelStartEases(s, a, j); }
  }

  /** What is left of a restless cancellation. */
  function Unrest(irp: Irp): nat {
    match irp.cancel
    case Flagged => if irp.slot.Some? then 3 else 0
    case CreateStart => 2
    case CreateHave(_) => 1
    case _ => 0
  }

  function NextCancel(s: State, i: nat): CancelAction
    requires i in s.irps
  {
    match s.irps[i].cancel
    case Flagged => TakeRoutine(i)
    case CreateStart => ReadEntry(i)
    case _ => MarkForced(i)
  }

  lemma NextCancelCalms(s: State, i: nat)
    requires i in s.irps && IrpOk(s, i) && !CalmIrp(s.irps[i])
    ensures var a := NextCancel(s, i);
            && CancelEnabled(s, a) && IsCancelStart(a) && (a.TakeRoutine? ==> s.irps[i].slot.Some?)
            && i in CancelStep(s, a).irps && Unrest(CancelStep(s, a).irps[i]) < Unrest(s.irps[i])
  {
  }

  lemma {:induction false} CalmOne(s: State, i: nat) returns (run: seq<Action>, t: State)
    requires Inv(s) && !s.pendingLock.WritingEvent? && i in s.irps
    ensures Leads(s, run, t) && Inv(t) && NoFurther(s, t) && t.pendingLock == s.pendingLock
    ensures IrpsBut(s, t, i) && CalmIrp(t.irps[i])
    decreases Unrest(s.irps[i])
  {
    if CalmIrp(s.irps[i]) {
      LeadsNowhere(s);
      run, t := [], s;
    } else {
      assert IrpOk(s, i);
      var a := NextCancel(s, i);
      NextCancelCalms(s, i);
      CancelStartIs(s, a);
      var u := CancelStep(s, a);
      run, t := CalmOne(u, i);
      LeadsOn(s, [OfCancel(a)], u, run, t);
      run := [OfCancel(a)] + run;
    }
  }

  predicate Calm(s: State) {
    !s.pendingLock.WritingEvent? && forall j :: j in s.irps ==> CalmIrp(s.irps[j])
  }

  lemma FewerRestless(s: State, t: State, i: nat)
    requires IrpsBut(s, t, i) && i in s.irps && CalmIrp(t.irps[i])
    ensures Restless(t) == Restless(s) - {i}
  {
  }

  lemma {:induction false} CalmDown(s: State) returns (run: seq<Action>, t: State)
    requires Inv(s) && !s.pendingLock.WritingEvent?
    ensures Leads(s, run, t) && Inv(t) && Calm(t) && NoFurther(s, t)
    decreases |Restless(s)|
  {
    if Restless(s) == {} {
      LeadsNowhere(s);
      assert forall j :: j in s.irps ==> j !in Restless(s);
      run, t := [], s;
    } else {
      var i :| i in Restless(s);
      var first, u := CalmOne(s, i);
      FewerRestless(s, u, i);
      run, t := CalmDown(u);
      LeadsOn(s, first, u, run, t);
      run := first + run;
    }
  }

  // ------------------------------------------------------------------------------------------
  // Calm states stay calm
  // ------------------------------------------------------------------------------------------

  /** The steps that the driver takes in a calm state, where they are always timely. */
  predicate IsOrdinary(a: Action) {
    match a
    case OfDispatch(d) => d.DispatchComplete? || d.OplockFail?
    case OfRegistration(_) => true
    case OfCancel(c) => !c.RaiseCancel? && !c.TakeRoutine?
    case OfWalk(_) => true
    case OfFinish(f) => !f.ReplyAbandon?
    case OfLock(l) => !l.ReplyLock? && !l.WriteLock? && !l.ClaimRelease?
  }

  lemma OrdinaryIsTimely(s: State, a: Action)
    requires Inv(s) && Calm(s) && Enabled(s, a) && IsOrdinary(a)
    ensures IsDriverStep(a) && IsTimely(s, a)
  {
    if a.OfWalk? { MatchedOk(s, a.w); }
  }

  lemma RegistrationStaysCalm(s: State, a: RegistrationAction)
    requires RegistrationEnabled(s, a)
    requires var irp := s.irps[s.entries[a.e].irp.value];
             CalmIrp(irp) && (a.Arm? && !s.UnmountPending() ==> !irp.cancel.Flagged?)
    ensures CalmIrp(RegistrationStep(s, a).irps[s.entries[a.e].irp.value])
  {
    match a
    case Arm(_) =>
    case TestCancel(_) =>
    case BackOut(_) =>
    case Insert(_) =>
  }

  lemma CancelStaysCalm(s: State, a: CancelAction)
    requires CancelEnabled(s, a) && !a.RaiseCancel? && !a.TakeRoutine? && CalmIrp(s.irps[a.i])
    ensures CalmIrp(CancelStep(s, a).irps[a.i])
  {
  }

  lemma WalkStaysCalm(s: State, a: WalkAction)
    requires Meets(s, a) && !a.WriteMatch? && CalmIrp(s.irps[s.entries[Matched(s, a)].irp.value])
    ensures CalmIrp(WalkStep(s, a).irps[s.entries[Matched(s, a)].irp.value])
  {
    MatchStepIs(s, a);
  }

  lemma FinishStaysCalm(s: State, a: FinishAction)
    requires Resolved(s, a.e) && CalmIrp(s.irps[s.entries[a.e].irp.value])
    ensures CalmIrp(FinishStep(s, a).irps[s.entries[a.e].irp.value])
  {
  }

  /** A cancelled IRP is not armed in a way that needs the operating system's next step. */
  predicate ArmsCalmly(s: State, a: Action)
    requires Enabled(s, a)
  {
    a.OfRegistration? && a.r.Arm? && !s.UnmountPending() ==> !s.irps[s.entries[a.r.e].irp.value].cancel.Flagged?
  }

  lemma SubjectStaysCalm(s: State, a: Action, i: nat)
    requires Enabled(s, a) && IsOrdinary(a) && ArmsCalmly(s, a) && Subject(s, a) == Some(i) && i in s.irps
    requires CalmIrp(s.irps[i]) && (a.OfWalk? ==> Meets(s, a.w) && !a.w.WriteMatch?)
    ensures i in Step(s, a).irps && CalmIrp(Step(s, a).irps[i])
  {
    match a
    case OfDispatch(d) =>
    case OfRegistration(r) => RegistrationStaysCalm(s, r);
    case OfCancel(c) => CancelStaysCalm(s, c);
    case OfWalk(w) => WalkStaysCalm(s, w);
    case OfFinish(f) => FinishStaysCalm(s, f);
  }

  lemma StaysCalm(s: State, a: Action)
    requires Inv(s) && Calm(s) && Enabled(s, a) && IsOrdinary(a) && ArmsCalmly(s, a)
    ensures Calm(Step(s, a))
  {
    var t := Step(s, a);
    StepFramed(s, a);
    if a.OfWalk? { MatchedOk(s, a.w); }
    if t.pendingLock.WritingEvent? { BeginsNoWalk(s, a); }
    forall j | j in t.irps ensures CalmIrp(t.irps[j]) {
      if Subject(s, a) == Some(j) { SubjectStaysCalm(s, a, j); }
    }
  }

  lemma CalmStep(s: State, a: Action)
    requires Inv(s) && Calm(s) && Enabled(s, a) && IsOrdinary(a) && ArmsCalmly(s, a)
    ensures Leads(s, [a], Step(s, a)) && Inv(Step(s, a)) && Calm(Step(s, a))
  {
    OrdinaryIsTimely(s, a);
    OneStep(s, a);
    StaysCalm(s, a);
  }

  // ------------------------------------------------------------------------------------------
  // Every lock can be freed
  // ------------------------------------------------------------------------------------------

  /** The IRP `j` is no further from completion, and has not moved to another entry. */
  predicate EasesIrp(s: State, t: State, j: nat)
    requires j in s.irps
  {
    && j in t.irps && t.irps[j].cancel == s.irps[j].cancel && Stage(t, j) <= Stage(s, j)
    && (t.irps[j].holder.Listed? ==>
          var e := t.irps[j].holder.entry;
          && s.irps[j].holder == t.irps[j].holder && e in s.entries && e in t.entries
          && t.entries[e].list == s.entries[e].list)
    && (s.irps[j].holder.Local? ==>
          var e := s.irps[j].holder.entry;
          && t.irps[j].holder == s.irps[j].holder && e in s.entries && e in t.entries
          && t.entries[e] == s.entries[e])
    && (s.irps[j].cancel.IrpHave? ==>
          var e := s.irps[j].cancel.entry;
          e in s.entries && e in t.entries && t.entries[e].list == s.entries[e].list)
  }

  predicate Eases(s: State, t: State) {
    t.irps.Keys == s.irps.Keys && forall j :: j in s.irps ==> EasesIrp(s, t, j)
  }

  lemma EasesTransitive(s: State, t: State, u: State)
    requires Eases(s, t) && Eases(t, u)
    ensures Eases(s, u)
  {
    forall j | j in s.irps ensures EasesIrp(s, u, j) { assert EasesIrp(s, t, j) && EasesIrp(t, u, j); }
  }

  lemma EasesItself(s: State)
    requires CoreOk(s)
    ensures Eases(s, s)
  {
    forall j | j in s.irps ensures EasesIrp(s, s, j) { assert IrpOk(s, j); }
  }

  /** The first position from `k` on at which the reply under way finds an entry to match. */
  function NextReply(s: State, k: nat): (r: nat)
    requires k <= |s.pending|
    ensures k <= r <= |s.pending| && (r < |s.pending| ==> Replies(s, s.pending[r]))
    ensures forall j :: k <= j < r ==> !Replies(s, s.pending[j])
    decreases |s.pending| - k
  {
    if k == |s.pending| || Replies(s, s.pending[k]) then k else NextReply(s, k + 1)
  }

  /** The step by which the owner of the lock gets on. */
  function OwnerStep(s: State, l: ListId): Action {
    match s.LockOf(l)
    case Arming(e) => OfRegistration(TestCancel(e))
    case BackingOut(e) => OfRegistration(BackOut(e))
    case Inserting(e) => OfRegistration(Insert(e))
    case Replying(_) =>
      if NextReply(s, 0) < |s.pending| then OfWalk(ReplyMatch(NextReply(s, 0))) else OfLock(ReplyUnlock)
    case Draining(_) => if s.List(l) == [] then OfLock(DrainUnlock(l)) else OfWalk(DrainPop(l))
    case _ => OfLock(ScanUnlock)
  }

  /** Steps until the lock is free. */
  function LockWork(s: State, l: ListId): nat {
    match s.LockOf(l)
    case Free => 0
    case Arming(_) => 3
    case BackingOut(_) => 2
    case Replying(_) => |s.List(l)| + 1
    case Draining(_) => |s.List(l)| + 1
    case _ => 1
  }

  /** What a drain that ends makes of the release. */
  function ReleaseAfter(s: State, l: ListId): Release {
    if s.LockOf(l) == Draining(ToRelease) then (if l.Pending? then DrainedPending else DrainedBoth) else s.release
  }

  /** The lock is nearer to being free. */
  predicate Nearer(s: State, l: ListId, t: State) {
    && LockWork(t, l) < LockWork(s, l) && ReleaseAfter(t, l) == ReleaseAfter(s, l)
    && (s.LockOf(l).Draining? ==> t.LockOf(l) == s.LockOf(l) || (t.LockOf(l).Free? && t.List(l) == []))
  }

  lemma RegistrationNearer(s: State, a: RegistrationAction)
    requires RegistrationEnabled(s, a) && !a.Arm?
    ensures Nearer(s, s.entries[a.e].list, RegistrationStep(s, a))
  {
    match a
    case TestCancel(_) =>
    case BackOut(_) =>
    case Insert(_) =>
  }

  lemma WalkNearer(s: State, a: WalkAction)
    requires Meets(s, a) && (a.ReplyMatch? || a.DrainPop?)
    ensures Nearer(s, WalkList(a), WalkStep(s, a))
  {
    MatchStepIs(s, a);
  }

  lemma UnlockNearer(s: State, l: ListId)
    requires s.LockOf(l).Replying? || s.LockOf(l).Scanning? || (s.LockOf(l).Draining? && s.List(l) == [])
    requires l.Retry? ==> s.LockOf(l).Draining?
    requires OwnerStep(s, l).OfLock?
    ensures Enabled(s, OwnerStep(s, l)) && Nearer(s, l, Step(s, OwnerStep(s, l)))
  {
    if s.LockOf(l).Replying? {
      forall e | e in s.pending ensures !Replies(s, e) {
        var j :| 0 <= j < |s.pending| && s.pending[j] == e;
      }
    }
  }

  /** The owner's step brings the lock nearer to being free. */
  lemma OwnerStepNearer(s: State, l: ListId)
    requires Inv(s) && !s.LockOf(l).Free? && !s.LockOf(l).WritingEvent?
    ensures Enabled(s, OwnerStep(s, l)) && Nearer(s, l, Step(s, OwnerStep(s, l)))
  {
    if Registering(s.LockOf(l)).Some? {
      assert EntryOk(s, Registering(s.LockOf(l)).value);
      RegistrationNearer(s, OwnerStep(s, l).r);
    } else if OwnerStep(s, l).OfWalk? {
      MatchedOk(s, OwnerStep(s, l).w);
      WalkNearer(s, OwnerStep(s, l).w);
    } else {
      UnlockNearer(s, l);
    }
  }

  lemma OthersEase(s: State, a: Action, j: nat)
    requires Inv(s) && Enabled(s, a) && j in s.irps && Subject(s, a) != Some(j)
    ensures EasesIrp(s, Step(s, a), j)
  {
    OthersEntry(s, a, j);
    assert IrpOk(s, j);
  }

  lemma RegistrationEases(s: State, a: RegistrationAction, i: nat)
    requires RegistrationEnabled(s, a) && !a.Arm? && s.entries[a.e].irp == Some(i) && IrpOk(s, i) && EntryOk(s, a.e)
    requires s.entries[a.e].at == RegisteringAt(s.LockOf(s.entries[a.e].list))
    ensures EasesIrp(s, RegistrationStep(s, a), i)
    ensures s.irps[i].holder.Listed? ==> Stage(RegistrationStep(s, a), i) < Stage(s, i)
  {
    match a
    case TestCancel(e) => TestEases(s, e, i);
    case BackOut(e) => BackOutEases(s, e, i);
    case Insert(e) => InsertEases(s, e, i);
  }

  lemma TestEases(s: State, e: nat, i: nat)
    requires Resolved(s, e) && s.entries[e].irp == Some(i) && IrpOk(s, i) && EntryOk(s, e) && s.entries[e].at.Armed?
    ensures EasesIrp(s, TestCancelStep(s, e), i)
    ensures s.irps[i].holder.Listed? ==> Stage(TestCancelStep(s, e), i) < Stage(s, i)
  {
  }

  lemma BackOutEases(s: State, e: nat, i: nat)
    requires Resolved(s, e) && s.entries[e].irp == Some(i) && IrpOk(s, i) && EntryOk(s, e) && s.entries[e].at.Doubted?
    ensures EasesIrp(s, BackOutStep(s, e), i)
    ensures s.irps[i].holder.Listed? ==> Stage(BackOutStep(s, e), i) < Stage(s, i)
  {
  }

  lemma InsertEases(s: State, e: nat, i: nat)
    requires Resolved(s, e) && s.entries[e].irp == Some(i) && IrpOk(s, i) && EntryOk(s, e) && s.entries[e].at.Linking?
    ensures EasesIrp(s, InsertStep(s, e), i)
    ensures s.irps[i].holder.Listed? ==> Stage(InsertStep(s, e), i) < Stage(s, i)
  {
  }

  /** A walk in a calm state claims the entries that wait, and leaves those that are being cancelled. */
  lemma WalkEases(s: State, a: WalkAction, i: nat)
    requires Meets(s, a) && !a.WriteMatch? && s.entries[Matched(s, a)].irp == Some(i)
    requires ListedEntryOk(s, Matched(s, a)) && CalmIrp(s.irps[i]) && ActiveEntry(s.irps[i]) == Some(Matched(s, a))
    ensures EasesIrp(s, WalkStep(s, a), i)
    ensures s.irps[i].holder.Listed? ==> Stage(WalkStep(s, a), i) < Stage(s, i)
  {
    MatchStepIs(s, a);
    var l, k := WalkList(a), WalkPosition(a);
    if WalkAbandons(s, a) { AbandonEases(s, l, k, i); }
    else { ClaimEases(s, l, k, ClaimDest(s, a), if a.DrainPop? then s.irps[i].driverEntry else None, i); }
  }

  lemma AbandonEases(s: State, l: ListId, k: nat, i: nat)
    requires k < |s.List(l)| && ListedEntryOk(s, s.List(l)[k]) && s.entries[s.List(l)[k]].irp == Some(i)
    requires ActiveEntry(s.irps[i]) == Some(s.List(l)[k])
    requires CalmIrp(s.irps[i]) && s.irps[i].slot.None? && !s.entries[s.List(l)[k]].forced
    ensures EasesIrp(s, Abandon(s, l, k, None), i) && !s.irps[i].holder.Listed?
  {
  }

  lemma ClaimEases(s: State, l: ListId, k: nat, dest: Place, driverEntry: Option<nat>, i: nat)
    requires k < |s.List(l)| && ListedEntryOk(s, s.List(l)[k]) && s.entries[s.List(l)[k]].irp == Some(i)
    requires ActiveEntry(s.irps[i]) == Some(s.List(l)[k])
    requires s.irps[i].slot.Some? || s.entries[s.List(l)[k]].forced
    ensures EasesIrp(s, Claim(s, l, k, dest, driverEntry), i)
    ensures Stage(Claim(s, l, k, dest, driverEntry), i) < Stage(s, i)
  {
  }

  /** The steps of the owner of a lock. */
  predicate IsOwnerStep(a: Action) {
    match a
    case OfRegistration(r) => !r.Arm?
    case OfWalk(w) => !w.WriteMatch?
    case OfLock(l) => !l.ReplyLock? && !l.WriteLock? && !l.ClaimRelease?
    case _ => false
  }

  lemma SubjectEases(s: State, a: Action, i: nat)
    requires Inv(s) && Calm(s) && Enabled(s, a) && IsOwnerStep(a) && Subject(s, a) == Some(i) && i in s.irps
    ensures EasesIrp(s, Step(s, a), i)
  {
    assert IrpOk(s, i);
    match a
    case OfRegistration(r) =>
      assert EntryOk(s, r.e);
      RegistrationEases(s, r, i);
    case OfWalk(w) =>
      MatchedOk(s, w);
      WalkEases(s, w, i);
  }

  lemma OwnerEases(s: State, a: Action)
    requires Inv(s) && Calm(s) && Enabled(s, a) && IsOwnerStep(a)
    ensures Eases(s, Step(s, a))
  {
    StepFramed(s, a);
    forall j | j in s.irps ensures EasesIrp(s, Step(s, a), j) { OwnerEasesOne(s, a, j); }
  }

  lemma OwnerEasesOne(s: State, a: Action, j: nat)
    requires Inv(s) && Calm(s) && Enabled(s, a) && IsOwnerStep(a) && j in s.irps
    ensures EasesIrp(s, Step(s, a), j)
  {
    if Subject(s, a) == Some(j) { SubjectEases(s, a, j); } else { OthersEase(s, a, j); }
  }

  lemma OwnerIsOrdinary(s: State, l: ListId)
    requires Enabled(s, OwnerStep(s, l))
    ensures var a := OwnerStep(s, l); IsOwnerStep(a) && IsOrdinary(a) && ArmsCalmly(s, a)
  {
  }

  lemma OwnerMoves(s: State, l: ListId) returns (a: Action, t: State)
    requires Inv(s) && Calm(s) && !s.LockOf(l).Free?
    ensures Leads(s, [a], t) && Inv(t) && Calm(t) && Eases(s, t) && Nearer(s, l, t)
  {
    a := OwnerStep(s, l);
    OwnerStepNearer(s, l);
    OwnerIsOrdinary(s, l);
    OwnerEases(s, a);
    CalmStep(s, a);
    t := Step(s, a);
  }

  /** The owner of a lock can free it, and a drain takes everything off its list. */
  lemma {:induction false} FreeLock(s: State, l: ListId) returns (run: seq<Action>, t: State)
    requires Inv(s) && Calm(s)
    ensures Leads(s, run, t) && Inv(t) && Calm(t) && Eases(s, t) && t.LockOf(l).Free?
            && t.release == ReleaseAfter(s, l)
    ensures s.LockOf(l).Draining? ==> t.List(l) == []
    ensures s.LockOf(l).Free? ==> t == s
    decreases LockWork(s, l)
  {
    if s.LockOf(l).Free? {
      LeadsNowhere(s);
      EasesItself(s);
      run, t := [], s;
    } else {
      var a, u := OwnerMoves(s, l);
      run, t := FreeLock(u, l);
      LeadsOn(s, [a], u, run, t);
      EasesTransitive(s, u, t);
      run := [a] + run;
    }
  }

  // ------------------------------------------------------------------------------------------
  // Every IRP gets nearer to completion
  // ------------------------------------------------------------------------------------------

  /** An IRP that is neither completed nor stranded. */
  ghost predicate IsOpen(s: State, i: nat) { i in s.irps && s.irps[i].completions == 0 && !Stranded(s, i) }

  /** A step of the driver after which `i` is nearer to completion. */
  predicate Advances(s: State, a: Action, i: nat) {
    && Enabled(s, a) && IsOrdinary(a) && ArmsCalmly(s, a) && i in s.irps
    && i in Step(s, a).irps && Stage(Step(s, a), i) < Stage(s, i)
  }

  lemma {:induction false} StepDown(s: State, a: Action, i: nat) returns (run: seq<Action>, t: State)
    requires Inv(s) && Calm(s) && Advances(s, a, i)
    ensures Leads(s, run, t) && Inv(t) && Calm(t) && i in t.irps && Stage(t, i) < Stage(s, i)
  {
    CalmStep(s, a);
    run, t := [a], Step(s, a);
  }

  /** The thread that owns a local entry finishes it. */
  function FinishOf(p: Place, e: nat): FinishAction {
    match p
    case ToReply => ReplyCheck(e)
    case ToComplete => ReplyComplete(e)
    case ToForceCancel => ForceCancel(e)
    case ToTimeOut => ScanComplete(e)
    case ToRetry => Redispatch(e)
    case _ => DrainComplete(e)
  }

  /** The list whose walk moved the entry to a local list. */
  function WalkOf(entry: Entry): ListId {
    match entry.at
    case ToRelease => entry.list
    case ToRetry => Retry
    case _ => Pending
  }

  lemma LocalAdvances(s: State, i: nat, e: nat)
    requires i in s.irps && IrpOk(s, i) && s.irps[i].holder == Local(e) && !TooLate(s, i)
    requires e in s.entries && s.LockOf(WalkOf(s.entries[e])).Free?
    ensures Advances(s, OfFinish(FinishOf(s.entries[e].at, e)), i)
  {
  }

  lemma LocalDown(s: State, i: nat) returns (run: seq<Action>, t: State)
    requires Inv(s) && Calm(s) && IsOpen(s, i) && s.irps[i].holder.Local?
    ensures Leads(s, run, t) && Inv(t) && Calm(t) && i in t.irps && Stage(t, i) < Stage(s, i)
  {
    var e := s.irps[i].holder.entry;
    assert IrpOk(s, i);
    var first, u := FreeLock(s, WalkOf(s.entries[e]));
    assert EasesIrp(s, u, i);
    assert IrpOk(u, i);
    LocalAdvances(u, i, e);
    run, t := StepDown(u, OfFinish(FinishOf(u.entries[e].at, e)), i);
    LeadsOn(s, first, u, run, t);
    run := first + run;
  }

  lemma DispatchAdvances(s: State, i: nat)
    requires i in s.irps && IrpOk(s, i) && s.irps[i].holder.Dispatch?
    ensures Advances(s, OfDispatch(DispatchComplete(i)), i)
  {
  }

  lemma RoutineAdvances(s: State, i: nat)
    requires i in s.irps && IrpOk(s, i) && s.irps[i].holder.Canceling? && !s.irps[i].cancel.IrpHave?
    ensures Advances(s, OfCancel(if s.irps[i].cancel.IrpUnlocked? then CancelComplete(i) else ReadEntry(i)), i)
  {
  }

  lemma SectionAdvances(s: State, i: nat)
    requires i in s.irps && IrpOk(s, i) && s.irps[i].cancel.IrpHave? && s.irps[i].cancel.entry in s.entries
    requires s.LockOf(s.entries[s.irps[i].cancel.entry].list).Free? && s.irps[i].holder.Canceling?
    ensures Advances(s, OfCancel(CancelSection(i)), i)
  {
  }

  lemma CancelingEntry(s: State, i: nat)
    requires i in s.irps && IrpOk(s, i) && s.irps[i].cancel.IrpHave?
    ensures s.irps[i].cancel.entry in s.entries && s.irps[i].holder.Canceling?
  {
  }

  /** DokanIrpCancelRoutine waits for the list lock, and then gets on. */
  lemma CancelingDown(s: State, i: nat) returns (run: seq<Action>, t: State)
    requires Inv(s) && Calm(s) && i in s.irps && s.irps[i].holder.Canceling?
    ensures Leads(s, run, t) && Inv(t) && Calm(t) && i in t.irps && Stage(t, i) < Stage(s, i)
  {
    assert IrpOk(s, i);
    if !s.irps[i].cancel.IrpHave? {
      RoutineAdvances(s, i);
      run, t := StepDown(s, OfCancel(if s.irps[i].cancel.IrpUnlocked? then CancelComplete(i) else ReadEntry(i)), i);
    } else {
      CancelingEntry(s, i);
      var first, u := FreeLock(s, s.entries[s.irps[i].cancel.entry].list);
      assert EasesIrp(s, u, i);
      assert IrpOk(u, i);
      CancelingEntry(u, i);
      SectionAdvances(u, i);
      run, t := StepDown(u, OfCancel(CancelSection(i)), i);
      LeadsOn(s, first, u, run, t);
      run := first + run;
    }
  }

  // A create that waited for an oplock break is registered.

  lemma {:induction false} Bound(used: set<nat>) returns (b: nat)
    ensures forall x :: x in used ==> x < b
    decreases |used|
  {
    if used == {} {
      b := 0;
    } else {
      var x :| x in used;
      var c := Bound(used - {x});
      b := if c > x then c else x + 1;
      forall y | y in used ensures y < b { assert y == x || y in used - {x}; }
    }
  }

  lemma SmallerSet(a: set<nat>, b: set<nat>)
    requires a < b
    ensures |a| < |b|
  {
    assert |b| == |a| + |b - a| by { assert b == a + (b - a); }
    var x :| x in b - a;
  }

  lemma AllocateAdvances(s: State, i: nat, e: nat)
    requires i in s.irps && IrpOk(s, i) && s.irps[i].holder.Posted? && s.irps[i].kind.Create?
    requires Calm(s) && e !in s.entries && !s.UnmountPending()
    ensures var a := OfDispatch(Allocate(i, e, Pending));
            && Enabled(s, a) && IsDriverStep(a) && IsTimely(s, a) && i in Step(s, a).irps
            && Stage(Step(s, a), i) < Stage(s, i) && Calm(Step(s, a))
  {
  }

  lemma PostedDown(s: State, i: nat) returns (run: seq<Action>, t: State)
    requires Inv(s) && Calm(s) && IsOpen(s, i) && s.irps[i].holder.Posted?
    ensures Leads(s, run, t) && Inv(t) && Calm(t) && i in t.irps && Stage(t, i) < Stage(s, i)
  {
    assert IrpOk(s, i);
    if s.irps[i].kind.Create? {
      var e := Bound(s.entries.Keys);
      AllocateAdvances(s, i, e);
      var a := OfDispatch(Allocate(i, e, Pending));
      OneStep(s, a);
      run, t := [a], Step(s, a);
    } else {
      OplockAdvances(s, i);
      run, t := StepDown(s, OfDispatch(OplockFail(i)), i);
    }
  }

  lemma OplockAdvances(s: State, i: nat)
    requires i in s.irps && IrpOk(s, i) && s.irps[i].holder.Posted? && !s.irps[i].kind.Create?
    ensures Advances(s, OfDispatch(OplockFail(i)), i)
  {
  }

  // A registration gets the lock; if the IRP was cancelled before, the cancel routine is taken at once.

  lemma ArmAdvances(s: State, i: nat, e: nat)
    requires i in s.irps && IrpOk(s, i) && s.irps[i].holder == Listed(e) && EntryAt(s, e, Allocated)
    requires s.LockOf(s.entries[e].list).Free? && Calm(s)
    ensures RegistrationEnabled(s, Arm(e)) && i in ArmStep(s, e).irps && Stage(ArmStep(s, e), i) < Stage(s, i)
    ensures !ArmStep(s, e).pendingLock.WritingEvent?
  {
  }

  lemma ArmDown(s: State, i: nat, e: nat) returns (run: seq<Action>, t: State)
    requires Inv(s) && Calm(s) && i in s.irps && s.irps[i].holder == Listed(e) && EntryAt(s, e, Allocated)
    requires s.LockOf(s.entries[e].list).Free?
    ensures Leads(s, run, t) && Inv(t) && Calm(t) && i in t.irps && Stage(t, i) < Stage(s, i)
  {
    assert IrpOk(s, i);
    ArmAdvances(s, i, e);
    var a := OfRegistration(Arm(e));
    OrdinaryIsTimely(s, a);
    OneStep(s, a);
    var u := Step(s, a);
    run, t := CalmDown(u);
    LeadsOn(s, [a], u, run, t);
    run := [a] + run;
  }

  lemma StillAllocated(s: State, i: nat)
    requires i in s.irps && IrpOk(s, i) && Stage(s, i) == 8
    ensures s.irps[i].holder.Listed? && EntryAt(s, s.irps[i].holder.entry, Allocated)
  {
  }

  /** A registration that waits for the lock gets it. */
  lemma AllocatedDown(s: State, i: nat, e: nat) returns (run: seq<Action>, t: State)
    requires Inv(s) && Calm(s) && i in s.irps && s.irps[i].holder == Listed(e) && EntryAt(s, e, Allocated)
    ensures Leads(s, run, t) && Inv(t) && Calm(t) && i in t.irps && Stage(t, i) < Stage(s, i)
  {
    var first, u := FreeLock(s, s.entries[e].list);
    assert EasesIrp(s, u, i);
    if Stage(u, i) < Stage(s, i) {
      run, t := first, u;
    } else {
      assert IrpOk(u, i);
      StillAllocated(u, i);
      run, t := ArmDown(u, i, e);
      LeadsOn(s, first, u, run, t);
      run := first + run;
    }
  }

  /** The step by which a registration that owns the lock gets on. */
  function RegistrationOf(p: Place, e: nat): RegistrationAction {
    match p
    case Armed => TestCancel(e)
    case Doubted => BackOut(e)
    case _ => Insert(e)
  }

  lemma RegisteringAdvances(s: State, i: nat, e: nat)
    requires i in s.irps && IrpOk(s, i) && s.irps[i].holder == Listed(e) && e in s.entries
    requires InRegistration(s.entries[e].at) && LockOk(s, s.entries[e].list) && EntryOk(s, e)
    ensures var a := RegistrationOf(s.entries[e].at, e);
            && RegistrationEnabled(s, a) && i in RegistrationStep(s, a).irps
            && Stage(RegistrationStep(s, a), i) < Stage(s, i)
  {
    RegistersBy(s, e);
    RegistrationEases(s, RegistrationOf(s.entries[e].at, e), i);
  }

  /** The lock says how far a registration is. */
  lemma RegistersBy(s: State, e: nat)
    requires Resolved(s, e) && InRegistration(s.entries[e].at) && LockOk(s, s.entries[e].list)
    ensures RegistrationEnabled(s, RegistrationOf(s.entries[e].at, e))
    ensures s.entries[e].at == RegisteringAt(s.LockOf(s.entries[e].list))
  {
  }

  /** A registration under way gets on. */
  lemma RegisteringDown(s: State, i: nat, e: nat) returns (run: seq<Action>, t: State)
    requires Inv(s) && Calm(s) && i in s.irps && s.irps[i].holder == Listed(e)
    requires e in s.entries && InRegistration(s.entries[e].at)
    ensures Leads(s, run, t) && Inv(t) && Calm(t) && i in t.irps && Stage(t, i) < Stage(s, i)
  {
    assert IrpOk(s, i) && EntryOk(s, e);
    RegisteringAdvances(s, i, e);
    run, t := StepDown(s, OfRegistration(RegistrationOf(s.entries[e].at, e)), i);
  }

  lemma StillListed(s: State, i: nat)
    requires i in s.irps && IrpOk(s, i) && Stage(s, i) == 4
    ensures s.irps[i].holder.Listed? && EntryAt(s, s.irps[i].holder.entry, OnList)
    ensures s.entries[s.irps[i].holder.entry].irp == Some(i)
  {
  }

  lemma ScanAdvances(s: State, i: nat, k: nat)
    requires Calm(s) && i in s.irps && IrpOk(s, i) && k < |s.pending| && s.irps[i].holder == Listed(s.pending[k])
    requires ListedEntryOk(s, s.pending[k]) && s.pendingLock.Scanning?
    ensures Advances(s, OfWalk(ScanExpire(k)), i)
  {
    WalkEases(s, ScanExpire(k), i);
  }

  /** The timeout scan takes an IRP off the pending list. */
  lemma PendingDown(s: State, i: nat, e: nat) returns (run: seq<Action>, t: State)
    requires Inv(s) && Calm(s) && i in s.irps && s.irps[i].holder == Listed(e)
    requires EntryAt(s, e, OnList) && s.entries[e].list.Pending? && s.pendingLock.Free?
    ensures Leads(s, run, t) && Inv(t) && Calm(t) && i in t.irps && Stage(t, i) < Stage(s, i)
  {
    CalmStep(s, OfLock(ScanLock));
    var u := LockStep(s, ScanLock);
    assert IrpOk(u, i);
    var k := PositionOf(u, Pending, e);
    assert EntryOk(u, e);
    ScanAdvances(u, i, k);
    run, t := StepDown(u, OfWalk(ScanExpire(k)), i);
    LeadsOn(s, [OfLock(ScanLock)], u, run, t);
    run := [OfLock(ScanLock)] + run;
  }

  lemma OffTheList(s: State, i: nat, l: ListId)
    requires i in s.irps && IrpOk(s, i) && ListOk(s, l) && s.List(l) == [] && Stage(s, i) <= 4
    requires s.irps[i].holder.Listed? ==>
               var e := s.irps[i].holder.entry;
               e in s.entries && s.entries[e].list == l
    ensures Stage(s, i) < 4
  {
  }

  lemma LockRetry(s: State) returns (t: State)
    requires Inv(s) && Calm(s) && s.retryLock.Free?
    ensures Leads(s, [OfLock(DrainLock(Retry, ToRetry))], t) && Inv(t) && Calm(t)
    ensures Eases(s, t) && t.retryLock.Draining?
  {
    var a := OfLock(DrainLock(Retry, ToRetry));
    CalmStep(s, a);
    OwnerEases(s, a);
    t := Step(s, a);
  }

  lemma OffTheRetryList(s: State, t: State, i: nat, e: nat)
    requires Inv(t) && Eases(s, t) && t.retry == [] && i in s.irps && s.irps[i].holder == Listed(e)
    requires EntryAt(s, e, OnList) && s.entries[e].list.Retry?
    ensures i in t.irps && Stage(t, i) < Stage(s, i)
  {
    assert EasesIrp(s, t, i);
    assert IrpOk(t, i);
    OffTheList(t, i, Retry);
  }

  /** The retry thread takes an IRP off the retry list. */
  lemma RetryDown(s: State, i: nat, e: nat) returns (run: seq<Action>, t: State)
    requires Inv(s) && Calm(s) && i in s.irps && s.irps[i].holder == Listed(e)
    requires EntryAt(s, e, OnList) && s.entries[e].list.Retry? && s.retryLock.Free?
    ensures Leads(s, run, t) && Inv(t) && Calm(t) && i in t.irps && Stage(t, i) < Stage(s, i)
  {
    var u := LockRetry(s);
    run, t := FreeLock(u, Retry);
    EasesTransitive(s, u, t);
    OffTheRetryList(s, t, i, e);
    LeadsOn(s, [OfLock(DrainLock(Retry, ToRetry))], u, run, t);
    run := [OfLock(DrainLock(Retry, ToRetry))] + run;
  }

  /** Whoever owns the lock frees it, and then the list is walked. */
  lemma OnListDown(s: State, i: nat, e: nat) returns (run: seq<Action>, t: State)
    requires Inv(s) && Calm(s) && i in s.irps && s.irps[i].holder == Listed(e) && EntryAt(s, e, OnList)
    ensures Leads(s, run, t) && Inv(t) && Calm(t) && i in t.irps && Stage(t, i) < Stage(s, i)
  {
    var first, u := FreeLock(s, s.entries[e].list);
    assert EasesIrp(s, u, i);
    if Stage(u, i) < Stage(s, i) {
      run, t := first, u;
    } else {
      assert IrpOk(u, i);
      StillListed(u, i);
      if u.entries[e].list.Pending? {
        run, t := PendingDown(u, i, e);
      } else {
        run, t := RetryDown(u, i, e);
      }
      LeadsOn(s, first, u, run, t);
      run := first + run;
    }
  }

  lemma ListedIsWaiting(s: State, i: nat)
    requires i in s.irps && IrpOk(s, i) && s.irps[i].holder.Listed?
    ensures s.irps[i].holder.entry in s.entries && IsWaiting(s.entries[s.irps[i].holder.entry].at)
  {
  }

  lemma ListedDown(s: State, i: nat) returns (run: seq<Action>, t: State)
    requires Inv(s) && Calm(s) && i in s.irps && s.irps[i].holder.Listed?
    ensures Leads(s, run, t) && Inv(t) && Calm(t) && i in t.irps && Stage(t, i) < Stage(s, i)
  {
    var e := s.irps[i].holder.entry;
    assert IrpOk(s, i);
    ListedIsWaiting(s, i);
    if s.entries[e].at.Allocated? { run, t := AllocatedDown(s, i, e); }
    else if s.entries[e].at.OnList? { run, t := OnListDown(s, i, e); }
    else { run, t := RegisteringDown(s, i, e); }
  }

  lemma Down(s: State, i: nat) returns (run: seq<Action>, t: State)
    requires Inv(s) && Calm(s) && IsOpen(s, i)
    ensures Leads(s, run, t) && Inv(t) && Calm(t) && i in t.irps && Stage(t, i) < Stage(s, i)
  {
    assert IrpOk(s, i);
    match s.irps[i].holder
    case Dispatch =>
      DispatchAdvances(s, i);
      run, t := StepDown(s, OfDispatch(DispatchComplete(i)), i);
    case Posted => run, t := PostedDown(s, i);
    case Local(_) => run, t := LocalDown(s, i);
    case Canceling => run, t := CancelingDown(s, i);
    case Listed(_) => run, t := ListedDown(s, i);
  }

  lemma {:induction false} Complete(s: State, i: nat) returns (run: seq<Action>, t: State)
    requires Inv(s) && Calm(s) && i in s.irps
    ensures Leads(s, run, t) && Inv(t) && Calm(t) && !IsOpen(t, i)
    decreases Stage(s, i)
  {
    if IsOpen(s, i) {
      var first, u := Down(s, i);
      run, t := Complete(u, i);
      LeadsOn(s, first, u, run, t);
      run := first + run;
    } else {
      LeadsNowhere(s);
      run, t := [], s;
    }
  }

  // ------------------------------------------------------------------------------------------
  // All of them
  // ------------------------------------------------------------------------------------------

  ghost function OpenIrps(s: State): set<nat> { set i | i in s.irps && IsOpen(s, i) }

  lemma FewerOpen(s: State, t: State)
    requires Onward(s, t)
    ensures OpenIrps(t) <= OpenIrps(s)
  {
  }

  lemma {:induction false} CompleteAll(s: State) returns (run: seq<Action>, t: State)
    requires Inv(s) && Calm(s)
    ensures Leads(s, run, t) && Inv(t) && Calm(t) && OpenIrps(t) == {}
    decreases |OpenIrps(s)|
  {
    if OpenIrps(s) == {} {
      LeadsNowhere(s);
      run, t := [], s;
    } else {
      var i :| i in OpenIrps(s);
      var first, u := Complete(s, i);
      FewerOpen(s, u);
      assert i !in OpenIrps(u);
      SmallerSet(OpenIrps(u), OpenIrps(s));
      run, t := CompleteAll(u);
      LeadsOn(s, first, u, run, t);
      run := first + run;
    }
  }

  /** With the pending list's lock free, a listed entry's IRP is not stranded. */
  lemma ListedIsOpen(s: State, e: nat)
    requires ListedEntryOk(s, e) && s.pendingLock.Free?
    ensures s.entries[e].irp.value in OpenIrps(s)
  {
    ListedHolder(s, e);
  }

  /** When no IRP is open, the lists are empty. */
  lemma NothingLeftListed(s: State, l: ListId)
    requires Inv(s) && OpenIrps(s) == {} && s.pendingLock.Free?
    ensures s.List(l) == []
  {
    if s.List(l) != [] {
      KeepsDiscardFree(s, l, 0);
      assert EntryOk(s, s.List(l)[0]) && IrpOk(s, s.entries[s.List(l)[0]].irp.value);
      ListedIsOpen(s, s.List(l)[0]);
    }
  }

  /** Both lists are empty, and exactly the IRPs that were not stranded in `s` are completed. */
  ghost predicate AllDone(s: State, t: State) {
    && t.irps.Keys == s.irps.Keys && t.pending == [] && t.retry == []
    && forall i :: i in s.irps ==> t.irps[i].completions == if Stranded(s, i) then 0 else 1
  }

  lemma DoneFrom(s: State, t: State)
    requires Inv(t) && Onward(s, t) && OpenIrps(t) == {} && t.pendingLock.Free?
    ensures AllDone(s, t)
  {
    NothingLeftListed(t, Pending);
    NothingLeftListed(t, Retry);
    forall i | i in s.irps ensures t.irps[i].completions == if Stranded(s, i) then 0 else 1 {
      assert IrpOk(t, i);
      if Stranded(s, i) { StrandedIsOpen(t, i); } else { assert i !in OpenIrps(t); }
    }
  }

  /** An event write ends, and the cancellations that have begun are carried through. */
  lemma {:induction false} Settle(s: State) returns (run: seq<Action>, t: State)
    requires Inv(s)
    ensures Leads(s, run, t) && Inv(t) && Calm(t)
  {
    var first, u := FinishWrite(s);
    run, t := CalmDown(u);
    LeadsOn(s, first, u, run, t);
    run := first + run;
  }

  lemma {:induction false} FinishAll(s: State) returns (run: seq<Action>, t: State)
    requires Inv(s) && Calm(s)
    ensures Leads(s, run, t) && AllDone(s, t)
  {
    var first, u := CompleteAll(s);
    run, t := FreeLock(u, Pending);
    FewerOpen(u, t);
    LeadsOn(s, first, u, run, t);
    run := first + run;
    DoneFrom(s, t);
  }

  lemma AllDoneSince(s: State, t: State, u: State)
    requires Onward(s, t) && AllDone(t, u)
    ensures AllDone(s, u)
  {
  }

  /**
    From every reachable state, whatever locks are held, there is a run of the driver's own steps that empties
    both lists and completes exactly the IRPs that are not stranded.
  */
  lemma {:induction false} EveryIrpCanComplete(before: seq<Action>) returns (run: seq<Action>)
    requires IsRun(INIT, before)
    ensures IsRun(After(INIT, before), run) && (forall a :: a in run ==> IsDriverStep(a))
    ensures AllDone(After(INIT, before), After(After(INIT, before), run))
  {
    InitOk();
    KeepsRun(INIT, before);
    var s := After(INIT, before);
    var first, u := Settle(s);
    var second, t := FinishAll(u);
    LeadsOn(s, first, u, second, t);
    AllDoneSince(s, u, t);
    run := first + second;
  }

  /** The IRP can still be completed without a new cancellation. */
  ghost predicate CanComplete(s: State, i: nat) {
    exists run :: && IsRun(s, run) && OfCancel(RaiseCancel(i)) !in run
                  && i in After(s, run).irps && After(s, run).irps[i].completions == 1
  }

  /** In every reachable state, an IRP can be completed without a new cancellation exactly when it is not stranded. */
  lemma {:induction false} CompletableExactly(before: seq<Action>, i: nat)
    requires IsRun(INIT, before) && i in After(INIT, before).irps
    ensures CanComplete(After(INIT, before), i) <==> !Stranded(After(INIT, before), i)
  {
    var s := After(INIT, before);
    if Stranded(s, i) {
      forall run | IsRun(s, run) && OfCancel(RaiseCancel(i)) !in run
        ensures i in After(s, run).irps && After(s, run).irps[i].completions == 0
      {
        StrandedForever(before, run, i);
      }
    } else {
      var run := EveryIrpCanComplete(before);
      assert !IsDriverStep(OfCancel(RaiseCancel(i)));
      assert After(s, run).irps[i].completions == 1;
    }
  }

  /** The IRP can still be completed. */
  ghost predicate CanCompleteSomehow(s: State, i: nat) {
    exists run :: IsRun(s, run) && i in After(s, run).irps && After(s, run).irps[i].completions == 1
  }

  lemma CancelSaves(s: State, i: nat)
    requires i in s.irps && IrpOk(s, i) && Overtaken(s, i)
    ensures CancelEnabled(s, RaiseCancel(i)) && !Stranded(CancelStep(s, RaiseCancel(i)), i)
  {
  }

  lemma {:induction false} OvertakenCanBeSaved(before: seq<Action>, i: nat)
    requires IsRun(INIT, before) && i in After(INIT, before).irps && Overtaken(After(INIT, before), i)
    ensures CanCompleteSomehow(After(INIT, before), i)
  {
    var s, a := After(INIT, before), OfCancel(RaiseCancel(i));
    InitOk();
    KeepsRun(INIT, before);
    assert IrpOk(s, i);
    CancelSaves(s, i);
    Extend(before, a);
    var run := EveryIrpCanComplete(before + [a]);
    Cons(s, a, run);
    assert After(s, [a] + run).irps[i].completions == 1;
  }

  /** In every reachable state, an IRP can be completed in some continuation exactly when it is not hopeless. */
  lemma {:induction false} CompletableSomehow(before: seq<Action>, i: nat)
    requires IsRun(INIT, before) && i in After(INIT, before).irps
    ensures CanCompleteSomehow(After(INIT, before), i) <==> !Hopeless(After(INIT, before), i)
  {
    var s := After(INIT, before);
    if Hopeless(s, i) {
      forall run | IsRun(s, run) ensures i in After(s, run).irps && After(s, run).irps[i].completions == 0 {
        HopelessForever(before, run, i);
      }
    } else if Overtaken(s, i) {
      OvertakenCanBeSaved(before, i);
    } else {
      var run := EveryIrpCanComplete(before);
      assert After(s, run).irps[i].completions == 1;
    }
  }

  // ------------------------------------------------------------------------------------------
  // Unmount
  // ------------------------------------------------------------------------------------------

  lemma DrainLockStep(s: State, l: ListId)
    requires s.LockOf(l).Free? && s.release == (if l.Pending? then Dismounting else DrainedPending)
    ensures var a := OfLock(DrainLock(l, ToRelease));
            && Enabled(s, a) && IsOrdinary(a) && ArmsCalmly(s, a)
            && Step(s, a) == s.WithLock(l, Draining(ToRelease))
  {
  }

  /** The releaser drains a list, whoever owns its lock at first. */
  lemma {:induction false} DrainList(s: State, l: ListId) returns (run: seq<Action>, t: State)
    requires Inv(s) && Calm(s) && s.release == (if l.Pending? then Dismounting else DrainedPending)
    ensures Leads(s, run, t) && Inv(t) && Calm(t) && t.release == if l.Pending? then DrainedPending else DrainedBoth
  {
    run, t := FreeLock(s, l);
    if t.release == s.release {
      var first, u, a := run, t, OfLock(DrainLock(l, ToRelease));
      DrainLockStep(u, l);
      CalmStep(u, a);
      var v := Step(u, a);
      run, t := FreeLock(v, l);
      LeadsOn(u, [a], v, run, t);
      LeadsOn(s, first, u, [a] + run, t);
      run := first + ([a] + run);
    }
  }

  lemma {:induction false} Dismount(s: State) returns (run: seq<Action>, t: State)
    requires Inv(s) && Calm(s) && s.UnmountPending()
    ensures Leads(s, run, t) && Inv(t) && Calm(t) && t.UnmountPending() && !t.release.Claimed?
  {
    if s.release.Claimed? {
      CalmStep(s, OfLock(SetDismount));
      run, t := [OfLock(SetDismount)], LockStep(s, SetDismount);
    } else {
      LeadsNowhere(s);
      run, t := [], s;
    }
  }

  lemma {:induction false} DrainIfDue(s: State, l: ListId) returns (run: seq<Action>, t: State)
    requires Inv(s) && Calm(s) && s.UnmountPending() && !s.release.Claimed?
    requires l.Retry? ==> !s.release.Dismounting?
    ensures Leads(s, run, t) && Inv(t) && Calm(t) && t.UnmountPending() && !t.release.Claimed? && Drained(t, l)
  {
    if s.release == (if l.Pending? then Dismounting else DrainedPending) {
      run, t := DrainList(s, l);
    } else {
      LeadsNowhere(s);
      run, t := [], s;
    }
  }

  /** The thread that claimed the release gets through. */
  lemma {:induction false} DrainBoth(s: State) returns (run: seq<Action>, t: State)
    requires Inv(s) && Calm(s) && s.UnmountPending()
    ensures Leads(s, run, t) && Inv(t) && Calm(t) && t.release.DrainedBoth?
  {
    var r1, u := Dismount(s);
    var r2, v := DrainIfDue(u, Pending);
    LeadsOn(s, r1, u, r2, v);
    var r3;
    r3, t := DrainIfDue(v, Retry);
    LeadsOn(s, r1 + r2, v, r3, t);
    run := r1 + r2 + r3;
  }

  lemma {:induction false} StaysUnmounting(s: State, run: seq<Action>)
    requires Inv(s) && IsRun(s, run) && s.UnmountPending()
    ensures After(s, run).UnmountPending()
    decreases |run|
  {
    if run != [] {
      KeepsStep(s, run[0]);
      UnmountFlag(s, run[0]);
      StaysUnmounting(Step(s, run[0]), run[1..]);
    }
  }

  lemma {:induction false} SettleAndDrain(s: State) returns (run: seq<Action>, t: State)
    requires Inv(s) && s.UnmountPending()
    ensures Leads(s, run, t) && Inv(t) && Calm(t) && t.release.DrainedBoth?
  {
    var first, u := Settle(s);
    StaysUnmounting(s, first);
    var second;
    second, t := DrainBoth(u);
    LeadsOn(s, first, u, second, t);
    run := first + second;
  }

  /**
    From every reachable state in which an unmount has begun, there is a run of the driver's own steps after
    which the release has drained both lists and exactly the IRPs that were not stranded are completed.
  */
  lemma {:induction false} UnmountCanFinish(before: seq<Action>) returns (run: seq<Action>)
    requires IsRun(INIT, before) && After(INIT, before).UnmountPending()
    ensures IsRun(After(INIT, before), run) && (forall a :: a in run ==> IsDriverStep(a))
    ensures var t := After(After(INIT, before), run); t.release.DrainedBoth? && AllDone(After(INIT, before), t)
  {
    InitOk();
    KeepsRun(INIT, before);
    var s := After(INIT, before);
    var t;
    run, t := SettleAndDrain(s);
    var last, end := FinishAll(t);
    DrainedForever(t, last, Retry);
    LeadsOn(s, run, t, last, end);
    AllDoneSince(s, t, end);
    run := run + last;
  }
}
