/**
  The pending-IRP protocol of the driver (sys/event.c, sys/notification.c, sys/timeout.c).

  IRPs wait on two lists while user mode works on them. Registration, the reply walk, the
  event-write walk, the timeout scan, the unmount drain and the operating system's cancellation
  race over those lists. Every action below is one atomic step of one of these threads:

  - `IoSetCancelRoutine` is an atomic exchange of `Irp.slot`;
  - cancellation by the operating system takes two steps (raise `Irp->Cancel`, then take the
    routine), and the routine's own body runs in further, separate steps;
  - a thread that owns a `ListLock` keeps it across several steps, one for each entry it handles,
    and its program counter is the value of that lock;
  - the lists local to a thread (`completeList`, `forceCancelList`, `Dest`) are the entries whose
    `at` field names them, and a thread works on its local list only after it dropped the lock;
  - which entries a reply matches depends on the list and the buffer alone, so it is settled when the
    reply takes the lock, and so is the serial number that an event write looks for.

  `Irp.holder` is an auxiliary variable: it records who may still complete the IRP. No guard and no
  other field depends on it.
*/
module PendingIrp {
  import opened Options

  datatype ListId = Pending | Retry

  datatype Kind = Create | Write | Other

  /** The two cancel routines the driver installs. */
  datatype Routine = CreateRoutine | IrpRoutine

  /** Progress of the operating system's one cancellation of an IRP and of the routine it took. */
  datatype Cancel =
    | NoCancel
    | Flagged                  // Irp->Cancel is TRUE, the routine is not taken yet
    | CreateStart              // DokanCreateIrpCancelRoutine was taken
    | CreateHave(entry: nat)   // ... and has read DRIVER_CONTEXT_IRP_ENTRY
    | IrpStart                 // DokanIrpCancelRoutine was taken
    | IrpHave(entry: nat)      // ... and has read DRIVER_CONTEXT_IRP_ENTRY
    | IrpUnlocked              // ... and has left its ListLock section
    | Finished

  datatype Holder = Dispatch | Posted | Listed(entry: nat) | Local(entry: nat) | Canceling | Lost | Done

  datatype Irp = Irp(
    kind: Kind,
    slot: Option<Routine>,       // Irp->CancelRoutine
    cancel: Cancel,
    driverEntry: Option<nat>,    // DriverContext[DRIVER_CONTEXT_IRP_ENTRY]
    driverEvent: Option<nat>,    // DriverContext[DRIVER_CONTEXT_EVENT]
    dispatching: bool,           // a dispatch routine is running on behalf of this IRP
    posted: bool,                // the IRP waits for an oplock break
    completions: nat,            // calls of IoCompleteRequest
    holder: Holder)

  datatype Place =
    | Allocated      // registration has allocated it and waits for the lock
    | Armed          // registration owns the lock, the cancel routine is installed
    | Doubted        // ... and it found Irp->Cancel set
    | Linking        // ... or it is about to insert the entry
    | OnList
    | ToReply        // completeList of DokanCompleteIrp
    | ToComplete     // ... and the unmount flag was found clear for it
    | ToForceCancel  // forceCancelList of DokanCompleteIrp
    | ToTimeOut      // completeList of ReleaseTimeoutPendingIrp
    | ToRelease      // completeList of ReleasePendingIrp
    | ToRetry        // retryList of RetryIrps
    | Orphan         // linked to itself
    | Abandoned      // left on the completeList of a DokanCompleteIrp that returned early
    | Freed

  datatype Entry = Entry(
    irp: Option<nat>,            // RequestContext.Irp
    list: ListId,
    withEvent: bool,             // registered together with an EVENT_CONTEXT
    heeded: bool,                // the caller of the registration looks at its status
    serial: nat,
    forced: bool,                // RequestContext.ForcedCanceled
    routineFrees: bool,          // CancelRoutineFreeMemory
    at: Place,
    frees: nat)                  // calls of DokanFreeIrpEntry

  /** The event context a large write keeps until user mode asks for it. */
  datatype Context = Context(irp: nat, frees: nat)

  datatype Lock =
    | Free
    | Arming(entry: nat)      // RegisterPendingIrpMain, before it reads Irp->Cancel
    | BackingOut(entry: nat)  // ... it read TRUE
    | Inserting(entry: nat)   // ... it goes on to InsertTailList
    | Replying(todo: set<nat>)    // first pass of DokanCompleteIrp, with the entries it matches
    | WritingEvent(serial: nat)   // DokanEventWrite, with the serial number it looks for
    | Scanning                // ReleaseTimeoutPendingIrp
    | Draining(dest: Place)   // MoveIrpList

  /** Why a registration fails before it has an entry. */
  datatype Refusal = VolumeGone | NoMemory | TooLarge

  /** Program counter of the one thread that wins DokanEventRelease. */
  datatype Release = NotReleased | Claimed | Dismounting | DrainedPending | DrainedBoth

  datatype State = State(
    irps: map<nat, Irp>,
    entries: map<nat, Entry>,
    contexts: map<nat, Context>,
    pending: seq<nat>,
    retry: seq<nat>,
    pendingLock: Lock,
    retryLock: Lock,
    serial: nat,
    release: Release)
  {
    function List(l: ListId): seq<nat> { if l.Pending? then pending else retry }

    function LockOf(l: ListId): Lock { if l.Pending? then pendingLock else retryLock }

    function WithList(l: ListId, entries': seq<nat>): State {
      if l.Pending? then this.(pending := entries') else this.(retry := entries')
    }

    function WithLock(l: ListId, lock: Lock): State {
      if l.Pending? then this.(pendingLock := lock) else this.(retryLock := lock)
    }

    function WithIrp(i: nat, irp: Irp): State { this.(irps := irps[i := irp]) }

    function WithEntry(e: nat, entry: Entry): State { this.(entries := entries[e := entry]) }

    /** IsUnmountPendingVcb: set from the moment the release is claimed. */
    predicate UnmountPending() { !release.NotReleased? }
  }

  const INIT := State(map[], map[], map[], [], [], Free, Free, 0, NotReleased)

  datatype DispatchAction =
    | Arrive(i: nat, kind: Kind)
    | DispatchComplete(i: nat)
    | AttachContext(i: nat, c: nat)
    | DropContext(i: nat)
    | Post(i: nat)
    // the callbacks of the oplock package
    | OplockFail(i: nat)
    | Refuse(i: nat, why: Refusal)
    // the start of RegisterPendingIrpMain
    | Allocate(i: nat, e: nat, list: ListId)

  /** RegisterPendingIrpMain, once it has an entry. */
  datatype RegistrationAction = Arm(e: nat) | TestCancel(e: nat) | BackOut(e: nat) | Insert(e: nat)

  /** The operating system and the cancel routines. */
  datatype CancelAction =
    | RaiseCancel(i: nat)
    | TakeRoutine(i: nat)
    | ReadEntry(i: nat)
    | MarkForced(i: nat)
    | CancelSection(i: nat)
    | CancelComplete(i: nat)

  /** The walks over a list: DokanCompleteIrp, DokanEventWrite, ReleaseTimeoutPendingIrp, MoveIrpList. */
  datatype WalkAction = ReplyMatch(k: nat) | WriteMatch(k: nat) | ScanExpire(k: nat) | DrainPop(list: ListId)

  /** What a thread does with an entry of its local list. */
  datatype FinishAction =
    // DokanCompleteIrp
    | ReplyCheck(e: nat)
    | ReplyComplete(e: nat)
    | ReplyAbandon(e: nat)
    | ForceCancel(e: nat)
    // ReleaseTimeoutPendingIrp
    | ScanComplete(e: nat)
    // ReleasePendingIrp, RetryIrps
    | DrainComplete(e: nat)
    | Redispatch(e: nat)

  /** Taking and dropping locks, and the flags of DokanEventRelease. */
  datatype LockAction =
    | ReplyLock(todo: set<nat>)
    | ReplyUnlock
    | WriteLock(serial: nat)
    | WriteUnlock
    | ScanLock
    | ScanUnlock
    | DrainLock(list: ListId, dest: Place)
    | DrainUnlock(list: ListId)
    | ClaimRelease
    | SetDismount

  datatype Action =
    | OfDispatch(d: DispatchAction)
    | OfRegistration(r: RegistrationAction)
    | OfCancel(c: CancelAction)
    | OfWalk(w: WalkAction)
    | OfFinish(f: FinishAction)
    | OfLock(l: LockAction)

  /** `irp` after another thread gave up on its entry because the exchange returned NULL. */
  function Disowned(irp: Irp): Irp {
    if irp.holder.Listed? then irp.(holder := Lost) else irp
  }

  function RoutineFor(kind: Kind): Routine { if kind.Create? then CreateRoutine else IrpRoutine }

  function Without(s: seq<nat>, k: nat): seq<nat>
    requires k < |s|
  {
    s[..k] + s[k + 1..]
  }

  predicate EntryAt(s: State, e: nat, at: Place) { e in s.entries && s.entries[e].at == at }

  predicate Resolved(s: State, e: nat) {
    e in s.entries && s.entries[e].irp.Some? && s.entries[e].irp.value in s.irps
  }

  // ------------------------------------------------------------------------------------------
  // Guards: which action may happen next
  // ------------------------------------------------------------------------------------------

  /**
    Dispatch routines register with an event on the pending list. The callback for a create that waited for an
    oplock break registers it without one, to be retried or to be failed; for other IRPs it registers with an event.
  */
  predicate RegistersOn(irp: Irp, l: ListId) {
    if irp.dispatching then l.Pending? else irp.posted && (l.Retry? ==> irp.kind.Create?)
  }

  predicate CanRefuse(s: State, irp: Irp, why: Refusal) {
    match why
    case VolumeGone => s.UnmountPending()
    case NoMemory => true
    case TooLarge => irp.kind.Other?
  }

  predicate DispatchEnabled(s: State, a: DispatchAction)
  {
    match a
    case Arrive(i, _) => i !in s.irps
    case DispatchComplete(i) => i in s.irps && s.irps[i].dispatching
    case AttachContext(i, c) =>
      i in s.irps && s.irps[i].dispatching && s.irps[i].kind.Write? && c !in s.contexts
    case DropContext(i) =>
      && i in s.irps && s.irps[i].dispatching
      && s.irps[i].driverEvent.Some? && s.irps[i].driverEvent.value in s.contexts
    case Post(i) => i in s.irps && s.irps[i].dispatching
    case OplockFail(i) => i in s.irps && s.irps[i].posted && !s.irps[i].kind.Create?
    case Refuse(i, why) => i in s.irps && s.irps[i].posted && CanRefuse(s, s.irps[i], why)
    case Allocate(i, e, l) =>
      i in s.irps && RegistersOn(s.irps[i], l) && e !in s.entries && !s.UnmountPending()
  }

  predicate RegistrationEnabled(s: State, a: RegistrationAction)
  {
    && Resolved(s, a.e)
    && var lock := s.LockOf(s.entries[a.e].list);
       match a
       case Arm(e) => s.entries[e].at.Allocated? && lock.Free?
       case TestCancel(e) => lock == Arming(e)
       case BackOut(e) => lock == BackingOut(e)
       case Insert(e) => lock == Inserting(e)
  }

  predicate CancelEnabled(s: State, a: CancelAction)
  {
    && a.i in s.irps
    && var cancel := s.irps[a.i].cancel;
       match a
       case RaiseCancel(_) => cancel.NoCancel?
       case TakeRoutine(_) => cancel.Flagged?
       case ReadEntry(_) => cancel.CreateStart? || cancel.IrpStart?
       case MarkForced(_) => cancel.CreateHave? && cancel.entry in s.entries
       case CancelSection(_) =>
         cancel.IrpHave? && cancel.entry in s.entries && s.LockOf(s.entries[cancel.entry].list).Free?
       case CancelComplete(_) => cancel.IrpUnlocked?
  }

  /** The reply under way is to match entry `e`. */
  predicate Replies(s: State, e: nat) { s.pendingLock.Replying? && e in s.pendingLock.todo }

  /** The event write under way looks for entry `e`. */
  predicate Writes(s: State, e: nat) {
    s.pendingLock.WritingEvent? && e in s.entries && s.entries[e].serial == s.pendingLock.serial
  }

  predicate WalkEnabled(s: State, a: WalkAction)
  {
    match a
    case ReplyMatch(k) =>
      && k < |s.pending| && Replies(s, s.pending[k])
      && forall j :: 0 <= j < k ==> !Replies(s, s.pending[j])
    case WriteMatch(k) =>
      && k < |s.pending| && Writes(s, s.pending[k])
      && forall j :: 0 <= j < k ==> !Writes(s, s.pending[j])
    case ScanExpire(k) => s.pendingLock.Scanning? && k < |s.pending|
    case DrainPop(l) => s.LockOf(l).Draining? && s.List(l) != []
  }

  predicate LockEnabled(s: State, a: LockAction)
  {
    match a
    case ReplyLock(todo) => s.pendingLock.Free? && forall e :: e in todo ==> e in s.pending
    case ReplyUnlock => s.pendingLock.Replying? && forall e :: e in s.pending ==> !Replies(s, e)
    case WriteLock(_) => s.pendingLock.Free?
    case WriteUnlock => s.pendingLock.WritingEvent? && forall e :: e in s.pending ==> !Writes(s, e)
    case ScanLock => s.pendingLock.Free?
    case ScanUnlock => s.pendingLock.Scanning?
    case ClaimRelease => s.release.NotReleased?
    case SetDismount => s.release.Claimed?
    case DrainLock(l, dest) =>
      && s.LockOf(l).Free?
      && (|| (l.Retry? && dest.ToRetry?)
          || (l.Pending? && dest.ToRelease? && s.release.Dismounting?)
          || (l.Retry? && dest.ToRelease? && s.release.DrainedPending?))
    case DrainUnlock(l) => s.LockOf(l).Draining? && s.List(l) == []
  }

  /** The walk that moved entry `e` to a local list is over. */
  predicate WalkOver(s: State, e: nat)
    requires e in s.entries
  {
    match s.entries[e].at
    case ToReply => !Replies(s, e)
    case ToForceCancel => !Replies(s, e)
    case ToTimeOut => !s.pendingLock.Scanning?
    case ToRelease => s.LockOf(s.entries[e].list) != Draining(ToRelease)
    case ToRetry => s.retryLock != Draining(ToRetry)
    case _ => true
  }

  /** The local list on which a thread finds the entry it finishes. */
  function FinishPlace(a: FinishAction): Place
  {
    match a
    case ReplyCheck(_) => ToReply
    case ReplyAbandon(_) => ToReply
    case ReplyComplete(_) => ToComplete
    case ForceCancel(_) => ToForceCancel
    case ScanComplete(_) => ToTimeOut
    case DrainComplete(_) => ToRelease
    case Redispatch(_) => ToRetry
  }

  /** The second pass of DokanCompleteIrp reads the unmount flag before each entry. */
  predicate FinishEnabled(s: State, a: FinishAction)
  {
    && EntryAt(s, a.e, FinishPlace(a)) && Resolved(s, a.e) && WalkOver(s, a.e)
    && (a.ReplyCheck? ==> !s.UnmountPending())
    && (a.ReplyAbandon? ==> s.UnmountPending())
  }

  predicate Enabled(s: State, a: Action) {
    match a
    case OfDispatch(d) => DispatchEnabled(s, d)
    case OfRegistration(r) => RegistrationEnabled(s, r)
    case OfCancel(c) => CancelEnabled(s, c)
    case OfWalk(w) => WalkEnabled(s, w)
    case OfFinish(f) => FinishEnabled(s, f)
    case OfLock(l) => LockEnabled(s, l)
  }

  // ------------------------------------------------------------------------------------------
  // Effects
  // ------------------------------------------------------------------------------------------

  /** RemoveEntryList followed by DokanFreeIrpEntry: the "already canceled" branches. */
  function Discard(s: State, l: ListId, k: nat): State
    requires k < |s.List(l)| && s.List(l)[k] in s.entries
  {
    var e := s.List(l)[k];
    var entry := s.entries[e];
    s.WithList(l, Without(s.List(l), k)).WithEntry(e, entry.(at := Freed, frees := entry.frees + 1))
  }

  /** The exchange returned NULL: the cancel routine gets the entry. */
  function Abandon(s: State, l: ListId, k: nat, slot: Option<Routine>): State
    requires k < |s.List(l)| && Resolved(s, s.List(l)[k])
  {
    var e := s.List(l)[k];
    var entry := s.entries[e];
    var i := entry.irp.value;
    s.WithList(l, Without(s.List(l), k))
    .WithEntry(e, entry.(at := Orphan, routineFrees := true))
    .WithIrp(i, Disowned(s.irps[i]).(slot := slot))
  }

  /** The entry moves to the list `dest` of the thread that won it. */
  function Claim(s: State, l: ListId, k: nat, dest: Place, driverEntry: Option<nat>): State
    requires k < |s.List(l)| && Resolved(s, s.List(l)[k])
  {
    var e := s.List(l)[k];
    var entry := s.entries[e];
    var i := entry.irp.value;
    s.WithList(l, Without(s.List(l), k))
    .WithEntry(e, entry.(at := dest))
    .WithIrp(i, s.irps[i].(slot := None, driverEntry := driverEntry, holder := Local(e)))
  }

  /** The second pass of DokanCompleteIrp finds the unmount flag clear. */
  function Pass(s: State, e: nat): State
    requires e in s.entries
  {
    s.WithEntry(e, s.entries[e].(at := ToComplete))
  }

  /** Complete the IRP of a local entry and free the entry. */
  function Retire(s: State, e: nat): State
    requires Resolved(s, e)
  {
    var entry := s.entries[e];
    var irp := s.irps[entry.irp.value];
    s.WithEntry(e, entry.(at := Freed, frees := entry.frees + 1))
    .WithIrp(entry.irp.value, irp.(completions := irp.completions + 1, holder := Done))
  }

  /** The second pass of DokanCompleteIrp sees the unmount flag and returns: the entry stays on its stack. */
  function Forget(s: State, e: nat): State
    requires Resolved(s, e)
  {
    var i := s.entries[e].irp.value;
    s.WithEntry(e, s.entries[e].(at := Abandoned)).WithIrp(i, s.irps[i].(holder := Lost))
  }

  /** DokanFreeIrpEntry, and the IRP goes back to a dispatch routine. */
  function GiveBack(s: State, e: nat): State
    requires Resolved(s, e)
  {
    var entry := s.entries[e];
    var irp := s.irps[entry.irp.value];
    s.WithEntry(e, entry.(at := Freed, frees := entry.frees + 1))
    .WithIrp(entry.irp.value, irp.(dispatching := true, holder := Dispatch))
  }

  /** DokanFreeIrpEntry, and the caller takes no notice: nobody is left to complete the IRP. */
  function Drop(s: State, e: nat): State
    requires Resolved(s, e)
  {
    var entry := s.entries[e];
    s.WithEntry(e, entry.(at := Freed, frees := entry.frees + 1))
    .WithIrp(entry.irp.value, s.irps[entry.irp.value].(holder := Lost))
  }

  /** The registration fails after it has an entry. */
  function Refused(s: State, e: nat): State
    requires Resolved(s, e)
  {
    if s.entries[e].heeded then GiveBack(s, e) else Drop(s, e)
  }

  function FreeContext(s: State, c: nat): State
    requires c in s.contexts
  {
    s.(contexts := s.contexts[c := s.contexts[c].(frees := s.contexts[c].frees + 1)])
  }

  function AllocateStep(s: State, i: nat, e: nat, l: ListId): State
    requires i in s.irps
  {
    var irp := s.irps[i];
    s.WithIrp(i, irp.(dispatching := false, posted := false, holder := Listed(e)))
    .WithEntry(e, Entry(Some(i), l, irp.dispatching || !irp.kind.Create?, irp.dispatching, 0, false, false,
                        Allocated, 0))
  }

  function DispatchStep(s: State, a: DispatchAction): State
    requires DispatchEnabled(s, a)
  {
    match a
    case Arrive(i, kind) =>
      s.WithIrp(i, Irp(kind, None, NoCancel, None, None, true, false, 0, Dispatch))
    case DispatchComplete(i) =>
      s.WithIrp(i, s.irps[i].(dispatching := false, completions := s.irps[i].completions + 1, holder := Done))
    case AttachContext(i, c) =>
      s.WithIrp(i, s.irps[i].(driverEvent := Some(c))).(contexts := s.contexts[c := Context(i, 0)])
    case DropContext(i) =>
      FreeContext(s, s.irps[i].driverEvent.value).WithIrp(i, s.irps[i].(driverEvent := None))
    case Post(i) => s.WithIrp(i, s.irps[i].(dispatching := false, posted := true, holder := Posted))
    case OplockFail(i) =>
      s.WithIrp(i, s.irps[i].(posted := false, completions := s.irps[i].completions + 1, holder := Done))
    case Refuse(i, _) => s.WithIrp(i, s.irps[i].(posted := false, holder := Lost))
    case Allocate(i, e, l) => AllocateStep(s, i, e, l)
  }

  function ArmStep(s: State, e: nat): State
    requires Resolved(s, e)
  {
    var entry := s.entries[e];
    if s.UnmountPending() then
      Refused(s, e)
    else
      var irp := s.irps[entry.irp.value];
      var serial := if entry.withEvent then s.serial + 1 else 0;
      s.(serial := if entry.withEvent then serial else s.serial)
      .WithLock(entry.list, Arming(e))
      .WithEntry(e, entry.(at := Armed, serial := serial))
      .WithIrp(entry.irp.value, irp.(slot := Some(RoutineFor(irp.kind)), driverEntry := Some(e)))
  }

  function CommitStep(s: State, e: nat): State
    requires e in s.entries
  {
    s.WithLock(s.entries[e].list, Inserting(e)).WithEntry(e, s.entries[e].(at := Linking))
  }

  function TestCancelStep(s: State, e: nat): State
    requires Resolved(s, e)
  {
    if s.irps[s.entries[e].irp.value].cancel.NoCancel? then CommitStep(s, e)
    else s.WithLock(s.entries[e].list, BackingOut(e)).WithEntry(e, s.entries[e].(at := Doubted))
  }

  function BackOutStep(s: State, e: nat): State
    requires Resolved(s, e)
  {
    var entry := s.entries[e];
    var irp := s.irps[entry.irp.value];
    if irp.slot.None? then
      CommitStep(s, e)
    else
      Refused(s.WithLock(entry.list, Free).WithIrp(entry.irp.value, irp.(slot := None, driverEntry := None)), e)
  }

  function InsertStep(s: State, e: nat): State
    requires e in s.entries
  {
    var l := s.entries[e].list;
    s.WithLock(l, Free).WithList(l, s.List(l) + [e]).WithEntry(e, s.entries[e].(at := OnList))
  }

  function RegistrationStep(s: State, a: RegistrationAction): State
    requires RegistrationEnabled(s, a)
  {
    match a
    case Arm(e) => ArmStep(s, e)
    case TestCancel(e) => TestCancelStep(s, e)
    case BackOut(e) => BackOutStep(s, e)
    case Insert(e) => InsertStep(s, e)
  }

  function TakeRoutineStep(s: State, i: nat): State
    requires i in s.irps
  {
    var irp := s.irps[i];
    match irp.slot
    case None => s.WithIrp(i, irp.(cancel := Finished))
    case Some(CreateRoutine) => s.WithIrp(i, irp.(slot := None, cancel := CreateStart))
    case Some(IrpRoutine) => s.WithIrp(i, irp.(slot := None, cancel := IrpStart, holder := Canceling))
  }

  function ReadEntryStep(s: State, i: nat): State
    requires i in s.irps
  {
    var irp := s.irps[i];
    match (irp.cancel, irp.driverEntry)
    case (CreateStart, None) => s.WithIrp(i, irp.(cancel := Finished))
    case (CreateStart, Some(e)) => s.WithIrp(i, irp.(cancel := CreateHave(e)))
    case (_, None) => s.WithIrp(i, irp.(cancel := IrpUnlocked))
    case (_, Some(e)) => s.WithIrp(i, irp.(cancel := IrpHave(e)))
  }

  function MarkForcedStep(s: State, i: nat): State
    requires CancelEnabled(s, MarkForced(i))
  {
    var irp := s.irps[i];
    var e := irp.cancel.entry;
    s.WithIrp(i, irp.(cancel := Finished, driverEvent := None))
    .WithEntry(e, s.entries[e].(forced := true))
  }

  /** RemoveEntryList of an intrusive link: no effect on an entry that is linked to itself. */
  function Removed(s: seq<nat>, e: nat): seq<nat> {
    if s == [] then [] else if s[0] == e then s[1..] else [s[0]] + Removed(s[1..], e)
  }

  /** The part of DokanIrpCancelRoutine that runs under the list lock. */
  function CancelSectionStep(s: State, i: nat): State
    requires CancelEnabled(s, CancelSection(i))
  {
    var irp := s.irps[i];
    var e := irp.cancel.entry;
    var entry := s.entries[e];
    var s1 := if irp.kind.Write? && irp.driverEvent.Some? && irp.driverEvent.value in s.contexts
              then FreeContext(s, irp.driverEvent.value) else s;
    var s2 := s1.WithIrp(i, irp.(cancel := IrpUnlocked, driverEntry := None,
                                 driverEvent := if irp.kind.Write? then None else irp.driverEvent));
    var s3 := s2.WithList(entry.list, Removed(s.List(entry.list), e));
    s3.WithEntry(e, if entry.routineFrees
                    then entry.(irp := None, at := Freed, frees := entry.frees + 1)
                    else entry.(irp := None, at := Orphan))
  }

  function CancelStep(s: State, a: CancelAction): State
    requires CancelEnabled(s, a)
  {
    match a
    case RaiseCancel(i) => s.WithIrp(i, s.irps[i].(cancel := Flagged))
    case TakeRoutine(i) => TakeRoutineStep(s, i)
    case ReadEntry(i) => ReadEntryStep(s, i)
    case MarkForced(i) => MarkForcedStep(s, i)
    case CancelSection(i) => CancelSectionStep(s, i)
    case CancelComplete(i) =>
      s.WithIrp(i, s.irps[i].(cancel := Finished, completions := s.irps[i].completions + 1, holder := Done))
  }

  function ReplyMatchStep(s: State, k: nat): State
    requires k < |s.pending| && s.pending[k] in s.entries
  {
    var entry := s.entries[s.pending[k]];
    if !Resolved(s, s.pending[k]) then
      Discard(s, Pending, k)
    else if entry.forced then
      Claim(s, Pending, k, ToForceCancel, None)
    else if s.irps[entry.irp.value].slot.None? then
      Abandon(s, Pending, k, None)
    else
      Claim(s, Pending, k, ToReply, None)
  }

  /** DokanEventWrite on an IRP that is not being cancelled: the pending write context is copied out and freed. */
  function HandOver(s: State, i: nat): State
    requires i in s.irps
  {
    var irp := s.irps[i].(slot := Some(IrpRoutine));
    if !irp.kind.Write? || irp.driverEvent.None? || irp.driverEvent.value !in s.contexts then
      s.WithIrp(i, irp)
    else
      FreeContext(s, irp.driverEvent.value).WithIrp(i, irp.(driverEvent := None))
  }

  function WriteMatchStep(s: State, k: nat): State
    requires k < |s.pending| && s.pending[k] in s.entries
  {
    var entry := s.entries[s.pending[k]];
    if !Resolved(s, s.pending[k]) then
      Discard(s, Pending, k)
    else if s.irps[entry.irp.value].slot.None? then
      Abandon(s, Pending, k, Some(IrpRoutine))
    else
      HandOver(s.WithLock(Pending, Free), entry.irp.value)
  }

  function ScanExpireStep(s: State, k: nat): State
    requires k < |s.pending| && s.pending[k] in s.entries
  {
    var entry := s.entries[s.pending[k]];
    if !Resolved(s, s.pending[k]) then
      Discard(s, Pending, k)
    else if !entry.forced && s.irps[entry.irp.value].slot.None? then
      Abandon(s, Pending, k, None)
    else
      Claim(s, Pending, k, ToTimeOut, None)
  }

  function DrainPopStep(s: State, l: ListId): State
    requires s.LockOf(l).Draining? && s.List(l) != [] && s.List(l)[0] in s.entries
  {
    var entry := s.entries[s.List(l)[0]];
    if !Resolved(s, s.List(l)[0]) then
      Discard(s, l, 0)
    else if s.irps[entry.irp.value].slot.None? && !entry.forced then
      Abandon(s, l, 0, None)
    else
      Claim(s, l, 0, s.LockOf(l).dest, s.irps[entry.irp.value].driverEntry)
  }

  function WalkStep(s: State, a: WalkAction): State
    requires WalkEnabled(s, a)
  {
    match a
    case ReplyMatch(k) => if s.pending[k] in s.entries then ReplyMatchStep(s, k) else s
    case WriteMatch(k) => if s.pending[k] in s.entries then WriteMatchStep(s, k) else s
    case ScanExpire(k) => if s.pending[k] in s.entries then ScanExpireStep(s, k) else s
    case DrainPop(l) => if s.List(l)[0] in s.entries then DrainPopStep(s, l) else s
  }

  function DrainUnlockStep(s: State, l: ListId): State
    requires s.LockOf(l).Draining?
  {
    var s1 := s.WithLock(l, Free);
    if s.LockOf(l).dest.ToRelease? then s1.(release := if l.Pending? then DrainedPending else DrainedBoth) else s1
  }

  function LockStep(s: State, a: LockAction): State
    requires LockEnabled(s, a)
  {
    match a
    case ReplyLock(todo) => s.WithLock(Pending, Replying(todo))
    case ReplyUnlock => s.WithLock(Pending, Free)
    case WriteLock(serial) => s.WithLock(Pending, WritingEvent(serial))
    case WriteUnlock => s.WithLock(Pending, Free)
    case ScanLock => s.WithLock(Pending, Scanning)
    case ScanUnlock => s.WithLock(Pending, Free)
    case ClaimRelease => s.(release := Claimed)
    case SetDismount => s.(release := Dismounting)
    case DrainLock(l, dest) => s.WithLock(l, Draining(dest))
    case DrainUnlock(l) => DrainUnlockStep(s, l)
  }

  /** What the thread that owns a local entry does with it. */
  function FinishStep(s: State, a: FinishAction): State
    requires Resolved(s, a.e)
  {
    if a.Redispatch? then GiveBack(s, a.e)
    else if a.ReplyAbandon? then Forget(s, a.e)
    else if a.ReplyCheck? then Pass(s, a.e)
    else Retire(s, a.e)
  }

  /** The state after an enabled action. */
  function Step(s: State, a: Action): State
    requires Enabled(s, a)
  {
    match a
    case OfDispatch(d) => DispatchStep(s, d)
    case OfRegistration(r) => RegistrationStep(s, r)
    case OfCancel(c) => CancelStep(s, c)
    case OfWalk(w) => WalkStep(s, w)
    case OfFinish(f) => FinishStep(s, f)
    case OfLock(l) => LockStep(s, l)
  }

  /** A run is a sequence of actions, each enabled when its turn comes. */
  predicate IsRun(s: State, run: seq<Action>)
    decreases |run|
  {
    run != [] ==> Enabled(s, run[0]) && IsRun(Step(s, run[0]), run[1..])
  }

  function After(s: State, run: seq<Action>): State
    requires IsRun(s, run)
    decreases |run|
  {
    if run == [] then s else After(Step(s, run[0]), run[1..])
  }
}
