/**
  The life of one open file in the library: every event on it takes a reference, the Close event
  drops two, and whoever drops the last one calls CloseFile (dokan/dokan.c, dokan/create.c,
  dokan/close.c).
*/
module OpenLifetime {
  import opened Options

  /** The contents of a DOKAN_OPEN_INFO that decide its life. */
  datatype Open = Open(openCount: int, userContext: nat, closeFileName: Option<string>, closeUserContext: nat)

  /** What a Close event carries: the file name. Other events reach EventCompletion. */
  datatype Kind = Close(fileName: string) | Other

  /** A call of the CloseFile callback. */
  datatype CloseCall = CloseCall(fileName: string, context: nat)

  /** What dropping a reference does: the new contents, or the end of the open with an optional callback. */
  datatype Outcome = Kept(open: Open) | Ended(call: Option<CloseCall>)

  const NO_CONTEXT: nat := 0

  function Acquire(o: Open): Open { o.(openCount := o.openCount + 1) }

  function Drop(o: Open, kind: Kind, context: nat): Outcome {
    var o1 := o.(userContext := context, openCount := o.openCount - 1);
    var o2 := if kind.Close?
              then o1.(closeFileName := Some(kind.fileName), closeUserContext := context, openCount := o1.openCount - 1)
              else o1;
    if o2.openCount > 0 then Kept(o2)
    else Ended(if o2.closeFileName.Some? then Some(CloseCall(o2.closeFileName.value, o2.closeUserContext)) else None)
  }

  class OpenInfo {
    var openCount: int
    var userContext: nat
    var closeFileName: Option<string>
    var closeUserContext: nat

    function Contents(): Open
      reads this
    {
      Open(openCount, userContext, closeFileName, closeUserContext)
    }

    /** PopFileOpenInfo followed by the assignments of DispatchCreate. */
    constructor (context: nat)
      ensures Contents() == Open(1, context, None, NO_CONTEXT)
    {
      openCount, userContext, closeFileName, closeUserContext := 1, context, None, NO_CONTEXT;
    }
  }

  class IoEvent {
    var openInfo: OpenInfo?
    var context: nat              // DokanFileInfo.Context, which callbacks may change
    var kind: Kind
    var resultContext: Option<nat> // EventResult->Context; a Close event has no EventResult

    constructor (kind: Kind, resultContext: Option<nat>)
      ensures openInfo == null && context == NO_CONTEXT && this.kind == kind && this.resultContext == resultContext
    {
      openInfo, context, this.kind, this.resultContext := null, NO_CONTEXT, kind, resultContext;
    }

    /** `handle` is the pointer that the kernel kept in the event's Context. */
    method SetupIOEventForProcessing(handle: OpenInfo?)
      modifies this, handle
      ensures openInfo == handle && kind == old(kind) && resultContext == old(resultContext)
      ensures handle == null ==> context == old(context)
      ensures handle != null ==> context == old(handle.userContext)
      ensures handle != null ==> handle.Contents() == Acquire(old(handle.Contents()))
    {
      openInfo := handle;
      if openInfo == null { return; }
      openInfo.openCount := openInfo.openCount + 1;
      context := openInfo.userContext;
    }

    /** The result says whether the open info went back to the pool, and which CloseFile call was made. */
    method ReleaseDokanOpenInfo() returns (recycled: bool, call: Option<CloseCall>)
      modifies this, openInfo
      ensures kind == old(kind)
      ensures old(openInfo) == null ==>
                !recycled && call == None && openInfo == null && context == old(context)
                  && resultContext == old(resultContext)
      ensures old(openInfo) != null ==>
                var outcome := Drop(old(openInfo.Contents()), kind, old(context));
                && recycled == outcome.Ended?
                && (outcome.Kept? ==>
                      && openInfo == old(openInfo) && old(openInfo).Contents() == outcome.open && call == None
                      && context == old(context) && resultContext == old(resultContext))
                && (outcome.Ended? ==>
                      && openInfo == null && call == outcome.call
                      && (resultContext.Some? <==> old(resultContext).Some?)
                      && (resultContext.Some? ==> resultContext == Some(NO_CONTEXT)))
    {
      recycled, call := false, None;
      if openInfo == null { return; }
      var info := openInfo;
      info.userContext := context;
      info.openCount := info.openCount - 1;
      if kind.Close? {
        info.closeFileName := Some(kind.fileName);
        info.closeUserContext := context;
        info.openCount := info.openCount - 1;
      }
      if info.openCount > 0 { return; }
      var fileNameForClose := info.closeFileName;
      info.closeFileName := None;
      context := info.closeUserContext;
      openInfo := null;
      recycled := true;
      if resultContext.Some? { resultContext := Some(NO_CONTEXT); }
      if fileNameForClose.Some? { call := Some(CloseCall(fileNameForClose.value, context)); }
    }
  }

  // ------------------------------------------------------------------------------------------
  // All interleavings of events on one open
  // ------------------------------------------------------------------------------------------

  /** An event between its setup and its release. */
  datatype InFlight = InFlight(kind: Kind, context: nat)

  datatype State = State(
    open: Open,
    inFlight: map<nat, InFlight>,
    closeSeen: bool,      // the Close event was set up
    closeReleased: bool,  // and released
    recycled: nat,        // how often the open info went back to the pool
    calls: seq<CloseCall>)

  datatype Action =
    | Setup(id: nat, kind: Kind)
    | Callback(id: nat, context: nat) // the file system sets DokanFileInfo.Context
    | Release(id: nat)

  /** After a successful create that left `context` in the open. */
  function Created(context: nat): State {
    State(Open(1, context, None, NO_CONTEXT), map[], false, false, 0, [])
  }

  /** One Close per open, and no event on it is set up after its Close was released. */
  predicate Enabled(s: State, a: Action) {
    match a
    case Setup(id, kind) => id !in s.inFlight && !s.closeReleased && !(kind.Close? && s.closeSeen)
    case Callback(id, _) => id in s.inFlight && s.inFlight[id].kind == Other
    case Release(id) => id in s.inFlight
  }

  function Step(s: State, a: Action): State
    requires Enabled(s, a)
  {
    match a
    case Setup(id, kind) =>
      s.(open := Acquire(s.open), inFlight := s.inFlight[id := InFlight(kind, s.open.userContext)],
         closeSeen := s.closeSeen || kind.Close?)
    case Callback(id, context) =>
      s.(inFlight := s.inFlight[id := s.inFlight[id].(context := context)])
    case Release(id) =>
      var e := s.inFlight[id];
      var t := s.(inFlight := s.inFlight - {id}, closeReleased := s.closeReleased || e.kind.Close?);
      match Drop(s.open, e.kind, e.context)
      case Kept(open) => t.(open := open)
      case Ended(call) => t.(recycled := s.recycled + 1, calls := s.calls + if call.Some? then [call.value] else [])
  }

  predicate IsRun(s: State, run: seq<Action>)
    decreases |run|
  {
    run != [] ==> Enabled(s, run[0]) && IsRun(Step(s, run[0]), run[1..])
  }

  function After(s: State, run: seq<Action>): State
    requires IsRun(s, run)
    decreases |run|
  {
    if run == [] then s else After(Step(s, run[0]), run[1..])
  }

  predicate CloseInFlight(s: State) { exists id :: id in s.inFlight && s.inFlight[id].kind.Close? }

  /** The counter, and who is left to bring it to zero. */
  predicate CountOk(s: State) {
    && (s.closeReleased ==> s.closeSeen && !CloseInFlight(s))
    && (!s.closeReleased ==>
          && s.open.openCount == |s.inFlight| + 1 && s.recycled == 0 && s.calls == [] && s.open.closeFileName == None
          && (s.closeSeen <==> CloseInFlight(s)))
    && (s.closeReleased && s.inFlight != map[] ==>
          s.open.openCount == |s.inFlight| && s.recycled == 0 && s.calls == [] && s.open.closeFileName.Some?)
    && (s.closeReleased && s.inFlight == map[] ==> s.recycled == 1 && |s.calls| == 1)
    && (forall i, j :: i in s.inFlight && j in s.inFlight && s.inFlight[i].kind.Close? && s.inFlight[j].kind.Close? ==>
          i == j)
  }

  /** The one CloseFile call, pending or made, is for `call`. */
  predicate CallIs(s: State, call: CloseCall) {
    && (forall id :: id in s.inFlight && s.inFlight[id].kind.Close? ==>
          s.inFlight[id] == InFlight(Close(call.fileName), call.context))
    && (s.closeReleased && s.inFlight != map[] ==>
          s.open.closeFileName == Some(call.fileName) && s.open.closeUserContext == call.context)
    && (forall c :: c in s.calls ==> c == call)
  }

  lemma RemoveSize(m: map<nat, InFlight>, id: nat)
    requires id in m
    ensures |m - {id}| == |m| - 1 && (m - {id} == map[] <==> |m| == 1)
  {
    assert m == (m - {id})[id := m[id]];
  }

  lemma KeepsCountSetup(s: State, a: Action)
    requires CountOk(s) && Enabled(s, a) && !a.Release?
    ensures CountOk(Step(s, a))
  {
    var t := Step(s, a);
    if a.Setup? {
      assert forall i :: i in s.inFlight ==> i in t.inFlight && t.inFlight[i] == s.inFlight[i];
      assert a.id in t.inFlight;
    } else {
      assert t.inFlight.Keys == s.inFlight.Keys && |t.inFlight| == |s.inFlight| by {
        assert |t.inFlight| == |t.inFlight.Keys| && |s.inFlight| == |s.inFlight.Keys|;
      }
      assert forall i :: i in s.inFlight ==> t.inFlight[i].kind == s.inFlight[i].kind;
    }
  }

  lemma KeepsCountRelease(s: State, a: Action)
    requires CountOk(s) && Enabled(s, a) && a.Release?
    ensures CountOk(Step(s, a))
  {
    var t := Step(s, a);
    RemoveSize(s.inFlight, a.id);
    assert forall i :: i in t.inFlight ==> i in s.inFlight && i != a.id && t.inFlight[i] == s.inFlight[i];
    assert forall i :: i in s.inFlight && i != a.id ==> i in t.inFlight;
  }

  lemma KeepsCount(s: State, a: Action)
    requires CountOk(s) && Enabled(s, a)
    ensures CountOk(Step(s, a))
  {
    if a.Release? { KeepsCountRelease(s, a); } else { KeepsCountSetup(s, a); }
  }

  lemma {:induction false} KeepsRun(s: State, run: seq<Action>)
    requires CountOk(s) && IsRun(s, run)
    ensures CountOk(After(s, run))
    decreases |run|
  {
    if run != [] {
      KeepsCount(s, run[0]);
      KeepsRun(Step(s, run[0]), run[1..]);
    }
  }

  lemma KeepsCall(s: State, a: Action, call: CloseCall)
    requires CountOk(s) && Enabled(s, a) && s.closeSeen && CallIs(s, call)
    ensures CallIs(Step(s, a), call) && Step(s, a).closeSeen
  {
    if a.Release? { RemoveSize(s.inFlight, a.id); }
  }

  lemma {:induction false} KeepsCallRun(s: State, run: seq<Action>, call: CloseCall)
    requires CountOk(s) && IsRun(s, run) && s.closeSeen && CallIs(s, call)
    ensures CallIs(After(s, run), call)
    decreases |run|
  {
    if run != [] {
      KeepsCount(s, run[0]);
      KeepsCall(s, run[0], call);
      KeepsCallRun(Step(s, run[0]), run[1..], call);
    }
  }

  lemma {:induction false} RunSplit(s: State, pre: seq<Action>, post: seq<Action>)
    requires IsRun(s, pre + post)
    ensures IsRun(s, pre) && IsRun(After(s, pre), post) && After(s, pre + post) == After(After(s, pre), post)
    decreases |pre|
  {
    if pre == [] {
      assert pre + post == post;
    } else {
      assert (pre + post)[1..] == pre[1..] + post;
      RunSplit(Step(s, pre[0]), pre[1..], post);
    }
  }

  /** OpenCount is the number of events in flight, plus one until Close is released. */
  lemma {:induction false} OpenCountIsReferences(context: nat, run: seq<Action>)
    requires IsRun(Created(context), run)
    ensures var s := After(Created(context), run);
            s.recycled == 0 ==> s.open.openCount == |s.inFlight| + if s.closeReleased then 0 else 1
  {
    KeepsRun(Created(context), run);
  }

  /** The open ends exactly when Close and every other event were released, once, with one CloseFile call. */
  lemma {:induction false} ClosedExactlyOnce(context: nat, run: seq<Action>)
    requires IsRun(Created(context), run)
    ensures var s := After(Created(context), run);
            var over := s.closeReleased && s.inFlight == map[];
            s.recycled == (if over then 1 else 0) && |s.calls| == (if over then 1 else 0)
  {
    KeepsRun(Created(context), run);
  }

  /** No event in flight refers to an open info that went back to the pool. */
  lemma {:induction false} NoUseAfterRecycle(context: nat, run: seq<Action>)
    requires IsRun(Created(context), run)
    ensures var s := After(Created(context), run); s.recycled > 0 ==> s.inFlight == map[]
    ensures var s := After(Created(context), run); forall a :: Enabled(s, a) ==> s.recycled == 0
  {
    KeepsRun(Created(context), run);
  }

  // ------------------------------------------------------------------------------------------
  // Which context an event is given
  // ------------------------------------------------------------------------------------------

  /** All actions but the last. */
  function Earlier(run: seq<Action>): seq<Action>
    requires run != []
  {
    run[..|run| - 1]
  }

  /** The context of event `id` after the run: what its last callback set, or else what it was given at its setup. */
  function HeldBy(context: nat, run: seq<Action>, id: nat): nat
    decreases |run|
  {
    if run == [] then context
    else match run[|run| - 1]
      case Setup(i, _) => if i == id then LastReleased(context, Earlier(run)) else HeldBy(context, Earlier(run), id)
      case Callback(i, c) => if i == id then c else HeldBy(context, Earlier(run), id)
      case Release(_) => HeldBy(context, Earlier(run), id)
  }

  /** The context of the event that was released last, or that of the create when none was. */
  function LastReleased(context: nat, run: seq<Action>): nat
    decreases |run|
  {
    if run == [] then context
    else match run[|run| - 1]
      case Release(i) => HeldBy(context, Earlier(run), i)
      case _ => LastReleased(context, Earlier(run))
  }

  lemma {:induction false} RunLast(s: State, run: seq<Action>)
    requires IsRun(s, run) && run != []
    ensures IsRun(s, Earlier(run)) && Enabled(After(s, Earlier(run)), run[|run| - 1])
    ensures After(s, run) == Step(After(s, Earlier(run)), run[|run| - 1])
  {
    var last := run[|run| - 1];
    assert run == Earlier(run) + [last];
    RunSplit(s, Earlier(run), [last]);
    assert [last][1..] == [];
  }

  /**
    In every run: an event in flight holds what its last callback set or else what it was given, and the next event
    will be given the context of the one that was released last.
  */
  lemma {:induction false} ContextPassedOn(context: nat, run: seq<Action>)
    requires IsRun(Created(context), run)
    ensures var s := After(Created(context), run);
            && (s.recycled == 0 ==> s.open.userContext == LastReleased(context, run))
            && (forall id :: id in s.inFlight ==> s.inFlight[id].context == HeldBy(context, run, id))
    decreases |run|
  {
    if run != [] {
      RunLast(Created(context), run);
      ContextPassedOn(context, Earlier(run));
      KeepsRun(Created(context), run);
      KeepsRun(Created(context), Earlier(run));
    }
  }

  /** Whatever event is set up next is given the context of the event released last, or that of the create. */
  lemma {:induction false} ContextGiven(context: nat, run: seq<Action>, id: nat, kind: Kind)
    requires IsRun(Created(context), run) && Enabled(After(Created(context), run), Setup(id, kind))
    ensures var t := Step(After(Created(context), run), Setup(id, kind));
            id in t.inFlight && t.inFlight[id] == InFlight(kind, LastReleased(context, run))
  {
    ContextPassedOn(context, run);
    NoUseAfterRecycle(context, run);
    assert Enabled(After(Created(context), run), Setup(id, kind));
  }

  /**
    CloseFile gets the name of the Close event, and the context of the event that was released last before the Close
    was set up, or that of the create.
  */
  lemma {:induction false} CloseFileArguments(context: nat, before: seq<Action>, id: nat, fileName: string,
                                              rest: seq<Action>)
    requires IsRun(Created(context), before + [Setup(id, Close(fileName))] + rest)
    ensures forall call :: call in After(Created(context), before + [Setup(id, Close(fileName))] + rest).calls ==>
                             call == CloseCall(fileName, LastReleased(context, before))
  {
    var start, setup := Created(context), Setup(id, Close(fileName));
    assert before + [setup] + rest == before + ([setup] + rest);
    RunSplit(start, before, [setup] + rest);
    KeepsRun(start, before);
    var s := After(start, before);
    assert ([setup] + rest)[1..] == rest;
    ContextGiven(context, before, id, Close(fileName));
    KeepsCount(s, setup);
    KeepsCallRun(Step(s, setup), rest, CloseCall(fileName, LastReleased(context, before)));
  }
}
