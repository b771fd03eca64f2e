/**
  The reply walk of `ReplyCompletion` is one of the runs of the protocol in `PendingIrp`, and the
  lists it meets there are sorted and hold no entry without an IRP.
*/
module ReplyProtocol {
  import opened Bytes
  import opened Structures
  import P = PendingIrp
  import Safety = PendingIrpSafety
  import Loss = PendingIrpLoss
  import R = ReplyCompletion
  import W = ReplyWire

  /** What the reply walk will find out about an entry of the pending list. */
  function FateOf(s: P.State, e: nat): R.Fate {
    if !P.Resolved(s, e) then R.AlreadyCanceled
    else if s.entries[e].forced then R.ForcedCanceled
    else if s.irps[s.entries[e].irp.value].slot.None? then R.RoutineTaken
    else R.Owned
  }

  function EntryView(s: P.State, e: nat): R.Entry {
    if e !in s.entries then R.Entry(0, false, R.AlreadyCanceled)
    else R.Entry(s.entries[e].serial, P.Resolved(s, e) && s.irps[s.entries[e].irp.value].kind.Write?, FateOf(s, e))
  }

  function View(s: P.State): seq<R.Entry> {
    seq(|s.pending|, k requires 0 <= k < |s.pending| => EntryView(s, s.pending[k]))
  }

  /** Where the walk puts an entry, by what it found. */
  function PlaceFor(fate: R.Fate): P.Place {
    match fate
    case AlreadyCanceled => P.Freed
    case ForcedCanceled => P.ToForceCancel
    case RoutineTaken => P.Orphan
    case Owned => P.ToReply
  }

  lemma OthersUntouched(s: P.State, k: nat, j: nat)
    requires Safety.Inv(s) && P.WalkEnabled(s, P.ReplyMatch(k)) && j < |s.pending| && j != k
    ensures EntryView(P.WalkStep(s, P.ReplyMatch(k)), s.pending[j]) == EntryView(s, s.pending[j])
  {
    Safety.KeepsDiscardFree(s, P.Pending, k);
    Safety.KeepsDiscardFree(s, P.Pending, j);
    MatchTouchesOne(s, k, s.pending[j]);
  }

  /** A match changes its own entry and that entry's IRP only. */
  lemma MatchTouchesOne(s: P.State, k: nat, f: nat)
    requires P.WalkEnabled(s, P.ReplyMatch(k)) && P.Resolved(s, s.pending[k]) && P.Resolved(s, f)
    requires f != s.pending[k] && s.entries[f].irp != s.entries[s.pending[k]].irp
    ensures EntryView(P.WalkStep(s, P.ReplyMatch(k)), f) == EntryView(s, f)
  {
  }

  lemma MatchEffect(s: P.State, k: nat)
    requires P.WalkEnabled(s, P.ReplyMatch(k)) && P.Resolved(s, s.pending[k])
    ensures var s' := P.WalkStep(s, P.ReplyMatch(k));
            && s'.pending == P.Without(s.pending, k)
            && s'.pendingLock == s.pendingLock
            && P.EntryAt(s', s.pending[k], PlaceFor(FateOf(s, s.pending[k])))
  {
  }

  /** One match of the walk is one action of the protocol. */
  lemma MatchIsAction(s: P.State, k: nat)
    requires Safety.Inv(s) && P.WalkEnabled(s, P.ReplyMatch(k))
    ensures var s' := P.WalkStep(s, P.ReplyMatch(k));
            && View(s') == View(s)[..k] + View(s)[k + 1..]
            && |s'.pending| == |s.pending| - 1
            && s'.pendingLock == s.pendingLock
            && P.EntryAt(s', s.pending[k], PlaceFor(View(s)[k].fate))
  {
    assert P.Resolved(s, s.pending[k]) by { Safety.KeepsDiscardFree(s, P.Pending, k); }
    MatchEffect(s, k);
    var t := P.WalkStep(s, P.ReplyMatch(k));
    forall j | 0 <= j < |s.pending| && j != k ensures EntryView(t, s.pending[j]) == EntryView(s, s.pending[j]) {
      OthersUntouched(s, k, j);
    }
    ViewWithout(s, t, k);
  }

  /** The view of a list without one entry, when the others look the same. */
  lemma ViewWithout(s: P.State, t: P.State, k: nat)
    requires k < |s.pending| && t.pending == P.Without(s.pending, k)
    requires forall j :: 0 <= j < |s.pending| && j != k ==> EntryView(t, s.pending[j]) == EntryView(s, s.pending[j])
    ensures View(t) == View(s)[..k] + View(s)[k + 1..]
  {
    forall j | 0 <= j < |t.pending| ensures View(t)[j] == (View(s)[..k] + View(s)[k + 1..])[j] {
      assert t.pending[j] == s.pending[if j < k then j else j + 1];
    }
  }

  lemma MatchLeavesEntry(s: P.State, k: nat, e: nat)
    requires P.WalkEnabled(s, P.ReplyMatch(k)) && P.Resolved(s, s.pending[k]) && e in s.entries && e != s.pending[k]
    ensures var t := P.WalkStep(s, P.ReplyMatch(k)); e in t.entries && t.entries[e] == s.entries[e]
  {
    Loss.MatchStepIs(s, P.ReplyMatch(k));
  }

  lemma MatchShrinks(s: P.State, k: nat, e: nat)
    requires Safety.Inv(s) && P.WalkEnabled(s, P.ReplyMatch(k)) && e !in s.pending && e in s.entries
    ensures var t := P.WalkStep(s, P.ReplyMatch(k)); e !in t.pending && e in t.entries && t.entries[e] == s.entries[e]
  {
    Safety.KeepsDiscardFree(s, P.Pending, k);
    MatchLeavesEntry(s, k, e);
    MatchEffect(s, k);
  }

  predicate IsReplyMatch(a: P.Action) { a.OfWalk? && a.w.ReplyMatch? }

  /** Matches leave alone what is off the list. */
  lemma {:induction false} MatchesLeave(s: P.State, run: seq<P.Action>, e: nat)
    requires Safety.Inv(s) && P.IsRun(s, run) && (forall a :: a in run ==> IsReplyMatch(a))
    requires e !in s.pending && e in s.entries
    ensures var t := P.After(s, run); e !in t.pending && e in t.entries && t.entries[e] == s.entries[e]
    decreases |run|
  {
    if run != [] {
      assert run[0] in run;
      Safety.KeepsStep(s, run[0]);
      MatchShrinks(s, run[0].w.k, e);
      MatchesLeave(P.Step(s, run[0]), run[1..], e);
    }
  }

  /** Every entry that left the list is where its state at the start sends it. */
  predicate Disposed(s: P.State, t: P.State) {
    forall e :: e in s.pending && e !in t.pending ==> P.EntryAt(t, e, PlaceFor(FateOf(s, e)))
  }

  /** The list after the rest of the pass, which stands at `pos`. */
  ghost function RestFrom(list: seq<R.Entry>, pos: nat, read: nat -> R.Info, length: nat, batching: bool,
                          offset: nat, last: nat): seq<R.Entry>
    requires pos <= |list|
  {
    R.Resume(list, pos, [], read, length, batching, offset, last).rest
  }

  lemma RestStep(list: seq<R.Entry>, pos: nat, read: nat -> R.Info, length: nat, batching: bool, offset: nat, last: nat)
    requires pos < |list|
    ensures var info, removed := read(offset), list[..pos] + list[pos + 1..];
            RestFrom(list, pos, read, length, batching, offset, last) ==
            if info.serial < last then list
            else if list[pos].serial != info.serial
              then RestFrom(list, pos + 1, read, length, batching, offset, info.serial)
            else
              var next := R.Advance(offset, list[pos], info);
              if R.StopAfter(info, next, length, batching).Some? then removed
              else RestFrom(removed, pos, read, length, batching, next, info.serial)
  {
    R.ResumeStep(list, pos, [], read, length, batching, offset, last);
  }

  /** The entries that the rest of the pass matches, of those numbered `ids` that look like `list`. */
  ghost function Takes(ids: seq<nat>, list: seq<R.Entry>, read: nat -> R.Info, length: nat, batching: bool,
                       offset: nat, last: nat): seq<nat>
    requires |ids| == |list|
  {
    if ids == [] then []
    else
      var info := read(offset);
      if info.serial < last then []
      else if list[0].serial != info.serial then Takes(ids[1..], list[1..], read, length, batching, offset, info.serial)
      else
        var next := R.Advance(offset, list[0], info);
        [ids[0]] + (if R.StopAfter(info, next, length, batching).Some? then []
                    else Takes(ids[1..], list[1..], read, length, batching, next, info.serial))
  }

  /** What the pass matches after the entry at `pos`, where the next reply is at `next`. */
  ghost function TakesNext(s: P.State, pos: nat, read: nat -> R.Info, length: nat, batching: bool, next: nat,
                           info: R.Info): seq<nat>
    requires pos < |s.pending|
  {
    if R.StopAfter(info, next, length, batching).Some? then []
    else Takes(s.pending[pos + 1..], View(s)[pos + 1..], read, length, batching, next, info.serial)
  }

  lemma {:induction false} TakesListed(ids: seq<nat>, list: seq<R.Entry>, read: nat -> R.Info, length: nat,
                                       batching: bool, offset: nat, last: nat, e: nat)
    requires |ids| == |list| && e in Takes(ids, list, read, length, batching, offset, last)
    ensures e in ids
    decreases |ids|
  {
    var info := read(offset);
    if list[0].serial != info.serial {
      TakesListed(ids[1..], list[1..], read, length, batching, offset, info.serial, e);
    } else if e != ids[0] {
      TakesListed(ids[1..], list[1..], read, length, batching, R.Advance(offset, list[0], info), info.serial, e);
    }
  }

  /** The reply that owns the lock is to match, of the entries on the list, exactly those numbered `taken`. */
  predicate IsToMatch(s: P.State, taken: seq<nat>) {
    s.pendingLock.Replying? && forall e :: e in s.pending ==> (e in s.pendingLock.todo <==> e in taken)
  }

  /** The pass stands at `pos`, and is to match what it will find from there on. */
  ghost predicate Stands(s: P.State, pos: nat, read: nat -> R.Info, length: nat, batching: bool, offset: nat,
                         last: nat)
  {
    && pos <= |s.pending|
    && IsToMatch(s, Takes(s.pending[pos..], View(s)[pos..], read, length, batching, offset, last))
  }

  lemma {:induction false} StandsStep(s: P.State, pos: nat, read: nat -> R.Info, length: nat, batching: bool,
                                      offset: nat, last: nat)
    requires Safety.NoRepeat(s.pending) && Stands(s, pos, read, length, batching, offset, last) && pos < |s.pending|
    ensures var info := read(offset);
            if info.serial < last then IsToMatch(s, [])
            else if View(s)[pos].serial != info.serial
              then Stands(s, pos + 1, read, length, batching, offset, info.serial)
            else
              var next := R.Advance(offset, View(s)[pos], info);
              IsToMatch(s, [s.pending[pos]] + TakesNext(s, pos, read, length, batching, next, info))
  {
    assert s.pending[pos..][1..] == s.pending[pos + 1..] && View(s)[pos..][1..] == View(s)[pos + 1..];
    assert s.pending[pos..][0] == s.pending[pos] && View(s)[pos..][0] == View(s)[pos];
  }

  /** The entries before `pos` are behind the pass. */
  lemma Behind(s: P.State, pos: nat, read: nat -> R.Info, length: nat, batching: bool, offset: nat, last: nat, j: nat)
    requires Safety.NoRepeat(s.pending) && Stands(s, pos, read, length, batching, offset, last) && j < pos
    ensures !P.Replies(s, s.pending[j])
  {
    var ids, list := s.pending[pos..], View(s)[pos..];
    if s.pending[j] in Takes(ids, list, read, length, batching, offset, last) {
      TakesListed(ids, list, read, length, batching, offset, last, s.pending[j]);
    }
  }

  lemma {:induction false} WalkIsRunFrom(s: P.State, pos: nat, read: nat -> R.Info, length: nat, batching: bool,
                                         offset: nat, last: nat)
    returns (run: seq<P.Action>)
    requires Safety.Inv(s) && Stands(s, pos, read, length, batching, offset, last)
    ensures P.IsRun(s, run) && (forall a :: a in run ==> IsReplyMatch(a)) && IsToMatch(P.After(s, run), [])
    ensures View(P.After(s, run)) == RestFrom(View(s), pos, read, length, batching, offset, last)
    ensures Disposed(s, P.After(s, run))
    decreases |s.pending| - pos, 2
  {
    var list, info := View(s), read(offset);
    run := [];
    if pos == |s.pending| {
      assert list[pos..] == [] && list[..pos] == list;
    } else {
      RestStep(list, pos, read, length, batching, offset, last);
      StandsStep(s, pos, read, length, batching, offset, last);
      if info.serial >= last {
        if list[pos].serial != info.serial {
          run := WalkIsRunFrom(s, pos + 1, read, length, batching, offset, info.serial);
        } else {
          forall j: nat | j < pos ensures !P.Replies(s, s.pending[j]) {
            Behind(s, pos, read, length, batching, offset, last, j);
          }
          run := TakeIsRun(s, pos, read, length, batching, offset, info);
        }
      }
    }
  }

  /** The match at `pos`, and where everybody is after it and the rest of the pass. */
  lemma {:induction false} TakeDisposes(s: P.State, pos: nat, rest: seq<P.Action>)
    requires Safety.Inv(s) && P.WalkEnabled(s, P.ReplyMatch(pos)) && P.IsRun(P.WalkStep(s, P.ReplyMatch(pos)), rest)
    requires Safety.Inv(P.WalkStep(s, P.ReplyMatch(pos))) && (forall a :: a in rest ==> IsReplyMatch(a))
    requires Disposed(P.WalkStep(s, P.ReplyMatch(pos)), P.After(P.WalkStep(s, P.ReplyMatch(pos)), rest))
    ensures Disposed(s, P.After(P.WalkStep(s, P.ReplyMatch(pos)), rest))
  {
    var u := P.WalkStep(s, P.ReplyMatch(pos));
    var t := P.After(u, rest);
    forall e | e in s.pending && e !in t.pending ensures P.EntryAt(t, e, PlaceFor(FateOf(s, e))) {
      var j :| 0 <= j < |s.pending| && s.pending[j] == e;
      EntryDisposed(s, pos, j);
      if j == pos { MatchesLeave(u, rest, e); }
    }
  }

  lemma EntryDisposed(s: P.State, pos: nat, j: nat)
    requires Safety.Inv(s) && P.WalkEnabled(s, P.ReplyMatch(pos)) && j < |s.pending|
    ensures var u, e := P.WalkStep(s, P.ReplyMatch(pos)), s.pending[j];
            if j == pos then e !in u.pending && P.EntryAt(u, e, PlaceFor(FateOf(s, e)))
            else e in u.pending && FateOf(u, e) == FateOf(s, e)
  {
    Safety.KeepsDiscardFree(s, P.Pending, pos);
    MatchEffect(s, pos);
    Safety.WithoutMembers(s.pending, pos);
    if j != pos {
      Safety.KeepsDiscardFree(s, P.Pending, j);
      OthersUntouched(s, pos, j);
    }
  }

  /** A match takes its entry off the list and leaves the rest to be matched. */
  lemma StillToMatch(s: P.State, pos: nat, taken: seq<nat>)
    requires Safety.Inv(s) && P.WalkEnabled(s, P.ReplyMatch(pos)) && IsToMatch(s, [s.pending[pos]] + taken)
    ensures IsToMatch(P.WalkStep(s, P.ReplyMatch(pos)), taken)
  {
    Safety.KeepsDiscardFree(s, P.Pending, pos);
    MatchEffect(s, pos);
    Safety.WithoutMembers(s.pending, pos);
  }

  /** After the match at `pos` the pass ends or stands at the same place of a shorter list. */
  lemma MatchGoesOn(s: P.State, pos: nat, read: nat -> R.Info, length: nat, batching: bool, offset: nat, info: R.Info)
    returns (u: P.State)
    requires Safety.Inv(s) && s.pendingLock.Replying? && pos < |s.pending|
    requires forall j :: 0 <= j < pos ==> !P.Replies(s, s.pending[j])
    requires var next := R.Advance(offset, View(s)[pos], info);
             IsToMatch(s, [s.pending[pos]] + TakesNext(s, pos, read, length, batching, next, info))
    ensures P.WalkEnabled(s, P.ReplyMatch(pos)) && u == P.WalkStep(s, P.ReplyMatch(pos)) && Safety.Inv(u)
    ensures View(u) == View(s)[..pos] + View(s)[pos + 1..] && |u.pending| == |s.pending| - 1
    ensures var next := R.Advance(offset, View(s)[pos], info);
            if R.StopAfter(info, next, length, batching).Some? then IsToMatch(u, [])
            else Stands(u, pos, read, length, batching, next, info.serial)
  {
    assert s.pending[pos] in s.pending;
    u := P.WalkStep(s, P.ReplyMatch(pos));
    Safety.KeepsWalkAction(s, P.ReplyMatch(pos));
    MatchIsAction(s, pos);
    var next := R.Advance(offset, View(s)[pos], info);
    StillToMatch(s, pos, TakesNext(s, pos, read, length, batching, next, info));
    ListWithout(s, pos);
    assert u.pending[pos..] == s.pending[pos + 1..] && View(u)[pos..] == View(s)[pos + 1..];
  }

  lemma ListWithout(s: P.State, k: nat)
    requires Safety.Inv(s) && P.WalkEnabled(s, P.ReplyMatch(k))
    ensures P.WalkStep(s, P.ReplyMatch(k)).pending == s.pending[..k] + s.pending[k + 1..]
  {
    Safety.KeepsDiscardFree(s, P.Pending, k);
    MatchEffect(s, k);
  }

  lemma {:induction false} TakeIsRun(s: P.State, pos: nat, read: nat -> R.Info, length: nat, batching: bool,
                                     offset: nat, info: R.Info)
    returns (run: seq<P.Action>)
    requires Safety.Inv(s) && s.pendingLock.Replying? && pos < |s.pending|
    requires forall j :: 0 <= j < pos ==> !P.Replies(s, s.pending[j])
    requires var next := R.Advance(offset, View(s)[pos], info);
             IsToMatch(s, [s.pending[pos]] + TakesNext(s, pos, read, length, batching, next, info))
    ensures P.IsRun(s, run) && (forall a :: a in run ==> IsReplyMatch(a)) && IsToMatch(P.After(s, run), [])
    ensures var list := View(s);
            var next, removed := R.Advance(offset, list[pos], info), list[..pos] + list[pos + 1..];
            View(P.After(s, run)) ==
            if R.StopAfter(info, next, length, batching).Some? then removed
            else RestFrom(removed, pos, read, length, batching, next, info.serial)
    ensures Disposed(s, P.After(s, run))
    decreases |s.pending| - pos, 0
  {
    var u := MatchGoesOn(s, pos, read, length, batching, offset, info);
    var rest := GoOn(u, pos, read, length, batching, R.Advance(offset, View(s)[pos], info), info);
    TakeDisposes(s, pos, rest);
    var a := P.OfWalk(P.ReplyMatch(pos));
    Safety.Cons(s, a, rest);
    run := [a] + rest;
  }

  /** After a match the pass stops or goes on. */
  lemma {:induction false} GoOn(u: P.State, pos: nat, read: nat -> R.Info, length: nat, batching: bool,
                                next: nat, info: R.Info)
    returns (rest: seq<P.Action>)
    requires Safety.Inv(u) && pos <= |u.pending|
    requires if R.StopAfter(info, next, length, batching).Some? then IsToMatch(u, [])
             else Stands(u, pos, read, length, batching, next, info.serial)
    ensures P.IsRun(u, rest) && (forall a :: a in rest ==> IsReplyMatch(a)) && Disposed(u, P.After(u, rest))
    ensures IsToMatch(P.After(u, rest), [])
    ensures View(P.After(u, rest)) == if R.StopAfter(info, next, length, batching).Some? then View(u)
                                      else RestFrom(View(u), pos, read, length, batching, next, info.serial)
    decreases |u.pending| - pos, 3
  {
    rest := [];
    if R.StopAfter(info, next, length, batching).None? {
      rest := WalkIsRunFrom(u, pos, read, length, batching, next, info.serial);
    }
  }

  /** The reply takes the lock, and what it is to match is settled. */
  lemma LockUp(s: P.State, read: nat -> R.Info, length: nat, batching: bool) returns (todo: set<nat>)
    requires Safety.Inv(s) && s.pendingLock.Free?
    ensures P.LockEnabled(s, P.ReplyLock(todo))
    ensures var u := P.LockStep(s, P.ReplyLock(todo));
            && u == s.WithLock(P.Pending, P.Replying(todo)) && Safety.Inv(u)
            && Stands(u, 0, read, length, batching, 0, 0)
  {
    var ids := Takes(s.pending, View(s), read, length, batching, 0, 0);
    forall e | e in ids ensures e in s.pending {
      TakesListed(s.pending, View(s), read, length, batching, 0, 0, e);
    }
    todo := set e | e in ids;
    Safety.KeepsLockAction(s, P.ReplyLock(todo));
    var u := P.LockStep(s, P.ReplyLock(todo));
    SameView(s, u);
    assert u.pending[0..] == s.pending && View(u)[0..] == View(s);
  }

  /** The view depends on IRPs, entries and the list. */
  lemma SameView(s: P.State, t: P.State)
    requires t.irps == s.irps && t.entries == s.entries && t.pending == s.pending
    ensures View(t) == View(s)
    ensures forall e :: FateOf(t, e) == FateOf(s, e)
  {
  }

  /** The whole first pass of DokanCompleteIrp, in any reachable state with a free lock, is a run of the protocol. */
  lemma {:induction false} WalkIsRun(s: P.State, read: nat -> R.Info, length: nat, batching: bool)
    returns (run: seq<P.Action>)
    requires Safety.Inv(s) && s.pendingLock.Free?
    ensures P.IsRun(s, run) && P.After(s, run).pendingLock.Free?
    ensures View(P.After(s, run)) == R.Walk(View(s), read, length, batching, 0, 0).rest
    ensures Disposed(s, P.After(s, run))
  {
    var todo := LockUp(s, read, length, batching);
    var u := P.LockStep(s, P.ReplyLock(todo));
    SameView(s, u);
    var walk := WalkIsRunFrom(u, 0, read, length, batching, 0, 0);
    assert View(s)[0..] == View(s);
    assert RestFrom(View(s), 0, read, length, batching, 0, 0) == R.Walk(View(s), read, length, batching, 0, 0).rest;
    UnlockDisposes(u, P.After(u, walk));
    run := Enclose(s, todo, walk);
  }

  lemma UnlockDisposes(u: P.State, t: P.State)
    requires IsToMatch(t, []) && Disposed(u, t)
    ensures P.LockEnabled(t, P.ReplyUnlock)
    ensures var v := P.LockStep(t, P.ReplyUnlock); View(v) == View(t) && Disposed(u, v) && v.pendingLock.Free?
  {
    SameView(t, P.LockStep(t, P.ReplyUnlock));
  }

  lemma {:induction false} Enclose(s: P.State, todo: set<nat>, walk: seq<P.Action>) returns (run: seq<P.Action>)
    requires P.LockEnabled(s, P.ReplyLock(todo)) && P.IsRun(P.LockStep(s, P.ReplyLock(todo)), walk)
    requires P.LockEnabled(P.After(P.LockStep(s, P.ReplyLock(todo)), walk), P.ReplyUnlock)
    ensures P.IsRun(s, run)
    ensures P.After(s, run) == P.LockStep(P.After(P.LockStep(s, P.ReplyLock(todo)), walk), P.ReplyUnlock)
  {
    var lock, unlock := P.OfLock(P.ReplyLock(todo)), P.OfLock(P.ReplyUnlock);
    var u := P.Step(s, lock);
    Safety.Cons(P.After(u, walk), unlock, []);
    assert [unlock] + [] == [unlock];
    Safety.AfterConcat(u, walk, [unlock]);
    Safety.Cons(s, lock, walk + [unlock]);
    run := [lock] + (walk + [unlock]);
  }

  // ------------------------------------------------------------------------------------------
  // The drain loop
  // ------------------------------------------------------------------------------------------

  function ViewOf(s: P.State, ids: seq<nat>): seq<R.Entry> {
    seq(|ids|, k requires 0 <= k < |ids| => EntryView(s, ids[k]))
  }

  /** Where MoveIrpList puts an entry, by what it finds. */
  function DrainPlace(fate: R.Fate, dest: P.Place): P.Place {
    if fate.Owned? || fate.ForcedCanceled? then dest
    else if fate.RoutineTaken? then P.Orphan
    else P.Freed
  }

  lemma PopEffect(s: P.State, l: P.ListId)
    requires P.WalkEnabled(s, P.DrainPop(l)) && P.Resolved(s, s.List(l)[0])
    ensures var t, e := P.WalkStep(s, P.DrainPop(l)), s.List(l)[0];
            && t.List(l) == s.List(l)[1..] && t.LockOf(l) == s.LockOf(l)
            && P.EntryAt(t, e, DrainPlace(FateOf(s, e), s.LockOf(l).dest))
  {
    assert P.Without(s.List(l), 0) == s.List(l)[1..];
  }

  lemma PopLeavesView(s: P.State, l: P.ListId, f: nat)
    requires P.WalkEnabled(s, P.DrainPop(l)) && Loss.Meets(s, P.DrainPop(l)) && P.Resolved(s, f)
    requires f != s.List(l)[0] && s.entries[f].irp != s.entries[s.List(l)[0]].irp
    ensures EntryView(P.WalkStep(s, P.DrainPop(l)), f) == EntryView(s, f)
    ensures FateOf(P.WalkStep(s, P.DrainPop(l)), f) == FateOf(s, f)
  {
    Loss.WalkFrame(s, P.DrainPop(l));
  }

  /** A pop takes the head off the list and leaves the others as they are. */
  lemma PopOne(s: P.State, l: P.ListId)
    requires Safety.Inv(s) && P.WalkEnabled(s, P.DrainPop(l))
    ensures var t, e := P.WalkStep(s, P.DrainPop(l)), s.List(l)[0];
            && Safety.Inv(t) && t.List(l) == s.List(l)[1..] && t.LockOf(l) == s.LockOf(l)
            && P.EntryAt(t, e, DrainPlace(FateOf(s, e), s.LockOf(l).dest))
            && e !in t.List(l)
            && (forall f :: f in t.List(l) ==> EntryView(t, f) == EntryView(s, f) && FateOf(t, f) == FateOf(s, f))
  {
    Safety.KeepsWalkAction(s, P.DrainPop(l));
    Loss.MatchedOk(s, P.DrainPop(l));
    PopEffect(s, l);
    var t := P.WalkStep(s, P.DrainPop(l));
    forall f | f in t.List(l) ensures EntryView(t, f) == EntryView(s, f) && FateOf(t, f) == FateOf(s, f) {
      var k :| 0 < k < |s.List(l)| && s.List(l)[k] == f;
      Safety.KeepsDiscardFree(s, l, k);
      PopLeavesView(s, l, f);
    }
  }

  lemma PopLeavesEntry(s: P.State, l: P.ListId, e: nat)
    requires Safety.Inv(s) && P.WalkEnabled(s, P.DrainPop(l)) && e in s.entries && e != s.List(l)[0]
    ensures var t := P.WalkStep(s, P.DrainPop(l)); e in t.entries && t.entries[e] == s.entries[e]
  {
    Loss.MatchedOk(s, P.DrainPop(l));
    Loss.WalkFrame(s, P.DrainPop(l));
  }

  predicate IsPop(a: P.Action, l: P.ListId) { a.OfWalk? && a.w.DrainPop? && a.w.list == l }

  lemma PopShrinks(s: P.State, a: P.Action, l: P.ListId, e: nat)
    requires Safety.Inv(s) && IsPop(a, l) && P.Enabled(s, a) && e !in s.List(l) && e in s.entries
    ensures var t := P.Step(s, a);
            Safety.Inv(t) && e !in t.List(l) && e in t.entries && t.entries[e] == s.entries[e]
  {
    assert a == P.OfWalk(P.DrainPop(l));
    PopOne(s, l);
    PopLeavesEntry(s, l, e);
  }

  /** Pops leave alone what is off the list. */
  lemma {:induction false} PopsLeave(s: P.State, l: P.ListId, run: seq<P.Action>, e: nat)
    requires Safety.Inv(s) && P.IsRun(s, run) && (forall a :: a in run ==> IsPop(a, l))
    requires e !in s.List(l) && e in s.entries
    ensures var t := P.After(s, run); e in t.entries && t.entries[e] == s.entries[e]
    decreases |run|
  {
    if run != [] {
      assert run[0] in run;
      PopShrinks(s, run[0], l, e);
      PopsLeave(P.Step(s, run[0]), l, run[1..], e);
    }
  }

  /** Every entry of the list is where its state at the start sends it. */
  predicate DrainedTo(s: P.State, ids: seq<nat>, dest: P.Place, t: P.State) {
    forall e :: e in ids ==> P.EntryAt(t, e, DrainPlace(FateOf(s, e), dest))
  }

  /** MoveIrpList, which owns the lock, is a run that empties the list and puts each entry where its state sends it. */
  lemma {:induction false} DrainIsRun(s: P.State, l: P.ListId) returns (run: seq<P.Action>)
    requires Safety.Inv(s) && s.LockOf(l).Draining?
    ensures P.IsRun(s, run) && (forall a :: a in run ==> IsPop(a, l))
    ensures P.After(s, run).List(l) == []
    ensures DrainedTo(s, s.List(l), s.LockOf(l).dest, P.After(s, run))
    decreases |s.List(l)|
  {
    run := [];
    if s.List(l) != [] {
      PopOne(s, l);
      var u := P.WalkStep(s, P.DrainPop(l));
      var rest := DrainIsRun(u, l);
      HeadDrained(s, l, rest);
      Safety.Cons(s, P.OfWalk(P.DrainPop(l)), rest);
      run := [P.OfWalk(P.DrainPop(l))] + rest;
    }
  }

  lemma {:induction false} HeadDrained(s: P.State, l: P.ListId, rest: seq<P.Action>)
    requires Safety.Inv(s) && P.WalkEnabled(s, P.DrainPop(l))
    requires var u := P.WalkStep(s, P.DrainPop(l));
             && P.IsRun(u, rest) && (forall a :: a in rest ==> IsPop(a, l))
             && DrainedTo(u, u.List(l), s.LockOf(l).dest, P.After(u, rest))
    ensures DrainedTo(s, s.List(l), s.LockOf(l).dest, P.After(P.WalkStep(s, P.DrainPop(l)), rest))
  {
    var u := P.WalkStep(s, P.DrainPop(l));
    PopOne(s, l);
    PopsLeave(u, l, rest, s.List(l)[0]);
    DrainedCons(s, l, u, P.After(u, rest));
  }

  lemma DrainedCons(s: P.State, l: P.ListId, u: P.State, t: P.State)
    requires s.List(l) != [] && u.List(l) == s.List(l)[1..] && s.LockOf(l).Draining?
    requires P.EntryAt(t, s.List(l)[0], DrainPlace(FateOf(s, s.List(l)[0]), s.LockOf(l).dest))
    requires DrainedTo(u, u.List(l), s.LockOf(l).dest, t)
    requires forall f :: f in u.List(l) ==> FateOf(u, f) == FateOf(s, f)
    ensures DrainedTo(s, s.List(l), s.LockOf(l).dest, t)
  {
    assert forall e :: e in s.List(l) ==> e == s.List(l)[0] || e in u.List(l);
  }

  function AtPlace(ids: seq<nat>, dest: P.Place, t: P.State): seq<nat> {
    if ids == [] then []
    else (if P.EntryAt(t, ids[0], dest) then [ids[0]] else []) + AtPlace(ids[1..], dest, t)
  }

  /** The entries that `MoveTo` forwards are the ones that such a run moves to the destination, in the same order. */
  lemma {:induction false} ForwardedAreMoved(s: P.State, ids: seq<nat>, dest: P.Place, t: P.State)
    requires Safety.IsLocal(dest) && DrainedTo(s, ids, dest, t)
    ensures R.Forwarded(ViewOf(s, ids)) == ViewOf(s, AtPlace(ids, dest, t))
    decreases |ids|
  {
    if ids != [] {
      assert ids[0] in ids && P.EntryAt(t, ids[0], DrainPlace(FateOf(s, ids[0]), dest));
      assert ViewOf(s, ids)[0] == EntryView(s, ids[0]) && ViewOf(s, ids)[1..] == ViewOf(s, ids[1..]);
      ForwardedAreMoved(s, ids[1..], dest, t);
      var first := if P.EntryAt(t, ids[0], dest) then [ids[0]] else [];
      assert ViewOf(s, first + AtPlace(ids[1..], dest, t)) == ViewOf(s, first) + ViewOf(s, AtPlace(ids[1..], dest, t));
      assert ViewOf(s, [ids[0]]) == [EntryView(s, ids[0])];
    }
  }

  // ------------------------------------------------------------------------------------------
  // Reachable states
  // ------------------------------------------------------------------------------------------

  /** Every reachable pending list is sorted, and each of its entries still has its IRP. */
  lemma {:induction false} ReachableListsAreSorted(run: seq<P.Action>)
    requires P.IsRun(P.INIT, run)
    ensures var list := View(P.After(P.INIT, run));
            R.AscendingList(list) && forall k :: 0 <= k < |list| ==> !list[k].fate.AlreadyCanceled?
  {
    Safety.SerialsAscend(run);
    var s := P.After(P.INIT, run);
    var serials := Safety.Serials(s.entries, s.pending);
    forall k | 0 <= k < |s.pending| ensures View(s)[k].serial == serials[k] && !View(s)[k].fate.AlreadyCanceled? {
      assert s.pending[k] in s.pending;
      Safety.ListedEntriesHaveIrps(run, P.Pending, k);
    }
  }

  /** In every reachable state a sorted batch is matched up to the first reply that is no longer pending. */
  lemma {:induction false} ReachableBatchMatch(run: seq<P.Action>, batch: seq<R.Info>, sizes: seq<nat>,
                                               read: nat -> R.Info, length: nat)
    requires P.IsRun(P.INIT, run) && batch != [] && R.AscendingBatch(batch)
    requires R.SizesAgree(batch, sizes, View(P.After(P.INIT, run)))
    requires R.PackedAt(batch, sizes, read, length, 0) && length < U32_RANGE
    ensures var list := View(P.After(P.INIT, run));
            R.BatchOutcome(R.Walk(list, read, length, true, 0, 0), batch, list)
  {
    ReachableListsAreSorted(run);
    R.BatchMatchesPendingPrefix(batch, sizes, View(P.After(P.INIT, run)), read, length);
  }

  /**
    In every reachable state, for a buffer of at least one reply and none with serial number 0: each completed
    IRP gets its own reply exactly when no matched entry was diverted before one that is completed.
  */
  lemma {:induction false} ReachablePairing(run: seq<P.Action>, read: nat -> R.Info, length: nat, batching: bool)
    requires P.IsRun(P.INIT, run) && SIZEOF_EVENT_INFORMATION <= length && R.NoZeroReply(read, length)
    ensures var matches := R.Walk(View(P.After(P.INIT, run)), read, length, batching, 0, 0).matches;
            var complete := R.WithFate(matches, R.Owned);
            R.AllPaired(complete, R.Deal(complete, read, length, 0)) <==> R.NoDetour(matches)
  {
    ReachableListsAreSorted(run);
    R.PairingIsExact(View(P.After(P.INIT, run)), read, length, batching);
  }

  /** For a sorted batch, the condition is one on the list and the batch. */
  lemma {:induction false} ReachableBatchPairing(run: seq<P.Action>, batch: seq<R.Info>, sizes: seq<nat>,
                                                 read: nat -> R.Info, length: nat)
    requires P.IsRun(P.INIT, run) && batch != [] && R.AscendingBatch(batch)
    requires R.SizesAgree(batch, sizes, View(P.After(P.INIT, run)))
    requires R.PackedAt(batch, sizes, read, length, 0) && SIZEOF_EVENT_INFORMATION <= length < U32_RANGE
    ensures var list := View(P.After(P.INIT, run));
            var complete := R.WithFate(R.Walk(list, read, length, true, 0, 0).matches, R.Owned);
            R.AllPaired(complete, R.Deal(complete, read, length, 0)) <==>
            R.NoDiversion(R.Picked(list, R.BatchSerials(batch)[..R.PendingPrefix(batch, list)]))
  {
    ReachableListsAreSorted(run);
    R.BatchPairing(batch, sizes, View(P.After(P.INIT, run)), read, length);
  }

  /**
    In every reachable state, for a sorted batch, as the bytes that were sent: if no matched entry was diverted before
    one that is completed, each completed IRP is given the very bytes that were sent for it.
  */
  lemma {:induction false} ReachableReplies(run: seq<P.Action>, rs: seq<W.Reply>)
    requires P.IsRun(P.INIT, run) && W.AllSendable(rs) && rs != [] && W.Sorted(rs) && |W.SentBatch(rs)| < U32_RANGE
    requires W.ForTheirIrps(rs, View(P.After(P.INIT, run)))
    requires var list, buffer := View(P.After(P.INIT, run)), W.SentBatch(rs);
             R.NoDetour(R.Walk(list, W.InfoAt(buffer), |buffer|, true, 0, 0).matches)
    ensures var list, buffer := View(P.After(P.INIT, run)), W.SentBatch(rs);
            var complete := R.WithFate(R.Walk(list, W.InfoAt(buffer), |buffer|, true, 0, 0).matches, R.Owned);
            var offsets := R.DealOffsets(complete, W.InfoAt(buffer), |buffer|, 0);
            && |offsets| == |complete|
            && forall j :: 0 <= j < |complete| ==>
                 offsets[j].Some? && W.OwnReplyAt(buffer, offsets[j].value, rs, complete[j])
  {
    ReachableListsAreSorted(run);
    W.EachIrpGetsItsReply(rs, View(P.After(P.INIT, run)));
  }
}
