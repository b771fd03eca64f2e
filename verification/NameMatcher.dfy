/**
  DokanIsNameInExpression (dokan/directory.c): does a file name match an expression with wildcards?
  Section 2.1.4.4 of MS-FSA describes the language. The strings are terminated by NUL; a read behind
  the terminator is an outcome of its own.
*/
module NameMatcher {
  import opened Bytes

  const STAR: Wchar := 0x2A      // *
  const QUESTION: Wchar := 0x3F  // ?
  const DOS_STAR: Wchar := 0x3C  // <
  const DOS_QM: Wchar := 0x3E    // >
  const DOS_DOT: Wchar := 0x22   // "
  const DOT: Wchar := 0x2E
  const NUL: Wchar := 0

  datatype Outcome = Yes | No | Overrun

  /** How characters are compared: `upper` is towupper. */
  datatype Case = Case(ignore: bool, upper: Wchar -> Wchar)

  predicate Same(c: Case, a: Wchar, b: Wchar) { if c.ignore then c.upper(a) == c.upper(b) else a == b }

  /** Only NUL has the upper case of NUL. */
  predicate Proper(c: Case) { forall a :: Same(c, a, NUL) ==> a == NUL }

  predicate IsString(s: seq<Wchar>) { NUL !in s }

  /** The character at `i`, which is the terminator at the end. */
  function CharAt(s: seq<Wchar>, i: nat): Wchar
    requires i <= |s|
  {
    if i == |s| then NUL else s[i]
  }

  // ------------------------------------------------------------------------------------------
  // What the code does
  // ------------------------------------------------------------------------------------------

  /** The last dot from `i` on, or 0 if there is none. */
  function LastDot(n: seq<Wchar>, i: nat): (r: nat)
    requires i <= |n|
    ensures r <= |n|
    decreases |n| - i
  {
    if i == |n| then 0
    else
      var later := LastDot(n, i + 1);
      if later > 0 then later else if n[i] == DOT then i else 0
  }

  predicate HasDot(n: seq<Wchar>, i: nat)
    requires i <= |n|
  {
    exists k :: i <= k < |n| && n[k] == DOT
  }

  /** Tries `e` at the positions from `k` up to `stop`, until one attempt does not fail. */
  function Try(c: Case, e: seq<Wchar>, n: seq<Wchar>, k: nat, stop: nat): Outcome
    requires k <= stop <= |n|
    decreases |e|, stop - k + 1, 0
  {
    if k == stop then No
    else
      var r := Run(c, e, n[k..], 0, 0);
      if r != No then r else Try(c, e, n, k + 1, stop)
  }

  /** Where the loop for DOS_STAR ends. */
  function DosStop(n: seq<Wchar>, ni: nat): (s: nat)
    requires ni <= |n|
    ensures ni <= s <= |n|
  {
    var lastDot := LastDot(n, ni);
    if ni <= lastDot then lastDot else |n|
  }

  /** The position in the name after a DOS_QM. */
  function AfterDosQm(n: seq<Wchar>, ni: nat): nat
    requires ni <= |n|
  {
    if CharAt(n, ni) != DOT then ni + 1
    else if HasDot(n, ni + 1) then ni + 1
    else ni
  }

  /** The outer loop from the positions `ei` and `ni` on. */
  function Run(c: Case, e: seq<Wchar>, n: seq<Wchar>, ei: nat, ni: nat): Outcome
    requires ei <= |e|
    decreases |e| - ei, 0, 1
  {
    if ei == |e| then (if ni == |n| then Yes else No)
    else if e[ei] == STAR then
      if ei + 1 == |e| then Yes
      else if ni > |n| then Overrun
      else
        var r := Try(c, e[ei + 1..], n, ni, |n|);
        if r != No then r else Run(c, e, n, ei + 1, |n|)
    else if e[ei] == QUESTION then Run(c, e, n, ei + 1, ni + 1)
    else if ni > |n| then Overrun
    else if e[ei] == DOS_STAR then
      var r := Try(c, e[ei + 1..], n, ni, DosStop(n, ni));
      if r != No then r else Run(c, e, n, ei + 1, DosStop(n, ni))
    else if e[ei] == DOS_QM then Run(c, e, n, ei + 1, AfterDosQm(n, ni))
    else if e[ei] == DOS_DOT then Run(c, e, n, ei + 1, if CharAt(n, ni) == DOT then ni + 1 else ni)
    else if Same(c, e[ei], CharAt(n, ni)) then Run(c, e, n, ei + 1, ni + 1)
    else No
  }

  // ------------------------------------------------------------------------------------------
  // The code
  // ------------------------------------------------------------------------------------------

  method ScanLastDot(n: seq<Wchar>, ni: nat) returns (lastDot: nat)
    requires ni <= |n| && IsString(n)
    ensures lastDot == LastDot(n, ni)
  {
    var p := ni;
    lastDot := 0;
    while CharAt(n, p) != NUL
      invariant ni <= p <= |n|
      invariant LastDot(n, ni) == if LastDot(n, p) > 0 then LastDot(n, p) else lastDot
      decreases |n| - p
    {
      if n[p] == DOT { lastDot := p; }
      p := p + 1;
    }
  }

  method ScanDot(n: seq<Wchar>, start: nat) returns (found: bool)
    requires start <= |n| && IsString(n)
    ensures found == HasDot(n, start)
  {
    var p := start;
    while CharAt(n, p) != NUL && CharAt(n, p) != DOT
      invariant start <= p <= |n|
      invariant forall k :: start <= k < p ==> n[k] != DOT
      decreases |n| - p
    {
      p := p + 1;
    }
    assert p < |n| ==> n[p] in n;
    found := CharAt(n, p) == DOT;
  }

  lemma SuffixIsString(s: seq<Wchar>, k: nat)
    requires k <= |s| && IsString(s)
    ensures IsString(s[k..])
  {
  }

  /** The loops for `*` and DOS_STAR: attempts from `ni` up to `stop`. */
  method Attempts(c: Case, e: seq<Wchar>, n: seq<Wchar>, ni: nat, stop: nat) returns (r: Outcome)
    requires ni <= stop <= |n| && IsString(e) && IsString(n)
    ensures r == Try(c, e, n, ni, stop)
    decreases |e|, 1
  {
    var k := ni;
    while k != stop
      invariant ni <= k <= stop && Try(c, e, n, ni, stop) == Try(c, e, n, k, stop)
    {
      SuffixIsString(n, k);
      r := DokanIsNameInExpression(c, e, n[k..]);
      if r != No { return; }
      k := k + 1;
    }
    r := No;
  }

  method DokanIsNameInExpression(c: Case, e: seq<Wchar>, n: seq<Wchar>) returns (r: Outcome)
    requires IsString(e) && IsString(n)
    ensures r == Run(c, e, n, 0, 0)
    decreases |e|, 0
  {
    var ei: nat, ni: nat := 0, 0;
    while ei < |e|
      invariant ei <= |e| && Run(c, e, n, 0, 0) == Run(c, e, n, ei, ni)
    {
      if e[ei] == STAR {
        ei := ei + 1;
        if ei == |e| { return Yes; }
        if ni > |n| { return Overrun; }
        SuffixIsString(e, ei);
        r := Attempts(c, e[ei..], n, ni, |n|);
        if r != No { return; }
        ni := |n|;
      } else if e[ei] == QUESTION {
        ei, ni := ei + 1, ni + 1;
      } else if ni > |n| {
        return Overrun;
      } else if e[ei] == DOS_STAR {
        var lastDot := ScanLastDot(n, ni);
        var stop := if ni <= lastDot then lastDot else |n|;
        ei := ei + 1;
        SuffixIsString(e, ei);
        r := Attempts(c, e[ei..], n, ni, stop);
        if r != No { return; }
        ni := stop;
      } else if e[ei] == DOS_QM {
        ei := ei + 1;
        if CharAt(n, ni) != DOT {
          ni := ni + 1;
        } else {
          var found := ScanDot(n, ni + 1);
          if found { ni := ni + 1; }
        }
      } else if e[ei] == DOS_DOT {
        ei := ei + 1;
        if CharAt(n, ni) == DOT { ni := ni + 1; }
      } else if Same(c, e[ei], CharAt(n, ni)) {
        ei, ni := ei + 1, ni + 1;
      } else {
        return No;
      }
    }
    r := if ei == |e| && ni == |n| then Yes else No;
  }

  // ------------------------------------------------------------------------------------------
  // The language of literals, `*` and `?`
  // ------------------------------------------------------------------------------------------

  /** A star stands for any part of the name, a question mark for one character. */
  ghost predicate Glob(c: Case, e: seq<Wchar>, n: seq<Wchar>) {
    if e == [] then n == []
    else if e[0] == STAR then exists k :: 0 <= k <= |n| && Glob(c, e[1..], n[k..])
    else n != [] && (e[0] == QUESTION || Same(c, e[0], n[0])) && Glob(c, e[1..], n[1..])
  }

  /** No DOS wildcards. */
  predicate Simple(e: seq<Wchar>) {
    forall k :: 0 <= k < |e| ==> e[k] !in {DOS_STAR, DOS_QM, DOS_DOT, NUL}
  }

  predicate AllQuestions(e: seq<Wchar>) { forall k :: 0 <= k < |e| ==> e[k] == QUESTION }

  /** Behind a question mark come only question marks. */
  predicate QuestionsLast(e: seq<Wchar>) {
    e != [] ==> if e[0] == QUESTION then AllQuestions(e) else QuestionsLast(e[1..])
  }

  /** Question marks only compare lengths. */
  lemma {:induction false} RunQuestions(c: Case, e: seq<Wchar>, n: seq<Wchar>, ei: nat, ni: nat)
    requires ei <= |e| && AllQuestions(e[ei..])
    ensures Run(c, e, n, ei, ni) == (if ni + (|e| - ei) == |n| then Yes else No)
    ensures ni <= |n| ==> (Glob(c, e[ei..], n[ni..]) <==> ni + (|e| - ei) == |n|)
    decreases |e| - ei
  {
    if ei < |e| {
      assert e[ei..][0] == QUESTION && e[ei..][1..] == e[ei + 1..];
      RunQuestions(c, e, n, ei + 1, ni + 1);
      if ni < |n| { assert n[ni..][1..] == n[ni + 1..]; }
    }
  }

  lemma {:induction false} TryIsGlob(c: Case, e: seq<Wchar>, n: seq<Wchar>, k: nat)
    requires Simple(e) && QuestionsLast(e) && Proper(c) && IsString(n) && k <= |n|
    ensures Try(c, e, n, k, |n|) == if exists j :: k <= j < |n| && Glob(c, e, n[j..]) then Yes else No
    decreases |e|, |n| - k + 1, 0
  {
    if k < |n| {
      SuffixIsString(n, k);
      assert e[0..] == e && n[k..][0..] == n[k..];
      RunIsGlob(c, e, n[k..], 0, 0);
      TryIsGlob(c, e, n, k + 1);
    }
  }

  lemma {:induction false} AnySuffix(c: Case, e: seq<Wchar>, n: seq<Wchar>, ni: nat)
    requires ni <= |n|
    ensures (exists k :: 0 <= k <= |n[ni..]| && Glob(c, e, n[ni..][k..]))
       <==> (exists j :: ni <= j < |n| && Glob(c, e, n[j..])) || Glob(c, e, [])
  {
    var m := n[ni..];
    forall k | 0 <= k <= |m| ensures m[k..] == n[ni + k..] { }
    assert n[|n|..] == [] && m[|m|..] == [];
    if j :| ni <= j < |n| && Glob(c, e, n[j..]) { assert m[j - ni..] == n[j..]; }
  }

  /** The matcher stays inside the name and accepts exactly the language. */
  lemma {:induction false} RunIsGlob(c: Case, e: seq<Wchar>, n: seq<Wchar>, ei: nat, ni: nat)
    requires Simple(e) && Proper(c) && IsString(n) && ei <= |e| && ni <= |n| && QuestionsLast(e[ei..])
    ensures Run(c, e, n, ei, ni) == (if Glob(c, e[ei..], n[ni..]) then Yes else No)
    decreases |e| - ei, 0, 1
  {
    var rest, m := e[ei..], n[ni..];
    if ei < |e| {
      assert rest[0] == e[ei] && rest[1..] == e[ei + 1..];
      if e[ei] == STAR {
        StarIsGlob(c, e, n, ei, ni);
      } else if e[ei] == QUESTION {
        RunQuestions(c, e, n, ei, ni);
      } else if ni < |n| {
        assert m[0] == n[ni] && m[1..] == n[ni + 1..];
        RunIsGlob(c, e, n, ei + 1, ni + 1);
      }
    }
  }

  /** A star: an attempt at some position, or the fall through to the end of the name. */
  lemma {:induction false} StarIsGlob(c: Case, e: seq<Wchar>, n: seq<Wchar>, ei: nat, ni: nat)
    requires Simple(e) && Proper(c) && IsString(n) && ei < |e| && ni <= |n| && e[ei] == STAR
             && QuestionsLast(e[ei + 1..])
    ensures Run(c, e, n, ei, ni) == (if Glob(c, e[ei..], n[ni..]) then Yes else No)
    decreases |e| - ei, 0, 0
  {
    var rest := e[ei + 1..];
    assert e[ei..][1..] == rest;
    AnySuffix(c, rest, n, ni);
    if ei + 1 == |e| {
      assert Glob(c, rest, []);
    } else {
      TryIsGlob(c, rest, n, ni);
      RunIsGlob(c, e, n, ei + 1, |n|);
      assert n[|n|..] == [];
    }
  }

  // ------------------------------------------------------------------------------------------
  // Where question marks go wrong
  // ------------------------------------------------------------------------------------------

  /** A position behind the terminator is not noticed until something looks at the name. */
  lemma {:induction false} BeyondTheEnd(c: Case, e: seq<Wchar>, n: seq<Wchar>, ei: nat, ni: nat)
    requires Simple(e) && ei <= |e| && ni > |n| && !AllQuestions(e[ei..])
    ensures Run(c, e, n, ei, ni) != No
    decreases |e| - ei
  {
    if e[ei] == QUESTION {
      assert forall k :: 0 < k < |e[ei..]| ==> e[ei..][k] == e[ei + 1..][k - 1];
      BeyondTheEnd(c, e, n, ei + 1, ni + 1);
    }
  }

  /** The literals in front of the first question mark: a name that is too short for the expression. */
  function Lead(e: seq<Wchar>): seq<Wchar> {
    if e == [] || e[0] == QUESTION then []
    else if e[0] == STAR then Lead(e[1..])
    else [e[0]] + Lead(e[1..])
  }

  lemma {:induction false} LeadIsNotRefused(c: Case, e: seq<Wchar>, n: seq<Wchar>, ei: nat, ni: nat)
    requires Simple(e) && ei <= |e| && ni <= |n| && n[ni..] == Lead(e[ei..]) && !QuestionsLast(e[ei..])
    ensures Run(c, e, n, ei, ni) != No
    decreases |e| - ei
  {
    var rest := e[ei..];
    assert rest[0] == e[ei] && rest[1..] == e[ei + 1..];
    if e[ei] == QUESTION {
      assert !AllQuestions(rest[1..]) by { assert forall k :: 0 < k < |rest| ==> rest[k] == rest[1..][k - 1]; }
      BeyondTheEnd(c, e, n, ei + 1, ni + 1);
    } else if e[ei] == STAR {
      if ni < |n| {
        assert e[ei + 1..][0..] == e[ei + 1..] && n[ni..][0..] == n[ni..];
        LeadIsNotRefused(c, e[ei + 1..], n[ni..], 0, 0);
      } else {
        assert n[|n|..] == n[ni..];
        LeadIsNotRefused(c, e, n, ei + 1, |n|);
      }
    } else {
      assert n[ni..][0] == e[ei] && n[ni..][1..] == n[ni + 1..];
      LeadIsNotRefused(c, e, n, ei + 1, ni + 1);
    }
  }

  /** A name in the language has a character for everything but stars. */
  function NonStars(e: seq<Wchar>): nat {
    if e == [] then 0 else (if e[0] == STAR then 0 else 1) + NonStars(e[1..])
  }

  lemma {:induction false} GlobLength(c: Case, e: seq<Wchar>, n: seq<Wchar>)
    requires Glob(c, e, n)
    ensures |n| >= NonStars(e)
    decreases |e|
  {
    if e != [] {
      if e[0] == STAR {
        var k :| 0 <= k <= |n| && Glob(c, e[1..], n[k..]);
        GlobLength(c, e[1..], n[k..]);
      } else {
        GlobLength(c, e[1..], n[1..]);
      }
    }
  }

  lemma {:induction false} LeadIsShort(e: seq<Wchar>)
    requires !QuestionsLast(e)
    ensures |Lead(e)| < NonStars(e)
  {
    if e[0] != QUESTION { LeadIsShort(e[1..]); }
  }

  lemma {:induction false} LeadIsString(e: seq<Wchar>)
    requires Simple(e)
    ensures IsString(Lead(e))
  {
    if e != [] && e[0] != QUESTION { LeadIsString(e[1..]); }
  }

  /**
    On expressions of literals, `*` and `?` the matcher is right about every name exactly when no
    question mark has anything but question marks behind it; without question marks it always is.
  */
  lemma {:induction false} ExactIffQuestionsLast(c: Case, e: seq<Wchar>)
    requires Simple(e) && Proper(c)
    ensures QuestionsLast(e) <==> forall n :: IsString(n) ==> Run(c, e, n, 0, 0) == if Glob(c, e, n) then Yes else No
  {
    assert e[0..] == e;
    if QuestionsLast(e) {
      forall n | IsString(n) ensures Run(c, e, n, 0, 0) == if Glob(c, e, n) then Yes else No {
        assert n[0..] == n;
        RunIsGlob(c, e, n, 0, 0);
      }
    } else {
      var n := Lead(e);
      assert n[0..] == n;
      LeadIsString(e);
      LeadIsNotRefused(c, e, n, 0, 0);
      LeadIsShort(e);
      if Glob(c, e, n) { GlobLength(c, e, n); }
      assert Run(c, e, n, 0, 0) != if Glob(c, e, n) then Yes else No;
    }
  }

  /** Two names that differ at most in case, or not at all when case matters. */
  predicate SameName(c: Case, e: seq<Wchar>, n: seq<Wchar>) {
    if c.ignore then |e| == |n| && forall k :: 0 <= k < |e| ==> c.upper(e[k]) == c.upper(n[k])
    else e == n
  }

  lemma {:induction false} LiteralGlob(c: Case, e: seq<Wchar>, n: seq<Wchar>)
    requires QUESTION !in e && STAR !in e
    ensures Glob(c, e, n) <==> SameName(c, e, n)
  {
    if e != [] && n != [] {
      LiteralGlob(c, e[1..], n[1..]);
      assert e == [e[0]] + e[1..] && n == [n[0]] + n[1..];
    }
  }

  /** An expression without wildcards accepts exactly its own name. */
  lemma {:induction false} LiteralsMatchThemselves(c: Case, e: seq<Wchar>, n: seq<Wchar>)
    requires Simple(e) && QUESTION !in e && STAR !in e && Proper(c) && IsString(n)
    ensures Run(c, e, n, 0, 0) == if SameName(c, e, n) then Yes else No
  {
    LiteralsAndStars(c, e, n);
    LiteralGlob(c, e, n);
  }

  /** Literals and stars alone: always exact. */
  lemma {:induction false} LiteralsAndStars(c: Case, e: seq<Wchar>, n: seq<Wchar>)
    requires Simple(e) && QUESTION !in e && Proper(c) && IsString(n)
    ensures Run(c, e, n, 0, 0) == if Glob(c, e, n) then Yes else No
  {
    NoQuestions(e);
    assert e[0..] == e && n[0..] == n;
    RunIsGlob(c, e, n, 0, 0);
  }

  lemma {:induction false} NoQuestions(e: seq<Wchar>)
    requires QUESTION !in e
    ensures QuestionsLast(e)
  {
    if e != [] { NoQuestions(e[1..]); }
  }

  /** An accepted name that is too short, and an expression that looks behind the name. */
  lemma {:induction false} QuestionBeforeStar(c: Case, a: Wchar)
    requires a !in {QUESTION, STAR, DOS_STAR, DOS_QM, DOS_DOT, NUL}
    ensures Run(c, [a, QUESTION, STAR], [a], 0, 0) == Yes && !Glob(c, [a, QUESTION, STAR], [a])
    ensures Run(c, [a, QUESTION, a], [a], 0, 0) == Overrun
  {
    var e, f := [a, QUESTION, STAR], [a, QUESTION, a];
    assert Run(c, e, [a], 2, 2) == Yes && Run(c, e, [a], 1, 1) == Yes;
    assert Run(c, f, [a], 2, 2) == Overrun && Run(c, f, [a], 1, 1) == Overrun;
    assert e[1..] == [QUESTION, STAR] && [a][1..] == [];
  }

  // ------------------------------------------------------------------------------------------
  // DOS wildcards
  // ------------------------------------------------------------------------------------------

  /** No `?`, and DOS_QM at most at the end. */
  predicate Steady(e: seq<Wchar>) {
    QUESTION !in e && NUL !in e && forall k :: 0 <= k < |e| - 1 ==> e[k] != DOS_QM
  }

  lemma {:induction false} TryStaysInside(c: Case, e: seq<Wchar>, n: seq<Wchar>, k: nat, stop: nat)
    requires Steady(e) && Proper(c) && k <= stop <= |n|
    ensures Try(c, e, n, k, stop) != Overrun
    decreases |e|, stop - k + 1, 0
  {
    if k < stop {
      StaysInside(c, e, n[k..], 0, 0);
      TryStaysInside(c, e, n, k + 1, stop);
    }
  }

  /** Without `?`, and with DOS_QM at most at the end, the matcher never leaves the name. */
  lemma {:induction false} StaysInside(c: Case, e: seq<Wchar>, n: seq<Wchar>, ei: nat, ni: nat)
    requires Steady(e) && Proper(c) && ei <= |e| && ni <= |n|
    ensures Run(c, e, n, ei, ni) != Overrun
    decreases |e| - ei, 0, 1
  {
    if ei < |e| {
      assert e[ei] in e;
      if e[ei] == STAR {
        if ei + 1 < |e| {
          TryStaysInside(c, e[ei + 1..], n, ni, |n|);
          StaysInside(c, e, n, ei + 1, |n|);
        }
      } else if e[ei] == DOS_STAR {
        TryStaysInside(c, e[ei + 1..], n, ni, DosStop(n, ni));
        StaysInside(c, e, n, ei + 1, DosStop(n, ni));
      } else {
        StaysInside(c, e, n, ei + 1, ni);
        if ni < |n| { StaysInside(c, e, n, ei + 1, ni + 1); }
      }
    }
  }

  // ------------------------------------------------------------------------------------------
  // The language of literals, `*` and the DOS wildcards
  // ------------------------------------------------------------------------------------------

  /** How far DOS_STAR goes: to the last dot; without a dot to the end, but not from the start of the name. */
  function DosLimit(n: seq<Wchar>, atStart: bool): (r: nat)
    ensures r <= |n|
  {
    if n == [] then 0
    else if n[|n| - 1] == DOT then |n| - 1
    else if HasDot(n, 0) then DosLimit(n[..|n| - 1], atStart)
    else if atStart then 0
    else |n|
  }

  /**
    The language that the code accepts without question marks. A star or DOS_STAR stands for a part of the name, the
    latter for one that ends before the last dot; DOS_DOT stands for a dot, if there is one; DOS_QM for one
    character, but not for the last dot. What follows a star is matched against the rest of the name as if it were a
    whole name.
  */
  ghost predicate DosGlob(c: Case, e: seq<Wchar>, n: seq<Wchar>, atStart: bool) {
    if e == [] then n == []
    else if e[0] == STAR then
      || e == [STAR]
      || (exists k :: 0 <= k < |n| && DosGlob(c, e[1..], n[k..], true))
      || DosGlob(c, e[1..], [], atStart && n == [])
    else if e[0] == DOS_STAR then
      var limit := DosLimit(n, atStart);
      || (exists k :: 0 <= k < limit && DosGlob(c, e[1..], n[k..], true))
      || DosGlob(c, e[1..], n[limit..], atStart && limit == 0)
    else if e[0] == DOS_DOT then
      if n != [] && n[0] == DOT then DosGlob(c, e[1..], n[1..], false) else DosGlob(c, e[1..], n, atStart)
    else if e[0] == DOS_QM then
      n != [] && if n[0] == DOT && DOT !in n[1..] then DosGlob(c, e[1..], n, atStart)
                 else DosGlob(c, e[1..], n[1..], false)
    else n != [] && Same(c, e[0], n[0]) && DosGlob(c, e[1..], n[1..], false)
  }

  lemma {:induction false} NoLastDot(n: seq<Wchar>, i: nat)
    requires i <= |n| && !HasDot(n, i)
    ensures LastDot(n, i) == 0
    decreases |n| - i
  {
    if i < |n| { NoLastDot(n, i + 1); }
  }

  /** The scan finds the last dot, wherever it starts before it. */
  lemma {:induction false} LastDotAt(n: seq<Wchar>, i: nat, d: nat)
    requires i <= d < |n| && n[d] == DOT && !HasDot(n, d + 1)
    ensures LastDot(n, i) == d
    decreases |n| - i
  {
    if i < d { LastDotAt(n, i + 1, d); } else { NoLastDot(n, d + 1); }
  }

  lemma PrefixDots(n: seq<Wchar>, k: nat)
    requires k < |n| && HasDot(n[..|n| - 1], k)
    ensures HasDot(n, k)
  {
    var j :| k <= j < |n| - 1 && n[..|n| - 1][j] == DOT;
    assert n[j] == DOT;
  }

  lemma SuffixDots(n: seq<Wchar>, i: nat, k: nat)
    requires i + k <= |n|
    ensures HasDot(n[i..], k) <==> HasDot(n, i + k)
  {
    if j :| i + k <= j < |n| && n[j] == DOT { assert n[i..][j - i] == DOT; }
    if j :| k <= j < |n[i..]| && n[i..][j] == DOT { assert n[i + j] == DOT; }
  }

  lemma {:induction false} DosLimitAt(n: seq<Wchar>, d: nat, atStart: bool)
    requires d < |n| && n[d] == DOT && !HasDot(n, d + 1)
    ensures DosLimit(n, atStart) == d
    decreases |n|
  {
    var m := n[..|n| - 1];
    if d < |n| - 1 {
      assert n[|n| - 1] != DOT;
      if HasDot(m, d + 1) { PrefixDots(n, d + 1); }
      DosLimitAt(m, d, atStart);
    }
  }

  lemma {:induction false} FindLastDot(n: seq<Wchar>, i: nat) returns (d: nat)
    requires i <= |n| && HasDot(n, i)
    ensures i <= d < |n| && n[d] == DOT && !HasDot(n, d + 1)
    decreases |n| - i
  {
    if HasDot(n, i + 1) { d := FindLastDot(n, i + 1); } else { d := i; }
  }

  lemma {:induction false} NoDotLimit(n: seq<Wchar>, atStart: bool)
    requires !HasDot(n, 0)
    ensures DosLimit(n, atStart) == if atStart then 0 else |n|
  {
  }

  /** The end of the loop for DOS_STAR. */
  lemma DosStopIs(n: seq<Wchar>, ni: nat)
    requires ni <= |n|
    ensures DosStop(n, ni) == ni + DosLimit(n[ni..], ni == 0)
  {
    var m := n[ni..];
    if HasDot(n, ni) {
      var d := FindLastDot(n, ni);
      LastDotAt(n, ni, d);
      assert m[d - ni] == DOT;
      SuffixDots(n, ni, d - ni + 1);
      DosLimitAt(m, d - ni, ni == 0);
    } else {
      NoLastDot(n, ni);
      SuffixDots(n, ni, 0);
      NoDotLimit(m, ni == 0);
    }
  }

  lemma {:induction false} TryIsDos(c: Case, e: seq<Wchar>, n: seq<Wchar>, k: nat, stop: nat)
    requires Steady(e) && Proper(c) && IsString(n) && k <= stop <= |n|
    ensures Try(c, e, n, k, stop) == if exists j :: k <= j < stop && DosGlob(c, e, n[j..], true) then Yes else No
    decreases |e|, stop - k + 1, 0
  {
    if k < stop {
      SuffixIsString(n, k);
      assert e[0..] == e && n[k..][0..] == n[k..];
      RunIsDos(c, e, n[k..], 0, 0);
      TryIsDos(c, e, n, k + 1, stop);
    }
  }

  lemma {:induction false} StarIsDos(c: Case, e: seq<Wchar>, n: seq<Wchar>, ei: nat, ni: nat)
    requires Steady(e) && Proper(c) && IsString(n) && ei < |e| && ni <= |n| && e[ei] == STAR
    ensures Run(c, e, n, ei, ni) == (if DosGlob(c, e[ei..], n[ni..], ni == 0) then Yes else No)
    decreases |e| - ei, 0, 0
  {
    var rest, m := e[ei + 1..], n[ni..];
    assert e[ei..][1..] == rest && e[ei..][0] == STAR;
    if ei + 1 == |e| {
      assert e[ei..] == [STAR];
    } else {
      assert e[ei..] != [STAR];
      SteadyTail(e, ei + 1);
      TryIsDos(c, rest, n, ni, |n|);
      RunIsDos(c, e, n, ei + 1, |n|);
      assert n[|n|..] == [] && (|n| == 0 <==> ni == 0 && m == []);
      SuffixAttempts(c, rest, n, ni, |n|);
    }
  }

  lemma {:induction false} SuffixAttempts(c: Case, e: seq<Wchar>, n: seq<Wchar>, ni: nat, stop: nat)
    requires ni <= stop <= |n|
    ensures (exists k :: 0 <= k < stop - ni && DosGlob(c, e, n[ni..][k..], true))
       <==> (exists j :: ni <= j < stop && DosGlob(c, e, n[j..], true))
  {
    var m := n[ni..];
    forall k | 0 <= k < stop - ni ensures m[k..] == n[ni + k..] { }
    if j :| ni <= j < stop && DosGlob(c, e, n[j..], true) { assert m[j - ni..] == n[j..]; }
  }

  lemma SteadyTail(e: seq<Wchar>, k: nat)
    requires Steady(e) && k <= |e|
    ensures Steady(e[k..])
  {
  }

  lemma {:induction false} DosStarRuns(c: Case, e: seq<Wchar>, n: seq<Wchar>, ei: nat, ni: nat)
    requires Steady(e) && Proper(c) && IsString(n) && ei < |e| && ni <= |n| && e[ei] == DOS_STAR
    ensures var rest, stop := e[ei + 1..], DosStop(n, ni);
            Run(c, e, n, ei, ni) ==
            if (exists j :: ni <= j < stop && DosGlob(c, rest, n[j..], true)) || DosGlob(c, rest, n[stop..], stop == 0)
            then Yes else No
    decreases |e| - ei, 0, 0
  {
    SteadyTail(e, ei + 1);
    TryIsDos(c, e[ei + 1..], n, ni, DosStop(n, ni));
    RunIsDos(c, e, n, ei + 1, DosStop(n, ni));
  }

  lemma {:induction false} DosStarIsDos(c: Case, e: seq<Wchar>, n: seq<Wchar>, ei: nat, ni: nat)
    requires Steady(e) && Proper(c) && IsString(n) && ei < |e| && ni <= |n| && e[ei] == DOS_STAR
    ensures Run(c, e, n, ei, ni) == (if DosGlob(c, e[ei..], n[ni..], ni == 0) then Yes else No)
    decreases |e| - ei, 0, 1
  {
    var rest, stop := e[ei + 1..], DosStop(n, ni);
    DosStarRuns(c, e, n, ei, ni);
    DosStopIs(n, ni);
    SuffixAttempts(c, rest, n, ni, stop);
    DosStarUnfolds(c, e[ei..], n[ni..], ni == 0);
    assert e[ei..][1..] == rest && n[ni..][stop - ni..] == n[stop..];
  }

  lemma {:induction false} DosStarUnfolds(c: Case, e: seq<Wchar>, n: seq<Wchar>, atStart: bool)
    requires e != [] && e[0] == DOS_STAR
    ensures var limit := DosLimit(n, atStart);
            DosGlob(c, e, n, atStart) <==>
            || (exists k :: 0 <= k < limit && DosGlob(c, e[1..], n[k..], true))
            || DosGlob(c, e[1..], n[limit..], atStart && limit == 0)
  {
  }

  lemma {:induction false} DosQmIsDos(c: Case, e: seq<Wchar>, n: seq<Wchar>, ei: nat, ni: nat)
    requires ei == |e| - 1 && ni <= |n| && e[ei] == DOS_QM
    ensures Run(c, e, n, ei, ni) == (if DosGlob(c, e[ei..], n[ni..], ni == 0) then Yes else No)
  {
    var m := n[ni..];
    assert e[ei..] == [DOS_QM] && [DOS_QM][1..] == [];
    if ni < |n| && n[ni] == DOT {
      SuffixDots(n, ni, 1);
      assert m[0] == DOT;
      if HasDot(m, 1) {
        var k :| 1 <= k < |m| && m[k] == DOT;
        assert m[1..][k - 1] == DOT;
      }
    }
  }

  /** The matcher stays inside the name and accepts exactly the language. */
  lemma {:induction false} RunIsDos(c: Case, e: seq<Wchar>, n: seq<Wchar>, ei: nat, ni: nat)
    requires Steady(e) && Proper(c) && IsString(n) && ei <= |e| && ni <= |n|
    ensures Run(c, e, n, ei, ni) == (if DosGlob(c, e[ei..], n[ni..], ni == 0) then Yes else No)
    decreases |e| - ei, 0, 2
  {
    var rest, m := e[ei..], n[ni..];
    if ei < |e| {
      assert rest[0] == e[ei] && rest[1..] == e[ei + 1..] && e[ei] in e;
      if e[ei] == STAR {
        StarIsDos(c, e, n, ei, ni);
      } else if e[ei] == DOS_STAR {
        DosStarIsDos(c, e, n, ei, ni);
      } else if e[ei] == DOS_QM {
        DosQmIsDos(c, e, n, ei, ni);
      } else {
        if ni < |n| {
          assert m[0] == n[ni] && m[1..] == n[ni + 1..];
          RunIsDos(c, e, n, ei + 1, ni + 1);
        }
        RunIsDos(c, e, n, ei + 1, ni);
      }
    }
  }

  /** Without `?`, and with DOS_QM at most at the end, the matcher accepts exactly this language, for every name. */
  lemma {:induction false} DosWildcards(c: Case, e: seq<Wchar>, n: seq<Wchar>)
    requires Steady(e) && Proper(c) && IsString(n)
    ensures Run(c, e, n, 0, 0) == if DosGlob(c, e, n, true) then Yes else No
  {
    assert e[0..] == e && n[0..] == n;
    RunIsDos(c, e, n, 0, 0);
  }

  /** DOS_STAR alone, which is to match every name without a dot, refuses those that are not empty. */
  lemma {:induction false} DosStarWithoutDot(c: Case, n: seq<Wchar>)
    requires Proper(c) && IsString(n) && DOT !in n
    ensures Run(c, [DOS_STAR], n, 0, 0) == if n == [] then Yes else No
  {
    DosWildcards(c, [DOS_STAR], n);
    NoDotLimit(n, true);
    assert [DOS_STAR][1..] == [] && n[0..] == n;
  }
}
