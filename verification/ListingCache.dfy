/**
  The listing cache of an open directory (dokan/directory.c): a query is answered from the listing
  of the last scan, or the file system is asked again.
*/
module ListingCache {
  import opened Options
  import opened Bytes
  import opened EntryChain
  import opened DirectoryListing
  import NameMatcher

  type Name = seq<Wchar>

  const ANY: Name := [NameMatcher.STAR]
  const CURRENT: Name := [NameMatcher.DOT]
  const PARENT: Name := [NameMatcher.DOT, NameMatcher.DOT]

  datatype Code = Ok | NotImplemented | Pending | InternalError | InvalidParameter | Failure(code: nat)

  /** What a callback returns, and the files it reported on the way. */
  datatype Listing = Listing(code: Code, files: seq<FindData>)

  /** One directory of a file system whose callbacks are deterministic; `folder` is what the clock gives new folders. */
  datatype FileSystem = FileSystem(
    findFilesWithPattern: Option<Name -> Listing>,
    findFiles: Option<Listing>,
    isRoot: bool,
    folder: seq<Byte>,
    case_: NameMatcher.Case)

  datatype Request = Request(pattern: Option<Name>, restart: bool, indexSpecified: bool)

  /** The fields of DOKAN_OPEN_INFO that hold the cache. */
  datatype Cache = Cache(dirList: Option<seq<FindData>>, pattern: Option<Name>, unimplemented: bool)

  const EMPTY := Cache(None, None, false)

  /** A listing to be filtered if `check`, or an error. */
  datatype Answer = Listed(files: seq<FindData>, check: bool) | Refused(code: Code)

  // ------------------------------------------------------------------------------------------
  // When the cache answers
  // ------------------------------------------------------------------------------------------

  function ForceScan(cache: Cache, r: Request): bool {
    var stale :=
      if cache.dirList == None then true
      else if r.pattern.Some? && cache.pattern.Some? then r.pattern.value != cache.pattern.value
      else if r.pattern.Some? then r.pattern.value != ANY
      else if cache.pattern.Some? then cache.pattern.value != ANY
      else false;
    stale || (!r.indexSpecified && r.restart)
  }

  /** No pattern means all files. */
  function Wanted(pattern: Option<Name>): Name { if pattern.Some? then pattern.value else ANY }

  /** The cache answers exactly a request for the pattern it was filled for, unless a restart is in force. */
  lemma CacheAnswers(cache: Cache, r: Request)
    ensures !ForceScan(cache, r) <==>
              && cache.dirList.Some? && Wanted(cache.pattern) == Wanted(r.pattern)
              && (r.restart ==> r.indexSpecified)
  {
  }

  // ------------------------------------------------------------------------------------------
  // A scan
  // ------------------------------------------------------------------------------------------

  predicate HasName(files: seq<FindData>, name: Name) { exists k :: 0 <= k < |files| && files[k].name == name }

  function MissingFolders(fs: FileSystem, pattern: Option<Name>, files: seq<FindData>): seq<FindData> {
    if fs.isRoot || Wanted(pattern) != ANY then []
    else
      var current := if HasName(files, CURRENT) then [] else [FindData(CURRENT, fs.folder)];
      var parent := if HasName(files, PARENT) then [] else [FindData(PARENT, fs.folder)];
      current + parent
  }

  method AddMissingCurrentAndParentFolder(fs: FileSystem, pattern: Option<Name>, files: seq<FindData>)
    returns (r: seq<FindData>)
    ensures r == MissingFolders(fs, pattern, files) + files
  {
    if fs.isRoot || (pattern.Some? && pattern.value != ANY) {
      return files;
    }
    var currentFolder, parentFolder := false, false;
    var i := 0;
    while (!currentFolder || !parentFolder) && i < |files|
      invariant i <= |files|
      invariant currentFolder <==> exists k :: 0 <= k < i && files[k].name == CURRENT
      invariant parentFolder <==> exists k :: 0 <= k < i && files[k].name == PARENT
    {
      if files[i].name == CURRENT { currentFolder := true; }
      if files[i].name == PARENT { parentFolder := true; }
      i := i + 1;
    }
    var missing: seq<FindData> := [];
    if !currentFolder { missing := missing + [FindData(CURRENT, fs.folder)]; }
    if !parentFolder { missing := missing + [FindData(PARENT, fs.folder)]; }
    r := missing + files;
  }

  /** A directory other than the root, listed as a whole, has its own and its parent's entry. */
  lemma FoldersAreListed(fs: FileSystem, pattern: Option<Name>, files: seq<FindData>)
    requires !fs.isRoot && Wanted(pattern) == ANY
    ensures HasName(MissingFolders(fs, pattern, files) + files, CURRENT)
    ensures HasName(MissingFolders(fs, pattern, files) + files, PARENT)
  {
    var missing := MissingFolders(fs, pattern, files);
    var r := missing + files;
    if k :| 0 <= k < |files| && files[k].name == CURRENT { assert r[|missing| + k].name == CURRENT; }
    else { assert r[0].name == CURRENT; }
    if k :| 0 <= k < |files| && files[k].name == PARENT { assert r[|missing| + k].name == PARENT; }
    else { assert r[|missing| - 1].name == PARENT; }
  }

  /** FindFilesWithPattern, and FindFiles when that is not implemented; both report into the same list. */
  function Scan(fs: FileSystem, r: Request): Listing {
    var first := if fs.findFilesWithPattern.Some? then fs.findFilesWithPattern.value(Wanted(r.pattern))
                 else Listing(NotImplemented, []);
    if first.code == NotImplemented && fs.findFiles.Some?
    then Listing(fs.findFiles.value.code, first.files + fs.findFiles.value.files)
    else first
  }

  predicate Unimplemented(fs: FileSystem, r: Request) {
    fs.findFilesWithPattern.Some? && fs.findFilesWithPattern.value(Wanted(r.pattern)).code == NotImplemented
  }

  /** Whether MatchFiles compares names with the pattern itself. */
  function PatternCheck(fs: FileSystem, cache: Cache, r: Request): bool {
    r.pattern.Some? && r.pattern.value != ANY && (fs.findFilesWithPattern == None || cache.unimplemented)
  }

  function Dispatch(fs: FileSystem, cache: Cache, r: Request): (Cache, Answer) {
    if !ForceScan(cache, r) then (cache, Listed(cache.dirList.value, PatternCheck(fs, cache, r)))
    else
      var scan := Scan(fs, r);
      var marked := if Unimplemented(fs, r) then cache.(unimplemented := true) else cache;
      match scan.code
      case Ok =>
        var files := MissingFolders(fs, r.pattern, scan.files) + scan.files;
        (marked.(dirList := Some(files), pattern := r.pattern), Listed(files, PatternCheck(fs, marked, r)))
      case Pending => (marked, Refused(InternalError))
      case code => (marked, Refused(code))
  }

  /** The test that a listed file has to pass. */
  function Accepts(fs: FileSystem, pattern: Option<Name>, check: bool): FindData -> bool {
    (f: FindData) => !check || NameMatcher.Run(fs.case_, Wanted(pattern), f.name, 0, 0) == NameMatcher.Yes
  }

  // ------------------------------------------------------------------------------------------
  // The open directory
  // ------------------------------------------------------------------------------------------

  /** Names and counts that the reply can carry. */
  predicate Fits(a: Answer) { a.Listed? ==> Indexed(a.files) }

  class OpenInfo {
    var dirList: Option<seq<FindData>>
    var pattern: Option<Name>
    var unimplemented: bool

    function Contents(): Cache
      reads this
    {
      Cache(dirList, pattern, unimplemented)
    }

    constructor ()
      ensures Contents() == EMPTY
    {
      dirList, pattern, unimplemented := None, None, false;
    }

    /** A scan: the cache is replaced when it succeeds. */
    method FindFiles(fs: FileSystem, r: Request) returns (answer: Answer)
      requires ForceScan(Contents(), r)
      modifies this
      ensures (Contents(), answer) == Dispatch(fs, old(Contents()), r)
    {
      var code, files := NotImplemented, [];
      if fs.findFilesWithPattern.Some? {
        var listing := fs.findFilesWithPattern.value(if r.pattern.Some? then r.pattern.value else ANY);
        code, files := listing.code, listing.files;
        if code == NotImplemented { unimplemented := true; }
      }
      if code == NotImplemented && fs.findFiles.Some? {
        code, files := fs.findFiles.value.code, files + fs.findFiles.value.files;
      }
      if code == Pending { code := InternalError; }
      if code == Ok {
        files := AddMissingCurrentAndParentFolder(fs, r.pattern, files);
        dirList, pattern := Some(files), r.pattern;
        answer := Listed(files, PatternCheck(fs, Contents(), r));
      } else {
        answer := Refused(code);
      }
    }

    /** DispatchDirectoryInformation, with the reply of WriteDirectoryResults in `buffer`; other classes are refused. */
    method DispatchDirectoryInformation(fs: FileSystem, r: Request, infoClass: Option<InfoClass>, fileIndex: nat,
                                        single: bool, buffer: array<Byte>, room: nat)
      returns (answer: Answer, status: Option<Status>, index: nat, used: nat)
      requires fileIndex < U32_RANGE && room <= buffer.Length && LINK <= buffer.Length
      requires Fits(Dispatch(fs, Contents(), r).1)
      modifies this, buffer
      ensures infoClass.None? ==> Contents() == old(Contents()) && answer == Refused(InvalidParameter)
      ensures infoClass.Some? ==> (Contents(), answer) == Dispatch(fs, old(Contents()), r)
      ensures answer.Refused? ==> status == None && index == fileIndex && used == 0
      ensures answer.Listed? ==>
                var all := Matches(infoClass.value, answer.files, Accepts(fs, r.pattern, answer.check));
                && status == Some(ReplyStatus(all, fileIndex, room, single))
                && index == fileIndex + |Page(all, fileIndex, room, single)|
                && used == Extent(Page(all, fileIndex, room, single)) <= room
                && At(buffer[..], 0, Closed(Page(all, fileIndex, room, single)))
    {
      status, index, used := None, fileIndex, 0;
      if infoClass.None? {
        answer := Refused(InvalidParameter);
        return;
      }
      if ForceScan(Contents(), r) {
        answer := FindFiles(fs, r);
      } else {
        answer := Listed(dirList.value, PatternCheck(fs, Contents(), r));
      }
      if answer.Listed? {
        var accepts := Accepts(fs, r.pattern, answer.check);
        var written;
        written, index, used :=
          WriteDirectoryResults(infoClass.value, buffer, room, answer.files, accepts, fileIndex, single);
        status := Some(written);
      }
    }
  }

  // ------------------------------------------------------------------------------------------
  // The cache is transparent
  // ------------------------------------------------------------------------------------------

  /** What the caller sees of an answer: the files that pass the test, or the error. */
  datatype Seen = Shown(files: seq<FindData>) | Failed(code: Code)

  function See(fs: FileSystem, r: Request, a: Answer): Seen {
    match a
    case Listed(files, check) => Shown(Filter(files, Accepts(fs, r.pattern, check)))
    case Refused(code) => Failed(code)
  }

  function PatternListing(fs: FileSystem, p: Name): Listing
    requires fs.findFilesWithPattern.Some?
  {
    fs.findFilesWithPattern.value(p)
  }

  predicate MatcherAccepts(fs: FileSystem, p: Name, f: FindData) {
    NameMatcher.Run(fs.case_, p, f.name, 0, 0) == NameMatcher.Yes
  }

  /** The callback lists a file for `q` that the library's own matcher refuses for `q`. */
  ghost predicate ListsOutsider(fs: FileSystem, q: Name)
    requires fs.findFilesWithPattern.Some?
  {
    && q != ANY && PatternListing(fs, q).code == Ok
    && exists f :: f in PatternListing(fs, q).files && !MatcherAccepts(fs, q, f)
  }

  /**
    FindFilesWithPattern says of one pattern that it is not implemented, and for another pattern lists
    a file that the matcher refuses.
  */
  ghost predicate Mixed(fs: FileSystem) {
    && fs.findFilesWithPattern.Some?
    && (exists p :: PatternListing(fs, p).code == NotImplemented)
    && (exists q :: ListsOutsider(fs, q))
  }

  /** The answer of a scan on an open directory that was never queried before. */
  function Fresh(fs: FileSystem, r: Request): Answer { Dispatch(fs, EMPTY, r).1 }

  // What a fresh scan shows, in the file system's own terms.

  /** The names of the two folder entries that a listing lacks. */
  function Lacking(files: seq<FindData>): set<Name> {
    (if exists k :: 0 <= k < |files| && files[k].name == CURRENT then {} else {CURRENT})
    + (if exists k :: 0 <= k < |files| && files[k].name == PARENT then {} else {PARENT})
  }

  /** `extra` has one entry, as the clock makes it, for each of the names, the directory's own first. */
  predicate FolderEntries(fs: FileSystem, extra: seq<FindData>, names: set<Name>) {
    && |extra| == |names|
    && (forall k :: 0 <= k < |extra| ==> extra[k].name in names && extra[k].metadata == fs.folder)
    && (forall j, k :: 0 <= j < k < |extra| ==> extra[j].name == CURRENT && extra[k].name == PARENT)
  }

  lemma MissingAreLacking(fs: FileSystem, pattern: Option<Name>, files: seq<FindData>)
    ensures FolderEntries(fs, MissingFolders(fs, pattern, files),
                          if fs.isRoot || Wanted(pattern) != ANY then {} else Lacking(files))
  {
    assert |CURRENT| == 1 && |PARENT| == 2;
  }

  /** The file system implements the pattern callback for the pattern. */
  predicate Implements(fs: FileSystem, p: Name) {
    fs.findFilesWithPattern.Some? && PatternListing(fs, p).code != NotImplemented
  }

  /** What both callbacks report for the pattern, and how it ends; they report into one list. */
  function Reported(fs: FileSystem, p: Name): Listing {
    var first := if fs.findFilesWithPattern.Some? then PatternListing(fs, p).files else [];
    if Implements(fs, p) then PatternListing(fs, p)
    else if fs.findFiles.Some? then Listing(fs.findFiles.value.code, first + fs.findFiles.value.files)
    else Listing(NotImplemented, first)
  }

  /** For a pattern other than `*`: a listing by the callback is taken as it is, another one is filtered. */
  lemma FreshByPattern(fs: FileSystem, p: Name, restart: bool, indexSpecified: bool)
    requires p != ANY && Reported(fs, p).code == Ok
    ensures See(fs, Request(Some(p), restart, indexSpecified), Fresh(fs, Request(Some(p), restart, indexSpecified))) ==
            Shown(if Implements(fs, p) then PatternListing(fs, p).files
                  else Filter(Reported(fs, p).files, (f: FindData) => MatcherAccepts(fs, p, f)))
  {
    var r := Request(Some(p), restart, indexSpecified);
    var files := Reported(fs, p).files;
    assert [] + files == files;
    if Implements(fs, p) {
      FilterAll(files, Accepts(fs, Some(p), false));
    } else {
      SameFilter(files, Accepts(fs, Some(p), true), (f: FindData) => MatcherAccepts(fs, p, f));
    }
  }

  lemma {:induction false} SameFilter(files: seq<FindData>, a: FindData -> bool, b: FindData -> bool)
    requires forall f :: f in files ==> a(f) == b(f)
    ensures Filter(files, a) == Filter(files, b)
  {
    if files != [] { SameFilter(files[1..], a, b); }
  }

  /** For no pattern, or `*`: everything that was reported, with the folder entries that it lacks in front. */
  lemma FreshWhole(fs: FileSystem, r: Request)
    requires (r.pattern == None || r.pattern == Some(ANY)) && Reported(fs, ANY).code == Ok
    ensures exists extra ::
              && FolderEntries(fs, extra, if fs.isRoot then {} else Lacking(Reported(fs, ANY).files))
              && See(fs, r, Fresh(fs, r)) == Shown(extra + Reported(fs, ANY).files)
  {
    var files := Reported(fs, ANY).files;
    var extra := MissingFolders(fs, r.pattern, files);
    MissingAreLacking(fs, r.pattern, files);
    FilterAll(extra + files, Accepts(fs, r.pattern, false));
  }

  /**
    The listing of a directory for a pattern: for a pattern other than `*`, what the pattern callback lists, or else
    what was reported and the matcher accepts; for no pattern or `*`, everything, with the missing folder entries.
  */
  ghost predicate IsListing(fs: FileSystem, pattern: Option<Name>, files: seq<FindData>) {
    if pattern.Some? && pattern.value != ANY then
      files == if Implements(fs, pattern.value) then PatternListing(fs, pattern.value).files
               else Filter(Reported(fs, pattern.value).files, (f: FindData) => MatcherAccepts(fs, pattern.value, f))
    else
      exists extra ::
        && FolderEntries(fs, extra, if fs.isRoot then {} else Lacking(Reported(fs, ANY).files))
        && files == extra + Reported(fs, ANY).files
  }

  /** What the caller sees of a fresh scan: the listing for the pattern, or the error. */
  lemma FreshShows(fs: FileSystem, r: Request)
    ensures var code, seen := Reported(fs, Wanted(r.pattern)).code, See(fs, r, Fresh(fs, r));
            if code == Ok then seen.Shown? && IsListing(fs, r.pattern, seen.files)
            else seen == Failed(if code == Pending then InternalError else code)
  {
    if Reported(fs, Wanted(r.pattern)).code != Ok {
      FreshFails(fs, r);
    } else if r.pattern.Some? && r.pattern.value != ANY {
      FreshByPattern(fs, r.pattern.value, r.restart, r.indexSpecified);
    } else {
      FreshWhole(fs, r);
    }
  }

  /** Errors are passed on, except that a callback may not leave the request pending. */
  lemma FreshFails(fs: FileSystem, r: Request)
    requires Reported(fs, Wanted(r.pattern)).code != Ok
    ensures var code := Reported(fs, Wanted(r.pattern)).code;
            See(fs, r, Fresh(fs, r)) == Failed(if code == Pending then InternalError else code)
  {
  }

  function Answers(fs: FileSystem, cache: Cache, rs: seq<Request>): (a: seq<Answer>)
    ensures |a| == |rs|
    decreases |rs|
  {
    if rs == [] then [] else
      var (next, answer) := Dispatch(fs, cache, rs[0]);
      [answer] + Answers(fs, next, rs[1..])
  }

  /** What a cached listing is: the result of a scan for its pattern, which also noted what it found out. */
  ghost predicate Faithful(fs: FileSystem, cache: Cache) {
    && (cache.dirList.Some? ==>
          var r := Request(cache.pattern, false, false);
          && Fresh(fs, r).Listed? && Fresh(fs, r).files == cache.dirList.value
          && (Unimplemented(fs, r) ==> cache.unimplemented))
    && (cache.unimplemented ==> exists r :: Unimplemented(fs, r))
  }

  lemma SameScan(fs: FileSystem, r: Request, s: Request)
    requires Wanted(r.pattern) == Wanted(s.pattern)
    ensures Scan(fs, r) == Scan(fs, s) && Unimplemented(fs, r) == Unimplemented(fs, s)
    ensures forall files :: MissingFolders(fs, r.pattern, files) == MissingFolders(fs, s.pattern, files)
  {
  }

  lemma {:induction false} FilterAll(files: seq<FindData>, accepts: FindData -> bool)
    requires forall f :: f in files ==> accepts(f)
    ensures Filter(files, accepts) == files
  {
    if files != [] {
      assert files == [files[0]] + files[1..];
      FilterAll(files[1..], accepts);
    }
  }

  lemma {:induction false} FilterSome(files: seq<FindData>, accepts: FindData -> bool, f: FindData)
    requires f in files && !accepts(f)
    ensures |Filter(files, accepts)| < |files|
  {
    if accepts(files[0]) { FilterSome(files[1..], accepts, f); }
  }

  /** Where the test of the library is not needed, it changes nothing unless the callback lists an outsider. */
  lemma CheckIsHarmless(fs: FileSystem, r: Request)
    requires !Mixed(fs) && (exists s :: Unimplemented(fs, s)) && !Unimplemented(fs, r)
    requires r.pattern.Some? && r.pattern.value != ANY && Scan(fs, r).code == Ok && fs.findFilesWithPattern.Some?
    ensures var files := MissingFolders(fs, r.pattern, Scan(fs, r).files) + Scan(fs, r).files;
            See(fs, r, Listed(files, true)) == See(fs, r, Listed(files, false))
  {
    var s :| Unimplemented(fs, s);
    assert PatternListing(fs, Wanted(s.pattern)).code == NotImplemented;
    var q := r.pattern.value;
    assert !ListsOutsider(fs, q);
    var files := MissingFolders(fs, r.pattern, Scan(fs, r).files) + Scan(fs, r).files;
    assert files == PatternListing(fs, q).files;
    assert forall f :: f in files ==> MatcherAccepts(fs, q, f);
    FilterAll(files, Accepts(fs, r.pattern, true));
    FilterAll(files, Accepts(fs, r.pattern, false));
  }

  /** The listing of an answer is that of a fresh scan, and a test that only one of the two makes changes nothing. */
  lemma SameToTheCaller(fs: FileSystem, r: Request, cache: Cache)
    requires !Mixed(fs) && Scan(fs, r).code == Ok
    requires cache.unimplemented ==> exists s :: Unimplemented(fs, s)
    requires Unimplemented(fs, r) ==> cache.unimplemented
    ensures var files := MissingFolders(fs, r.pattern, Scan(fs, r).files) + Scan(fs, r).files;
            See(fs, r, Listed(files, PatternCheck(fs, cache, r))) == See(fs, r, Fresh(fs, r))
  {
    var scanned := EMPTY.(unimplemented := Unimplemented(fs, r));
    if PatternCheck(fs, cache, r) != PatternCheck(fs, scanned, r) { CheckIsHarmless(fs, r); }
  }

  lemma KeepsFaithful(fs: FileSystem, cache: Cache, r: Request)
    requires !Mixed(fs) && Faithful(fs, cache)
    ensures Faithful(fs, Dispatch(fs, cache, r).0)
    ensures See(fs, r, Dispatch(fs, cache, r).1) == See(fs, r, Fresh(fs, r))
  {
    CacheAnswers(cache, r);
    if ForceScan(cache, r) {
      SameScan(fs, r, Request(r.pattern, false, false));
      if Scan(fs, r).code == Ok { SameToTheCaller(fs, r, Dispatch(fs, cache, r).0); }
    } else {
      SameScan(fs, r, Request(cache.pattern, false, false));
      SameToTheCaller(fs, r, cache);
    }
  }

  lemma {:induction false} TransparentFrom(fs: FileSystem, cache: Cache, rs: seq<Request>, k: nat)
    requires !Mixed(fs) && Faithful(fs, cache) && k < |rs|
    ensures See(fs, rs[k], Answers(fs, cache, rs)[k]) == See(fs, rs[k], Fresh(fs, rs[k]))
    decreases |rs|
  {
    KeepsFaithful(fs, cache, rs[0]);
    if k > 0 { TransparentFrom(fs, Dispatch(fs, cache, rs[0]).0, rs[1..], k - 1); }
  }

  /** In every run of requests, the caller sees what a fresh scan would show. */
  ghost predicate Transparent(fs: FileSystem) {
    forall rs, k :: 0 <= k < |rs| ==> See(fs, rs[k], Answers(fs, EMPTY, rs)[k]) == See(fs, rs[k], Fresh(fs, rs[k]))
  }

  /** The library's test takes an outsider out of the listing. */
  lemma OutsiderIsSeen(fs: FileSystem, q: Name)
    requires fs.findFilesWithPattern.Some? && ListsOutsider(fs, q)
    ensures var r, files := Request(Some(q), true, false), PatternListing(fs, q).files;
            See(fs, r, Listed(files, true)) != See(fs, r, Listed(files, false))
  {
    var files := PatternListing(fs, q).files;
    var f :| f in files && !MatcherAccepts(fs, q, f);
    FilterSome(files, Accepts(fs, Some(q), true), f);
    FilterAll(files, Accepts(fs, Some(q), false));
  }

  /** A request for a pattern that is not implemented, and then one for a pattern that is. */
  lemma {:induction false} FlagSticks(fs: FileSystem, p: Name, q: Name)
    requires fs.findFilesWithPattern.Some? && PatternListing(fs, p).code == NotImplemented
    requires q != ANY && PatternListing(fs, q).code == Ok
    ensures var r, s := Request(Some(p), false, false), Request(Some(q), true, false);
            && Answers(fs, EMPTY, [r, s])[1] == Listed(PatternListing(fs, q).files, true)
            && Fresh(fs, s) == Listed(PatternListing(fs, q).files, false)
  {
    var r, s := Request(Some(p), false, false), Request(Some(q), true, false);
    var next := Dispatch(fs, EMPTY, r).0;
    assert next.unimplemented;
    assert [r, s][1..] == [s] && Answers(fs, EMPTY, [r, s])[1] == Answers(fs, next, [s])[0];
    assert [] + PatternListing(fs, q).files == PatternListing(fs, q).files;
  }

  /** After a request for the unimplemented pattern the outsider is filtered out. */
  lemma MixedIsSeen(fs: FileSystem)
    requires Mixed(fs)
    ensures !Transparent(fs)
  {
    var p :| PatternListing(fs, p).code == NotImplemented;
    var q :| ListsOutsider(fs, q);
    FlagSticks(fs, p, q);
    OutsiderIsSeen(fs, q);
    var rs := [Request(Some(p), false, false), Request(Some(q), true, false)];
    assert See(fs, rs[1], Answers(fs, EMPTY, rs)[1]) != See(fs, rs[1], Fresh(fs, rs[1]));
  }

  /** The cache is transparent exactly for file systems whose pattern callback is not mixed. */
  lemma CacheIsTransparent(fs: FileSystem)
    ensures Transparent(fs) <==> !Mixed(fs)
  {
    if Mixed(fs) {
      MixedIsSeen(fs);
    } else {
      forall rs: seq<Request>, k: nat | k < |rs|
        ensures See(fs, rs[k], Answers(fs, EMPTY, rs)[k]) == See(fs, rs[k], Fresh(fs, rs[k]))
      {
        TransparentFrom(fs, EMPTY, rs, k);
      }
    }
  }
}
