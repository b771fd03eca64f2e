/**
  Enumerating a directory through the driver's stored index and the library's listing cache together
  (sys/directory.c, dokan/directory.c). One open directory has one search pattern: the driver keeps that
  of the first query.
*/
module Enumeration {
  import opened Options
  import opened Bytes
  import opened EntryChain
  import D = DirectoryListing
  import L = ListingCache

  /** An open directory: the library's cache and the driver's index. */
  datatype Open = Open(cache: L.Cache, context: nat)

  const OPENED := Open(L.EMPTY, 0)

  datatype Reply = Paged(status: D.Status, page: seq<Record>) | Failed(code: L.Code)

  function RequestOf(pattern: Option<L.Name>, q: D.Query): L.Request {
    L.Request(pattern, q.restart, q.indexSpecified)
  }

  /** The listing that the file system gives for the pattern when it is asked anew. */
  function Fresh(fs: L.FileSystem, pattern: Option<L.Name>): L.Answer {
    L.Fresh(fs, L.Request(pattern, false, false))
  }

  /** One query: the library answers from its cache or scans, and the driver stores the next index. */
  function Ask(fs: L.FileSystem, c: D.InfoClass, pattern: Option<L.Name>, o: Open, q: D.Query): (Open, Reply)
    requires L.Fits(L.Dispatch(fs, o.cache, RequestOf(pattern, q)).1)
  {
    var (cache, answer) := L.Dispatch(fs, o.cache, RequestOf(pattern, q));
    match answer
    case Listed(files, check) =>
      var a := D.AnswerTo(D.Matches(c, files, L.Accepts(fs, pattern, check)), o.context, q);
      (Open(cache, a.context), Paged(a.status, a.page))
    case Refused(code) =>
      if q.length == 0 then (Open(cache, o.context), Paged(D.InsufficientResources, []))
      else (Open(cache, D.QueryIndex(q, o.context)), Failed(code))
  }

  /** A query from the driver through the library's dispatch routine and back; `reply` is the library's buffer. */
  method QueryDirectory(fs: L.FileSystem, c: D.InfoClass, pattern: Option<L.Name>, q: D.Query, ccb: D.Ccb,
                        info: L.OpenInfo, reply: array<Byte>)
    returns (answer: Reply, used: nat)
    requires D.QueryIndex(q, ccb.context) < U32_RANGE && q.length <= reply.Length && LINK <= reply.Length
    requires L.Fits(L.Dispatch(fs, info.Contents(), RequestOf(pattern, q)).1)
    modifies ccb, info, reply
    ensures var r := Ask(fs, c, pattern, Open(old(info.Contents()), old(ccb.context)), q);
            && Open(info.Contents(), ccb.context) == r.0
            && (answer.Failed? <==> r.1.Failed?)
            && (answer.Failed? ==> answer == r.1)
            && (answer.Paged? ==> answer.status == r.1.status)
            && (answer.Paged? && q.length > 0 ==> used == Extent(r.1.page) && At(reply[..], 0, Closed(r.1.page)))
  {
    var index := if q.indexSpecified then q.fileIndex else if q.restart then 0 else ccb.context;
    var listing, status, next;
    listing, status, next, used :=
      info.DispatchDirectoryInformation(fs, RequestOf(pattern, q), Some(c), index, q.single, reply, q.length);
    if q.length == 0 {
      answer := Paged(D.InsufficientResources, []);
    } else {
      ccb.context := next;
      answer := if status.Some? then Paged(status.value, []) else Failed(listing.code);
    }
  }

  // ------------------------------------------------------------------------------------------
  // The cache of one open directory
  // ------------------------------------------------------------------------------------------

  /** What the cache holds after requests with this pattern only. */
  predicate Own(fs: L.FileSystem, pattern: Option<L.Name>, cache: L.Cache) {
    var r := L.Request(pattern, false, false);
    && (cache.unimplemented ==> L.Unimplemented(fs, r))
    && (cache.dirList.Some? ==>
          && cache.pattern == pattern && Fresh(fs, pattern).Listed? && cache.dirList.value == Fresh(fs, pattern).files
          && (L.Unimplemented(fs, r) ==> cache.unimplemented))
  }

  /** Every request gets the answer of a fresh scan, whatever the file system's callbacks do with other patterns. */
  lemma OwnAnswer(fs: L.FileSystem, pattern: Option<L.Name>, cache: L.Cache, q: D.Query)
    requires Own(fs, pattern, cache)
    ensures L.Dispatch(fs, cache, RequestOf(pattern, q)).1 == Fresh(fs, pattern)
    ensures Own(fs, pattern, L.Dispatch(fs, cache, RequestOf(pattern, q)).0)
  {
    L.SameScan(fs, RequestOf(pattern, q), L.Request(pattern, false, false));
  }

  /** The replies to a run of queries, with any restarts and indices. */
  function Replies(fs: L.FileSystem, c: D.InfoClass, pattern: Option<L.Name>, o: Open, qs: seq<D.Query>)
    : (r: seq<Reply>)
    requires Own(fs, pattern, o.cache) && L.Fits(Fresh(fs, pattern))
    ensures |r| == |qs|
    decreases |qs|
  {
    if qs == [] then []
    else
      OwnAnswer(fs, pattern, o.cache, qs[0]);
      var (next, reply) := Ask(fs, c, pattern, o, qs[0]);
      [reply] + Replies(fs, c, pattern, next, qs[1..])
  }

  function After(fs: L.FileSystem, c: D.InfoClass, pattern: Option<L.Name>, o: Open, qs: seq<D.Query>): (r: Open)
    requires Own(fs, pattern, o.cache) && L.Fits(Fresh(fs, pattern))
    ensures Own(fs, pattern, r.cache)
    decreases |qs|
  {
    if qs == [] then o
    else
      OwnAnswer(fs, pattern, o.cache, qs[0]);
      After(fs, c, pattern, Ask(fs, c, pattern, o, qs[0]).0, qs[1..])
  }

  /** The entries of the whole listing. */
  function Entries(fs: L.FileSystem, c: D.InfoClass, pattern: Option<L.Name>): seq<Record>
    requires Fresh(fs, pattern).Listed? && L.Fits(Fresh(fs, pattern))
  {
    D.Matches(c, Fresh(fs, pattern).files, L.Accepts(fs, pattern, Fresh(fs, pattern).check))
  }

  /** Those entries are made of the files of the listing for the pattern. */
  lemma EntriesAre(fs: L.FileSystem, c: D.InfoClass, pattern: Option<L.Name>) returns (files: seq<D.FindData>)
    requires L.Fits(Fresh(fs, pattern)) && L.Reported(fs, L.Wanted(pattern)).code == L.Ok
    ensures L.IsListing(fs, pattern, files) && D.Indexed(files)
    ensures Fresh(fs, pattern).Listed? && Entries(fs, c, pattern) == D.Records(c, files)
  {
    var r := L.Request(pattern, false, false);
    L.FreshShows(fs, r);
    files := L.See(fs, r, L.Fresh(fs, r)).files;
  }

  /** What one query replies and leaves behind. */
  lemma AskIs(fs: L.FileSystem, c: D.InfoClass, pattern: Option<L.Name>, o: Open, q: D.Query)
    requires Own(fs, pattern, o.cache) && L.Fits(Fresh(fs, pattern))
    ensures L.Fits(L.Dispatch(fs, o.cache, RequestOf(pattern, q)).1)
    ensures var (next, reply) := Ask(fs, c, pattern, o, q);
            && Own(fs, pattern, next.cache)
            && if Fresh(fs, pattern).Listed? then
                 var a := D.AnswerTo(Entries(fs, c, pattern), o.context, q);
                 next.context == a.context && reply == Paged(a.status, a.page)
               else
                 reply == if q.length == 0 then Paged(D.InsufficientResources, []) else Failed(Fresh(fs, pattern).code)
  {
    OwnAnswer(fs, pattern, o.cache, q);
  }

  /** The first reply, and the others as the replies to the other queries. */
  lemma {:induction false} RepliesStep(fs: L.FileSystem, c: D.InfoClass, pattern: Option<L.Name>, o: Open,
                                       qs: seq<D.Query>)
    requires Own(fs, pattern, o.cache) && L.Fits(Fresh(fs, pattern)) && qs != []
    ensures L.Fits(L.Dispatch(fs, o.cache, RequestOf(pattern, qs[0])).1)
    ensures var (next, reply) := Ask(fs, c, pattern, o, qs[0]);
            && Own(fs, pattern, next.cache)
            && Replies(fs, c, pattern, o, qs) == [reply] + Replies(fs, c, pattern, next, qs[1..])
  {
    OwnAnswer(fs, pattern, o.cache, qs[0]);
  }

  lemma {:induction false} AnswersStep(all: seq<Record>, context: nat, qs: seq<D.Query>)
    requires qs != []
    ensures var first := D.AnswerTo(all, context, qs[0]);
            D.Answers(all, context, qs) == [first] + D.Answers(all, first.context, qs[1..])
  {
  }

  lemma {:induction false} ListedReplies(fs: L.FileSystem, c: D.InfoClass, pattern: Option<L.Name>, o: Open,
                                         qs: seq<D.Query>, k: nat)
    requires Own(fs, pattern, o.cache) && L.Fits(Fresh(fs, pattern)) && Fresh(fs, pattern).Listed? && k < |qs|
    ensures var answer := D.Answers(Entries(fs, c, pattern), o.context, qs)[k];
            Replies(fs, c, pattern, o, qs)[k] == Paged(answer.status, answer.page)
    decreases |qs|
  {
    var all := Entries(fs, c, pattern);
    RepliesStep(fs, c, pattern, o, qs);
    AskIs(fs, c, pattern, o, qs[0]);
    AnswersStep(all, o.context, qs);
    var next := Ask(fs, c, pattern, o, qs[0]).0;
    if k > 0 {
      ListedReplies(fs, c, pattern, next, qs[1..], k - 1);
      assert Replies(fs, c, pattern, o, qs)[k] == Replies(fs, c, pattern, next, qs[1..])[k - 1];
    }
  }

  lemma {:induction false} RefusedReplies(fs: L.FileSystem, c: D.InfoClass, pattern: Option<L.Name>, o: Open,
                                          qs: seq<D.Query>, k: nat)
    requires Own(fs, pattern, o.cache) && L.Fits(Fresh(fs, pattern)) && Fresh(fs, pattern).Refused? && k < |qs|
    ensures Replies(fs, c, pattern, o, qs)[k] ==
            if qs[k].length == 0 then Paged(D.InsufficientResources, []) else Failed(Fresh(fs, pattern).code)
    decreases |qs|
  {
    RepliesStep(fs, c, pattern, o, qs);
    AskIs(fs, c, pattern, o, qs[0]);
    if k > 0 { RefusedReplies(fs, c, pattern, Ask(fs, c, pattern, o, qs[0]).0, qs[1..], k - 1); }
  }

  /**
    The replies to any run of queries are the answers from one fixed listing, that of a fresh scan; and if the
    file system refuses the pattern, every query fails as a fresh scan does.
  */
  lemma {:induction false} RepliesAreAnswers(fs: L.FileSystem, c: D.InfoClass, pattern: Option<L.Name>, o: Open,
                                             qs: seq<D.Query>, k: nat)
    requires Own(fs, pattern, o.cache) && L.Fits(Fresh(fs, pattern)) && k < |qs|
    ensures var reply := Replies(fs, c, pattern, o, qs)[k];
            if Fresh(fs, pattern).Listed? then
              var answer := D.Answers(Entries(fs, c, pattern), o.context, qs)[k];
              reply == Paged(answer.status, answer.page)
            else
              reply == if qs[k].length == 0 then Paged(D.InsufficientResources, []) else Failed(Fresh(fs, pattern).code)
  {
    if Fresh(fs, pattern).Listed? {
      ListedReplies(fs, c, pattern, o, qs, k);
    } else {
      RefusedReplies(fs, c, pattern, o, qs, k);
    }
  }

  // ------------------------------------------------------------------------------------------
  // A complete enumeration
  // ------------------------------------------------------------------------------------------

  function Pages(replies: seq<Reply>): seq<Record> {
    if replies == [] then []
    else (if replies[0].Paged? then replies[0].page else []) + Pages(replies[1..])
  }

  /** The first query starts from the beginning, and the others go on where the last one ended. */
  predicate FromTheStart(o: Open, qs: seq<D.Query>) {
    && qs != [] && !qs[0].indexSpecified && (qs[0].restart || o.context == 0) && D.Continuing(qs[1..])
  }

  /** A restarted query is a continuing one at index 0. */
  function Continued(qs: seq<D.Query>): seq<D.Query>
    requires qs != []
  {
    [qs[0].(restart := false)] + qs[1..]
  }

  lemma {:induction false} RestartIsContinued(all: seq<Record>, o: Open, qs: seq<D.Query>)
    requires FromTheStart(o, qs) && qs[0].length > 0
    ensures D.Answers(all, o.context, qs) == D.Answers(all, 0, Continued(qs))
    ensures D.Continuing(Continued(qs))
  {
    assert Continued(qs)[1..] == qs[1..];
    assert D.AnswerTo(all, o.context, qs[0]) == D.AnswerTo(all, 0, Continued(qs)[0]);
    forall k | 0 <= k < |qs| ensures !Continued(qs)[k].indexSpecified && !Continued(qs)[k].restart {
      if k > 0 { assert Continued(qs)[k] == qs[1..][k - 1]; }
    }
  }

  lemma {:induction false} SamePages(replies: seq<Reply>, answers: seq<D.Answer>)
    requires |replies| == |answers|
    requires forall k :: 0 <= k < |replies| ==> replies[k] == Paged(answers[k].status, answers[k].page)
    ensures Pages(replies) == D.Pages(answers)
    decreases |replies|
  {
    if replies != [] { SamePages(replies[1..], answers[1..]); }
  }

  /** Replies that are the answers from a fixed listing enumerate it. */
  lemma {:induction false} CompleteReplies(all: seq<Record>, o: Open, qs: seq<D.Query>, replies: seq<Reply>)
    requires FromTheStart(o, qs) && D.Roomy(all, 0, Continued(qs)) && |qs| > |all| && |replies| == |qs|
    requires var answers := D.Answers(all, o.context, qs);
             forall k :: 0 <= k < |qs| ==> replies[k] == Paged(answers[k].status, answers[k].page)
    ensures Pages(replies) == all
    ensures replies[|qs| - 1].Paged? && replies[|qs| - 1].status == if all == [] then D.NoSuchFile else D.NoMoreFiles
  {
    SamePages(replies, D.Answers(all, o.context, qs));
    RestartIsContinued(all, o, qs);
    D.EnumerationIsComplete(all, Continued(qs));
  }

  /**
    After any queries on an open directory, an enumeration from the start, with room for one entry in each buffer
    and more queries than entries, returns exactly the listing for the pattern, file by file, and ends with
    NO_MORE_FILES, or NO_SUCH_FILE when the listing is empty.
  */
  lemma {:induction false} CachedEnumerationIsComplete(fs: L.FileSystem, c: D.InfoClass, pattern: Option<L.Name>,
                                                       before: seq<D.Query>, qs: seq<D.Query>)
    returns (files: seq<D.FindData>)
    requires L.Fits(Fresh(fs, pattern)) && L.Reported(fs, L.Wanted(pattern)).code == L.Ok
    requires Fresh(fs, pattern).Listed?
    requires FromTheStart(After(fs, c, pattern, OPENED, before), qs)
    requires D.Roomy(Entries(fs, c, pattern), 0, Continued(qs)) && |qs| > |Entries(fs, c, pattern)|
    ensures L.IsListing(fs, pattern, files) && D.Indexed(files)
    ensures var replies := Replies(fs, c, pattern, After(fs, c, pattern, OPENED, before), qs);
            && Pages(replies) == D.Records(c, files)
            && replies[|qs| - 1].Paged?
            && replies[|qs| - 1].status == if files == [] then D.NoSuchFile else D.NoMoreFiles
  {
    files := EntriesAre(fs, c, pattern);
    var o, all := After(fs, c, pattern, OPENED, before), Entries(fs, c, pattern);
    var replies, answers := Replies(fs, c, pattern, o, qs), D.Answers(all, o.context, qs);
    forall k: nat | k < |qs| ensures replies[k] == Paged(answers[k].status, answers[k].page) {
      RepliesAreAnswers(fs, c, pattern, o, qs, k);
    }
    CompleteReplies(all, o, qs, replies);
  }
}
