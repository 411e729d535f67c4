/** Whole paginations: following the tokens page by page
    (pkg/stores/partition/parallel.go, pkg/stores/partition/store.go). */
module Pagination {
  import opened Listing
  import opened ParallelRun
  import opened RunInvariant
  import opened Paging

  // The limit that a request asks for, as the number that its text parses to, if it does.
  function GetLimit(parsed: Option<int>): (limit: int)
    ensures limit > 0
    ensures if parsed.Some? && parsed.value > 0 then limit == parsed.value else limit == 100000
  {
    var limit := match parsed case None => 0 case Some(n) => n;
    if limit <= 0 then 100000 else limit
  }

  // The job that a request with a token starts: the token's limit wins over the request's.
  function Resumed(c: Job, limit: int, token: ListState): Job {
    c.(start := token, limit := if token.limit > 0 then token.limit else limit)
  }

  datatype Page = Page(asked: int, objects: seq<APIObject>, next: Option<ListState>, launchedAll: bool)

  // Some schedule of the job produces this page.
  ghost predicate Produces(c: Job, page: Page) {
    exists sched :: Schedulable(c, Init(c), sched) && IsPage(c, Reached(c, sched), page)
  }

  predicate IsPage(c: Job, s: State, page: Page) {
    && s.feeder.Closed? && page.objects == s.sent && page.next == s.saved
    && page.launchedAll == (First(c) + |s.procs| >= |c.partitions|)
  }

  // Each page but the first resumes the token of the page before it.
  ghost predicate Paginates(c: Job, pages: seq<Page>)
    decreases |pages|
  {
    && pages != []
    && Produces(c, pages[0])
    && (|pages| > 1 ==> pages[0].next.Some? && Paginates(Resumed(c, pages[1].asked, pages[0].next.value), pages[1..]))
  }

  function AllObjects(pages: seq<Page>): seq<APIObject> {
    if pages == [] then [] else pages[0].objects + AllObjects(pages[1..])
  }

  // ----- a listing does not depend on the token that a job starts from -----

  lemma {:induction false} ChainSame(c: Job, d: Job, p: string, cont: string)
    requires d == c.(start := d.start)
    ensures Chain(c, p, cont) == Chain(d, p, cont) && After(c, p, cont) == After(d, p, cont)
    decreases c.rank(p, cont, c.limit)
  {
    if Continues(c, p, cont) {
      ChainSame(c, d, p, Chunk(c, p, cont).next);
    }
  }

  lemma {:induction false} ListingSame(c: Job, d: Job, st: ListState, i: nat)
    requires d == c.(start := d.start)
    ensures ListingFrom(c, st, i) == ListingFrom(d, st, i)
  {
    forall j | 0 <= j < |c.partitions| ensures Rests(c, st)[j] == Rests(d, st)[j] {
      ChainSame(c, d, c.partitions[j], ContFor(st, c.partitions[j]));
    }
    ConcatAgrees(Rests(c, st), Rests(d, st), [], i);
  }

  // ----- one page -----

  lemma {:induction false} PageExact(c: Job, page: Page)
    requires Sound(c) && ChunksWithin(c) && Produces(c, page)
    ensures page.next.Some? ==>
              && page.objects + Denote(c, page.next.value) == Denote(c, c.start)
              && |page.objects| == c.limit == page.next.value.limit && Denote(c, page.next.value) != []
    ensures page.next.None? ==> page.objects <= Denote(c, c.start)
    ensures page.next.None? && page.launchedAll ==> page.objects == Denote(c, c.start)
    ensures page.next.None? && !page.launchedAll && c.limit > 0 ==> |page.objects| == c.limit
  {
    var sched :| Schedulable(c, Init(c), sched) && IsPage(c, Reached(c, sched), page);
    BoundedChunksNeverCoincide(c);
    if page.next.Some? {
      ExactResume(c, sched);
    } else {
      CompleteWithoutToken(c, sched);
      OrderUnderAllInterleavings(c, sched);
    }
  }

  lemma {:induction false} ResumedSame(c: Job, asked: int, token: ListState)
    requires token.limit == c.limit && c.limit > 0
    ensures Resumed(c, asked, token) == c.(start := token)
    ensures Sound(c) ==> Sound(Resumed(c, asked, token))
    ensures ChunksWithin(c) ==> ChunksWithin(Resumed(c, asked, token))
    ensures Denote(Resumed(c, asked, token), token) == Denote(c, token)
  {
    var d := Resumed(c, asked, token);
    assert ChunksWithin(c) ==> forall p, cont :: Chunk(c, p, cont) == Chunk(d, p, cont);
    ListingSame(c, d, token, ResumeIndex(c.partitions, token.partitionName));
  }

  // ----- whole paginations -----

  // The listing that is left after a page sequence.
  function Left(c: Job, last: Page): seq<APIObject> {
    if last.next.Some? then Denote(c, last.next.value) else []
  }

  lemma {:induction false} TailSame(c: Job, pages: seq<Page>)
    requires |pages| > 1 && pages[0].next.Some? && pages[0].next.value.limit == c.limit && c.limit > 0
    ensures var d := Resumed(c, pages[1].asked, pages[0].next.value);
            && pages[1..] != [] && pages[1..][|pages| - 2] == pages[|pages| - 1]
            && Left(d, pages[|pages| - 1]) == Left(c, pages[|pages| - 1])
  {
    var last := pages[|pages| - 1];
    ResumedSame(c, pages[1].asked, pages[0].next.value);
    if last.next.Some? {
      ListingSame(c, Resumed(c, pages[1].asked, pages[0].next.value), last.next.value,
                  ResumeIndex(c.partitions, last.next.value.partitionName));
    }
  }

  /** Following the tokens never repeats, drops or reorders an object, whatever the schedules of
      the pages and whatever limits the later requests ask for. */
  lemma {:induction false} PaginationExact(c: Job, pages: seq<Page>)
    requires Sound(c) && ChunksWithin(c) && c.limit > 0 && Paginates(c, pages)
    ensures var last := pages[|pages| - 1];
            && (last.next.Some? || last.launchedAll ==> AllObjects(pages) + Left(c, last) == Denote(c, c.start))
            && AllObjects(pages) <= Denote(c, c.start)
    decreases |pages|
  {
    PageExact(c, pages[0]);
    if |pages| == 1 {
      assert AllObjects(pages) == pages[0].objects + [];
    } else {
      var token := pages[0].next.value;
      ResumedSame(c, pages[1].asked, token);
      TailSame(c, pages);
      PaginationExact(Resumed(c, pages[1].asked, token), pages[1..]);
      Glue(pages[0].objects, AllObjects(pages[1..]), Left(c, pages[|pages| - 1]), Denote(c, token), Denote(c, c.start));
    }
  }

  lemma {:induction false} Glue(a: seq<APIObject>, b: seq<APIObject>, left: seq<APIObject>, rest: seq<APIObject>,
        whole: seq<APIObject>)
    requires a + rest == whole
    ensures b <= rest ==> a + b <= whole
    ensures b + left == rest ==> (a + b) + left == whole
  {
  }

  /** Each page with a token is exactly full, so the size of the listing bounds the pages. */
  lemma {:induction false} PagesBounded(c: Job, pages: seq<Page>)
    requires Sound(c) && ChunksWithin(c) && c.limit > 0 && Paginates(c, pages)
    ensures (|pages| - 1) * c.limit <= |AllObjects(pages)|
    ensures |pages| > 1 ==> (|pages| - 1) * c.limit < |Denote(c, c.start)|
    decreases |pages|
  {
    PageExact(c, pages[0]);
    if |pages| > 1 {
      var token := pages[0].next.value;
      ResumedSame(c, pages[1].asked, token);
      PagesBounded(Resumed(c, pages[1].asked, token), pages[1..]);
      PageCount(|pages|, c.limit, |AllObjects(pages[1..])|, |Denote(c, token)|);
    }
  }

  lemma {:induction false} PageCount(n: int, limit: int, sent: int, rest: int)
    requires n > 1 && limit > 0 && (n - 2) * limit <= sent && 0 < rest
    requires n > 2 ==> (n - 2) * limit < rest
    ensures (n - 1) * limit <= limit + sent && (n - 1) * limit < limit + rest
  {
    assert (n - 1) * limit == (n - 2) * limit + limit;
  }

  /** Following the tokens always comes to a page without one. */
  lemma {:induction false} PaginationEnds(c: Job) returns (pages: seq<Page>)
    requires Sound(c) && ChunksWithin(c) && c.limit > 0 && 3 <= c.concurrency
    ensures Paginates(c, pages) && pages[|pages| - 1].next.None?
    decreases |Denote(c, c.start)|
  {
    InitInv(c);
    var sched := Finish(c, Init(c));
    var s := Reached(c, sched);
    var page := Page(c.limit, s.sent, s.saved, First(c) + |s.procs| >= |c.partitions|);
    assert IsPage(c, s, page);
    PageExact(c, page);
    if page.next.None? {
      pages := [page];
    } else {
      var token := page.next.value;
      ResumedSame(c, c.limit, token);
      var rest := PaginationEnds(Resumed(c, c.limit, token));
      ResumedSame(c, rest[0].asked, token);
      pages := [page] + rest;
      assert pages[1..] == rest;
    }
  }

  // ----- the fresh token stands for the whole listing -----

  function WholeListing(c: Job, i: nat): seq<APIObject>
    decreases |c.partitions| - i
  {
    if i >= |c.partitions| then [] else Chain(c, c.partitions[i], "") + WholeListing(c, i + 1)
  }

  lemma {:induction false} FreshFrom(c: Job, i: nat)
    ensures ListingFrom(c, FRESH, i) == WholeListing(c, i)
    decreases |c.partitions| - i
  {
    if i < |c.partitions| {
      ListingStep(c, FRESH, i);
      FreshFrom(c, i + 1);
    }
  }

  /** A whole pagination that starts without a token and ends in a page that launched every
      partition is the plain concatenation of all partitions. */
  lemma {:induction false} WholePagination(c: Job, pages: seq<Page>)
    requires Sound(c) && ChunksWithin(c) && c.limit > 0 && c.start == FRESH && Paginates(c, pages)
    requires pages[|pages| - 1].next.None? && pages[|pages| - 1].launchedAll
    ensures AllObjects(pages) == WholeListing(c, 0)
    ensures |pages| > 1 ==> (|pages| - 1) * c.limit < |WholeListing(c, 0)|
  {
    PaginationExact(c, pages);
    PagesBounded(c, pages);
    FreshFrom(c, 0);
  }
}
