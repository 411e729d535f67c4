/** Lists that answer with more than they were asked for: which objects a page repeats, and when
    following the tokens never ends (pkg/stores/partition/parallel.go:157-172). */
module EndlessPages {
  import opened Listing
  import opened ParallelRun
  import opened RunInvariant
  import opened Paging
  import opened Pagination

  // ----- the chunk that a page starts in -----

  function FirstPartition(c: Job): string
    requires First(c) < |c.partitions|
  {
    c.partitions[First(c)]
  }

  function FirstObjects(c: Job): seq<APIObject>
    requires First(c) < |c.partitions|
  {
    Chunk(c, FirstPartition(c), ContFor(c.start, FirstPartition(c))).objects
  }

  // What a page has to send of that chunk.
  function FirstDue(c: Job): seq<APIObject>
    requires First(c) < |c.partitions|
  {
    Skip(c.start, FirstPartition(c), FirstObjects(c))
  }

  predicate FirstOverflows(c: Job) {
    First(c) < |c.partitions| && |FirstDue(c)| > c.limit > 0
  }

  // The token names the chunk that the page started in, at the page's limit.
  predicate NamesFirst(c: Job, token: ListState)
    requires First(c) < |c.partitions|
  {
    && token.partitionName == FirstPartition(c) && token.cont == ContFor(c.start, FirstPartition(c))
    && token.offset == c.limit == token.limit
  }

  // Until its first chunk is booked, the first partition has sent nothing or a full page.
  ghost predicate AtFirst(c: Job, s: State)
    requires FirstOverflows(c) && s.procs != []
  {
    match s.procs[0]
    case Fetching(st) => st == c.start && s.sent == []
    case Waiting(st, _) => st == c.start && s.sent == []
    case InTurn(st, _) => st == c.start && s.sent == []
    case Sent(st, _, _, overflow) =>
      overflow && s.sent == FirstDue(c)[..c.limit] &&
          ContFor(st, FirstPartition(c)) == ContFor(c.start, FirstPartition(c))
    case _ => false
  }

  ghost predicate FirstInv(c: Job, s: State)
    requires FirstOverflows(c)
  {
    match s.saved
    case None => s.capacity == c.limit && (if s.procs == [] then s.sent == [] else AtFirst(c, s))
    case Some(token) => NamesFirst(c, token) && s.sent == FirstDue(c)[..c.limit]
  }

  // As long as the first partition is open, the others can do no more than their first fetch.
  lemma {:induction false} OthersOnlyFetch(c: Job, s: State, k: nat)
    requires Inv(c, s) && 0 < k && Enabled(c, s, Partition(k)) && !ClosedNext(s.procs[0])
    ensures s.procs[k].Fetching?
  {
    assert ClosedNext(s.procs[0]) || Pristine(c, s.procs[k]);
    assert k > 1 ==> ClosedNext(s.procs[0]) || Pristine(c, s.procs[k - 1]);
  }

  lemma {:induction false} FirstMoves(c: Job, s: State)
    requires Sound(c) && Inv(c, s) && FirstOverflows(c) && FirstInv(c, s) && s.saved.None? &&
             Enabled(c, s, Partition(0))
    ensures FirstInv(c, PartitionStep(c, s, 0))
  {
    assert Faithful(c, FirstPartition(c), s.procs[0]);
    assert s.procs[0].InTurn? ==> [] + FirstDue(c)[..c.limit] == FirstDue(c)[..c.limit];
  }

  lemma {:induction false} FirstStep(c: Job, s: State, a: Actor)
    requires Sound(c) && Inv(c, s) && FirstOverflows(c) && FirstInv(c, s) && Enabled(c, s, a)
    ensures FirstInv(c, Step(c, s, a))
  {
    if a.Partition? && s.saved.None? {
      if a.k == 0 {
        FirstMoves(c, s);
      } else {
        OthersOnlyFetch(c, s, a.k);
      }
    }
  }

  lemma {:induction false} FirstRun(c: Job, s: State, sched: seq<Actor>)
    requires Sound(c) && Inv(c, s) && FirstOverflows(c) && FirstInv(c, s) && Schedulable(c, s, sched)
    ensures FirstInv(c, Exec(c, s, sched))
    decreases |sched|
  {
    if sched != [] {
      FirstStep(c, s, sched[0]);
      StepKeepsInv(c, s, sched[0]);
      FirstRun(c, Step(c, s, sched[0]), sched[1..]);
    }
  }

  /** A page whose first chunk is over the limit sends the front of that chunk, and ends in a token
      that names the same chunk again. */
  lemma {:induction false} OverflowingPage(c: Job, page: Page)
    requires Sound(c) && FirstOverflows(c) && Produces(c, page)
    ensures page.objects == FirstDue(c)[..c.limit]
    ensures page.next.Some? && NamesFirst(c, page.next.value)
  {
    var sched :| Schedulable(c, Init(c), sched) && IsPage(c, Reached(c, sched), page);
    InitInv(c);
    FirstRun(c, Init(c), sched);
    RunKeepsInv(c, Init(c), sched);
    var s := Reached(c, sched);
    assert s.procs != [] ==> s.procs[0] in s.procs;
  }

  // ----- which objects a page repeats -----

  // What follows the first chunk in the listing.
  function AfterFirst(c: Job): seq<APIObject>
    requires First(c) < |c.partitions|
  {
    After(c, FirstPartition(c), ContFor(c.start, FirstPartition(c))) + ListingFrom(c, c.start, First(c) + 1)
  }

  lemma {:induction false} StartDenotes(c: Job)
    requires First(c) < |c.partitions|
    ensures Denote(c, c.start) == FirstDue(c) + AfterFirst(c)
  {
    ListingStep(c, c.start, First(c));
    Assoc([], FirstDue(c), After(c, FirstPartition(c), ContFor(c.start, FirstPartition(c))),
          ListingFrom(c, c.start, First(c) + 1));
  }

  lemma {:induction false} TokenDenotes(c: Job, token: ListState)
    requires WellNamed(c.partitions) && First(c) < |c.partitions| && NamesFirst(c, token)
    ensures Denote(c, token) == Skip(token, FirstPartition(c), FirstObjects(c)) + AfterFirst(c)
  {
    TokenMeaning(c, First(c), token);
    Assoc([], Skip(token, FirstPartition(c), FirstObjects(c)), After(c, FirstPartition(c), token.cont),
          ListingFrom(c, c.start, First(c) + 1));
  }

  lemma {:induction false} Shifted(objects: seq<APIObject>, offset: nat, limit: nat, after: seq<APIObject>)
    requires offset + limit <= |objects|
    ensures objects[limit..] + after == objects[limit..limit + offset] + (objects[offset..] + after)[limit..]
  {
    assert objects[limit..] == objects[limit..limit + offset] + objects[offset..][limit..];
  }

  /** The coinciding chunk always ends in a token, and what that token stands for is the rest of the
      listing with `offset` objects of the chunk before it, which the page or the pages before have sent. */
  lemma {:induction false} CoincidingPageRepeats(c: Job, page: Page)
    requires Sound(c) && Coincides(c) && c.limit > 0 && Produces(c, page)
    ensures page.objects == FirstObjects(c)[c.start.offset..c.start.offset + c.limit]
    ensures page.objects == Denote(c, c.start)[..c.limit]
    ensures page.next.Some? && NamesFirst(c, page.next.value) && c.start.offset > 0
    ensures Denote(c, page.next.value) ==
            FirstObjects(c)[c.limit..c.limit + c.start.offset] + Denote(c, c.start)[c.limit..]
  {
    OverflowingPage(c, page);
    var token, objects := page.next.value, FirstObjects(c);
    StartDenotes(c);
    TokenDenotes(c, token);
    Shifted(objects, c.start.offset, c.limit, AfterFirst(c));
  }

  // ----- when the pages never end -----

  // The chunk that the page starts in holds more than two pages.
  predicate BigFirst(c: Job) {
    First(c) < |c.partitions| && |FirstObjects(c)| > 2 * c.limit
  }

  // The offset of an issued token never exceeds its limit.
  predicate Issued(c: Job) {
    0 <= c.start.offset <= c.limit && c.limit > 0
  }

  lemma {:induction false} BigNames(c: Job, token: ListState)
    requires Sound(c) && First(c) < |c.partitions| && NamesFirst(c, token) && c.limit > 0
    ensures First(c.(start := token)) == First(c) && FirstObjects(c.(start := token)) == FirstObjects(c)
    ensures Sound(c.(start := token))
  {
    ResumeIndexOf(c.partitions, First(c));
  }

  /** From a token into a chunk of more than two pages, every page ends in a token, and all pages
      after the first are the same. */
  lemma {:induction false} BigNeverEnds(c: Job, pages: seq<Page>, k: nat)
    requires Sound(c) && Issued(c) && BigFirst(c) && Paginates(c, pages) && k < |pages|
    ensures pages[k].next.Some? && NamesFirst(c, pages[k].next.value)
    ensures pages[k].objects == if k == 0 then FirstDue(c)[..c.limit] else FirstObjects(c)[c.limit..2 * c.limit]
    decreases k
  {
    OverflowingPage(c, pages[0]);
    if k > 0 {
      var token := pages[0].next.value;
      var d := Resumed(c, pages[1].asked, token);
      BigNames(c, token);
      BigNeverEnds(d, pages[1..], k - 1);
      assert FirstDue(d)[..d.limit] == FirstObjects(c)[c.limit..2 * c.limit];
    }
  }

  predicate InBounds(c: Job, s: State) {
    s.capacity <= c.limit && (s.saved.Some? ==> 0 <= s.saved.value.offset <= c.limit)
  }

  lemma {:induction false} StepInBounds(c: Job, s: State, a: Actor)
    requires Conserved(c, s) && Enabled(c, s, a) && c.limit > 0 && InBounds(c, s)
    ensures InBounds(c, Step(c, s, a))
  {
  }

  lemma {:induction false} RunInBounds(c: Job, s: State, sched: seq<Actor>)
    requires Sound(c) && Inv(c, s) && Schedulable(c, s, sched) && c.limit > 0 && InBounds(c, s)
    ensures InBounds(c, Exec(c, s, sched))
    decreases |sched|
  {
    if sched != [] {
      StepInBounds(c, s, sched[0]);
      StepKeepsInv(c, s, sched[0]);
      RunInBounds(c, Step(c, s, sched[0]), sched[1..]);
    }
  }

  lemma {:induction false} TokenIssued(c: Job, page: Page)
    requires Sound(c) && c.limit > 0 && Produces(c, page) && page.next.Some?
    ensures page.next.value.limit == c.limit == |page.objects| && Issued(c.(start := page.next.value))
    ensures Sound(c.(start := page.next.value))
  {
    var sched :| Schedulable(c, Init(c), sched) && IsPage(c, Reached(c, sched), page);
    InitInv(c);
    RunInBounds(c, Init(c), sched);
    ExactResume(c, sched);
  }

  // A token into a smaller chunk brings the listing closer to its end.
  lemma {:induction false} PageShrinks(c: Job, page: Page)
    requires Sound(c) && Issued(c) && !BigFirst(c) && Produces(c, page) && page.next.Some?
    ensures |Denote(c, page.next.value)| < |Denote(c, c.start)|
  {
    if Coincides(c) {
      CoincidingPageRepeats(c, page);
      assert |page.objects| == c.limit;
    } else {
      var sched :| Schedulable(c, Init(c), sched) && IsPage(c, Reached(c, sched), page);
      ExactResume(c, sched);
    }
  }

  // The pages lead to a token, and this is the job it starts.
  ghost predicate LeadsTo(c: Job, pages: seq<Page>, d: Job) {
    Paginates(c, pages) && pages[|pages| - 1].next.Some? && d == c.(start := pages[|pages| - 1].next.value)
  }

  // The job's pages can come to one without a token.
  ghost predicate CanEnd(c: Job) {
    exists pages: seq<Page> :: Paginates(c, pages) && pages[|pages| - 1].next.None?
  }

  lemma {:induction false} LeadsOn(c: Job, pages: seq<Page>, d: Job, page: Page)
    requires Sound(c) && c.limit > 0 && LeadsTo(c, pages, d) && Produces(d, page)
    ensures Paginates(c, pages + [page])
    decreases |pages|
  {
    TokenIssued(c, pages[0]);
    var more := pages + [page];
    var e := Resumed(c, more[1].asked, pages[0].next.value);
    if |pages| == 1 {
      assert more[1..] == [page];
    } else {
      assert more[1..] == pages[1..] + [page];
      assert LeadsTo(e, pages[1..], d);
      LeadsOn(e, pages[1..], d, page);
    }
  }

  lemma {:induction false} LedIssued(c: Job, pages: seq<Page>, d: Job)
    requires Sound(c) && c.limit > 0 && LeadsTo(c, pages, d)
    ensures Sound(d) && Issued(d) && d.limit == c.limit && d.start.limit == d.limit && d.concurrency == c.concurrency
    decreases |pages|
  {
    TokenIssued(c, pages[0]);
    if |pages| > 1 {
      var e := Resumed(c, pages[1].asked, pages[0].next.value);
      assert LeadsTo(e, pages[1..], d);
      LedIssued(e, pages[1..], d);
    }
  }

  lemma {:induction false} SomePage(c: Job) returns (page: Page)
    requires Sound(c) && 3 <= c.concurrency
    ensures Produces(c, page)
  {
    InitInv(c);
    var sched := Finish(c, Init(c));
    var s := Reached(c, sched);
    page := Page(c.limit, s.sent, s.saved, First(c) + |s.procs| >= |c.partitions|);
    assert IsPage(c, s, page);
  }

  // No token that the pages lead to is into a chunk of more than two pages.
  ghost predicate AvoidsBig(c: Job) {
    forall pages, d :: LeadsTo(c, pages, d) ==> !BigFirst(d)
  }

  lemma {:induction false} EndsFrom(c: Job, pages: seq<Page>, d: Job) returns (rest: seq<Page>)
    requires Sound(c) && c.limit > 0 && 3 <= c.concurrency && AvoidsBig(c) && LeadsTo(c, pages, d)
    ensures Paginates(d, rest) && rest[|rest| - 1].next.None?
    decreases |Denote(d, d.start)|
  {
    LedIssued(c, pages, d);
    var page := SomePage(d);
    rest := [page];
    if page.next.Some? {
      var token := page.next.value;
      LeadsOn(c, pages, d, page);
      TokenIssued(d, page);
      PageShrinks(d, page);
      var e := d.(start := token);
      ListingSame(d, e, token, ResumeIndex(d.partitions, token.partitionName));
      var more := EndsFrom(c, pages + [page], e);
      rest := [page] + more;
      assert rest[1..] == more && Resumed(d, more[0].asked, token) == e;
    }
  }

  /** Without any bound on the answers: after every sequence of pages the rest can be read to its end
      if and only if no token on the way is into a chunk of more than twice the limit. */
  lemma {:induction false} EndsExactly(c: Job)
    requires Sound(c) && c.limit > 0 && 3 <= c.concurrency
    ensures (forall pages, d :: LeadsTo(c, pages, d) ==> CanEnd(d)) <==> AvoidsBig(c)
  {
    if AvoidsBig(c) {
      forall pages, d | LeadsTo(c, pages, d) ensures CanEnd(d) {
        var rest := EndsFrom(c, pages, d);
      }
    } else {
      var pages, d :| LeadsTo(c, pages, d) && BigFirst(d);
      LedIssued(c, pages, d);
      forall more: seq<Page> | Paginates(d, more) ensures more[|more| - 1].next.Some? {
        BigNeverEnds(d, more, |more| - 1);
      }
    }
  }

  /** In particular answers of up to twice the limit are harmless to the end of the pages. */
  lemma {:induction false} SmallChunksEnd(c: Job)
    requires Sound(c) && c.limit > 0 && 3 <= c.concurrency
    requires forall p, cont :: |Chunk(c, p, cont).objects| <= 2 * c.limit
    ensures CanEnd(c)
  {
    forall pages, d | LeadsTo(c, pages, d) ensures !BigFirst(d) {
      LedIssued(c, pages, d);
      assert forall p, cont :: Chunk(d, p, cont) == Chunk(c, p, cont);
    }
    var page := SomePage(c);
    if page.next.None? {
      assert Paginates(c, [page]);
    } else {
      TokenIssued(c, page);
      var d := c.(start := page.next.value);
      assert LeadsTo(c, [page], d);
      var rest := EndsFrom(c, [page], d);
      var pages := [page] + rest;
      assert pages[1..] == rest && Resumed(c, rest[0].asked, page.next.value) == d;
      assert Paginates(c, pages);
    }
  }

  // Three objects, whatever the limit, which is one.
  function ThreeAtOnce(): Job {
    var list := (p: string, cont: string, rev: string, limit: int) =>
      APIObjectList([APIObject(p, "x"), APIObject(p, "y"), APIObject(p, "z")], "1", "");
    Job(list, (p: string, cont: string, limit: int) => 0, 3, ["a"], FRESH, 1)
  }

  /** A list that ignores its limit: the second page's chunk coincides, and no page shows the third
      object or comes without a token. */
  lemma {:induction false} ThirdObjectIsNeverShown(pages: seq<Page>, k: nat)
    requires Paginates(ThreeAtOnce(), pages) && k < |pages|
    ensures Sound(ThreeAtOnce()) && pages[k].next.Some? && Coincides(ThreeAtOnce().(start := pages[k].next.value))
    ensures pages[k].objects == [APIObject("a", if k == 0 then "x" else "y")]
  {
    var c := ThreeAtOnce();
    assert First(c) == 0 && FirstObjects(c) == [APIObject("a", "x"), APIObject("a", "y"), APIObject("a", "z")];
    BigNeverEnds(c, pages, k);
    BigNames(c, pages[k].next.value);
  }

  /** Such a page exists, and its token coincides. */
  lemma {:induction false} ATokenCoincides()
    ensures exists page :: Produces(ThreeAtOnce(), page) &&
                           page.next.Some? && Coincides(ThreeAtOnce().(start := page.next.value))
  {
    var page := SomePage(ThreeAtOnce());
    assert Paginates(ThreeAtOnce(), [page]);
    ThirdObjectIsNeverShown([page], 0);
  }
}
