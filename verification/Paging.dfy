/** The main results about one page: what is sent, what the token means, and that every run ends. */
module Paging {
  import opened Listing
  import opened ParallelRun
  import opened RunInvariant

  // The state that a schedule leads to.
  function Reached(c: Job, sched: seq<Actor>): State
    requires Schedulable(c, Init(c), sched)
  {
    Exec(c, Init(c), sched)
  }

  ghost predicate Sound(c: Job) {
    Unchanging(c) && WellNamed(c.partitions)
  }

  lemma {:induction false} ReachedInv(c: Job, sched: seq<Actor>)
    requires Sound(c) && Schedulable(c, Init(c), sched)
    ensures Inv(c, Reached(c, sched))
  {
    InitInv(c);
    RunKeepsInv(c, Init(c), sched);
  }

  // ----- order -----

  // Between having waited for its turn and its bookkeeping.
  predicate InsideTurn(p: Process) {
    p.InTurn? || p.Sent?
  }

  /** Under every interleaving the output is a prefix of the sequential listing, and at most one
      process is inside its turn. */
  lemma {:induction false} OrderUnderAllInterleavings(c: Job, sched: seq<Actor>)
    requires Sound(c) && Schedulable(c, Init(c), sched)
    ensures var s := Reached(c, sched);
            && s.sent <= Denote(c, c.start)
            && forall j, k :: 0 <= j < k < |s.procs| ==> !(InsideTurn(s.procs[j]) && InsideTurn(s.procs[k]))
  {
    ReachedInv(c, sched);
    var s := Reached(c, sched);
    assert s.saved.None? ==> Denote(c, c.start) == s.sent + Owed(c, s.procs, 0);
    forall j, k | 0 <= j < k < |s.procs| ensures !(InsideTurn(s.procs[j]) && InsideTurn(s.procs[k])) {
      assert ClosedNext(s.procs[j]) || Pristine(c, s.procs[k]);
    }
  }

  // ----- exact resume -----

  /** Whatever the schedule, a saved token continues the output exactly where it was cut, if and
      only if the resumed chunk was not both cut by the old offset and over the page. */
  lemma {:induction false} ExactResume(c: Job, sched: seq<Actor>)
    requires Sound(c) && Schedulable(c, Init(c), sched) && Reached(c, sched).saved.Some?
    ensures var s := Reached(c, sched);
            && (s.sent + Denote(c, s.saved.value) == Denote(c, c.start) <==> !Coincides(c))
            && |s.sent| == c.limit == s.saved.value.limit
            && Denote(c, s.saved.value) != []
  {
    ReachedInv(c, sched);
  }

  // No answer is longer than the limit it was asked with.
  ghost predicate ChunksWithin(c: Job) {
    forall p, cont :: |Chunk(c, p, cont).objects| <= c.limit
  }

  lemma {:induction false} BoundedChunksNeverCoincide(c: Job)
    requires ChunksWithin(c)
    ensures !Coincides(c)
  {
  }

  // ----- completeness -----

  /** A run that ends without a token has sent everything but the partitions it never launched;
      it leaves some unlaunched only if the page is exactly full. */
  lemma {:induction false} CompleteWithoutToken(c: Job, sched: seq<Actor>)
    requires Sound(c) && Schedulable(c, Init(c), sched)
    requires Reached(c, sched).feeder.Closed? && Reached(c, sched).saved.None?
    ensures var s := Reached(c, sched); var next := First(c) + |s.procs|;
            && s.sent + ListingFrom(c, c.start, next) == Denote(c, c.start)
            && next <= |c.partitions|
            && (next < |c.partitions| && c.limit > 0 ==> |s.sent| == c.limit)
            && (s.procs == [] ==> s.sent == [])
            && (s.procs == [] && First(c) < |c.partitions| ==> c.limit <= 0)
  {
    ReachedInv(c, sched);
    var s := Reached(c, sched);
    forall k | 0 <= k < |s.procs| ensures s.procs[k].Finished? {
      assert s.procs[k] in s.procs;
    }
    OwedAtEnd(c, s.procs);
    assert NoneSent(s.procs);
  }

  // ----- conservation -----

  lemma {:induction false} Conservation(c: Job, sched: seq<Actor>)
    requires Sound(c) && Schedulable(c, Init(c), sched)
    ensures var s := Reached(c, sched);
            && (forall k :: 0 <= k < |s.procs| && s.procs[k].Sent? ==>
                |s.sent| + s.capacity == c.limit + s.procs[k].count)
            && (NoneSent(s.procs) ==> |s.sent| + s.capacity == c.limit)
            && (0 <= c.limit ==> |s.sent| <= c.limit)
  {
    ReachedInv(c, sched);
    var s := Reached(c, sched);
    if !NoneSent(s.procs) {
      var k :| 0 <= k < |s.procs| && s.procs[k].Sent?;
      assert s.procs[k].count <= s.capacity;
    }
  }

  // ----- the revision -----

  // All answers are of one revision.
  ghost predicate OneRevision(c: Job, revision: string) {
    forall p, cont :: Chunk(c, p, cont).revision == revision
  }

  // The revision is known from the first send on, and a token carries it.
  ghost predicate RevisionOk(s: State, revision: string) {
    && (s.revision == "" || s.revision == revision)
    && (s.sent != [] ==> s.revision == revision)
    && (forall p :: p in s.procs && p.Sent? ==> s.revision == revision && p.list.revision == revision)
    && (s.saved.Some? ==> s.revision == revision == s.saved.value.revision)
  }

  lemma {:induction false} StepKeepsRevision(c: Job, s: State, a: Actor, revision: string)
    requires OneRevision(c, revision) && AllFaithful(c, s.procs) && RevisionOk(s, revision) && Enabled(c, s, a)
    ensures RevisionOk(Step(c, s, a), revision)
  {
    if a.Partition? {
      var proc := s.procs[a.k];
      assert Faithful(c, c.partitions[First(c) + a.k], proc);
      assert proc in s.procs;
      var q := OneMoves(c, s, a.k);
      forall p | p in s.procs[a.k := q] ensures p == q || p in s.procs {
      }
    }
  }

  /** When all answers are of one revision, a page that shows or saves anything is of that revision,
      and so is its token. */
  lemma {:induction false} RevisionIs(c: Job, s: State, sched: seq<Actor>, revision: string)
    requires Sound(c) && OneRevision(c, revision) && Inv(c, s) && RevisionOk(s, revision) && Schedulable(c, s, sched)
    ensures RevisionOk(Exec(c, s, sched), revision)
    decreases |sched|
  {
    if sched != [] {
      StepKeepsRevision(c, s, sched[0], revision);
      StepKeepsInv(c, s, sched[0]);
      RevisionIs(c, Step(c, s, sched[0]), sched[1..], revision);
    }
  }

  // ----- tickets, deadlock and termination -----

  lemma {:induction false} TicketsBounded(c: Job, sched: seq<Actor>)
    requires Sound(c) && Schedulable(c, Init(c), sched) && 0 <= c.concurrency
    ensures var s := Reached(c, sched);
            && 0 <= s.free && c.concurrency - s.free == Tickets(c) * Unfinished(s.procs) <= c.concurrency
            && (c.start.revision == "" && c.concurrency == 3 ==> Unfinished(s.procs) <= 1)
  {
    ReachedInv(c, sched);
  }

  lemma {:induction false} AllFinished(procs: seq<Process>)
    requires forall p :: p in procs ==> p.Finished?
    ensures Unfinished(procs) == 0
  {
    if procs != [] {
      assert procs[0] in procs;
      AllFinished(procs[1..]);
    }
  }

  // The lowest unfinished process always has its turn, and so a step.
  lemma {:induction false} LowestCanStep(c: Job, s: State, k: nat)
    requires Inv(c, s) && k < |s.procs| && !s.procs[k].Finished?
    requires forall j :: 0 <= j < k ==> s.procs[j].Finished?
    ensures Enabled(c, s, Partition(k))
  {
  }

  // What a run needs so that it cannot get stuck before its first list.
  predicate CanLaunch(c: Job) {
    Tickets(c) <= c.concurrency || c.limit <= 0 || First(c) >= |c.partitions|
  }

  lemma {:induction false} SomeoneCanStep(c: Job, s: State) returns (a: Actor)
    requires Inv(c, s) && !s.feeder.Closed? && CanLaunch(c)
    ensures Enabled(c, s, a)
  {
    if exists k :: 0 <= k < |s.procs| && !s.procs[k].Finished? {
      var k: nat :| k < |s.procs| && !s.procs[k].Finished?;
      while exists j :: 0 <= j < k && !s.procs[j].Finished?
        invariant 0 <= k < |s.procs| && !s.procs[k].Finished?
        decreases k
      {
        var j: nat :| j < k && !s.procs[j].Finished?;
        k := j;
      }
      LowestCanStep(c, s, k);
      a := Partition(k);
    } else {
      AllFinished(s.procs);
      a := Feed;
    }
  }

  // Too few tickets: the feeder waits for ever before its first launch.
  lemma {:induction false} NeverLaunches(c: Job, s: State, sched: seq<Actor>)
    requires Schedulable(c, s, sched) && !CanLaunch(c)
    requires s.procs == [] && s.free == c.concurrency && s.capacity == c.limit &&
             (s.feeder.Checking? || s.feeder.Acquiring?)
    ensures !Exec(c, s, sched).feeder.Closed?
    decreases |sched|
  {
    if sched != [] {
      NeverLaunches(c, Step(c, s, sched[0]), sched[1..]);
    }
  }

  // ----- a bound on the number of steps -----

  function ProcWork(c: Job, p: string, proc: Process): int {
    match proc
    case Fetching(st) => 4 * ChunkCount(c, p, ContFor(st, p)) + 2
    case Waiting(st, _) => 4 * ChunkCount(c, p, ContFor(st, p)) + 1
    case InTurn(st, _) => 4 * ChunkCount(c, p, ContFor(st, p))
    case Sent(st, _, _, _) => 4 * ChunkCount(c, p, ContFor(st, p)) - 1
    case Returning => 2
    case Releasing => 1
    case Finished => 0
  }

  function UnlaunchedWork(c: Job, i: nat): nat
    decreases |c.partitions| - i
  {
    if i >= |c.partitions| then 0
    else 4 * ChunkCount(c, c.partitions[i], ContFor(c.start, c.partitions[i])) + 4 + UnlaunchedWork(c, i + 1)
  }

  function ProcsWork(c: Job, procs: seq<Process>, k: nat): int
    decreases |procs| - k
  {
    if k >= |procs| || First(c) + k >= |c.partitions| then UnlaunchedWork(c, First(c) + k)
    else ProcWork(c, c.partitions[First(c) + k], procs[k]) + ProcsWork(c, procs, k + 1)
  }

  function Work(c: Job, s: State): int {
    ProcsWork(c, s.procs, 0) + match s.feeder case Checking => 2 case Acquiring => 1 case Draining => 1 case Closed => 0
  }

  lemma {:induction false} WorkUpdate(c: Job, procs: seq<Process>, k: nat, i: nat, q: Process)
    requires i <= k < |procs| && First(c) + |procs| <= |c.partitions|
    ensures ProcsWork(c, procs[k := q], i) - ProcsWork(c, procs, i)
            == ProcWork(c, c.partitions[First(c) + k], q) - ProcWork(c, c.partitions[First(c) + k], procs[k])
    decreases k - i
  {
    if i < k {
      WorkUpdate(c, procs, k, i + 1, q);
    } else {
      WorkBeyond(c, procs, procs[k := q], k + 1);
    }
  }

  lemma {:induction false} WorkBeyond(c: Job, a: seq<Process>, b: seq<Process>, k: nat)
    requires |a| == |b| && forall j :: k <= j < |a| ==> a[j] == b[j]
    ensures ProcsWork(c, a, k) == ProcsWork(c, b, k)
    decreases |a| - k
  {
    if k < |a| {
      WorkBeyond(c, a, b, k + 1);
    }
  }

  lemma {:induction false} WorkLaunch(c: Job, procs: seq<Process>, k: nat)
    requires k <= |procs| && First(c) + |procs| < |c.partitions|
    ensures ProcsWork(c, procs + [Fetching(c.start)], k) == ProcsWork(c, procs, k) - 2
    decreases |procs| - k
  {
    if k < |procs| {
      WorkLaunch(c, procs, k + 1);
    } else {
      assert ProcsWork(c, procs + [Fetching(c.start)], k + 1) == UnlaunchedWork(c, First(c) + k + 1);
    }
  }

  lemma {:induction false} WorkNatural(c: Job, procs: seq<Process>, k: nat)
    ensures 0 <= ProcsWork(c, procs, k)
    decreases |procs| - k
  {
    if k < |procs| {
      WorkNatural(c, procs, k + 1);
    }
  }

  lemma {:induction false} ProcWorkFalls(c: Job, s: State, k: nat)
    requires Unchanging(c) && AllFaithful(c, s.procs) && Enabled(c, s, Partition(k))
    ensures var p := c.partitions[First(c) +
            k]; ProcWork(c, p, PartitionStep(c, s, k).procs[k]) < ProcWork(c, p, s.procs[k])
  {
    var p, proc := c.partitions[First(c) + k], s.procs[k];
    assert Faithful(c, p, proc);
    if proc.Sent? && !proc.overflow {
      assert proc.list.next != "" ==> Continues(c, p, ContFor(proc.st, p));
    }
  }

  lemma {:induction false} StepDoesWork(c: Job, s: State, a: Actor)
    requires Sound(c) && Inv(c, s) && Enabled(c, s, a)
    ensures 0 <= Work(c, Step(c, s, a)) < Work(c, s)
  {
    WorkNatural(c, Step(c, s, a).procs, 0);
    match a
    case Feed =>
      if s.feeder.Acquiring? {
        WorkLaunch(c, s.procs, 0);
      }
    case Partition(k) =>
      var q := OneMoves(c, s, k);
      ProcWorkFalls(c, s, k);
      WorkUpdate(c, s.procs, k, 0, q);
  }

  lemma {:induction false} OneMoves(c: Job, s: State, k: nat) returns (q: Process)
    requires Enabled(c, s, Partition(k))
    ensures var t := PartitionStep(c, s, k); t.procs == s.procs[k := q] && t.feeder == s.feeder
  {
    q := PartitionStep(c, s, k).procs[k];
  }

  lemma {:induction false} RunDoesWork(c: Job, s: State, sched: seq<Actor>)
    requires Sound(c) && Inv(c, s) && Schedulable(c, s, sched)
    ensures |sched| + Work(c, Exec(c, s, sched)) <= Work(c, s)
    ensures 0 <= Work(c, Exec(c, s, sched))
    decreases |sched|
  {
    if sched == [] {
      WorkNatural(c, s.procs, 0);
    } else {
      StepDoesWork(c, s, sched[0]);
      StepKeepsInv(c, s, sched[0]);
      RunDoesWork(c, Step(c, s, sched[0]), sched[1..]);
    }
  }

  /** No schedule is longer than the work of the start state: every run ends. */
  lemma {:induction false} RunsAreBounded(c: Job, sched: seq<Actor>)
    requires Sound(c) && Schedulable(c, Init(c), sched)
    ensures |sched| <= UnlaunchedWork(c, First(c)) + 2
  {
    InitInv(c);
    RunDoesWork(c, Init(c), sched);
  }

  // From any state of a run, going on reaches the closed state.
  lemma {:induction false} Finish(c: Job, s: State) returns (rest: seq<Actor>)
    requires Sound(c) && Inv(c, s) && CanLaunch(c)
    ensures Schedulable(c, s, rest) && Exec(c, s, rest).feeder.Closed?
    decreases Work(c, s)
  {
    if s.feeder.Closed? {
      return [];
    }
    var a := SomeoneCanStep(c, s);
    StepDoesWork(c, s, a);
    StepKeepsInv(c, s, a);
    var more := Finish(c, Step(c, s, a));
    rest := [a] + more;
    assert rest[1..] == more;
  }

  /** Deadlock freedom, exactly: every schedule can be driven on until `result` is closed if and
      only if there are tickets enough for one list, or nothing to launch. */
  lemma {:induction false} DeadlockFreeExactly(c: Job)
    requires Sound(c)
    ensures (forall sched | Schedulable(c, Init(c), sched) && !Reached(c, sched).feeder.Closed? ::
               exists a :: Enabled(c, Reached(c, sched), a))
            <==> CanLaunch(c)
    ensures CanLaunch(c) <==>
            || (if c.start.revision == "" then 3 else 1) <= c.concurrency
            || c.limit <= 0 || First(c) >= |c.partitions|
    ensures CanLaunch(c) <==> exists sched :: Schedulable(c, Init(c), sched) && Reached(c, sched).feeder.Closed?
  {
    if CanLaunch(c) {
      forall sched | Schedulable(c, Init(c), sched) && !Reached(c, sched).feeder.Closed?
        ensures exists a :: Enabled(c, Reached(c, sched), a)
      {
        ReachedInv(c, sched);
        var a := SomeoneCanStep(c, Reached(c, sched));
      }
      InitInv(c);
      var whole := Finish(c, Init(c));
      assert Schedulable(c, Init(c), whole) && Reached(c, whole).feeder.Closed?;
    } else {
      var stuck := [Feed];
      assert Schedulable(c, Init(c), stuck) && Reached(c, stuck).feeder.Acquiring? by {
        assert stuck[1..] == [];
        assert Enabled(c, Init(c), Feed);
      }
      forall a ensures !Enabled(c, Reached(c, stuck), a) {
      }
      forall sched | Schedulable(c, Init(c), sched) ensures !Reached(c, sched).feeder.Closed? {
        NeverLaunches(c, Init(c), sched);
      }
    }
  }

  /** `result` is closed once, after the last send: no step is possible any more. */
  lemma {:induction false} ClosedIsFinal(c: Job, sched: seq<Actor>, a: Actor)
    requires Sound(c) && Schedulable(c, Init(c), sched) && Reached(c, sched).feeder.Closed?
    ensures !Enabled(c, Reached(c, sched), a)
  {
    ReachedInv(c, sched);
    if a.Partition? && a.k < |Reached(c, sched).procs| {
      assert Reached(c, sched).procs[a.k] in Reached(c, sched).procs;
    }
  }
}
