/** The lister as the object whose fields its goroutines update, and the store's list operation that
    drives it (pkg/stores/partition/parallel.go, pkg/stores/partition/store.go). */
module PartitionStore {
  import opened Listing
  import opened ParallelRun
  import opened RunInvariant
  import opened Paging
  import opened Pagination
  import opened Revisions

  class ParallelPartitionLister {
    const job: Job
    var feeder: Feeder
    var procs: seq<Process>
    var free: int
    var capacity: int
    var state: Option<ListState>
    var revision: string
    var result: seq<APIObject>

    function Now(): State
      reads this
    {
      State(feeder, procs, free, capacity, state, revision, result)
    }

    constructor (job: Job)
      ensures this.job == job && Now() == Init(job)
    {
      this.job := job;
      feeder := Checking;
      procs := [];
      free := job.concurrency;
      capacity := job.limit;
      state := None;
      revision := "";
      result := [];
    }

    method FeederStep()
      requires Enabled(job, Now(), Feed)
      modifies this
      ensures Now() == Step(job, old(Now()), Feed)
    {
      match feeder {
        case Checking =>
          var first := IndexOrZero(job.partitions, job.start.partitionName);
          if first + |procs| < |job.partitions| && capacity > 0 {
            feeder := Acquiring;
          } else {
            feeder := Draining;
          }
        case Acquiring =>
          free := free - (if job.start.revision == "" then 3 else 1);
          procs := procs + [Fetching(job.start)];
          feeder := Checking;
        case Draining =>
          feeder := Closed;
      }
    }

    method PartitionStep(k: nat)
      requires Enabled(job, Now(), Partition(k))
      modifies this
      ensures Now() == Step(job, old(Now()), Partition(k))
    {
      var first := IndexOrZero(job.partitions, job.start.partitionName);
      var name := job.partitions[first + k];
      match procs[k] {
        case Fetching(st) =>
          var cont := "";
          if name == st.partitionName {
            cont := st.cont;
          }
          procs := procs[k := Waiting(st, job.list(name, cont, st.revision, job.limit))];
        case Waiting(st, list) =>
          procs := procs[k := InTurn(st, list)];
        case InTurn(st, list) =>
          if state.Some? {
            procs := procs[k := Returning];
          } else {
            Send(k, name, st, list);
          }
        case Sent(st, list, count, overflow) =>
          if overflow {
            // the token asks for this chunk again, from where it was cut
            state := Some(ListState(list.revision, name, ContFor(st, name), capacity, job.limit));
            capacity := 0;
            procs := procs[k := Returning];
          } else {
            capacity := capacity - count;
            if list.next == "" {
              procs := procs[k := Returning];
            } else {
              procs := procs[k := Fetching(st.(cont := list.next, partitionName := name, offset := 0))];
            }
          }
        case Returning =>
          procs := procs[k := Releasing];
        case Releasing =>
          free := free + (if job.start.revision == "" then 3 else 1);
          procs := procs[k := Finished];
      }
    }

    method Send(k: nat, name: string, st: ListState, list: APIObjectList)
      requires k < |procs| && First(job) + k < |job.partitions| && name == job.partitions[First(job) + k]
      modifies this
      ensures Now() == Deliver(job, old(Now()), k, st, list)
    {
      var st, objects := st, list.objects;
      if st.revision == "" {
        st := st.(revision := list.revision);
      }
      if revision == "" {
        revision := list.revision;
      }
      if st.partitionName == name && st.offset > 0 && st.offset < |objects| {
        objects := objects[st.offset..];
      }
      if |objects| > capacity {
        var count := if capacity < 0 then 0 else capacity;
        result := result + objects[..count];
        procs := procs[k := Sent(st, list.(objects := objects), count, true)];
      } else {
        result := result + objects[..|objects|];
        procs := procs[k := Sent(st, list.(objects := objects), |objects|, false)];
      }
    }
  }

  // The decoded `continue` parameter.
  datatype Resume = NoToken | Malformed | Token(state: ListState)

  datatype Answer = BadToken | Answer(objects: seq<APIObject>, revision: string, next: Option<ListState>)

  // The job of a request with no token and the given limit.
  function Request(list: (string, string, string, int) -> APIObjectList, rank: (string, string, int) -> nat,
                   partitions: seq<string>, limit: int): Job {
    Job(list, rank, 3, partitions, FRESH, limit)
  }

  function JobFor(request: Job, resume: Resume): Job {
    if resume.Token? then Resumed(request, request.limit, resume.state) else request
  }

  // Any possible step, of the feeder or of a partition.
  method AnyStep(lister: ParallelPartitionLister) returns (ghost actor: Actor)
    requires Inv(lister.job, lister.Now()) && !lister.feeder.Closed? && CanLaunch(lister.job)
    modifies lister
    ensures Enabled(lister.job, old(lister.Now()), actor)
    ensures lister.Now() == Step(lister.job, old(lister.Now()), actor)
  {
    SomeIndex(lister.job, lister.Now());
    var k: int :| 0 <= k <= |lister.procs| && Enabled(lister.job, lister.Now(), ActorAt(k, lister.Now()));
    actor := ActorAt(k, lister.Now());
    if k == |lister.procs| {
      lister.FeederStep();
    } else {
      lister.PartitionStep(k);
    }
  }

  /** The store's list operation, under a scheduler that may take any possible step. It always
      comes to an end, and its answer is a page of the job. */
  method List(list: (string, string, string, int) -> APIObjectList, rank: (string, string, int) -> nat,
              partitions: seq<string>, limit: Option<int>, resume: Resume)
    returns (answer: Answer, ghost launchedAll: bool)
    requires Sound(JobFor(Request(list, rank, partitions, GetLimit(limit)), resume))
    ensures answer.BadToken? <==> resume.Malformed?
    ensures var c := JobFor(Request(list, rank, partitions, GetLimit(limit)), resume);
            answer.Answer? ==>
              && Produces(c, Page(c.limit, answer.objects, answer.next, launchedAll))
              && |answer.objects| <= c.limit
              && answer.objects <= Denote(c, c.start)
              && (answer.next.Some? ==> |answer.objects| == c.limit == answer.next.value.limit)
              && (answer.next.Some? ==>
                  (answer.objects + Denote(c, answer.next.value) == Denote(c, c.start) <==> !Coincides(c)))
              && (answer.next.None? && (launchedAll || |answer.objects| < c.limit) ==>
                  answer.objects == Denote(c, c.start))
              && (answer.next.Some? ==>
                  var token := answer.next.value;
                  token.revision == Chunk(c, token.partitionName, token.cont).revision)
              && (First(c) < |partitions| && FirstList(c).revision != "" ==>
                  answer.revision == FirstList(c).revision)
              && (forall revision :: OneRevision(c, revision) ==> IsOf(answer, revision))
  {
    var request := Request(list, rank, partitions, GetLimit(limit));
    if resume.Malformed? {
      return BadToken, false;
    }
    var c := JobFor(request, resume);
    var lister := new ParallelPartitionLister(c);
    ghost var sched: seq<Actor> := [];
    InitInv(c);
    while lister.feeder != Closed
      invariant lister.job == c && Inv(c, lister.Now())
      invariant Schedulable(c, Init(c), sched) && Reached(c, sched) == lister.Now()
      decreases Work(c, lister.Now())
    {
      ghost var actor := AnyStep(lister);
      Extend(c, sched, actor);
      sched := sched + [actor];
    }
    answer := Answer(lister.result, lister.revision, lister.state);
    launchedAll := First(c) + |lister.procs| >= |partitions|;
    AnswerIsPage(c, sched, Page(c.limit, answer.objects, answer.next, launchedAll));
    AnswerRevisions(c, sched);
    forall revision | OneRevision(c, revision) ensures IsOf(answer, revision) {
      InitInv(c);
      RevisionIs(c, Init(c), sched, revision);
    }
  }

  /** The job of a request: a token's start and positive limit replace those of the request, and a request without
      a token starts from nothing. */
  lemma {:induction false} JobOf(request: Job, resume: Resume)
    requires request == Request(request.list, request.rank, request.partitions, request.limit)
    ensures var c := JobFor(request, resume);
            && c.limit == (if resume.Token? && resume.state.limit > 0 then resume.state.limit else request.limit)
            && c.start == (if resume.Token? then resume.state else ListState("", "", "", 0, 0))
            && c.concurrency == 3 && c.list == request.list && c.partitions == request.partitions
  {
  }

  // An answer that shows or saves anything carries the revision, and so does its token.
  predicate IsOf(answer: Answer, revision: string) {
    answer.Answer? && (answer.objects != [] || answer.next.Some?) ==>
      answer.revision == revision && (answer.next.Some? ==> answer.next.value.revision == revision)
  }

  function ActorAt(k: nat, s: State): Actor {
    if k == |s.procs| then Feed else Partition(k)
  }

  lemma {:induction false} SomeIndex(c: Job, s: State)
    requires Inv(c, s) && !s.feeder.Closed? && CanLaunch(c)
    ensures exists k: int :: 0 <= k <= |s.procs| && Enabled(c, s, ActorAt(k, s))
  {
    var a := SomeoneCanStep(c, s);
    var k := if a.Feed? then |s.procs| else a.k;
    assert ActorAt(k, s) == a;
  }

  lemma {:induction false} Extend(c: Job, sched: seq<Actor>, a: Actor)
    requires Sound(c) && Schedulable(c, Init(c), sched) && Enabled(c, Reached(c, sched), a)
    ensures Schedulable(c, Init(c), sched + [a]) && Reached(c, sched + [a]) == Step(c, Reached(c, sched), a)
    ensures Inv(c, Step(c, Reached(c, sched), a))
    ensures 0 <= Work(c, Step(c, Reached(c, sched), a)) < Work(c, Reached(c, sched))
  {
    ReachedInv(c, sched);
    assert [a][1..] == [];
    ExecConcat(c, Init(c), sched, [a]);
    StepDoesWork(c, Reached(c, sched), a);
    StepKeepsInv(c, Reached(c, sched), a);
  }

  // A closed page has the revision of its first list, and its token that of the list that was cut.
  lemma {:induction false} AnswerRevisions(c: Job, sched: seq<Actor>)
    requires Sound(c) && c.limit > 0 && Schedulable(c, Init(c), sched) && Reached(c, sched).feeder.Closed?
    ensures var s := Reached(c, sched);
            && (First(c) < |c.partitions| && FirstList(c).revision != "" ==> s.revision == FirstList(c).revision)
            && (s.saved.Some? ==>
                s.saved.value.revision == Chunk(c, s.saved.value.partitionName, s.saved.value.cont).revision)
  {
    var s := Reached(c, sched);
    ReachedInv(c, sched);
    if s.saved.Some? {
      TokenRevision(c, sched);
    } else if First(c) < |c.partitions| {
      CompleteWithoutToken(c, sched);
      assert s.procs[0] in s.procs;
    }
    if First(c) < |c.partitions| && FirstList(c).revision != "" {
      PageRevision(c, sched);
    }
  }

  // What the results about one schedule say about its page.
  lemma {:induction false} AnswerIsPage(c: Job, sched: seq<Actor>, page: Page)
    requires Sound(c) && c.limit > 0 && CanLaunch(c) && Schedulable(c, Init(c), sched) &&
             IsPage(c, Reached(c, sched), page)
    ensures Produces(c, page) && |page.objects| <= c.limit && page.objects <= Denote(c, c.start)
    ensures page.next.Some? ==>
              && |page.objects| == c.limit == page.next.value.limit
              && (page.objects + Denote(c, page.next.value) == Denote(c, c.start) <==> !Coincides(c))
    ensures page.next.None? && (page.launchedAll || |page.objects| < c.limit) ==> page.objects == Denote(c, c.start)
  {
    OrderUnderAllInterleavings(c, sched);
    Conservation(c, sched);
    if page.next.Some? {
      ExactResume(c, sched);
    } else {
      CompleteWithoutToken(c, sched);
    }
  }
}
