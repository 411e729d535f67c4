/** One call of the parallel lister as a step system: the feeder loop, one process per launched
    partition, the tickets of the semaphore, and the fields they share
    (pkg/stores/partition/parallel.go). Every step of the code that another process can observe
    is a step here; a schedule is any sequence of enabled steps. */
module ParallelRun {
  import opened Listing

  // Where a partition's goroutine stands. `st` is its own copy of the resume state.
  datatype Process =
    | Fetching(st: ListState)
    | Waiting(st: ListState, list: APIObjectList)
    | InTurn(st: ListState, list: APIObjectList)
    | Sent(st: ListState, list: APIObjectList, count: nat, overflow: bool)
    | Returning
    | Releasing
    | Finished

  datatype Feeder = Checking | Acquiring | Draining | Closed

  datatype State = State(
    feeder: Feeder,
    procs: seq<Process>,
    free: int,
    capacity: int,
    saved: Option<ListState>,
    revision: string,
    sent: seq<APIObject>)

  datatype Actor = Feed | Partition(k: nat)

  function First(c: Job): nat {
    ResumeIndex(c.partitions, c.start.partitionName)
  }

  // Without a revision the first list takes all three tickets.
  function Tickets(c: Job): int {
    if c.start.revision == "" then 3 else 1
  }

  function Init(c: Job): State {
    State(Checking, [], c.concurrency, c.limit, None, "", [])
  }

  // `next` has been closed.
  predicate ClosedNext(p: Process) {
    p.Releasing? || p.Finished?
  }

  predicate TurnOpen(procs: seq<Process>, k: nat)
    requires k <= |procs|
  {
    k == 0 || ClosedNext(procs[k - 1])
  }

  predicate Enabled(c: Job, s: State, a: Actor) {
    match a
    case Feed =>
      (match s.feeder
       case Checking => true
       case Acquiring => Tickets(c) <= s.free && First(c) + |s.procs| < |c.partitions|
       case Draining => forall p :: p in s.procs ==> p.Finished?
       case Closed => false)
    case Partition(k) =>
      && k < |s.procs| && First(c) + k < |c.partitions|
      && !s.procs[k].Finished?
      && (s.procs[k].Waiting? ==> TurnOpen(s.procs, k))
  }

  function FeederStep(c: Job, s: State): State
    requires Enabled(c, s, Feed)
  {
    match s.feeder
    case Checking =>
      if First(c) + |s.procs| < |c.partitions| && s.capacity > 0
      then s.(feeder := Acquiring)
      else s.(feeder := Draining)
    case Acquiring =>
      s.(feeder := Checking, free := s.free - Tickets(c), procs := s.procs + [Fetching(c.start)])
    case Draining => s.(feeder := Closed)
  }

  function PartitionStep(c: Job, s: State, k: nat): State
    requires Enabled(c, s, Partition(k))
  {
    var p := c.partitions[First(c) + k];
    match s.procs[k]
    case Fetching(st) =>
      s.(procs := s.procs[k := Waiting(st, c.list(p, ContFor(st, p), st.revision, c.limit))])
    case Waiting(st, list) =>
      s.(procs := s.procs[k := InTurn(st, list)])
    case InTurn(st, list) =>
      if s.saved.Some? then s.(procs := s.procs[k := Returning])
      else Deliver(c, s, k, st, list)
    case Sent(st, list, count, overflow) =>
      if overflow then
        s.(saved := Some(ListState(list.revision, p, ContFor(st, p), s.capacity, c.limit)),
           capacity := 0,
           procs := s.procs[k := Returning])
      else
        s.(capacity := s.capacity - count,
           procs := s.procs[k := if list.next == "" then Returning
                                 else Fetching(st.(cont := list.next, partitionName := p, offset := 0))])
    case Returning => s.(procs := s.procs[k := Releasing])
    case Releasing => s.(procs := s.procs[k := Finished], free := s.free + Tickets(c))
  }

  // The guarded part of the loop body, up to and including the send on `result`.
  function Deliver(c: Job, s: State, k: nat, st: ListState, list: APIObjectList): State
    requires k < |s.procs| && First(c) + k < |c.partitions|
  {
    var p := c.partitions[First(c) + k];
    var st' := if st.revision == "" then st.(revision := list.revision) else st;
    var objects := Skip(st, p, list.objects);
    var overflow := |objects| > s.capacity;
    var count := if overflow then (if s.capacity < 0 then 0 else s.capacity) else |objects|;
    s.(revision := if s.revision == "" then list.revision else s.revision,
       sent := s.sent + objects[..count],
       procs := s.procs[k := Sent(st', list.(objects := objects), count, overflow)])
  }

  function Step(c: Job, s: State, a: Actor): State
    requires Enabled(c, s, a)
  {
    match a
    case Feed => FeederStep(c, s)
    case Partition(k) => PartitionStep(c, s, k)
  }

  predicate Schedulable(c: Job, s: State, sched: seq<Actor>)
    decreases |sched|
  {
    sched == [] || (Enabled(c, s, sched[0]) && Schedulable(c, Step(c, s, sched[0]), sched[1..]))
  }

  function Exec(c: Job, s: State, sched: seq<Actor>): State
    requires Schedulable(c, s, sched)
    decreases |sched|
  {
    if sched == [] then s else Exec(c, Step(c, s, sched[0]), sched[1..])
  }

  lemma {:induction false} ExecConcat(c: Job, s: State, a: seq<Actor>, b: seq<Actor>)
    requires Schedulable(c, s, a) && Schedulable(c, Exec(c, s, a), b)
    ensures Schedulable(c, s, a + b) && Exec(c, s, a + b) == Exec(c, Exec(c, s, a), b)
    decreases |a|
  {
    if a == [] {
      assert a + b == b;
    } else {
      assert (a + b)[1..] == a[1..] + b;
      ExecConcat(c, Step(c, s, a[0]), a[1..], b);
    }
  }
}
