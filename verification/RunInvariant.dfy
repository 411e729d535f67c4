/** What every step of the parallel lister keeps, whatever the schedule. */
module RunInvariant {
  import opened Listing
  import opened ParallelRun

  // ----- what is still owed to the output -----

  function Pending(c: Job, p: string, proc: Process): seq<APIObject>
  {
    match proc
    case Fetching(st) => Rest(c, st, p)
    case Waiting(st, list) => Rest(c, st, p)
    case InTurn(st, list) => Rest(c, st, p)
    case Sent(st, list, count, overflow) =>
      (if count <= |list.objects| then list.objects[count..] else []) + After(c, p, ContFor(st, p))
    case _ => []
  }

  // What each partition from the first one on still owes, launched or not.
  function Outputs(c: Job, procs: seq<Process>): seq<seq<APIObject>> {
    seq(|c.partitions| - First(c), j requires 0 <= j < |c.partitions| - First(c) => Output(c, procs, j))
  }

  function Output(c: Job, procs: seq<Process>, j: nat): seq<APIObject>
    requires First(c) + j < |c.partitions|
  {
    if j < |procs|
        then Pending(c, c.partitions[First(c) + j], procs[j]) else Rest(c, c.start, c.partitions[First(c) + j])
  }

  // What the k-th partition and all later ones still owe.
  function Owed(c: Job, procs: seq<Process>, k: nat): seq<APIObject> {
    Concat(Outputs(c, procs), [], k)
  }

  // ----- the parts of the invariant -----

  // The process is still in its first fetch, which it cannot leave before its turn opens.
  predicate Pristine(c: Job, p: Process) {
    (p.Fetching? || p.Waiting?) && p.st == c.start
  }

  // Only the lowest open process can be past its turn: all later ones are untouched.
  ghost predicate InOrder(c: Job, procs: seq<Process>) {
    forall j, k :: 0 <= j < k < |procs| ==> ClosedNext(procs[j]) || Pristine(c, procs[k])
  }

  // A process reads either the start state or a later chunk of its own partition.
  predicate Named(c: Job, p: string, st: ListState) {
    st == c.start || (st.partitionName == p && st.offset == 0)
  }

  // A list in hand is the chunk at the process's own continue token.
  ghost predicate Faithful(c: Job, p: string, proc: Process)
  {
    match proc
    case Fetching(st) => Named(c, p, st)
    case Waiting(st, list) => Named(c, p, st) && list == Chunk(c, p, ContFor(st, p))
    case InTurn(st, list) => Named(c, p, st) && list == Chunk(c, p, ContFor(st, p))
    case Sent(st, list, count, overflow) =>
      var chunk := Chunk(c, p, ContFor(st, p));
      && (Named(c, p, st) || st.(revision := c.start.revision) == c.start)
      && list == chunk.(objects := Skip(st, p, chunk.objects))
      && (if overflow then count < |list.objects| else count == |list.objects|)
    case _ => true
  }

  ghost predicate AllFaithful(c: Job, procs: seq<Process>)
  {
    && First(c) + |procs| <= |c.partitions|
    && forall k :: 0 <= k < |procs| ==> Faithful(c, c.partitions[First(c) + k], procs[k])
  }

  predicate NoneSent(procs: seq<Process>) {
    forall k :: 0 <= k < |procs| ==> !procs[k].Sent?
  }

  // What was sent and the capacity add up to the limit, except between a send and the
  // bookkeeping that follows it.
  ghost predicate Conserved(c: Job, s: State) {
    && (NoneSent(s.procs) ==> |s.sent| + s.capacity == c.limit)
    && (forall k :: 0 <= k < |s.procs| && s.procs[k].Sent? ==>
          && s.saved.None?
          && |s.sent| + s.capacity == c.limit + s.procs[k].count
          && (if s.procs[k].overflow then s.procs[k].count == s.capacity else s.procs[k].count <= s.capacity))
    && (s.procs != [] || s.feeder.Acquiring? ==> 0 <= s.capacity && 0 < c.limit)
  }

  ghost function Unfinished(procs: seq<Process>): nat {
    if procs == [] then 0 else (if procs[0].Finished? then 0 else 1) + Unfinished(procs[1..])
  }

  ghost predicate TicketsHeld(c: Job, s: State) {
    && s.free == c.concurrency - Tickets(c) * Unfinished(s.procs)
    && (0 <= c.concurrency ==> 0 <= s.free)
  }

  ghost predicate FeederOk(c: Job, s: State) {
    && (s.feeder.Acquiring? ==> First(c) + |s.procs| < |c.partitions|)
    && (s.feeder.Draining? || s.feeder.Closed? ==> s.capacity <= 0 || First(c) + |s.procs| == |c.partitions|)
    && (s.feeder.Closed? ==> forall p :: p in s.procs ==> p.Finished?)
  }

  // The resumed chunk is cut by the token's offset and overflows the page again.
  ghost predicate Coincides(c: Job) {
    First(c) < |c.partitions| && var p := c.partitions[First(c)];
    var objects := Chunk(c, p, ContFor(c.start, p)).objects;
    Skips(c.start, p, objects) && |objects| - c.start.offset > c.limit
  }

  predicate OnFirstChunk(c: Job, p: Process) {
    match p
    case Fetching(st) => st == c.start
    case Waiting(st, _) => st == c.start
    case InTurn(st, _) => st == c.start
    case Sent(st, _, _, overflow) => overflow && st.offset == c.start.offset
    case _ => false
  }

  // Nothing has been sent before an offset is applied, and a chunk that both skips and overflows
  // is the one that is saved.
  ghost predicate FirstChunk(c: Job, s: State) {
    && (s.procs == [] ==> s.sent == [] && s.saved.None?)
    && (s.saved.None? && s.procs != [] && 0 < c.start.offset ==>
          match s.procs[0]
          case Fetching(st) => st == c.start ==> s.sent == []
          case Waiting(st, _) => st == c.start ==> s.sent == []
          case InTurn(st, _) => st == c.start ==> s.sent == []
          case Sent(st, _, count, _) => st.offset == c.start.offset ==> |s.sent| == count
          case _ => true)
    && (s.saved.None? && s.procs != [] && Coincides(c) ==> OnFirstChunk(c, s.procs[0]))
  }

  // A saved token continues the output where it was cut.
  ghost predicate Resumes(c: Job, sent: seq<APIObject>, token: ListState)
  {
    && token.limit == c.limit == |sent|
    && token.partitionName in c.partitions
    && sent <= Denote(c, c.start)
    && Denote(c, token) != []
    && if Coincides(c)
       then |sent| + |Denote(c, token)| == |Denote(c, c.start)| + c.start.offset
       else sent + Denote(c, token) == Denote(c, c.start)
  }

  ghost predicate Accounted(c: Job, s: State)
  {
    match s.saved
    case None => s.sent + Owed(c, s.procs, 0) == Denote(c, c.start)
    case Some(token) => s.capacity == 0 && Resumes(c, s.sent, token)
  }

  ghost predicate Inv(c: Job, s: State)
  {
    && InOrder(c, s.procs)
    && AllFaithful(c, s.procs)
    && Conserved(c, s)
    && TicketsHeld(c, s)
    && FeederOk(c, s)
    && FirstChunk(c, s)
    && Accounted(c, s)
  }

  lemma {:induction false} InitInv(c: Job)
    ensures Inv(c, Init(c))
  {
    OwedAtEnd(c, []);
  }

  // ----- lemmas about what is owed -----

  lemma {:induction false} ConcatSkips(outs: seq<seq<APIObject>>, i: nat, k: nat)
    requires i <= k <= |outs| && forall j :: i <= j < k ==> outs[j] == []
    ensures Concat(outs, [], i) == Concat(outs, [], k)
    decreases k - i
  {
    if i < k {
      ConcatSkips(outs, i + 1, k);
      assert [] + Concat(outs, [], i + 1) == Concat(outs, [], i + 1);
    }
  }

  // If all before k are empty, k comes first, and what follows does not depend on it.
  lemma {:induction false} ConcatAt(outs: seq<seq<APIObject>>, x: seq<APIObject>, k: nat)
    requires k < |outs| && forall j :: 0 <= j < k ==> outs[j] == []
    ensures Concat(outs, [], 0) == outs[k] + Concat(outs, [], k + 1)
    ensures Concat(outs[k := x], [], 0) == x + Concat(outs, [], k + 1)
  {
    ConcatSkips(outs, 0, k);
    ConcatSkips(outs[k := x], 0, k);
    ConcatAgrees(outs, outs[k := x], [], k + 1);
  }

  lemma {:induction false} OutputsClosed(c: Job, procs: seq<Process>, k: nat)
    requires k <= |procs| && First(c) + |procs| <= |c.partitions| && forall j :: 0 <= j < k ==> ClosedNext(procs[j])
    ensures forall j :: 0 <= j < k ==> Outputs(c, procs)[j] == []
  {
  }

  lemma {:induction false} OutputsUpdate(c: Job, procs: seq<Process>, k: nat, q: Process)
    requires k < |procs| && First(c) + |procs| <= |c.partitions|
    ensures Outputs(c, procs)[k] == Pending(c, c.partitions[First(c) + k], procs[k])
    ensures Outputs(c, procs[k := q]) == Outputs(c, procs)[k := Pending(c, c.partitions[First(c) + k], q)]
  {
  }

  // With every process closed, only the partitions not launched yet are owed.
  lemma {:induction false} OwedAtEnd(c: Job, procs: seq<Process>)
    requires First(c) + |procs| <= |c.partitions| && forall j :: 0 <= j < |procs| ==> ClosedNext(procs[j])
    ensures Owed(c, procs, 0) == ListingFrom(c, c.start, First(c) + |procs|)
  {
    OutputsClosed(c, procs, |procs|);
    ConcatSkips(Outputs(c, procs), 0, |procs|);
    OwedPristine(c, procs, |procs|);
  }

  // With all earlier processes closed, process k is the first to owe something.
  lemma {:induction false} OwedAt(c: Job, procs: seq<Process>, k: nat, q: Process)
    requires k < |procs| && First(c) + |procs| <= |c.partitions|
    requires forall j :: 0 <= j < k ==> ClosedNext(procs[j])
    ensures Owed(c, procs, 0) == Pending(c, c.partitions[First(c) + k], procs[k]) + Owed(c, procs, k + 1)
    ensures Owed(c, procs[k := q], 0) == Pending(c, c.partitions[First(c) + k], q) + Owed(c, procs, k + 1)
  {
    OutputsClosed(c, procs, k);
    OutputsUpdate(c, procs, k, q);
    ConcatAt(Outputs(c, procs), Pending(c, c.partitions[First(c) + k], q), k);
  }

  lemma {:induction false} OwedHere(c: Job, procs: seq<Process>, k: nat)
    requires k < |procs| && First(c) + |procs| <= |c.partitions|
    requires forall j :: 0 <= j < k ==> ClosedNext(procs[j])
    ensures Owed(c, procs, 0) == Pending(c, c.partitions[First(c) + k], procs[k]) + Owed(c, procs, k + 1)
  {
    OwedAt(c, procs, k, Returning);
  }

  // A step that does not change what process k owes changes nothing.
  lemma {:induction false} OwedSame(c: Job, procs: seq<Process>, k: nat, q: Process)
    requires k < |procs| && First(c) + |procs| <= |c.partitions|
    requires Pending(c, c.partitions[First(c) + k], procs[k]) == Pending(c, c.partitions[First(c) + k], q)
    ensures Owed(c, procs[k := q], 0) == Owed(c, procs, 0)
  {
    OutputsUpdate(c, procs, k, q);
    assert Outputs(c, procs[k := q]) == Outputs(c, procs);
  }

  // A launch changes nothing either.
  lemma {:induction false} OwedLaunch(c: Job, procs: seq<Process>)
    requires First(c) + |procs| < |c.partitions|
    ensures Owed(c, procs + [Fetching(c.start)], 0) == Owed(c, procs, 0)
  {
    assert Outputs(c, procs + [Fetching(c.start)]) == Outputs(c, procs);
  }

  // Untouched processes owe exactly their partitions' part of the listing.
  lemma {:induction false} OwedPristine(c: Job, procs: seq<Process>, k: nat)
    requires First(c) + |procs| <= |c.partitions| && k <= |procs|
    requires forall j :: k <= j < |procs| ==> Pristine(c, procs[j])
    ensures Owed(c, procs, k) == ListingFrom(c, c.start, First(c) + k)
  {
    var outs, rests := Outputs(c, procs), Rests(c, c.start);
    assert First(c) + |outs| == |rests|;
    assert forall j :: k <= j < |outs| ==> outs[j] == rests[First(c) + j] by {
      OutputsPristine(c, procs, k);
    }
    ConcatWithin(outs, rests, First(c), k);
  }

  lemma {:induction false} OutputsPristine(c: Job, procs: seq<Process>, k: nat)
    requires First(c) + |procs| <= |c.partitions| && k <= |procs|
    requires forall j :: k <= j < |procs| ==> Pristine(c, procs[j])
    ensures forall j :: k <= j < |Outputs(c, procs)| ==> Outputs(c, procs)[j] == Rests(c, c.start)[First(c) + j]
  {
  }

  lemma {:induction false} UnfinishedUpdate(procs: seq<Process>, k: nat, q: Process)
    requires k < |procs|
    ensures Unfinished(procs[k := q]) ==
            Unfinished(procs) + (if q.Finished? then 0 else 1) - (if procs[k].Finished? then 0 else 1)
  {
    if k > 0 {
      assert procs[k := q][1..] == procs[1..][k - 1 := q];
      UnfinishedUpdate(procs[1..], k - 1, q);
    } else {
      assert procs[k := q][1..] == procs[1..];
    }
  }

  lemma {:induction false} UnfinishedAppend(procs: seq<Process>, q: Process)
    ensures Unfinished(procs + [q]) == Unfinished(procs) + if q.Finished? then 0 else 1
  {
    if procs != [] {
      assert (procs + [q])[1..] == procs[1..] + [q];
      UnfinishedAppend(procs[1..], q);
    }
  }

  // ----- preservation, one kind of step at a time -----

  lemma {:induction false} LaunchKeepsOrder(c: Job, procs: seq<Process>)
    requires InOrder(c, procs) && AllFaithful(c, procs) && First(c) + |procs| < |c.partitions|
    ensures InOrder(c, procs + [Fetching(c.start)]) && AllFaithful(c, procs + [Fetching(c.start)])
  {
  }

  lemma {:induction false} LaunchKeepsCounts(c: Job, s: State)
    requires Conserved(c, s) && TicketsHeld(c, s) && FirstChunk(c, s) && s.feeder.Acquiring? && Enabled(c, s, Feed)
    ensures Conserved(c, FeederStep(c, s)) && TicketsHeld(c, FeederStep(c, s)) && FirstChunk(c, FeederStep(c, s))
  {
    UnfinishedAppend(s.procs, Fetching(c.start));
    assert forall k :: 0 <= k < |s.procs| ==> s.procs[k] == FeederStep(c, s).procs[k];
  }

  lemma {:induction false} FeederKeeps(c: Job, s: State)
    requires Inv(c, s) && Enabled(c, s, Feed)
    ensures Inv(c, FeederStep(c, s))
  {
    if s.feeder.Acquiring? {
      LaunchKeepsOrder(c, s.procs);
      LaunchKeepsCounts(c, s);
      OwedLaunch(c, s.procs);
    }
  }

  // ----- a partition's steps -----

  lemma {:induction false} EarlierClosed(c: Job, procs: seq<Process>, k: nat)
    requires InOrder(c, procs) && k < |procs| && (Pristine(c, procs[k]) ==> TurnOpen(procs, k))
    ensures forall j :: 0 <= j < k ==> ClosedNext(procs[j])
  {
    forall j | 0 <= j < k ensures ClosedNext(procs[j]) {
      var earlier, before, here := procs[j], procs[k - 1], procs[k];
      assert ClosedNext(earlier) || Pristine(c, here);
      assert j < k - 1 ==> ClosedNext(earlier) || Pristine(c, before);
    }
  }

  lemma {:induction false} UpdateKeepsOrder(c: Job, procs: seq<Process>, k: nat, q: Process)
    requires InOrder(c, procs) && k < |procs|
    requires ClosedNext(procs[k]) ==> ClosedNext(q)
    requires Pristine(c, q) || forall j :: 0 <= j < k ==> ClosedNext(procs[j])
    ensures InOrder(c, procs[k := q])
  {
  }

  lemma {:induction false} UpdateKeepsFaith(c: Job, procs: seq<Process>, k: nat, q: Process)
    requires AllFaithful(c, procs) && k < |procs| && Faithful(c, c.partitions[First(c) + k], q)
    ensures AllFaithful(c, procs[k := q])
  {
  }

  // Nobody but the process in its turn is between a send and its bookkeeping.
  lemma {:induction false} SentAlone(c: Job, procs: seq<Process>, k: nat)
    requires InOrder(c, procs) && k < |procs| && !Pristine(c, procs[k]) && !ClosedNext(procs[k])
    ensures forall j :: 0 <= j < |procs| && j != k ==> !procs[j].Sent?
  {
    EarlierClosed(c, procs, k);
    forall j | k < j < |procs| ensures !procs[j].Sent? {
      assert ClosedNext(procs[k]) || Pristine(c, procs[j]);
    }
  }

  // A quiet step moves one process without sending, and none is between send and bookkeeping
  // before or after.
  lemma {:induction false} QuietKeepsCounts(c: Job, s: State, k: nat, q: Process)
    requires Conserved(c, s) && TicketsHeld(c, s) && k < |s.procs|
    requires !s.procs[k].Sent? && !q.Sent? && !s.procs[k].Finished?
    ensures var t := s.(procs := s.procs[k := q], free := s.free + if q.Finished? then Tickets(c) else 0);
            Conserved(c, t) && TicketsHeld(c, t)
  {
    UnfinishedUpdate(s.procs, k, q);
    var t := s.(procs := s.procs[k := q], free := s.free + if q.Finished? then Tickets(c) else 0);
    if NoneSent(t.procs) {
      forall j | 0 <= j < |s.procs| ensures !s.procs[j].Sent? {
        assert j != k ==> t.procs[j] == s.procs[j];
      }
    }
  }

  lemma {:induction false} FetchKeeps(c: Job, s: State, k: nat)
    requires Unchanging(c) && Inv(c, s) && Enabled(c, s, Partition(k)) && s.procs[k].Fetching?
    ensures Inv(c, PartitionStep(c, s, k))
  {
    var p := c.partitions[First(c) + k];
    var st := s.procs[k].st;
    var q := Waiting(st, Chunk(c, p, ContFor(st, p)));
    assert PartitionStep(c, s, k) == s.(procs := s.procs[k := q]);
    if !Pristine(c, q) {
      EarlierClosed(c, s.procs, k);
    }
    UpdateKeepsOrder(c, s.procs, k, q);
    assert Faithful(c, p, s.procs[k]);
    UpdateKeepsFaith(c, s.procs, k, q);
    QuietKeepsCounts(c, s, k, q);
    OwedSame(c, s.procs, k, q);
  }

  lemma {:induction false} WaitKeeps(c: Job, s: State, k: nat)
    requires Inv(c, s) && Enabled(c, s, Partition(k)) && s.procs[k].Waiting?
    ensures Inv(c, PartitionStep(c, s, k))
  {
    var p := c.partitions[First(c) + k];
    var q := InTurn(s.procs[k].st, s.procs[k].list);
    assert PartitionStep(c, s, k) == s.(procs := s.procs[k := q]);
    EarlierClosed(c, s.procs, k);
    UpdateKeepsOrder(c, s.procs, k, q);
    assert Faithful(c, p, s.procs[k]);
    UpdateKeepsFaith(c, s.procs, k, q);
    QuietKeepsCounts(c, s, k, q);
    OwedSame(c, s.procs, k, q);
  }

  // Returning early, closing `next`, and releasing the tickets.
  lemma {:induction false} LeaveKeeps(c: Job, s: State, k: nat)
    requires Inv(c, s) && Enabled(c, s, Partition(k))
    requires s.procs[k].Returning? || s.procs[k].Releasing? || (s.procs[k].InTurn? && s.saved.Some?)
    ensures Inv(c, PartitionStep(c, s, k))
  {
    var q := PartitionStep(c, s, k).procs[k];
    assert PartitionStep(c, s, k) ==
        s.(procs := s.procs[k := q], free := s.free + if q.Finished? then Tickets(c) else 0);
    EarlierClosed(c, s.procs, k);
    UpdateKeepsOrder(c, s.procs, k, q);
    UpdateKeepsFaith(c, s.procs, k, q);
    QuietKeepsCounts(c, s, k, q);
    LeaveFeeder(c, s, k, q);
    if s.saved.None? {
      OwedSame(c, s.procs, k, q);
    }
  }

  lemma {:induction false} LeaveFeeder(c: Job, s: State, k: nat, q: Process)
    requires FeederOk(c, s) && k < |s.procs| && !s.procs[k].Finished?
    ensures FeederOk(c, s.(procs := s.procs[k := q], free := s.free + if q.Finished? then Tickets(c) else 0))
  {
    assert s.procs[k] in s.procs;
  }

  // The send: what goes out is the front of what is owed.
  lemma {:induction false} DeliverCounts(c: Job, s: State, k: nat)
    requires InOrder(c, s.procs) && Conserved(c, s) && TicketsHeld(c, s)
    requires Enabled(c, s, Partition(k)) && s.procs[k].InTurn? && s.saved.None?
    ensures Conserved(c, PartitionStep(c, s, k)) && TicketsHeld(c, PartitionStep(c, s, k))
  {
    var t := PartitionStep(c, s, k);
    SentAlone(c, s.procs, k);
    UnfinishedUpdate(s.procs, k, t.procs[k]);
    assert t.procs[k].Sent?;
  }

  lemma {:induction false} DeliverFirst(c: Job, s: State, k: nat)
    requires InOrder(c, s.procs) && AllFaithful(c, s.procs) && Conserved(c, s) && FirstChunk(c, s)
    requires Enabled(c, s, Partition(k)) && s.procs[k].InTurn? && s.saved.None?
    ensures FirstChunk(c, PartitionStep(c, s, k))
  {
    SentAlone(c, s.procs, k);
    EarlierClosed(c, s.procs, k);
    assert Faithful(c, c.partitions[First(c) + k], s.procs[k]);
    assert NoneSent(s.procs);
  }

  lemma {:induction false} MoveFront(sent: seq<APIObject>, objects: seq<APIObject>, n: nat, after: seq<APIObject>,
        later: seq<APIObject>)
    requires n <= |objects|
    ensures sent + ((objects + after) + later) == (sent + objects[..n]) + ((objects[n..] + after) + later)
  {
    assert objects == objects[..n] + objects[n..];
  }

  lemma {:induction false} DeliverPending(c: Job, s: State, k: nat)
    requires AllFaithful(c, s.procs) && Conserved(c, s)
    requires Enabled(c, s, Partition(k)) && s.procs[k].InTurn? && s.saved.None?
    ensures var t := PartitionStep(c, s, k); var q := t.procs[k];
            var p, st := c.partitions[First(c) + k], s.procs[k].st;
            var objects := Skip(st, p, s.procs[k].list.objects);
            && q.Sent? && q.count <= |objects|
            && t == s.(revision := t.revision, sent := s.sent + objects[..q.count], procs := s.procs[k := q])
            && Pending(c, p, s.procs[k]) == objects + After(c, p, ContFor(st, p))
            && Pending(c, p, q) == objects[q.count..] + After(c, p, ContFor(st, p))
  {
    assert Faithful(c, c.partitions[First(c) + k], s.procs[k]);
  }

  lemma {:induction false} DeliverAccounted(c: Job, s: State, k: nat)
    requires AllFaithful(c, s.procs) && Conserved(c, s) && Accounted(c, s)
    requires Enabled(c, s, Partition(k)) && s.procs[k].InTurn? && s.saved.None?
    requires forall j :: 0 <= j < k ==> ClosedNext(s.procs[j])
    ensures Accounted(c, PartitionStep(c, s, k))
  {
    DeliverPending(c, s, k);
    var p, st := c.partitions[First(c) + k], s.procs[k].st;
    var q := PartitionStep(c, s, k).procs[k];
    OwedAt(c, s.procs, k, q);
    MoveFront(s.sent, Skip(st, p, s.procs[k].list.objects), q.count, After(c, p, ContFor(st, p)),
        Owed(c, s.procs, k + 1));
  }

  lemma {:induction false} DeliverShape(c: Job, s: State, k: nat)
    requires InOrder(c, s.procs) && AllFaithful(c, s.procs) && Conserved(c, s)
    requires Enabled(c, s, Partition(k)) && s.procs[k].InTurn? && s.saved.None?
    ensures InOrder(c, PartitionStep(c, s, k).procs) && AllFaithful(c, PartitionStep(c, s, k).procs)
  {
    var q := PartitionStep(c, s, k).procs[k];
    EarlierClosed(c, s.procs, k);
    DeliverPending(c, s, k);
    assert Faithful(c, c.partitions[First(c) + k], s.procs[k]);
    UpdateKeepsOrder(c, s.procs, k, q);
    UpdateKeepsFaith(c, s.procs, k, q);
  }

  lemma {:induction false} DeliverKeeps(c: Job, s: State, k: nat)
    requires Inv(c, s) && Enabled(c, s, Partition(k)) && s.procs[k].InTurn? && s.saved.None?
    ensures Inv(c, PartitionStep(c, s, k))
  {
    EarlierClosed(c, s.procs, k);
    DeliverShape(c, s, k);
    DeliverCounts(c, s, k);
    DeliverFirst(c, s, k);
    DeliverAccounted(c, s, k);
    DeliverFeeder(c, s, k);
  }

  lemma {:induction false} DeliverFeeder(c: Job, s: State, k: nat)
    requires FeederOk(c, s) && Enabled(c, s, Partition(k)) && s.procs[k].InTurn?
    ensures FeederOk(c, PartitionStep(c, s, k))
  {
    assert s.procs[k] in s.procs;
  }

  // The bookkeeping after a chunk that fitted.
  lemma {:induction false} BookCounts(c: Job, s: State, k: nat)
    requires InOrder(c, s.procs) && Conserved(c, s) && TicketsHeld(c, s)
    requires Enabled(c, s, Partition(k)) && s.procs[k].Sent? && !s.procs[k].overflow
    ensures Conserved(c, PartitionStep(c, s, k)) && TicketsHeld(c, PartitionStep(c, s, k))
  {
    var t := PartitionStep(c, s, k);
    SentAlone(c, s.procs, k);
    UnfinishedUpdate(s.procs, k, t.procs[k]);
    assert forall j :: 0 <= j < |s.procs| && j != k ==> t.procs[j] == s.procs[j];
  }

  lemma {:induction false} BookPending(c: Job, s: State, k: nat)
    requires Unchanging(c) && AllFaithful(c, s.procs)
    requires Enabled(c, s, Partition(k)) && s.procs[k].Sent? && !s.procs[k].overflow
    ensures var p := c.partitions[First(c) + k]; var q := PartitionStep(c, s, k).procs[k];
            Pending(c, p, q) == Pending(c, p, s.procs[k]) && Faithful(c, p, q)
  {
    var p := c.partitions[First(c) + k];
    var proc := s.procs[k];
    assert Faithful(c, p, proc);
    var chunk := Chunk(c, p, ContFor(proc.st, p));
    assert chunk.next != "" ==> Continues(c, p, ContFor(proc.st, p));
    assert Pending(c, p, proc) == After(c, p, ContFor(proc.st, p)) by {
      assert proc.list.objects[proc.count..] == [];
    }
    if chunk.next != "" {
      var st := proc.st.(cont := chunk.next, partitionName := p, offset := 0);
      assert Rest(c, st, p) == Chain(c, p, chunk.next);
    }
  }

  lemma {:induction false} BookKeeps(c: Job, s: State, k: nat)
    requires Unchanging(c) && Inv(c, s) && Enabled(c, s, Partition(k)) && s.procs[k].Sent? && !s.procs[k].overflow
    ensures Inv(c, PartitionStep(c, s, k))
  {
    var q := PartitionStep(c, s, k).procs[k];
    EarlierClosed(c, s.procs, k);
    UpdateKeepsOrder(c, s.procs, k, q);
    BookPending(c, s, k);
    UpdateKeepsFaith(c, s.procs, k, q);
    BookCounts(c, s, k);
    OwedSame(c, s.procs, k, q);
  }

  // ----- saving the token -----

  // After the overflowing process, only untouched partitions are owed.
  lemma {:induction false} OwedBehind(c: Job, s: State, k: nat)
    requires InOrder(c, s.procs) && AllFaithful(c, s.procs) && k < |s.procs| && s.procs[k].Sent?
    ensures Owed(c, s.procs, k + 1) == ListingFrom(c, c.start, First(c) + k + 1)
  {
    forall j | k < j < |s.procs| ensures Pristine(c, s.procs[j]) {
      assert ClosedNext(s.procs[k]) || Pristine(c, s.procs[j]);
    }
    OwedPristine(c, s.procs, k + 1);
  }

  // What the new token stands for.
  lemma {:induction false} TokenMeaning(c: Job, i: nat, token: ListState)
    requires WellNamed(c.partitions) && First(c) <= i < |c.partitions| && token.partitionName == c.partitions[i]
    ensures Denote(c, token) == Rest(c, token, c.partitions[i]) + ListingFrom(c, c.start, i + 1)
  {
    ResumeIndexOf(c.partitions, i);
    ListingStep(c, token, i);
    forall j | i + 1 <= j < |c.partitions|
      ensures c.partitions[j] != token.partitionName && c.partitions[j] != c.start.partitionName
    {
      NamedOnce(c, c.start, j);
    }
    LaterPartitionsAgree(c, token, c.start, i + 1);
  }

  // The saved chunk was already cut by an offset exactly when the resumed chunk coincides.
  lemma {:induction false} SavedChunkSkips(c: Job, s: State, k: nat)
    requires WellNamed(c.partitions) && Inv(c, s) && Enabled(c, s, Partition(k))
    requires s.procs[k].Sent? && s.procs[k].overflow
    ensures var p, st := c.partitions[First(c) + k], s.procs[k].st;
            && (Skips(st, p, Chunk(c, p, ContFor(st, p)).objects) <==> Coincides(c))
            && (Coincides(c) ==> st.offset == c.start.offset)
  {
    var p, st := c.partitions[First(c) + k], s.procs[k].st;
    var chunk := Chunk(c, p, ContFor(st, p));
    assert Faithful(c, p, s.procs[k]);
    EarlierClosed(c, s.procs, k);
    if Skips(st, p, chunk.objects) {
      if k > 0 {
        NamedOnce(c, c.start, First(c) + k);
      }
      assert Coincides(c);
    }
    if Coincides(c) {
      assert OnFirstChunk(c, s.procs[0]);
      assert k == 0;
    }
  }

  lemma {:induction false} Assoc(a: seq<APIObject>, b: seq<APIObject>, x: seq<APIObject>, y: seq<APIObject>)
    ensures a + ((b + x) + y) == a + (b + (x + y))
    ensures (b + x) + y == b + (x + y)
  {
  }

  // What follows the chunk of process k in the listing that was asked for.
  function Behind(c: Job, k: nat, st: ListState): seq<APIObject>
    requires First(c) + k < |c.partitions|
  {
    After(c, c.partitions[First(c) + k], ContFor(st, c.partitions[First(c) + k])) +
        ListingFrom(c, c.start, First(c) + k + 1)
  }

  lemma {:induction false} SavedWhole(c: Job, s: State, k: nat)
    requires InOrder(c, s.procs) && AllFaithful(c, s.procs) && s.saved.None? && Accounted(c, s)
    requires Enabled(c, s, Partition(k)) && s.procs[k].Sent?
    ensures Denote(c, c.start) ==
            s.sent + (Pending(c, c.partitions[First(c) + k], s.procs[k]) + Owed(c, s.procs, k + 1))
  {
    EarlierClosed(c, s.procs, k);
    OwedHere(c, s.procs, k);
  }

  // What the start state stands for, at the moment of saving.
  lemma {:induction false} SavedOwed(c: Job, s: State, k: nat)
    requires InOrder(c, s.procs) && AllFaithful(c, s.procs) && s.saved.None? && Accounted(c, s)
    requires Enabled(c, s, Partition(k)) && s.procs[k].Sent? && s.procs[k].overflow
    ensures s.procs[k].count <= |s.procs[k].list.objects|
    ensures Denote(c, c.start) == s.sent + (s.procs[k].list.objects[s.procs[k].count..] + Behind(c, k, s.procs[k].st))
  {
    var p, proc := c.partitions[First(c) + k], s.procs[k];
    SavedPending(c, s, k);
    assert Denote(c, c.start) == s.sent + (Pending(c, p, proc) + ListingFrom(c, c.start, First(c) + k + 1)) by {
      OwedBehind(c, s, k);
      SavedWhole(c, s, k);
    }
    Regroup(s.sent, proc.list.objects[proc.count..], After(c, p, ContFor(proc.st, p)),
        ListingFrom(c, c.start, First(c) + k + 1));
  }

  lemma {:induction false} Regroup(sent: seq<APIObject>, front: seq<APIObject>, after: seq<APIObject>,
        later: seq<APIObject>)
    ensures sent + ((front + after) + later) == sent + (front + (after + later))
  {
  }

  lemma {:induction false} SavedPending(c: Job, s: State, k: nat)
    requires AllFaithful(c, s.procs) && Enabled(c, s, Partition(k)) && s.procs[k].Sent?
    ensures var p, proc := c.partitions[First(c) + k], s.procs[k];
            proc.count <= |proc.list.objects| &&
                Pending(c, p, proc) == proc.list.objects[proc.count..] + After(c, p, ContFor(proc.st, p))
  {
    assert Faithful(c, c.partitions[First(c) + k], s.procs[k]);
  }

  // What a token cut in partition k at the same chunk stands for.
  lemma {:induction false} TokenOwed(c: Job, k: nat, st: ListState, token: ListState)
    requires WellNamed(c.partitions) && First(c) + k < |c.partitions|
    requires token.partitionName == c.partitions[First(c) + k] && token.cont == ContFor(st, token.partitionName)
    ensures var p := token.partitionName;
            Denote(c, token) == Skip(token, p, Chunk(c, p, token.cont).objects) + Behind(c, k, st)
  {
    var p := token.partitionName;
    TokenMeaning(c, First(c) + k, token);
    Assoc([], Skip(token, p, Chunk(c, p, token.cont).objects), After(c, p, token.cont),
        ListingFrom(c, c.start, First(c) + k + 1));
  }

  lemma {:induction false} SaveResumes(c: Job, s: State, k: nat)
    requires WellNamed(c.partitions) && Inv(c, s) && Enabled(c, s, Partition(k))
    requires s.procs[k].Sent? && s.procs[k].overflow
    ensures Resumes(c, s.sent, PartitionStep(c, s, k).saved.value)
  {
    SavedChunkSkips(c, s, k);
    SavedOwed(c, s, k);
    TokenOwed(c, k, s.procs[k].st, PartitionStep(c, s, k).saved.value);
    assert Faithful(c, c.partitions[First(c) + k], s.procs[k]);
  }

  lemma {:induction false} SaveCounts(c: Job, s: State, k: nat)
    requires InOrder(c, s.procs) && Conserved(c, s) && TicketsHeld(c, s)
    requires Enabled(c, s, Partition(k)) && s.procs[k].Sent? && s.procs[k].overflow
    ensures Conserved(c, PartitionStep(c, s, k)) && TicketsHeld(c, PartitionStep(c, s, k))
  {
    SentAlone(c, s.procs, k);
    UnfinishedUpdate(s.procs, k, Returning);
  }

  lemma {:induction false} SaveKeeps(c: Job, s: State, k: nat)
    requires WellNamed(c.partitions) && Inv(c, s) && Enabled(c, s, Partition(k))
    requires s.procs[k].Sent? && s.procs[k].overflow
    ensures Inv(c, PartitionStep(c, s, k))
  {
    EarlierClosed(c, s.procs, k);
    UpdateKeepsOrder(c, s.procs, k, Returning);
    UpdateKeepsFaith(c, s.procs, k, Returning);
    SaveCounts(c, s, k);
    SaveResumes(c, s, k);
  }

  // ----- every step, every run -----

  lemma {:induction false} StepKeepsInv(c: Job, s: State, a: Actor)
    requires Unchanging(c) && WellNamed(c.partitions) && Inv(c, s) && Enabled(c, s, a)
    ensures Inv(c, Step(c, s, a))
  {
    match a
    case Feed => FeederKeeps(c, s);
    case Partition(k) =>
      match s.procs[k]
      case Fetching(_) => FetchKeeps(c, s, k);
      case Waiting(_, _) => WaitKeeps(c, s, k);
      case InTurn(_, _) => if s.saved.Some? { LeaveKeeps(c, s, k); } else { DeliverKeeps(c, s, k); }
      case Sent(_, _, _, overflow) => if overflow { SaveKeeps(c, s, k); } else { BookKeeps(c, s, k); }
      case Returning => LeaveKeeps(c, s, k);
      case Releasing => LeaveKeeps(c, s, k);
  }

  lemma {:induction false} RunKeepsInv(c: Job, s: State, sched: seq<Actor>)
    requires Unchanging(c) && WellNamed(c.partitions) && Inv(c, s) && Schedulable(c, s, sched)
    ensures Inv(c, Exec(c, s, sched))
    decreases |sched|
  {
    if sched != [] {
      StepKeepsInv(c, s, sched[0]);
      RunKeepsInv(c, Step(c, s, sched[0]), sched[1..]);
    }
  }
}
