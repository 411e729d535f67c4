/** When a page can end without a token although objects are left. The feeder stops launching once
    `capacity` is used up; if that happens between two partitions, nobody is left to save a token
    (pkg/stores/partition/parallel.go:104-107, 161-177). */
module Truncation {
  import opened Listing
  import opened ParallelRun
  import opened Paging

  // Some schedule closes the page without a token and without all objects.
  ghost predicate Truncates(c: Job) {
    exists sched :: Schedulable(c, Init(c), sched) && DropsRest(c, Reached(c, sched))
  }

  predicate DropsRest(c: Job, s: State) {
    s.feeder.Closed? && s.saved.None? && s.sent != Denote(c, c.start)
  }

  // The number of objects before partition `i`.
  function Before(c: Job, i: nat): int {
    |Denote(c, c.start)| - |ListingFrom(c, c.start, i)|
  }

  // A partition ends exactly where the page ends, and objects follow.
  predicate BoundaryAt(c: Job, i: nat) {
    First(c) < i < |c.partitions| && Before(c, i) == c.limit && ListingFrom(c, c.start, i) != []
  }

  // ----- a serial schedule: one partition after the other -----

  lemma {:induction false} Then(c: Job, s: State, a: Actor, rest: seq<Actor>)
    requires Enabled(c, s, a) && Schedulable(c, Step(c, s, a), rest)
    ensures Schedulable(c, s, [a] + rest) && Exec(c, s, [a] + rest) == Exec(c, Step(c, s, a), rest)
  {
    assert ([a] + rest)[1..] == rest;
  }

  predicate OthersFinished(s: State, k: nat) {
    |s.procs| == k + 1 && forall j :: 0 <= j < k ==> s.procs[j].Finished?
  }

  // What a lone partition has done when it is finished.
  predicate RanAlone(c: Job, s: State, t: State, objects: seq<APIObject>) {
    && t == s.(procs := t.procs, free := s.free + Tickets(c), capacity := s.capacity - |objects|,
               revision := t.revision, sent := s.sent + objects)
    && |t.procs| == |s.procs| && forall p :: p in t.procs ==> p.Finished?
  }

  // One round of the loop in a chunk that fits, from fetch to bookkeeping.
  function Round(c: Job, s: State, k: nat): State
    requires k < |s.procs| && First(c) + k < |c.partitions| && s.procs[k].Fetching?
  {
    var p, st := c.partitions[First(c) + k], s.procs[k].st;
    var list := c.list(p, ContFor(st, p), st.revision, c.limit);
    var st' := if st.revision == "" then st.(revision := list.revision) else st;
    var objects := Skip(st, p, list.objects);
    s.(revision := if s.revision == "" then list.revision else s.revision,
       sent := s.sent + objects,
       capacity := s.capacity - |objects|,
       procs := s.procs[k := if list.next == "" then Returning
                             else Fetching(st'.(cont := list.next, partitionName := p, offset := 0))])
  }

  lemma {:induction false} RoundRuns(c: Job, s: State, k: nat) returns (sched: seq<Actor>)
    requires OthersFinished(s, k) && First(c) + k < |c.partitions| && s.procs[k].Fetching? && s.saved.None?
    requires var p, st := c.partitions[First(c) + k], s.procs[k].st;
             |Skip(st, p, c.list(p, ContFor(st, p), st.revision, c.limit).objects)| <= s.capacity
    ensures Schedulable(c, s, sched) && Exec(c, s, sched) == Round(c, s, k)
  {
    var a := Partition(k);
    var s1 := Step(c, s, a);
    var s2 := Step(c, s1, a);
    var s3 := Step(c, s2, a);
    var s4 := Step(c, s3, a);
    var objects := s3.procs[k].list.objects;
    assert s3.sent == s.sent + objects by {
      assert objects[..|objects|] == objects;
    }
    assert s4.procs == Round(c, s, k).procs;
    assert s4 == Round(c, s, k);
    Then(c, s3, a, []);
    Then(c, s2, a, [a]);
    Then(c, s1, a, [a] + [a]);
    Then(c, s, a, [a] + ([a] + [a]));
    sched := [a] + ([a] + ([a] + [a]));
  }

  // After a round, the rest of the partition is what was owed without the chunk just sent.
  lemma {:induction false} RoundOwes(c: Job, s: State, k: nat)
    requires Unchanging(c) && k < |s.procs| && First(c) + k < |c.partitions| && s.procs[k].Fetching?
    ensures var p, st, q := c.partitions[First(c) + k], s.procs[k].st, Round(c, s, k).procs[k];
            var objects := Skip(st, p, Chunk(c, p, ContFor(st, p)).objects);
            && Round(c, s, k).sent == s.sent + objects && Round(c, s, k).capacity == s.capacity - |objects|
            && (q.Fetching? <==> Continues(c, p, ContFor(st, p)))
            && Rest(c, st, p) == objects + (if q.Fetching? then Rest(c, q.st, p) else [])
            && (q.Fetching? ==> ContFor(q.st, p) == Chunk(c, p, ContFor(st, p)).next)
  {
    var p, st := c.partitions[First(c) + k], s.procs[k].st;
    assert c.list(p, ContFor(st, p), st.revision, c.limit) == Chunk(c, p, ContFor(st, p));
    assert Chunk(c, p, ContFor(st, p)).next != "" ==> Continues(c, p, ContFor(st, p));
    var q := Round(c, s, k).procs[k];
    if q.Fetching? {
      assert Rest(c, q.st, p) == Chain(c, p, Chunk(c, p, ContFor(st, p)).next);
    }
  }

  lemma {:induction false} RanAfterRound(c: Job, s: State, t: State, u: State, objects: seq<APIObject>,
        rest: seq<APIObject>)
    requires t == s.(revision := t.revision, sent := s.sent +
             objects, capacity := s.capacity - |objects|, procs := t.procs)
    requires |t.procs| == |s.procs| && RanAlone(c, t, u, rest)
    ensures RanAlone(c, s, u, objects + rest)
  {
    Reassoc(s.sent, objects, rest);
  }

  lemma {:induction false} AloneRuns(c: Job, s: State, k: nat) returns (sched: seq<Actor>)
    requires Sound(c) && OthersFinished(s, k) && First(c) + k < |c.partitions| && s.procs[k].Fetching? && s.saved.None?
    requires |Rest(c, s.procs[k].st, c.partitions[First(c) + k])| <= s.capacity
    ensures Schedulable(c, s, sched)
    ensures RanAlone(c, s, Exec(c, s, sched), Rest(c, s.procs[k].st, c.partitions[First(c) + k]))
    decreases c.rank(c.partitions[First(c) + k], ContFor(s.procs[k].st, c.partitions[First(c) + k]), c.limit)
  {
    RoundOwes(c, s, k);
    var round := RoundRuns(c, s, k);
    var t := Round(c, s, k);
    var more;
    var p, st := c.partitions[First(c) + k], s.procs[k].st;
    var objects := Skip(st, p, Chunk(c, p, ContFor(st, p)).objects);
    var rest := if t.procs[k].Fetching? then Rest(c, t.procs[k].st, p) else [];
    if t.procs[k].Fetching? {
      more := AloneRuns(c, t, k);
    } else {
      more := LeaveRuns(c, t, k);
    }
    RanAfterRound(c, s, t, Exec(c, t, more), objects, rest);
    ExecConcat(c, s, round, more);
    sched := round + more;
  }

  lemma {:induction false} LeaveRuns(c: Job, s: State, k: nat) returns (sched: seq<Actor>)
    requires OthersFinished(s, k) && First(c) + k < |c.partitions| && s.procs[k].Returning?
    ensures Schedulable(c, s, sched) && RanAlone(c, s, Exec(c, s, sched), [])
  {
    var a := Partition(k);
    Then(c, Step(c, s, a), a, []);
    Then(c, s, a, [a]);
    sched := [a] + [a];
    assert s.sent + [] == s.sent;
  }

  // Between two partitions of a serial run.
  predicate Between(c: Job, s: State, i: nat) {
    && First(c) <= i <= |c.partitions| && i == First(c) + |s.procs|
    && s.feeder.Checking? && s.saved.None? && s.free == c.concurrency
    && (forall p :: p in s.procs ==> p.Finished?)
    && s.capacity == c.limit - |s.sent|
    && s.sent + ListingFrom(c, c.start, i) == Denote(c, c.start)
  }

  // The feeder checks and launches partition i.
  lemma {:induction false} LaunchRuns(c: Job, s: State, i: nat, run: seq<Actor>)
    requires Tickets(c) <= c.concurrency && i < |c.partitions| && Between(c, s, i) && s.capacity > 0
    requires Schedulable(c, Launched(c, s), run)
    ensures Schedulable(c, s, [Feed] + ([Feed] + run)) &&
            Exec(c, s, [Feed] + ([Feed] + run)) == Exec(c, Launched(c, s), run)
  {
    var checked := s.(feeder := Acquiring);
    assert Step(c, s, Feed) == checked && Step(c, checked, Feed) == Launched(c, s);
    Then(c, checked, Feed, run);
    Then(c, s, Feed, [Feed] + run);
  }

  function Launched(c: Job, s: State): State {
    s.(free := s.free - Tickets(c), procs := s.procs + [Fetching(c.start)])
  }

  lemma {:induction false} NextPartition(c: Job, s: State, i: nat) returns (sched: seq<Actor>)
    requires Sound(c) && Tickets(c) <= c.concurrency && i < |c.partitions|
    requires Between(c, s, i) && Before(c, i) < c.limit && Before(c, i + 1) <= c.limit
    ensures Schedulable(c, s, sched) && Between(c, Exec(c, s, sched), i + 1)
  {
    var rest := Rest(c, c.start, c.partitions[i]);
    ListingStep(c, c.start, i);
    var t := Launched(c, s);
    forall j | 0 <= j < |s.procs| ensures t.procs[j].Finished? {
      assert s.procs[j] in s.procs;
    }
    var run := AloneRuns(c, t, |s.procs|);
    LaunchRuns(c, s, i, run);
    sched := [Feed] + ([Feed] + run);
    Reassoc(s.sent, rest, ListingFrom(c, c.start, i + 1));
  }

  lemma {:induction false} Reassoc(a: seq<APIObject>, b: seq<APIObject>, x: seq<APIObject>)
    ensures (a + b) + x == a + (b + x)
  {
  }

  // The schedule has run the partitions before the i-th, one after the other.
  predicate SerialTo(c: Job, sched: seq<Actor>, i: nat) {
    Schedulable(c, Init(c), sched) && Between(c, Reached(c, sched), i)
  }

  lemma {:induction false} StartBetween(c: Job)
    ensures First(c) <= |c.partitions| ==> SerialTo(c, [], First(c))
  {
    assert [] + ListingFrom(c, c.start, First(c)) == Denote(c, c.start);
  }

  // The page has room left before each partition up to the i-th.
  predicate RoomUpTo(c: Job, i: nat) {
    forall j :: First(c) <= j < i ==> Before(c, j) < c.limit
  }

  lemma {:induction false} RoomStep(c: Job, i: nat)
    requires RoomUpTo(c, i) && First(c) < i
    ensures RoomUpTo(c, i - 1) && Before(c, i - 1) < c.limit
  {
  }

  lemma {:induction false} SerialRun(c: Job, i: nat) returns (sched: seq<Actor>)
    requires Sound(c) && Tickets(c) <= c.concurrency && First(c) <= i <= |c.partitions|
    requires RoomUpTo(c, i) && Before(c, i) <= c.limit
    ensures SerialTo(c, sched, i)
    decreases i
  {
    if i == First(c) {
      sched := [];
      StartBetween(c);
    } else {
      var before := i - 1;
      RoomStep(c, i);
      var first := SerialRun(c, before);
      sched := SerialStep(c, first, before);
    }
  }

  lemma {:induction false} SerialStep(c: Job, first: seq<Actor>, i: nat) returns (sched: seq<Actor>)
    requires Sound(c) && Tickets(c) <= c.concurrency && i < |c.partitions|
    requires SerialTo(c, first, i) && Before(c, i) < c.limit && Before(c, i + 1) <= c.limit
    ensures SerialTo(c, sched, i + 1)
  {
    var last := NextPartition(c, Reached(c, first), i);
    ExecConcat(c, Init(c), first, last);
    sched := first + last;
  }

  // The serial run up to a boundary stops there.
  lemma {:induction false} StopAtBoundary(c: Job, s: State, i: nat)
    requires BoundaryAt(c, i) && Between(c, s, i)
    ensures Schedulable(c, s, [Feed] + [Feed]) && DropsRest(c, Exec(c, s, [Feed] + [Feed]))
  {
    assert |s.sent| == c.limit;
    Then(c, Step(c, s, Feed), Feed, []);
    Then(c, s, Feed, [Feed]);
  }

  lemma {:induction false} BeforeGrows(c: Job, i: nat, j: nat)
    requires i <= j
    ensures Before(c, i) <= Before(c, j)
    decreases j - i
  {
    if i < j {
      if i < |c.partitions| {
        ListingStep(c, c.start, i);
      }
      BeforeGrows(c, i + 1, j);
    }
  }

  lemma {:induction false} NonEmptyBefore(c: Job, i: nat, j: nat)
    requires i <= j && ListingFrom(c, c.start, j) != []
    ensures ListingFrom(c, c.start, i) != []
  {
    BeforeGrows(c, i, j);
  }

  // The first place where a growing sequence reaches a value.
  lemma {:induction false} FirstAt(sizes: seq<int>, lo: nat, i: nat, value: int) returns (u: nat)
    requires lo <= i < |sizes| && sizes[i] == value && (forall x, y :: 0 <= x <= y < |sizes| ==> sizes[x] <= sizes[y])
    ensures lo <= u <= i && sizes[u] == value && forall x :: lo <= x < u ==> sizes[x] < value
  {
    if i > lo && sizes[i - 1] == value {
      u := FirstAt(sizes, lo, i - 1, value);
    } else {
      u := i;
    }
  }

  lemma {:induction false} LeastBoundary(c: Job, i: nat) returns (u: nat)
    requires BoundaryAt(c, i) && c.limit > 0
    ensures BoundaryAt(c, u) && RoomUpTo(c, u)
  {
    var sizes := seq(i + 1, j requires 0 <= j => Before(c, j));
    forall x, y | 0 <= x <= y < |sizes| ensures sizes[x] <= sizes[y] {
      BeforeGrows(c, x, y);
    }
    u := FirstAt(sizes, First(c), i, c.limit);
    NonEmptyBefore(c, u, i);
    assert Before(c, First(c)) == 0 && u > First(c);
    forall j | First(c) <= j < u ensures Before(c, j) < c.limit {
      assert sizes[j] == Before(c, j);
    }
  }

  lemma {:induction false} TruncationIsAtBoundary(c: Job, sched: seq<Actor>)
    requires Sound(c) && c.limit > 0 && Schedulable(c, Init(c), sched) && DropsRest(c, Reached(c, sched))
    ensures BoundaryAt(c, First(c) + |Reached(c, sched).procs|)
  {
    CompleteWithoutToken(c, sched);
    var s := Reached(c, sched);
    if ListingFrom(c, c.start, First(c) + |s.procs|) == [] {
      assert s.sent + [] == s.sent;
    }
  }

  lemma {:induction false} BoundaryTruncates(c: Job, i: nat)
    requires Sound(c) && c.limit > 0 && Tickets(c) <= c.concurrency && BoundaryAt(c, i)
    ensures Truncates(c)
  {
    var u := LeastBoundary(c, i);
    var sched := SerialRun(c, u);
    StopAtBoundary(c, Reached(c, sched), u);
    ExecConcat(c, Init(c), sched, [Feed] + [Feed]);
    assert DropsRest(c, Reached(c, sched + ([Feed] + [Feed])));
  }

  /** A page can end without a token before all objects are sent if and only if some partition ends
      exactly at the page's limit with objects behind it. */
  lemma {:induction false} TruncatesExactly(c: Job)
    requires Sound(c) && c.limit > 0 && Tickets(c) <= c.concurrency
    ensures Truncates(c) <==> exists i :: BoundaryAt(c, i)
  {
    if Truncates(c) {
      var sched :| Schedulable(c, Init(c), sched) && DropsRest(c, Reached(c, sched));
      TruncationIsAtBoundary(c, sched);
    }
    if i :| BoundaryAt(c, i) {
      BoundaryTruncates(c, i);
    }
  }

  // Two partitions of one object each, and a page of one.
  function OneEach(): Job {
    var list := (p: string, cont: string, rev: string, limit: int) => APIObjectList([APIObject(p, "x")], "1", "");
    Job(list, (p: string, cont: string, limit: int) => 0, 3, ["a", "b"], FRESH, 1)
  }

  /** The second object can be lost: some run ends without a token and has sent the first one only. */
  lemma {:induction false} OneObjectIsLost() returns (sched: seq<Actor>)
    ensures var c := OneEach();
            && Sound(c) && c.limit == 1 && Denote(c, c.start) == [APIObject("a", "x"), APIObject("b", "x")]
            && Schedulable(c, Init(c), sched) && Reached(c, sched).feeder.Closed?
            && Reached(c, sched).saved.None? && Reached(c, sched).sent == [APIObject("a", "x")]
  {
    var c := OneEach();
    ListingStep(c, c.start, 1);
    ListingStep(c, c.start, 0);
    assert ListingFrom(c, c.start, 1) == [APIObject("b", "x")];
    assert ListingFrom(c, c.start, 0) == [APIObject("a", "x"), APIObject("b", "x")];
    assert BoundaryAt(c, 1);
    BoundaryTruncates(c, 1);
    sched :| Schedulable(c, Init(c), sched) && DropsRest(c, Reached(c, sched));
    OrderUnderAllInterleavings(c, sched);
    Conservation(c, sched);
    assert |Reached(c, sched).sent| == 1 by {
      CompleteWithoutToken(c, sched);
    }
    assert Reached(c, sched).sent == Denote(c, c.start)[..1];
  }
}
