/** Which revisions a page is read at, and which ones the page and its token carry. Nothing is assumed
    of the lists but where it says so: each call may give another answer
    (pkg/stores/partition/parallel.go:134-183). */
module Revisions {
  import opened Listing
  import opened ParallelRun
  import opened RunInvariant
  import opened Paging
  import opened Pagination

  // What a partition's goroutine asks for, besides the partition and the limit.
  datatype Call = Call(cont: string, revision: string)

  function Answer(c: Job, p: string, call: Call): APIObjectList {
    c.list(p, call.cont, call.revision, c.limit)
  }

  // The n-th call for a partition, one answer after the other.
  function CallOf(c: Job, p: string, n: nat): Call {
    if n == 0 then Call(ContFor(c.start, p), c.start.revision)
    else
      var before := CallOf(c, p, n - 1);
      var list := Answer(c, p, before);
      Call(list.next, if before.revision == "" then list.revision else before.revision)
  }

  // The list that a page begins with.
  function FirstList(c: Job): APIObjectList
    requires First(c) < |c.partitions|
  {
    var p := c.partitions[First(c)];
    c.list(p, ContFor(c.start, p), c.start.revision, c.limit)
  }

  // ----- the calls of a run -----

  ghost predicate InCalls(c: Job, p: string, proc: Process) {
    match proc
    case Fetching(st) => exists n: nat :: CallOf(c, p, n) == Call(ContFor(st, p), st.revision)
    case Waiting(st, list) =>
      exists n: nat :: CallOf(c, p, n) == Call(ContFor(st, p), st.revision) && list == Answer(c, p, CallOf(c, p, n))
    case InTurn(st, list) =>
      exists n: nat :: CallOf(c, p, n) == Call(ContFor(st, p), st.revision) && list == Answer(c, p, CallOf(c, p, n))
    case Sent(st, list, _, _) =>
      exists n: nat :: CallOf(c, p, n).cont == ContFor(st, p) && CallOf(c, p, n + 1) == Call(list.next, st.revision) &&
        list.revision == Answer(c, p, CallOf(c, p, n)).revision
    case _ => true
  }

  // A saved token asks for the list that was cut, and carries the revision of its answer.
  ghost predicate NamesCut(c: Job, token: ListState) {
    exists n: nat ::
      token.cont == CallOf(c, token.partitionName, n).cont &&
      token.revision == Answer(c, token.partitionName, CallOf(c, token.partitionName, n)).revision
  }

  ghost predicate CallsInv(c: Job, s: State) {
    && First(c) + |s.procs| <= |c.partitions|
    && (forall k :: 0 <= k < |s.procs| ==> InCalls(c, c.partitions[First(c) + k], s.procs[k]))
    && (s.saved.Some? ==> NamesCut(c, s.saved.value))
  }

  lemma {:induction false} ProcessKeepsCalls(c: Job, s: State, k: nat)
    requires CallsInv(c, s) && Enabled(c, s, Partition(k))
    ensures InCalls(c, c.partitions[First(c) + k], PartitionStep(c, s, k).procs[k])
    ensures PartitionStep(c, s, k).saved.Some? ==> NamesCut(c, PartitionStep(c, s, k).saved.value)
  {
    var p, proc := c.partitions[First(c) + k], s.procs[k];
    assert InCalls(c, p, proc);
    match proc
    case InTurn(st, list) =>
      var n: nat :| CallOf(c, p, n) == Call(ContFor(st, p), st.revision) && list == Answer(c, p, CallOf(c, p, n));
      assert CallOf(c, p, n + 1) == Call(list.next, if st.revision == "" then list.revision else st.revision);
    case Sent(st, list, _, _) =>
      var n: nat :| CallOf(c, p, n).cont == ContFor(st, p) && CallOf(c, p, n + 1) == Call(list.next, st.revision) &&
               list.revision == Answer(c, p, CallOf(c, p, n)).revision;
    case _ =>
  }

  lemma {:induction false} StepKeepsCalls(c: Job, s: State, a: Actor)
    requires CallsInv(c, s) && Enabled(c, s, a)
    ensures CallsInv(c, Step(c, s, a))
  {
    match a
    case Feed =>
      if s.feeder.Acquiring? {
        assert CallOf(c, c.partitions[First(c) + |s.procs|], 0).revision == c.start.revision;
      }
    case Partition(k) =>
      ProcessKeepsCalls(c, s, k);
      var q := OneMoves(c, s, k);
  }

  /** Every call of every run is one of the calls of its partition by itself: the schedule decides
      when a list is read, never what is asked. A token names the list that was cut. */
  lemma {:induction false} RunKeepsCalls(c: Job, s: State, sched: seq<Actor>)
    requires CallsInv(c, s) && Schedulable(c, s, sched)
    ensures CallsInv(c, Exec(c, s, sched))
    decreases |sched|
  {
    if sched != [] {
      StepKeepsCalls(c, s, sched[0]);
      RunKeepsCalls(c, Step(c, s, sched[0]), sched[1..]);
    }
  }

  /** All lists of a partition are asked for at one revision: that of the token, or else, from the second
      list on, that of the first. */
  lemma {:induction false} CallsAtOneRevision(c: Job, p: string, n: nat)
    ensures c.start.revision != "" ==> CallOf(c, p, n).revision == c.start.revision
    ensures var first := c.list(p, ContFor(c.start, p), "", c.limit).revision;
            c.start.revision == "" && first != "" && n > 0 ==> CallOf(c, p, n).revision == first
  {
    if n > 0 {
      CallsAtOneRevision(c, p, n - 1);
    }
  }

  lemma {:induction false} TokenNamesCut(c: Job, sched: seq<Actor>)
    requires Schedulable(c, Init(c), sched) && Reached(c, sched).saved.Some?
    ensures NamesCut(c, Reached(c, sched).saved.value)
  {
    RunKeepsCalls(c, Init(c), sched);
  }

  /** Where nothing changes, the revision of a token is that of the list that was cut, whatever the
      revisions of the others. */
  lemma {:induction false} TokenRevision(c: Job, sched: seq<Actor>)
    requires Unchanging(c) && Schedulable(c, Init(c), sched) && Reached(c, sched).saved.Some?
    ensures var token := Reached(c, sched).saved.value;
            token.revision == Chunk(c, token.partitionName, token.cont).revision
  {
    TokenNamesCut(c, sched);
  }

  // ----- the revision of the page -----

  // The process has its first list ahead of it, or in hand.
  predicate AtStart(c: Job, proc: Process) {
    (proc.Fetching? || proc.Waiting? || proc.InTurn?) && proc.st == c.start
  }

  // The first partition may be in its turn, and the others wait for theirs.
  ghost predicate NothingSent(c: Job, s: State)
    requires First(c) < |c.partitions|
  {
    && s.sent == [] && s.saved.None? && s.revision == ""
    && (forall k :: 0 <= k < |s.procs| ==> AtStart(c, s.procs[k]) && (s.procs[k].InTurn? ==> k == 0))
    && (s.procs != [] && !s.procs[0].Fetching? ==> s.procs[0].list == FirstList(c))
  }

  ghost predicate PageInv(c: Job, s: State)
    requires First(c) < |c.partitions|
  {
    NothingSent(c, s) || s.revision == FirstList(c).revision
  }

  lemma {:induction false} RunKeepsPage(c: Job, s: State, sched: seq<Actor>)
    requires First(c) < |c.partitions| && FirstList(c).revision != ""
    requires PageInv(c, s) && Schedulable(c, s, sched)
    ensures PageInv(c, Exec(c, s, sched))
    decreases |sched|
  {
    if sched != [] {
      StepKeepsPage(c, s, sched[0]);
      RunKeepsPage(c, Step(c, s, sched[0]), sched[1..]);
    }
  }

  lemma {:induction false} StepKeepsPage(c: Job, s: State, a: Actor)
    requires First(c) < |c.partitions| && FirstList(c).revision != ""
    requires PageInv(c, s) && Enabled(c, s, a)
    ensures PageInv(c, Step(c, s, a))
  {
    if NothingSent(c, s) && a.Partition? {
      assert a.k > 0 ==> AtStart(c, s.procs[a.k - 1]);
      assert AtStart(c, s.procs[a.k]);
      var q := OneMoves(c, s, a.k);
    }
  }

  /** A page that has sent anything, or ended, carries the revision of its first list. */
  lemma {:induction false} PageRevision(c: Job, sched: seq<Actor>)
    requires First(c) < |c.partitions| && FirstList(c).revision != "" && Schedulable(c, Init(c), sched)
    ensures var s := Reached(c, sched);
            s.sent != [] || s.saved.Some? || (s.procs != [] && ClosedNext(s.procs[0])) ==>
              s.revision == FirstList(c).revision
  {
    RunKeepsPage(c, Init(c), sched);
  }

  // ----- the next page -----

  // Every list in hand was asked for at the given revision.
  ghost predicate ReadsAt(c: Job, s: State, revision: string) {
    forall k :: 0 <= k < |s.procs| ==>
                  match s.procs[k]
                  case Fetching(st) => st.revision == revision
                  case Waiting(st, list) => st.revision == revision && HasAnswer(c, list, revision)
                  case InTurn(st, list) => st.revision == revision && HasAnswer(c, list, revision)
                  case _ => true
  }

  ghost predicate HasAnswer(c: Job, list: APIObjectList, revision: string) {
    exists p, cont :: list == c.list(p, cont, revision, c.limit)
  }

  /** The page after a token reads all of its lists at the revision of the list that was cut. */
  lemma {:induction false} NextPageReadsAtTheCut(c: Job, asked: int, token: ListState, sched: seq<Actor>)
    requires token.revision != "" && Schedulable(Resumed(c, asked, token), Init(Resumed(c, asked, token)), sched)
    ensures var d := Resumed(c, asked, token); ReadsAt(d, Reached(d, sched), token.revision)
  {
    var d := Resumed(c, asked, token);
    var s := Reached(d, sched);
    RunKeepsCalls(d, Init(d), sched);
    forall k | 0 <= k < |s.procs|
      ensures match s.procs[k]
              case Fetching(st) => st.revision == token.revision
              case Waiting(st, list) => st.revision == token.revision && HasAnswer(d, list, token.revision)
              case InTurn(st, list) => st.revision == token.revision && HasAnswer(d, list, token.revision)
              case _ => true
    {
      var p := d.partitions[First(d) + k];
      assert InCalls(d, p, s.procs[k]);
      if s.procs[k].Fetching? || s.procs[k].Waiting? || s.procs[k].InTurn? {
        var n: nat :| CallOf(d, p, n) == Call(ContFor(s.procs[k].st, p), s.procs[k].st.revision) &&
                      (!s.procs[k].Fetching? ==> s.procs[k].list == Answer(d, p, CallOf(d, p, n)));
        CallsAtOneRevision(d, p, n);
      }
    }
  }
}
