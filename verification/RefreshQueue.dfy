/** The dirty flag that asks for a refresh of the schemas, and the refreshes that race for it
    (pkg/controllers/schema/schemas.go). */
module RefreshQueue {

  // Notified: the flag is stored, the process is not started yet. Sleeping: waits for the delay and
  // for the lock. Holding: has the lock, has not looked at the flag. Taken: took the flag, has not read
  // the cluster. Discovering: has read it, knowing of the first `seen` changes. Failed: released the
  // lock with an error, has not restored the flag. Finished: done.
  datatype Refresh = Notified | Sleeping | Holding | Taken | Discovering(seen: nat) | Failed | Finished

  // changes: the change events so far. tried: how many of them the latest discovery knew of.
  // applied: how many the published schemas know of. failures: discoveries that failed.
  datatype Queue = Queue(toSync: bool, refreshes: seq<Refresh>, locked: bool, changes: nat, tried: nat, applied: nat,
        failures: nat)

  datatype Step =
    | Change | Spawn(i: nat) | Lock(i: nat) | NeedToSync(i: nat) | Discover(i: nat)
    | Reset(i: nat) | Fail(i: nat) | Restore(i: nat)

  function Idle(): Queue {
    Queue(false, [], false, 0, 0, 0, 0)
  }

  function Become(q: Queue, i: nat, r: Refresh): Queue
    requires i < |q.refreshes|
  {
    q.(refreshes := q.refreshes[i := r])
  }

  predicate Enabled(q: Queue, step: Step) {
    step.Change? ||
    (step.i < |q.refreshes| &&
     match step
     case Spawn(i) => q.refreshes[i].Notified?
     case Lock(i) => q.refreshes[i].Sleeping? && !q.locked
     case NeedToSync(i) => q.refreshes[i].Holding?
     case Discover(i) => q.refreshes[i].Taken?
     case Reset(i) => q.refreshes[i].Discovering?
     case Fail(i) => q.refreshes[i].Discovering?
     case Restore(i) => q.refreshes[i].Failed?)
  }

  function Next(q: Queue, step: Step): Queue
    requires Enabled(q, step)
  {
    match step
    case Change => q.(toSync := true, refreshes := q.refreshes + [Notified], changes := q.changes + 1)
    case Spawn(i) => Become(q, i, Sleeping)
    case Lock(i) => Become(q, i, Holding).(locked := true)
    case NeedToSync(i) =>
      if q.toSync then Become(q, i, Taken).(toSync := false)
      else Become(q, i, Finished).(locked := false)
    case Discover(i) => Become(q, i, Discovering(q.changes)).(tried := q.changes)
    case Reset(i) => Become(q, i, Finished).(locked := false, applied := q.refreshes[i].seen)
    case Fail(i) => Become(q, i, Failed).(locked := false, failures := q.failures + 1)
    case Restore(i) => Become(q, i, Finished).(toSync := true)
  }

  predicate IsRun(q: Queue, run: seq<Step>)
    decreases |run|
  {
    run == [] || (Enabled(q, run[0]) && IsRun(Next(q, run[0]), run[1..]))
  }

  function After(q: Queue, run: seq<Step>): Queue
    requires IsRun(q, run)
    decreases |run|
  {
    if run == [] then q else After(Next(q, run[0]), run[1..])
  }

  ghost predicate Reachable(q: Queue) {
    exists run :: IsRun(Idle(), run) && After(Idle(), run) == q
  }

  // ----- the invariant -----

  predicate HasLock(r: Refresh) {
    r.Holding? || r.Taken? || r.Discovering?
  }

  // Will still look at the flag.
  predicate WillLook(r: Refresh) {
    r.Notified? || r.Sleeping? || r.Holding?
  }

  // Will still read the cluster, or find the flag clear.
  predicate WillRead(r: Refresh) {
    WillLook(r) || r.Taken?
  }

  predicate OneHolder(q: Queue) {
    && (forall i, j :: 0 <= i < j < |q.refreshes| ==> !(HasLock(q.refreshes[i]) && HasLock(q.refreshes[j])))
    && (forall i :: 0 <= i < |q.refreshes| && HasLock(q.refreshes[i]) ==> q.locked)
    && (q.locked ==> exists i :: 0 <= i < |q.refreshes| && HasLock(q.refreshes[i]))
  }

  // For a change that no discovery knows of, a refresh has taken the flag, or the flag is set and a
  // refresh will look at it.
  predicate Announced(q: Queue) {
    q.tried < q.changes ==>
      || (exists i :: 0 <= i < |q.refreshes| && q.refreshes[i].Taken?)
      || (q.toSync && exists i :: 0 <= i < |q.refreshes| && WillLook(q.refreshes[i]))
  }

  // Took the flag, and has not restored or published.
  predicate AtWork(r: Refresh) {
    r.Taken? || r.Discovering? || r.Failed?
  }

  // A discovery that is not published is under way, or failed: then the flag is or will be set.
  predicate Kept(q: Queue) {
    q.applied < q.tried ==>
      q.toSync || exists i :: 0 <= i < |q.refreshes| && AtWork(q.refreshes[i])
  }

  predicate Bounds(q: Queue) {
    && q.applied <= q.tried <= q.changes
    && (forall i :: 0 <= i < |q.refreshes| && q.refreshes[i].Discovering? ==> q.refreshes[i].seen == q.tried)
    && (q.failures == 0 && q.applied < q.tried ==> exists i :: 0 <= i < |q.refreshes| && q.refreshes[i].Discovering?)
  }

  predicate Inv(q: Queue) {
    OneHolder(q) && Announced(q) && Kept(q) && Bounds(q)
  }

  lemma {:induction false} ChangeKeeps(q: Queue)
    requires Inv(q)
    ensures Inv(Next(q, Change))
  {
    var r := Next(q, Change);
    assert r.refreshes[|q.refreshes|] == Notified;
    assert forall i :: 0 <= i < |q.refreshes| ==> r.refreshes[i] == q.refreshes[i];
  }

  // Every other step replaces one refresh; the others stay as they were.
  lemma {:induction false} OneMoves(q: Queue, step: Step)
    requires Enabled(q, step) && !step.Change?
    ensures Next(q, step).refreshes == q.refreshes[step.i := Next(q, step).refreshes[step.i]]
    ensures forall j :: 0 <= j < |q.refreshes| && j != step.i ==> Next(q, step).refreshes[j] == q.refreshes[j]
  {
  }

  lemma {:induction false} StepKeepsHolder(q: Queue, step: Step)
    requires OneHolder(q) && Enabled(q, step) && !step.Change?
    ensures OneHolder(Next(q, step))
  {
    OneMoves(q, step);
  }

  lemma {:induction false} StepKeepsAnnounced(q: Queue, step: Step)
    requires Announced(q) && Enabled(q, step) && !step.Change?
    ensures Announced(Next(q, step))
  {
    OneMoves(q, step);
  }

  lemma {:induction false} StepKeepsKept(q: Queue, step: Step)
    requires OneHolder(q) && Kept(q) && Bounds(q) && Enabled(q, step) && !step.Change?
    ensures Kept(Next(q, step)) && Bounds(Next(q, step))
  {
    OneMoves(q, step);
  }

  lemma {:induction false} StepKeepsInv(q: Queue, step: Step)
    requires Inv(q) && Enabled(q, step)
    ensures Inv(Next(q, step))
  {
    if step.Change? {
      ChangeKeeps(q);
    } else {
      StepKeepsHolder(q, step);
      StepKeepsAnnounced(q, step);
      StepKeepsKept(q, step);
    }
  }

  lemma {:induction false} RunKeepsInv(q: Queue, run: seq<Step>)
    requires Inv(q) && IsRun(q, run)
    ensures Inv(After(q, run))
    decreases |run|
  {
    if run != [] {
      StepKeepsInv(q, run[0]);
      RunKeepsInv(Next(q, run[0]), run[1..]);
    }
  }

  lemma {:induction false} ReachableInv(q: Queue)
    requires Reachable(q)
    ensures Inv(q)
  {
    var run :| IsRun(Idle(), run) && After(Idle(), run) == q;
    RunKeepsInv(Idle(), run);
  }

  // ----- no refresh is lost -----

  predicate Quiet(q: Queue) {
    forall i :: 0 <= i < |q.refreshes| ==> q.refreshes[i].Finished?
  }

  /** As long as a change has not been followed by a discovery, a refresh has taken the flag and is about
      to read, or the flag is set and a refresh is on its way to look at it. */
  lemma {:induction false} ChangeIsAnnounced(q: Queue)
    requires Reachable(q) && q.tried < q.changes
    ensures exists i :: 0 <= i < |q.refreshes| && (q.refreshes[i].Taken? || (q.toSync && WillLook(q.refreshes[i])))
  {
    ReachableInv(q);
  }

  /** When all refreshes are done, every change was followed by a discovery; what was discovered is
      published, or the flag is set again. */
  lemma {:induction false} NothingIsLost(q: Queue)
    requires Reachable(q) && Quiet(q)
    ensures q.tried == q.changes && !q.locked
    ensures q.applied == q.changes || (q.toSync && q.failures > 0)
  {
    ReachableInv(q);
  }

  /** Two refreshes never hold the lock at once, so discoveries are published in their order. */
  lemma {:induction false} OneDiscovery(q: Queue, i: nat, j: nat)
    requires Reachable(q) && i < |q.refreshes| && j < |q.refreshes|
    requires HasLock(q.refreshes[i]) && HasLock(q.refreshes[j])
    ensures i == j && (q.refreshes[i].Discovering? ==> q.applied <= q.refreshes[i].seen == q.tried)
  {
    ReachableInv(q);
  }

  // The steps that the refreshes still need.
  function Remaining(refreshes: seq<Refresh>): nat {
    if refreshes == [] then 0
    else Remaining(refreshes[..|refreshes| - 1]) +
         match refreshes[|refreshes| - 1]
         case Notified => 6 case Sleeping => 5 case Holding => 4 case Taken => 3
         case Discovering(_) => 2 case Failed => 1 case Finished => 0
  }

  lemma {:induction false} LessRemains(refreshes: seq<Refresh>, i: nat, r: Refresh)
    requires i < |refreshes| && Remaining([r]) < Remaining([refreshes[i]])
    ensures Remaining(refreshes[i := r]) < Remaining(refreshes)
  {
    var n := |refreshes| - 1;
    if i == n {
      assert refreshes[i := r][..n] == refreshes[..n];
      assert [r][..0] == [] && [refreshes[i]][..0] == [];
    } else {
      assert refreshes[i := r][..n] == refreshes[..n][i := r];
      LessRemains(refreshes[..n], i, r);
    }
  }

  // A step that brings an unfinished queue closer to rest; the holder of the lock goes first.
  lemma {:induction false} CanProceed(q: Queue) returns (step: Step)
    requires Inv(q) && !Quiet(q)
    ensures Enabled(q, step) && Next(q, step).changes == q.changes
    ensures Remaining(Next(q, step).refreshes) < Remaining(q.refreshes)
  {
    var i: nat :| i < |q.refreshes| && (if q.locked then HasLock(q.refreshes[i]) else !q.refreshes[i].Finished?);
    step := match q.refreshes[i]
      case Notified => Spawn(i)
      case Sleeping => Lock(i)
      case Holding => NeedToSync(i)
      case Taken => Discover(i)
      case Discovering(_) => Reset(i)
      case Failed => Restore(i);
    LessRemains(q.refreshes, i, Next(q, step).refreshes[i]);
  }

  lemma {:induction false} RunConcat(q: Queue, step: Step, run: seq<Step>)
    requires Enabled(q, step) && IsRun(Next(q, step), run)
    ensures IsRun(q, [step] + run) && After(q, [step] + run) == After(Next(q, step), run)
  {
    assert ([step] + run)[1..] == run;
  }

  /** Refreshes never block each other for good: without further changes they can all finish. */
  lemma {:induction false} ComesToRest(q: Queue) returns (run: seq<Step>)
    requires Inv(q)
    ensures IsRun(q, run) && Quiet(After(q, run)) && After(q, run).changes == q.changes == After(q, run).tried
    decreases Remaining(q.refreshes)
  {
    if Quiet(q) {
      run := [];
    } else {
      var step := CanProceed(q);
      StepKeepsInv(q, step);
      var rest := ComesToRest(Next(q, step));
      RunConcat(q, step, rest);
      run := [step] + rest;
    }
  }

  /** A failed refresh sets the flag again, but starts nothing: the change stays unpublished, with
      nobody at work, until another change comes. */
  lemma {:induction false} FailureWaitsForTheNextChange()
    ensures exists q :: Reachable(q) && Quiet(q) && q.toSync && q.applied < q.changes
  {
    var q1 := Next(Idle(), Change);
    var q2 := Next(q1, Spawn(0));
    var q3 := Next(q2, Lock(0));
    var q4 := Next(q3, NeedToSync(0));
    var q5 := FailsAfterTaking(q4);
    var rest := [Discover(0), Fail(0), Restore(0)];
    RunConcat(q3, NeedToSync(0), rest);
    RunConcat(q2, Lock(0), [NeedToSync(0)] + rest);
    RunConcat(q1, Spawn(0), [Lock(0)] + ([NeedToSync(0)] + rest));
    var run := [Spawn(0)] + ([Lock(0)] + ([NeedToSync(0)] + rest));
    RunConcat(Idle(), Change, run);
    assert IsRun(Idle(), [Change] + run) && After(Idle(), [Change] + run) == q5;
  }

  lemma {:induction false} FailsAfterTaking(q: Queue) returns (r: Queue)
    requires q.refreshes == [Taken] && q.changes == 1 && q.applied == 0
    ensures IsRun(q, [Discover(0), Fail(0), Restore(0)]) && r == After(q, [Discover(0), Fail(0), Restore(0)])
    ensures Quiet(r) && r.toSync && r.applied < r.changes
  {
    var q1 := Next(q, Discover(0));
    var q2 := Next(q1, Fail(0));
    r := Next(q2, Restore(0));
    RunConcat(q2, Restore(0), []);
    RunConcat(q1, Fail(0), [Restore(0)]);
    RunConcat(q, Discover(0), [Fail(0), Restore(0)]);
  }

  // ----- when the published schemas are current -----

  function Changes(run: seq<Step>): nat {
    if run == [] then 0 else Changes(run[..|run| - 1]) + if run[|run| - 1].Change? then 1 else 0
  }

  // Refresh i read the cluster after the last change of the run.
  predicate ReadSince(run: seq<Step>, i: nat) {
    exists j :: 0 <= j < |run| && run[j] == Discover(i) && Changes(run[..j]) == Changes(run)
  }

  // A refresh read the cluster after the last change, and published what it discovered.
  predicate PublishedSince(run: seq<Step>) {
    exists j, k :: 0 <= j < k < |run| && Publishes(run, j, k)
  }

  predicate Publishes(run: seq<Step>, j: nat, k: nat)
    requires j < k < |run|
  {
    run[j].Discover? && run[k] == Reset(run[j].i) && Changes(run[..j]) == Changes(run)
  }

  lemma {:induction false} RunSplit(q: Queue, run: seq<Step>, step: Step)
    requires IsRun(q, run + [step])
    ensures IsRun(q, run) && Enabled(After(q, run), step)
    ensures After(q, run + [step]) == Next(After(q, run), step)
    decreases |run|
  {
    if run == [] {
      assert (run + [step])[1..] == [];
    } else {
      assert (run + [step])[1..] == run[1..] + [step];
      RunSplit(Next(q, run[0]), run[1..], step);
    }
  }

  lemma {:induction false} ChangesSplit(run: seq<Step>, step: Step)
    ensures Changes(run + [step]) == Changes(run) + if step.Change? then 1 else 0
  {
    assert (run + [step])[..|run|] == run;
  }

  lemma {:induction false} ChangesPrefix(run: seq<Step>, j: nat)
    requires j <= |run|
    ensures Changes(run[..j]) <= Changes(run)
    decreases |run|
  {
    if j == |run| {
      assert run[..j] == run;
    } else {
      assert run[..|run| - 1][..j] == run[..j];
      ChangesPrefix(run[..|run| - 1], j);
    }
  }

  // What the steps so far say about one refresh: it has not read yet, or what it discovers is what
  // there was to know when it read.
  predicate Traced(run: seq<Step>, q: Queue, i: nat) {
    && (i >= |q.refreshes| || WillRead(q.refreshes[i]) ==> Discover(i) !in run)
    && (i < |q.refreshes| && q.refreshes[i].Discovering? ==>
        Discover(i) in run && KnewWhenReading(run, i, q.refreshes[i].seen))
  }

  predicate KnewWhenReading(run: seq<Step>, i: nat, seen: nat) {
    forall j :: 0 <= j < |run| && run[j] == Discover(i) ==> Changes(run[..j]) == seen
  }

  lemma {:induction false} ReadsStep(run: seq<Step>, step: Step, i: nat, seen: nat)
    requires if step == Discover(i) then Discover(i) !in run &&
             Changes(run) == seen else KnewWhenReading(run, i, seen)
    ensures KnewWhenReading(run + [step], i, seen)
  {
    var more := run + [step];
    forall j | 0 <= j < |more| && more[j] == Discover(i) ensures Changes(more[..j]) == seen {
      assert more[..j] == run[..j];
      if j == |run| {
        assert run[..j] == run;
      } else {
        assert run[j] in run;
      }
    }
  }

  lemma {:induction false} TraceStep(run: seq<Step>, q: Queue, step: Step, i: nat)
    requires Traced(run, q, i) && Enabled(q, step) && q.changes == Changes(run)
    ensures Traced(run + [step], Next(q, step), i)
  {
    var next := Next(q, step);
    assert Discover(i) in run + [step] <==> Discover(i) in run || step == Discover(i);
    if i < |next.refreshes| && next.refreshes[i].Discovering? {
      ReadsStep(run, step, i, next.refreshes[i].seen);
    }
  }

  lemma {:induction false} PublishAt(run: seq<Step>, step: Step, j: nat, k: nat)
    requires j < k <= |run|
    ensures step.Change? ==> !Publishes(run + [step], j, k)
    ensures !step.Change? && k < |run| ==> (Publishes(run + [step], j, k) <==> Publishes(run, j, k))
    ensures !step.Change? && k == |run| ==>
              (Publishes(run + [step], j, k) <==>
                  run[j].Discover? && step == Reset(run[j].i) && Changes(run[..j]) == Changes(run))
  {
    assert (run + [step])[..j] == run[..j];
    ChangesSplit(run, step);
    ChangesPrefix(run, j);
  }

  lemma {:induction false} PublishStep(run: seq<Step>, step: Step)
    ensures PublishedSince(run + [step]) <==>
            !step.Change? && (PublishedSince(run) || (step.Reset? && ReadSince(run, step.i)))
  {
    var more := run + [step];
    if j, k :| 0 <= j < k < |more| && Publishes(more, j, k) {
      PublishAt(run, step, j, k);
    }
    if !step.Change? {
      if j, k :| 0 <= j < k < |run| && Publishes(run, j, k) {
        PublishAt(run, step, j, k);
        assert Publishes(more, j, k);
      }
      if step.Reset? && ReadSince(run, step.i) {
        var j :| 0 <= j < |run| && run[j] == Discover(step.i) && Changes(run[..j]) == Changes(run);
        PublishAt(run, step, j, |run|);
        assert Publishes(more, j, |run|);
      }
    }
  }

  // A discovery that is published knows of all changes exactly if its refresh read after the last.
  lemma {:induction false} ResetCurrent(run: seq<Step>, q: Queue, i: nat)
    requires Traced(run, q, i) && i < |q.refreshes| && q.refreshes[i].Discovering? && q.changes == Changes(run)
    ensures q.refreshes[i].seen == q.changes <==> ReadSince(run, i)
  {
    var j :| 0 <= j < |run| && run[j] == Discover(i);
    assert Changes(run[..j]) == q.refreshes[i].seen;
  }

  lemma {:induction false} CurrentTraced(run: seq<Step>)
    requires IsRun(Idle(), run)
    ensures After(Idle(), run).changes == Changes(run)
    ensures forall i :: Traced(run, After(Idle(), run), i)
    ensures After(Idle(), run).applied == Changes(run) <==> Changes(run) == 0 || PublishedSince(run)
    decreases |run|
  {
    if run != [] {
      var front, step := run[..|run| - 1], run[|run| - 1];
      assert run == front + [step];
      RunSplit(Idle(), front, step);
      CurrentTraced(front);
      var q := After(Idle(), front);
      RunKeepsInv(Idle(), front);
      forall i ensures Traced(run, Next(q, step), i) {
        assert Traced(front, q, i);
        TraceStep(front, q, step, i);
      }
      ChangesSplit(front, step);
      PublishStep(front, step);
      if step.Reset? {
        assert Traced(front, q, step.i);
        ResetCurrent(front, q, step.i);
      }
    }
  }

  /** The published schemas know of every change if and only if there was none, or some refresh read
      the cluster after the last change, and published. */
  lemma {:induction false} CurrentExactly(run: seq<Step>)
    requires IsRun(Idle(), run)
    ensures var q := After(Idle(), run);
            q.applied == q.changes <==> Change !in run || PublishedSince(run)
  {
    CurrentTraced(run);
    NoChange(run);
  }

  lemma {:induction false} NoChange(run: seq<Step>)
    ensures Changes(run) == 0 <==> Change !in run
  {
    if run != [] {
      NoChange(run[..|run| - 1]);
      assert run == run[..|run| - 1] + [run[|run| - 1]];
    }
  }

  // ----- how many discoveries there are -----

  function Discoveries(run: seq<Step>): nat {
    if run == [] then 0 else Discoveries(run[..|run| - 1]) + if run[|run| - 1].Discover? then 1 else 0
  }

  function Restores(run: seq<Step>): nat {
    if run == [] then 0 else Restores(run[..|run| - 1]) + if run[|run| - 1].Restore? then 1 else 0
  }

  predicate SomeTaken(q: Queue) {
    exists i :: 0 <= i < |q.refreshes| && q.refreshes[i].Taken?
  }

  // The discoveries so far, the one to come, and the flag were each asked for.
  predicate Asked(run: seq<Step>, q: Queue) {
    Discoveries(run) + (if SomeTaken(q) then 1 else 0) + (if q.toSync then 1 else 0) <= Changes(run) + Restores(run)
  }

  lemma {:induction false} AskedStep(run: seq<Step>, q: Queue, step: Step)
    requires OneHolder(q) && Asked(run, q) && Enabled(q, step)
    ensures Asked(run + [step], Next(q, step))
  {
    assert (run + [step])[..|run|] == run;
    var next := Next(q, step);
    if step.Change? {
      assert forall i :: 0 <= i < |q.refreshes| ==> next.refreshes[i] == q.refreshes[i];
    } else {
      OneMoves(q, step);
      assert step.NeedToSync? || step.Discover? ==> HasLock(q.refreshes[step.i]);
    }
  }

  /** Refreshes are merged: however many are queued, there are no more discoveries than changes and failures
      that asked for one. */
  lemma {:induction false} DiscoveriesAreAskedFor(run: seq<Step>)
    requires IsRun(Idle(), run)
    ensures Asked(run, After(Idle(), run))
    ensures Discoveries(run) <= Changes(run) + Restores(run)
    decreases |run|
  {
    if run != [] {
      var front, step := run[..|run| - 1], run[|run| - 1];
      assert run == front + [step];
      RunSplit(Idle(), front, step);
      DiscoveriesAreAskedFor(front);
      RunKeepsInv(Idle(), front);
      AskedStep(front, After(Idle(), front), step);
    }
  }

  // ----- the handler of schemas.go, with its fields -----

  class Handler {
    var toSync: bool
    var refreshes: seq<Refresh>
    var locked: bool
    var changes: nat
    var tried: nat
    var applied: nat
    var failures: nat

    function Now(): Queue
      reads this
    {
      Queue(toSync, refreshes, locked, changes, tried, applied, failures)
    }

    constructor ()
      ensures Now() == Idle()
    {
      toSync, refreshes, locked, changes, tried, applied, failures := false, [], false, 0, 0, 0, 0;
    }

    method QueueRefresh()
      modifies this
      ensures Now() == Next(old(Now()), Change)
    {
      changes := changes + 1;
      toSync := true;
      refreshes := refreshes + [Notified];
    }

    method NeedToSync() returns (was: bool)
      modifies this`toSync
      ensures was == old(toSync) && !toSync
    {
      was := toSync;
      toSync := false;
    }

    // One step of a refresh; `fails` decides how a discovery ends.
    method RefreshStep(i: nat, fails: bool) returns (ghost step: Step)
      requires i < |refreshes| && !refreshes[i].Finished? && (refreshes[i].Sleeping? ==> !locked)
      modifies this
      ensures Enabled(old(Now()), step) && Now() == Next(old(Now()), step)
    {
      match refreshes[i] {
        case Notified =>
          step := Spawn(i);
          refreshes := refreshes[i := Sleeping];
        case Sleeping =>
          step := Lock(i);
          locked := true;
          refreshes := refreshes[i := Holding];
        case Holding =>
          step := Step.NeedToSync(i);
          var needed := NeedToSync();
          if needed {
            refreshes := refreshes[i := Taken];
          } else {
            locked := false;
            refreshes := refreshes[i := Finished];
          }
        case Taken =>
          step := Discover(i);
          tried := changes;
          refreshes := refreshes[i := Discovering(changes)];
        case Discovering(seen) =>
          if fails {
            step := Fail(i);
            failures := failures + 1;
            refreshes := refreshes[i := Failed];
          } else {
            step := Reset(i);
            applied := seen;
            refreshes := refreshes[i := Finished];
          }
          locked := false;
        case Failed =>
          step := Restore(i);
          toSync := true;
          refreshes := refreshes[i := Finished];
      }
    }
  }
}
