/** Templates that run as long as their schema exists, across resets of the collection
    (pkg/schema/collection.go). */
module TemplateLifecycle {

  // A template with a start function, or without one.
  datatype Template = Template(name: string, starts: bool)

  // A context made for a schema ID, with the number of calls of its cancel function.
  datatype Context = Context(id: string, cancels: nat)

  // running: the context of each running ID. contexts: every context ever made.
  datatype Life = Life(running: map<string, nat>, contexts: seq<Context>)

  // One reset: the templates by ID, the IDs of the new schemas, and how each start ends.
  datatype Reset = Reset(templates: map<string, seq<Template>>, ids: set<string>, succeeds: (string, Template) -> bool)

  function Templates(r: Reset, id: string): seq<Template> {
    if id in r.templates then r.templates[id] else []
  }

  predicate AllStart(r: Reset, id: string) {
    forall t :: t in Templates(r, id) && t.starts ==> r.succeeds(id, t)
  }

  method Start(r: Reset, id: string) returns (ok: bool)
    ensures ok == AllStart(r, id)
    ensures ok <==> id !in r.templates || forall t :: t in r.templates[id] && t.starts ==> r.succeeds(id, t)
  {
    var templates := Templates(r, id);
    for i := 0 to |templates|
      invariant forall t :: t in templates[..i] && t.starts ==> r.succeeds(id, t)
    {
      if templates[i].starts && !r.succeeds(id, templates[i]) {
        return false;
      }
    }
    return true;
  }

  // ----- what every reset keeps -----

  // The context is the one that its ID runs in.
  predicate Runs(life: Life, c: nat) {
    c < |life.contexts| && life.contexts[c].id in life.running && life.running[life.contexts[c].id] == c
  }

  // Running IDs have contexts of their own.
  predicate OwnContexts(life: Life) {
    forall id :: id in life.running ==> life.running[id] < |life.contexts| && life.contexts[life.running[id]].id == id
  }

  // A context is running under its ID and never cancelled, or it is cancelled once and not running.
  predicate ContextOk(life: Life, c: nat)
    requires c < |life.contexts|
  {
    life.contexts[c].cancels == if Runs(life, c) then 0 else 1
  }

  predicate Inv(life: Life) {
    OwnContexts(life) && forall c :: 0 <= c < |life.contexts| ==> ContextOk(life, c)
  }

  function Begun(): Life {
    Life(map[], [])
  }

  // The number of contexts made for an ID.
  function Made(contexts: seq<Context>, id: string): nat {
    if contexts == [] then 0 else Made(contexts[..|contexts| - 1], id) + if contexts[|contexts| - 1].id == id
        then 1 else 0
  }

  lemma {:induction false} MadeOneMore(contexts: seq<Context>, c: Context, id: string)
    ensures Made(contexts + [c], id) == Made(contexts, id) + if c.id == id then 1 else 0
  {
    assert (contexts + [c])[..|contexts|] == contexts;
  }

  lemma {:induction false} MadeCancelled(contexts: seq<Context>, k: nat, c: Context, id: string)
    requires k < |contexts| && c.id == contexts[k].id
    ensures Made(contexts[k := c], id) == Made(contexts, id)
  {
    var n := |contexts| - 1;
    if k == n {
      assert contexts[k := c][..n] == contexts[..n];
    } else {
      assert contexts[k := c][..n] == contexts[..n][k := c];
      MadeCancelled(contexts[..n], k, c, id);
    }
  }

  // The templates of this ID are tried in this reset.
  predicate Tried(before: Life, r: Reset, id: string) {
    id in r.ids && id !in before.running && Templates(r, id) != []
  }

  // What one reset does to one ID: it keeps its context, is started in a new one, or does not run.
  predicate ResetAt(before: Life, after: Life, r: Reset, id: string) {
    && (id in after.running <==> id in r.ids && (id in before.running || (Tried(before, r, id) && AllStart(r, id))))
    && (id in after.running && id in before.running ==> after.running[id] == before.running[id])
    && (id in after.running && id !in before.running ==> IsNew(before, after, id, after.running[id]))
    && Made(after.contexts, id) == Made(before.contexts, id) + if Tried(before, r, id) then 1 else 0
  }

  predicate IsNew(before: Life, after: Life, id: string, c: nat) {
    |before.contexts| <= c < |after.contexts| && after.contexts[c].id == id
  }

  // The context was made for an ID that was tried, and it runs, or the start failed and it was cancelled.
  predicate StartedIfTried(before: Life, now: Life, r: Reset, c: nat)
    requires c < |now.contexts|
  {
    && Tried(before, r, now.contexts[c].id)
    && (AllStart(r, now.contexts[c].id) ==> Runs(now, c) && now.contexts[c].cancels == 0)
    && (!AllStart(r, now.contexts[c].id) ==> now.contexts[c].cancels == 1)
  }

  // What one reset does to one context: an old one is cancelled once more if its ID ran in it and is
  // gone, a new one belongs to an ID that was tried and is cancelled if the start failed.
  predicate ContextAt(before: Life, after: Life, r: Reset, c: nat)
    requires c < |after.contexts|
  {
    var id := after.contexts[c].id;
    if c < |before.contexts| then
      after.contexts[c] == Later(before.contexts[c], Runs(before, c) && id !in r.ids)
    else
      StartedIfTried(before, after, r, c)
  }

  function Later(c: Context, cancelled: bool): Context {
    if cancelled then c.(cancels := c.cancels + 1) else c
  }

  ghost predicate IsReset(before: Life, after: Life, r: Reset) {
    && |before.contexts| <= |after.contexts|
    && (forall id :: ResetAt(before, after, r, id))
    && (forall c :: 0 <= c < |after.contexts| ==> ContextAt(before, after, r, c))
  }

  // ----- a collection over its resets -----

  ghost predicate IsHistory(lives: seq<Life>, resets: seq<Reset>) {
    && |lives| == |resets| + 1 && lives[0] == Begun()
    && forall k :: 0 <= k < |resets| ==> IsReset(lives[k], lives[k + 1], resets[k])
  }

  lemma {:induction false} ResetOf(lives: seq<Life>, resets: seq<Reset>, n: nat, id: string)
    requires IsHistory(lives, resets) && 0 < n <= |resets|
    ensures IsReset(lives[n - 1], lives[n], resets[n - 1]) && ResetAt(lives[n - 1], lives[n], resets[n - 1], id)
  {
    assert IsReset(lives[n - 1], lives[n - 1 + 1], resets[n - 1]);
  }

  // A context that was in order still is.
  lemma {:induction false} ResetKeepsContext(before: Life, after: Life, r: Reset, c: nat)
    requires Inv(before) && IsReset(before, after, r) && c < |after.contexts|
    ensures ContextOk(after, c)
  {
    var id := after.contexts[c].id;
    assert ContextAt(before, after, r, c) && ResetAt(before, after, r, id);
    if c < |before.contexts| {
      assert ContextOk(before, c);
    }
  }

  lemma {:induction false} ResetKeepsInv(before: Life, after: Life, r: Reset)
    requires Inv(before) && IsReset(before, after, r)
    ensures Inv(after)
  {
    forall id | id in after.running ensures after.running[id] < |after.contexts| &&
        after.contexts[after.running[id]].id == id {
      assert ResetAt(before, after, r, id);
      if id in before.running {
        assert ContextAt(before, after, r, after.running[id]);
      }
    }
    forall c | 0 <= c < |after.contexts| ensures ContextOk(after, c) {
      ResetKeepsContext(before, after, r, c);
    }
  }

  /** After every sequence of resets, every context ever made is the running one of its ID and was
      never cancelled, or it runs no more and has been cancelled exactly once. */
  lemma {:induction false} EveryContextAccounted(lives: seq<Life>, resets: seq<Reset>, n: nat)
    requires IsHistory(lives, resets) && n <= |resets|
    ensures Inv(lives[n])
    ensures forall c :: 0 <= c < |lives[n].contexts| ==>
            lives[n].contexts[c].cancels == if Runs(lives[n], c) then 0 else 1
  {
    if n > 0 {
      EveryContextAccounted(lives, resets, n - 1);
      ResetOf(lives, resets, n, "");
      ResetKeepsInv(lives[n - 1], lives[n], resets[n - 1]);
    }
    forall c | 0 <= c < |lives[n].contexts| ensures lives[n].contexts[c].cancels == if Runs(lives[n], c) then 0 else 1 {
      assert ContextOk(lives[n], c);
    }
  }

  /** An ID that is in the schemas of every reset from m to n keeps the context it had. */
  lemma {:induction false} NotRestarted(lives: seq<Life>, resets: seq<Reset>, m: nat, n: nat, id: string)
    requires IsHistory(lives, resets) && m <= n <= |resets| && id in lives[m].running
    requires forall k :: m <= k < n ==> id in resets[k].ids
    ensures id in lives[n].running && lives[n].running[id] == lives[m].running[id]
    ensures Made(lives[n].contexts, id) == Made(lives[m].contexts, id)
  {
    if m < n {
      NotRestarted(lives, resets, m, n - 1, id);
      ResetOf(lives, resets, n, id);
    }
  }

  // The resets among the first n that start the templates of an ID.
  function Attempts(lives: seq<Life>, resets: seq<Reset>, n: nat, id: string): nat
    requires n <= |resets| < |lives|
  {
    if n == 0 then 0
    else
      var before, r := lives[n - 1], resets[n - 1];
      Attempts(lives, resets, n - 1, id) +
      if id in r.ids && id !in before.running && id in r.templates && r.templates[id] != [] then 1 else 0
  }

  /** One context is made for each attempt to start the templates of an ID, and for nothing else. */
  lemma {:induction false} OneContextPerAttempt(lives: seq<Life>, resets: seq<Reset>, n: nat, id: string)
    requires IsHistory(lives, resets) && n <= |resets|
    ensures Made(lives[n].contexts, id) == Attempts(lives, resets, n, id)
  {
    if n > 0 {
      OneContextPerAttempt(lives, resets, n - 1, id);
      ResetOf(lives, resets, n, id);
    }
  }

  lemma {:induction false} RunsSinceStart(lives: seq<Life>, resets: seq<Reset>, n: nat, id: string) returns (m: nat)
    requires IsHistory(lives, resets) && n <= |resets| && id in lives[n].running
    ensures m < n && StartedIn(lives, resets, m, n, id)
  {
    ResetOf(lives, resets, n, id);
    if id in lives[n - 1].running {
      m := RunsSinceStart(lives, resets, n - 1, id);
    } else {
      m := n - 1;
    }
  }

  // Reset m found the ID not running, with templates that all started, and no reset from m to n lacks it.
  predicate StartedIn(lives: seq<Life>, resets: seq<Reset>, m: nat, n: nat, id: string)
    requires m < n <= |resets| < |lives|
  {
    && id !in lives[m].running
    && id in resets[m].templates && resets[m].templates[id] != []
    && (forall t :: t in resets[m].templates[id] && t.starts ==> resets[m].succeeds(id, t))
    && forall k :: m <= k < n ==> id in resets[k].ids
  }

  /** An ID runs if and only if some reset found it absent and started it, and every reset since has
      it in its schemas. */
  lemma {:induction false} RunsExactly(lives: seq<Life>, resets: seq<Reset>, n: nat, id: string)
    requires IsHistory(lives, resets) && n <= |resets|
    ensures id in lives[n].running <==> exists m: nat :: m < n && StartedIn(lives, resets, m, n, id)
  {
    if id in lives[n].running {
      var m := RunsSinceStart(lives, resets, n, id);
    }
    if m: nat :| m < n && StartedIn(lives, resets, m, n, id) {
      ResetOf(lives, resets, m + 1, id);
      NotRestarted(lives, resets, m + 1, n, id);
    }
  }

  // ----- the running templates of collection.go, with their fields -----

  function Cancel(contexts: seq<Context>, c: nat): seq<Context>
    requires c < |contexts|
  {
    contexts[c := contexts[c].(cancels := contexts[c].cancels + 1)]
  }

  // The IDs left in `rest` are as before; the others are started.
  ghost predicate StartedSoFar(before: Life, now: Life, r: Reset, rest: set<string>) {
    && |before.contexts| <= |now.contexts|
    && (forall id :: StartedAt(before, now, r, rest, id))
    && (forall c :: 0 <= c < |now.contexts| ==> StartedContext(before, now, r, c))
  }

  predicate StartedAt(before: Life, now: Life, r: Reset, rest: set<string>, id: string) {
    && (id in now.running <==> id in before.running || (id !in rest && Tried(before, r, id) && AllStart(r, id)))
    && (id in now.running && id in before.running ==> now.running[id] == before.running[id])
    && (id in now.running && id !in before.running ==> IsNew(before, now, id, now.running[id]))
    && Made(now.contexts, id) == Made(before.contexts, id) + if id !in rest && Tried(before, r, id) then 1 else 0
  }

  predicate StartedContext(before: Life, now: Life, r: Reset, c: nat)
    requires c < |now.contexts|
  {
    if c < |before.contexts| then now.contexts[c] == before.contexts[c]
    else StartedIfTried(before, now, r, c)
  }

  lemma {:induction false} StartKeeps(before: Life, now: Life, next: Life, r: Reset, rest: set<string>, id: string,
        cancels: nat)
    requires id in rest && rest <= r.ids && StartedSoFar(before, now, r, rest) && Tried(before, r, id)
    requires cancels == if AllStart(r, id) then 0 else 1
    requires next.contexts == now.contexts + [Context(id, cancels)]
    requires next.running == if AllStart(r, id) then now.running[id := |now.contexts|] else now.running
    ensures StartedSoFar(before, next, r, rest - {id})
  {
    assert StartedAt(before, now, r, rest, id);
    forall c | 0 <= c < |next.contexts| ensures StartedContext(before, next, r, c) {
      if c < |now.contexts| {
        assert StartedContext(before, now, r, c);
      }
    }
    forall x ensures StartedAt(before, next, r, rest - {id}, x) {
      assert StartedAt(before, now, r, rest, x);
      MadeOneMore(now.contexts, Context(id, cancels), x);
    }
  }

  lemma {:induction false} SkipKeeps(before: Life, now: Life, r: Reset, rest: set<string>, id: string)
    requires StartedSoFar(before, now, r, rest) && !Tried(before, r, id)
    ensures StartedSoFar(before, now, r, rest - {id})
  {
    forall x ensures StartedAt(before, now, r, rest - {id}, x) {
      assert StartedAt(before, now, r, rest, x);
    }
  }

  // Of the running IDs, those left in `rest` are not looked at yet.
  ghost predicate StoppedSoFar(mid: Life, now: Life, r: Reset, rest: set<string>) {
    && |mid.contexts| == |now.contexts|
    && (forall id :: StoppedAt(mid, now, r, rest, id))
    && (forall c :: 0 <= c < |now.contexts| ==> StoppedContext(mid, now, r, rest, c))
  }

  predicate StoppedAt(mid: Life, now: Life, r: Reset, rest: set<string>, id: string) {
    && (id in now.running <==> id in mid.running && (id in rest || id in r.ids))
    && (id in now.running ==> now.running[id] == mid.running[id])
    && Made(now.contexts, id) == Made(mid.contexts, id)
  }

  predicate StoppedContext(mid: Life, now: Life, r: Reset, rest: set<string>, c: nat)
    requires c < |now.contexts| == |mid.contexts|
  {
    now.contexts[c] ==
        Later(mid.contexts[c], Runs(mid, c) && mid.contexts[c].id !in r.ids && mid.contexts[c].id !in rest)
  }

  lemma {:induction false} StopKeeps(mid: Life, now: Life, next: Life, r: Reset, rest: set<string>, id: string)
    requires id in rest && id in now.running && id !in r.ids && OwnContexts(mid) && StoppedSoFar(mid, now, r, rest)
    requires now.running[id] < |now.contexts|
    requires next == Life(now.running - {id}, Cancel(now.contexts, now.running[id]))
    ensures StoppedSoFar(mid, next, r, rest - {id})
  {
    var k := now.running[id];
    assert StoppedAt(mid, now, r, rest, id);
    forall c | 0 <= c < |next.contexts| ensures StoppedContext(mid, next, r, rest - {id}, c) {
      assert StoppedContext(mid, now, r, rest, c);
    }
    forall x ensures StoppedAt(mid, next, r, rest - {id}, x) {
      assert StoppedAt(mid, now, r, rest, x);
      MadeCancelled(now.contexts, k, next.contexts[k], x);
    }
  }

  lemma {:induction false} KeepKeeps(mid: Life, now: Life, r: Reset, rest: set<string>, id: string)
    requires id in r.ids && StoppedSoFar(mid, now, r, rest)
    ensures StoppedSoFar(mid, now, r, rest - {id})
  {
    forall x ensures StoppedAt(mid, now, r, rest - {id}, x) {
      assert StoppedAt(mid, now, r, rest, x);
    }
    forall c | 0 <= c < |now.contexts| ensures StoppedContext(mid, now, r, rest - {id}, c) {
      assert StoppedContext(mid, now, r, rest, c);
    }
  }

  lemma {:induction false} StartedOwn(before: Life, mid: Life, r: Reset)
    requires OwnContexts(before) && StartedSoFar(before, mid, r, {})
    ensures OwnContexts(mid)
  {
    forall id | id in mid.running ensures mid.running[id] < |mid.contexts| && mid.contexts[mid.running[id]].id == id {
      assert StartedAt(before, mid, r, {}, id);
      if id in before.running {
        assert StartedContext(before, mid, r, mid.running[id]);
      }
    }
  }

  lemma {:induction false} ContextDone(before: Life, mid: Life, now: Life, r: Reset, c: nat)
    requires StartedSoFar(before, mid, r, {}) && StoppedSoFar(mid, now, r, {}) && c < |now.contexts|
    ensures ContextAt(before, now, r, c)
  {
    var id := mid.contexts[c].id;
    assert StartedContext(before, mid, r, c) && StoppedContext(mid, now, r, {}, c);
    assert StartedAt(before, mid, r, {}, id) && StoppedAt(mid, now, r, {}, id);
  }

  lemma {:induction false} ResetDone(before: Life, mid: Life, now: Life, r: Reset)
    requires StartedSoFar(before, mid, r, {}) && StoppedSoFar(mid, now, r, {})
    ensures IsReset(before, now, r)
  {
    forall id ensures ResetAt(before, now, r, id) {
      assert StartedAt(before, mid, r, {}, id) && StoppedAt(mid, now, r, {}, id);
      if id in now.running && id !in before.running {
        assert StoppedContext(mid, now, r, {}, now.running[id]);
      }
    }
    forall c | 0 <= c < |now.contexts| ensures ContextAt(before, now, r, c) {
      ContextDone(before, mid, now, r, c);
    }
  }

  class Collection {
    var running: map<string, nat>
    var contexts: seq<Context>

    function Now(): Life
      reads this
    {
      Life(running, contexts)
    }

    constructor ()
      ensures Now() == Begun()
    {
      running, contexts := map[], [];
    }

    method StartStopTemplate(r: Reset)
      requires Inv(Now())
      modifies this
      ensures IsReset(old(Now()), Now(), r) && Inv(Now())
    {
      StartNew(r);
      ghost var mid := Now();
      StartedOwn(old(Now()), mid, r);
      StopOld(r);
      ResetDone(old(Now()), mid, Now(), r);
      ResetKeepsInv(old(Now()), Now(), r);
    }

    method StartNew(r: Reset)
      modifies this
      ensures StartedSoFar(old(Now()), Now(), r, {})
    {
      var rest := r.ids;
      assert StartedSoFar(Now(), Now(), r, rest);
      while rest != {}
        invariant rest <= r.ids && StartedSoFar(old(Now()), Now(), r, rest)
        decreases rest
      {
        var id :| id in rest;
        assert StartedAt(old(Now()), Now(), r, rest, id);
        if id in running || Templates(r, id) == [] {
          SkipKeeps(old(Now()), Now(), r, rest, id);
        } else {
          StartOne(r, id, old(Now()), rest);
        }
        rest := rest - {id};
      }
    }

    method StartOne(r: Reset, id: string, ghost before: Life, ghost rest: set<string>)
      requires StartedSoFar(before, Now(), r, rest) && id in rest && rest <= r.ids && Tried(before, r, id)
      modifies this
      ensures StartedSoFar(before, Now(), r, rest - {id})
    {
      var c := |contexts|;
      contexts := contexts + [Context(id, 0)];
      var ok := Start(r, id);
      if ok {
        running := running[id := c];
      } else {
        contexts := Cancel(contexts, c);
      }
      assert contexts == old(contexts) + [Context(id, if ok then 0 else 1)];
      StartKeeps(before, old(Now()), Now(), r, rest, id, if ok then 0 else 1);
    }

    method StopOld(r: Reset)
      requires OwnContexts(Now())
      modifies this
      ensures StoppedSoFar(old(Now()), Now(), r, {})
    {
      var rest := running.Keys;
      assert StoppedSoFar(Now(), Now(), r, rest);
      while rest != {}
        invariant rest <= running.Keys && StoppedSoFar(old(Now()), Now(), r, rest)
        decreases rest
      {
        var id :| id in rest;
        assert StoppedAt(old(Now()), Now(), r, rest, id);
        if id in r.ids {
          KeepKeeps(old(Now()), Now(), r, rest, id);
        } else {
          ghost var now := Now();
          contexts := Cancel(contexts, running[id]);
          running := running - {id};
          StopKeeps(old(Now()), now, Now(), r, rest, id);
        }
        rest := rest - {id};
      }
    }
  }
}
