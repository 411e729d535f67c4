/** What a partition's store answers to one call of the lister, chunk by chunk
    (byNameOrNamespaceStore in pkg/stores/proxy/rbac_store.go, ByNames in
    pkg/stores/proxy/proxy_store.go). */
module ChunkedStore {
  import opened Listing
  import opened Paging
  import opened AccessSets
  import opened RbacPartitions
  import opened VisibleListing

  const NOTHING := APIObjectList([], "", "")

  function NamedList(list: APIObjectList, names: set<string>): APIObjectList {
    list.(objects := Named(list.objects, names))
  }

  // `store` is the cluster: its partitions are namespaces, and its limit is the one of the page.
  function PartitionChunk(store: Job, request: Request, p: Partition, cont: string, rev: string,
        limit: int): APIObjectList {
    if p.passthrough then store.list(request.namespace, cont, rev, limit)
    else if p.all then store.list(p.namespace, cont, rev, limit)
    else if p.namespace == ALL then NOTHING
    else NamedList(store.list(p.namespace, cont, rev, limit), p.names)
  }

  function Target(request: Request, p: Partition): string {
    if p.passthrough then request.namespace else p.namespace
  }

  method ListPartitionChunk(store: Job, request: Request, p: Partition, cont: string, rev: string, limit: int)
    returns (list: APIObjectList)
    ensures list == PartitionChunk(store, request, p, cont, rev, limit)
    ensures p.passthrough ==> list == store.list(request.namespace, cont, rev, limit)
    ensures !p.passthrough && p.all ==> list == store.list(p.namespace, cont, rev, limit)
    ensures !p.passthrough && !p.all && p.namespace != ALL ==>
              var whole := store.list(p.namespace, cont, rev, limit);
              list.revision == whole.revision && list.next == whole.next
    ensures !p.passthrough && !p.all && p.namespace == ALL ==> list == APIObjectList([], "", "")
  {
    var namespace := request.namespace;
    if p.passthrough {
      return store.list(namespace, cont, rev, limit);
    }
    namespace := p.namespace;
    if p.all {
      return store.list(namespace, cont, rev, limit);
    }
    list := ByNames(store, namespace, p.names, cont, rev, limit);
  }

  // The revision and the continue token of the list are kept.
  method ByNames(store: Job, namespace: string, names: set<string>, cont: string, rev: string, limit: int)
    returns (list: APIObjectList)
    ensures list == if namespace == ALL then NOTHING else NamedList(store.list(namespace, cont, rev, limit), names)
    ensures namespace != ALL ==>
              var whole := store.list(namespace, cont, rev, limit);
              list.revision == whole.revision && list.next == whole.next
  {
    if namespace == ALL {
      return NOTHING;
    }
    list := store.list(namespace, cont, rev, limit);
    var objects, filtered := list.objects, [];
    assert objects[0..] == objects;
    for i := 0 to |objects|
      invariant filtered + Named(objects[i..], names) == Named(objects, names)
    {
      NamedStep(objects, i, names);
      if objects[i].name in names {
        filtered := filtered + [objects[i]];
      }
    }
    list := list.(objects := filtered);
  }

  lemma {:induction false} NamedStep(objects: seq<APIObject>, i: nat, names: set<string>)
    requires i < |objects|
    ensures Named(objects[i..], names) ==
            (if objects[i].name in names then [objects[i]] else []) + Named(objects[i + 1..], names)
  {
    assert objects[i..][1..] == objects[i + 1..];
  }

  // ----- the lister's job over the partitions -----

  function PartitionNames(ps: seq<Partition>): seq<string> {
    seq(|ps|, i requires 0 <= i < |ps| => ps[i].namespace)
  }

  function Find(ps: seq<Partition>, name: string): Option<Partition> {
    if ps == [] then None else if ps[0].namespace == name then Some(ps[0]) else Find(ps[1..], name)
  }

  function Answer(store: Job, request: Request, ps: seq<Partition>, name: string, cont: string, rev: string,
        limit: int): APIObjectList {
    match Find(ps, name)
    case None => NOTHING
    case Some(p) => PartitionChunk(store, request, p, cont, rev, limit)
  }

  function AnswerRank(store: Job, request: Request, ps: seq<Partition>, name: string, cont: string, limit: int): nat {
    match Find(ps, name)
    case None => 0
    case Some(p) => store.rank(Target(request, p), cont, limit)
  }

  // The first page of a listing.
  function ListerJob(store: Job, request: Request, ps: seq<Partition>): Job {
    Job((name, cont, rev, limit) => Answer(store, request, ps, name, cont, rev, limit),
        (name, cont, limit) => AnswerRank(store, request, ps, name, cont, limit),
        3, PartitionNames(ps), FRESH, store.limit)
  }

  // The cluster holds these objects: reading a namespace chunk by chunk yields those in it.
  ghost predicate StoreHolds(store: Job, objects: seq<APIObject>) {
    forall namespace :: Chain(store, namespace, "") == InNamespace(objects, namespace)
  }

  lemma {:induction false} ListerUnchanging(store: Job, request: Request, ps: seq<Partition>)
    requires Unchanging(store)
    ensures Unchanging(ListerJob(store, request, ps))
  {
  }

  lemma {:induction false} NamedShorter(objects: seq<APIObject>, names: set<string>)
    ensures |Named(objects, names)| <= |objects|
  {
    if objects != [] {
      NamedShorter(objects[1..], names);
    }
  }

  lemma {:induction false} ListerWithin(store: Job, request: Request, ps: seq<Partition>)
    requires ChunksWithin(store) && store.limit >= 0
    ensures ChunksWithin(ListerJob(store, request, ps))
  {
    var c := ListerJob(store, request, ps);
    forall name, cont ensures |Chunk(c, name, cont).objects| <= c.limit {
      if Find(ps, name).Some? {
        var target := Target(request, Find(ps, name).value);
        assert |Chunk(store, target, cont).objects| <= store.limit;
        NamedShorter(Chunk(store, target, cont).objects, Find(ps, name).value.names);
      }
    }
  }

  lemma {:induction false} FindNamed(ps: seq<Partition>, i: nat)
    requires i < |ps| && forall j, k :: 0 <= j < k < |ps| ==> ps[j].namespace != ps[k].namespace
    ensures Find(ps, ps[i].namespace) == Some(ps[i])
  {
    if i > 0 {
      assert ps[0].namespace != ps[i].namespace;
      FindNamed(ps[1..], i - 1);
    }
  }

  lemma {:induction false} NamedConcat(a: seq<APIObject>, b: seq<APIObject>, names: set<string>)
    ensures Named(a + b, names) == Named(a, names) + Named(b, names)
  {
    if a == [] {
      assert a + b == b;
    } else {
      var first := if a[0].name in names then [a[0]] else [];
      NamedConcat(a[1..], b, names);
      assert (a + b)[0] == a[0] && (a + b)[1..] == a[1..] + b;
      assert Named(a, names) == first + Named(a[1..], names);
      assert Named(a + b, names) == first + (Named(a[1..], names) + Named(b, names));
    }
  }

  /** A call of the lister for a partition is a call of the store with the same token, revision and limit:
      what it answers has the same revision and token, unless names are granted in all namespaces. */
  lemma {:induction false} ListerAsks(store: Job, request: Request, ps: seq<Partition>, i: nat, cont: string,
        rev: string, limit: int)
    requires i < |ps| && forall j, k :: 0 <= j < k < |ps| ==> ps[j].namespace != ps[k].namespace
    ensures var list, whole := ListerJob(store, request, ps).list(ps[i].namespace, cont, rev, limit),
                               store.list(Target(request, ps[i]), cont, rev, limit);
            if ps[i].passthrough || ps[i].all then list == whole
            else if ps[i].namespace == ALL then list == APIObjectList([], "", "")
            else list.revision == whole.revision && list.next == whole.next
  {
    FindNamed(ps, i);
  }

  // What a partition keeps of the objects of its namespace.
  function Kept(p: Partition, objects: seq<APIObject>): seq<APIObject> {
    if p.passthrough || p.all then objects else if p.namespace == ALL then [] else Named(objects, p.names)
  }

  lemma {:induction false} KeptConcat(p: Partition, a: seq<APIObject>, b: seq<APIObject>)
    ensures Kept(p, a + b) == Kept(p, a) + Kept(p, b)
  {
    NamedConcat(a, b, p.names);
  }

  // Filtering chunk by chunk is filtering the whole.
  lemma {:induction false} ChainKept(store: Job, request: Request, ps: seq<Partition>, p: Partition, cont: string)
    requires Find(ps, p.namespace) == Some(p)
    ensures Chain(ListerJob(store, request, ps), p.namespace, cont) == Kept(p, Chain(store, Target(request, p), cont))
    decreases store.rank(Target(request, p), cont, store.limit)
  {
    var c, target := ListerJob(store, request, ps), Target(request, p);
    KeptConcat(p, Chunk(store, target, cont).objects, After(store, target, cont));
    if p.passthrough || p.all || p.namespace != ALL {
      assert Continues(c, p.namespace, cont) <==> Continues(store, target, cont);
      if Continues(store, target, cont) {
        ChainKept(store, request, ps, p, Chunk(store, target, cont).next);
      }
    }
  }

  /** The chunks that the lister gets for a partition add up to what the partition lists. */
  lemma {:induction false} ListerServes(store: Job, objects: seq<APIObject>, request: Request, ps: seq<Partition>,
        i: nat)
    requires StoreHolds(store, objects) && i < |ps|
    requires forall j, k :: 0 <= j < k < |ps| ==> ps[j].namespace != ps[k].namespace
    ensures Chain(ListerJob(store, request, ps), ps[i].namespace, "") == ListPartition(objects, request, ps[i])
  {
    FindNamed(ps, i);
    ChainKept(store, request, ps, ps[i], "");
    assert Chain(store, Target(request, ps[i]), "") == InNamespace(objects, Target(request, ps[i]));
  }
}
