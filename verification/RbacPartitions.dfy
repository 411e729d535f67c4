/** From the access lists of a schema to the partitions that are listed
    (pkg/stores/proxy/rbac_store.go; ByNames in pkg/stores/proxy/proxy_store.go). */
module RbacPartitions {
  import opened Listing
  import opened AccessSets
  import opened SchemaAccess

  datatype Partition = Partition(namespace: string, all: bool, passthrough: bool, names: set<string>)

  const PASSTHROUGH := Partition("", false, true, {})

  // What the request carries: its namespace, and a set of namespaces it is confined to.
  datatype Request = Request(namespace: string, constraint: Option<set<string>>)

  // ----- the partitions -----

  // A partition holds exactly what is granted in its namespace.
  ghost predicate Serves(v: AccessListByVerb, verb: string, granted: string, p: Partition) {
    && !p.passthrough
    && (p.all <==> GrantsAll(v, verb, granted))
    && (forall name :: name in p.names <==> GrantsName(v, verb, granted, name))
  }

  ghost predicate HasGrant(v: AccessListByVerb, verb: string, namespace: string) {
    GrantsAll(v, verb, namespace) || exists name :: GrantsName(v, verb, namespace, name)
  }

  ghost predicate Distinct(ps: seq<Partition>) {
    forall i, j :: 0 <= i < j < |ps| ==> ps[i].namespace != ps[j].namespace
  }

  // One partition for each namespace with a grant.
  ghost predicate PerNamespace(v: AccessListByVerb, verb: string, ps: seq<Partition>) {
    && Distinct(ps)
    && (forall p :: p in ps ==> Serves(v, verb, p.namespace, p))
    && (forall ns :: HasGrant(v, verb, ns) <==> exists p :: p in ps && p.namespace == ns)
  }

  // Cluster-scoped: the nameless partition of each namespace with a grant.
  ghost predicate PerGrant(v: AccessListByVerb, verb: string, ps: seq<Partition>, from: seq<string>) {
    && PartitionsFrom(v, verb, false, ps, from)
    && (forall ns :: ns in from <==> HasGrant(v, verb, ns))
  }

  // Everything, or everything in the request's namespace, is granted.
  predicate PassesThrough(v: AccessListByVerb, verb: string, namespace: string) {
    GrantsAll(v, verb, ALL) || (namespace != "" && GrantsAll(v, verb, namespace))
  }

  method IsPassthroughUnconstrained(v: AccessListByVerb, namespaced: bool, request: Request, verb: string)
    returns (partitions: seq<Partition>, passthrough: bool, ghost from: seq<string>)
    ensures passthrough <==> PassesThrough(v, verb, request.namespace)
    ensures passthrough ==> partitions == []
    ensures !passthrough && request.namespace != "" ==>
              |partitions| == 1 && partitions[0].namespace == request.namespace &&
                  Serves(v, verb, request.namespace, partitions[0])
    ensures !passthrough && request.namespace == "" && namespaced ==> PerNamespace(v, verb, partitions)
    ensures !passthrough && request.namespace == "" && !namespaced ==> PerGrant(v, verb, partitions, from)
  {
    from := [];
    if exists a :: a in AccessList(v, verb) && Allows(a, ALL, ALL) {
      assert GrantsAll(v, verb, ALL);
      return [], true, [];
    }
    assert !GrantsAll(v, verb, ALL) by {
      if GrantsAll(v, verb, ALL) {
        assert Allows(Access(ALL, ALL), ALL, ALL);
      }
    }
    var resources := Granted(v, verb);
    if request.namespace != "" {
      var r := Lookup(resources, request.namespace);
      if r.all {
        return [], true, [];
      }
      return [Partition(request.namespace, false, false, r.names)], false, [];
    }
    passthrough := false;
    partitions, from := PartitionsOf(v, verb, namespaced, resources);
    if namespaced {
      ByNamespace(v, verb, partitions, from);
    }
  }

  // One partition per entry, in any order.
  method PartitionsOf(ghost v: AccessListByVerb, ghost verb: string, namespaced: bool, resources: map<string,
        Resources>)
    returns (ps: seq<Partition>, ghost from: seq<string>)
    requires IsGranted(resources, v, verb)
    ensures PartitionsFrom(v, verb, namespaced, ps, from)
    ensures forall ns :: ns in from <==> HasGrant(v, verb, ns)
  {
    ps, from := [], [];
    var keys := resources.Keys;
    while keys != {}
      invariant keys <= resources.Keys
      invariant forall ns :: ns in from <==> ns in resources.Keys - keys
      invariant PartitionsFrom(v, verb, namespaced, ps, from)
      decreases |keys|
    {
      var k :| k in keys;
      var p := Partition(if namespaced then k else "", resources[k].all, false, resources[k].names);
      assert Serves(v, verb, k, p) && k !in from;
      ps, from := ps + [p], from + [k];
      keys := keys - {k};
    }
  }

  ghost predicate PartitionsFrom(v: AccessListByVerb, verb: string, namespaced: bool, ps: seq<Partition>,
        from: seq<string>) {
    && |from| == |ps|
    && (forall i, j :: 0 <= i < j < |from| ==> from[i] != from[j])
    && (forall i :: 0 <= i < |ps| ==>
          ps[i].namespace == (if namespaced then from[i] else "") && Serves(v, verb, from[i], ps[i]))
  }

  lemma {:induction false} ByNamespace(v: AccessListByVerb, verb: string, ps: seq<Partition>, from: seq<string>)
    requires PartitionsFrom(v, verb, true, ps, from)
    requires forall ns :: ns in from <==> HasGrant(v, verb, ns)
    ensures PerNamespace(v, verb, ps)
  {
    forall ns ensures HasGrant(v, verb, ns) <==> exists p :: p in ps && p.namespace == ns {
      if ns in from {
        var i :| 0 <= i < |from| && from[i] == ns;
        assert ps[i] in ps;
      }
    }
  }

  method IsPassthrough(v: AccessListByVerb, namespaced: bool, request: Request, verb: string)
    returns (partitions: seq<Partition>, passthrough: bool, ghost free: seq<Partition>, ghost from: seq<string>)
    ensures passthrough <==> request.constraint.None? && PassesThrough(v, verb, request.namespace)
    ensures !PassesThrough(v, verb, request.namespace) && request.namespace != "" ==>
              |free| == 1 && free[0].namespace == request.namespace && Serves(v, verb, request.namespace, free[0])
    ensures !PassesThrough(v, verb, request.namespace) && request.namespace == "" && namespaced ==>
            PerNamespace(v, verb, free)
    ensures !PassesThrough(v, verb, request.namespace) && request.namespace == "" && !namespaced ==>
            PerGrant(v, verb, free, from)
    ensures request.constraint.None? && !passthrough ==> partitions == free
    ensures request.constraint.Some? && PassesThrough(v, verb, request.namespace) ==>
            IsWholeNamespaces(partitions, request.constraint.value)
    ensures request.constraint.Some? && !PassesThrough(v, verb, request.namespace) ==>
            partitions == Within(free, request.constraint.value)
  {
    var ps, pass, keys := IsPassthroughUnconstrained(v, namespaced, request, verb);
    partitions, passthrough, free, from := ps, pass, ps, keys;
    match request.constraint {
      case None =>
      case Some(namespaces) =>
        passthrough := false;
        if pass {
          partitions := WholeNamespaces(namespaces);
        } else {
          partitions := [];
          for i := 0 to |ps|
            invariant partitions == Within(ps[..i], namespaces)
          {
            WithinStep(ps, i, namespaces);
            if ps[i].namespace in namespaces {
              partitions := partitions + [ps[i]];
            }
          }
          assert ps[..|ps|] == ps;
        }
    }
  }

  ghost predicate IsWholeNamespaces(ps: seq<Partition>, namespaces: set<string>) {
    && Distinct(ps)
    && (forall p :: p in ps ==> p == Partition(p.namespace, true, false, {}) && p.namespace in namespaces)
    && (forall ns :: ns in namespaces ==> Partition(ns, true, false, {}) in ps)
  }

  method WholeNamespaces(namespaces: set<string>) returns (ps: seq<Partition>)
    ensures IsWholeNamespaces(ps, namespaces)
  {
    ps := [];
    var rest := namespaces;
    while rest != {}
      invariant rest <= namespaces && IsWholeNamespaces(ps, namespaces - rest)
      decreases |rest|
    {
      var ns :| ns in rest;
      ps := ps + [Partition(ns, true, false, {})];
      rest := rest - {ns};
    }
    assert namespaces - rest == namespaces;
  }

  function Within(ps: seq<Partition>, namespaces: set<string>): seq<Partition> {
    if ps == [] then []
    else (if ps[0].namespace in namespaces then [ps[0]] else []) + Within(ps[1..], namespaces)
  }

  lemma {:induction false} WithinStep(ps: seq<Partition>, i: nat, namespaces: set<string>)
    requires i < |ps|
    ensures Within(ps[..i + 1], namespaces) == Within(ps[..i], namespaces) + if ps[i].namespace in namespaces
            then [ps[i]] else []
  {
    if i == 0 {
      assert ps[..1] == [ps[0]] && ps[..1][1..] == [];
    } else {
      assert ps[..i + 1][1..] == ps[1..][..i] && ps[..i][1..] == ps[1..][..i - 1];
      WithinStep(ps[1..], i - 1, namespaces);
    }
  }

  // ----- sorting by namespace -----

  ghost predicate Sorted(ps: seq<Partition>) {
    forall i, j :: 0 <= i < j < |ps| ==> !Less(ps[j].namespace, ps[i].namespace)
  }

  method SortByNamespace(ps: seq<Partition>) returns (sorted: seq<Partition>)
    ensures Sorted(sorted) && multiset(sorted) == multiset(ps)
  {
    sorted := [];
    for i := 0 to |ps|
      invariant Sorted(sorted) && multiset(sorted) == multiset(ps[..i])
    {
      var at := 0;
      while at < |sorted| && Less(sorted[at].namespace, ps[i].namespace)
        invariant 0 <= at <= |sorted|
        invariant forall j :: 0 <= j < at ==> Less(sorted[j].namespace, ps[i].namespace)
      {
        at := at + 1;
      }
      InsertKeepsSorted(sorted, ps[i], at);
      assert sorted == sorted[..at] + sorted[at..];
      assert ps[..i + 1] == ps[..i] + [ps[i]];
      sorted := sorted[..at] + [ps[i]] + sorted[at..];
    }
    assert ps[..|ps|] == ps;
  }

  lemma {:induction false} InsertKeepsSorted(ps: seq<Partition>, p: Partition, at: nat)
    requires Sorted(ps) && at <= |ps|
    requires forall j :: 0 <= j < at ==> Less(ps[j].namespace, p.namespace)
    requires at < |ps| ==> !Less(ps[at].namespace, p.namespace)
    ensures Sorted(ps[..at] + [p] + ps[at..])
  {
    forall j | 0 <= j < at ensures !Less(p.namespace, ps[j].namespace) {
      LessAsymmetric(ps[j].namespace, p.namespace);
    }
    forall j | at <= j < |ps| ensures !Less(ps[j].namespace, p.namespace) {
      if Less(ps[j].namespace, p.namespace) && at < j {
        LessTotal(ps[at].namespace, ps[j].namespace);
        if Less(ps[at].namespace, ps[j].namespace) {
          LessTransitive(ps[at].namespace, ps[j].namespace, p.namespace);
        }
      }
    }
  }

  lemma {:induction false} LessAsymmetric(a: string, b: string)
    requires Less(a, b)
    ensures !Less(b, a)
  {
    if Less(b, a) {
      LessTransitive(a, b, a);
      LessIrreflexive(a);
    }
  }

  ghost predicate StrictlyByNamespace(ps: seq<Partition>) {
    forall i, j :: 0 <= i < j < |ps| ==> Less(ps[i].namespace, ps[j].namespace)
  }

  /** Sorting partitions with distinct names leaves one order, whatever the map order was. */
  lemma {:induction false} OneOrder(a: seq<Partition>, b: seq<Partition>)
    requires StrictlyByNamespace(a) && StrictlyByNamespace(b)
    requires forall p :: p in a <==> p in b
    ensures a == b
  {
    SameMembersEmpty(a, b);
    if a != [] {
      assert a[0] in b;
      assert b[0] in a;
      if a[0] != b[0] {
        LessAsymmetric(a[0].namespace, b[0].namespace);
      }
      forall p ensures p in a[1..] <==> p in b[1..] {
        OneOrderTail(a, b, p);
        OneOrderTail(b, a, p);
      }
      OneOrder(a[1..], b[1..]);
    }
  }

  lemma {:induction false} SameMembersEmpty(a: seq<Partition>, b: seq<Partition>)
    requires forall p :: p in a <==> p in b
    ensures a == [] <==> b == []
  {
    if a != [] {
      assert a[0] in b;
    }
    if b != [] {
      assert b[0] in a;
    }
  }

  lemma {:induction false} OneOrderTail(a: seq<Partition>, b: seq<Partition>, p: Partition)
    requires StrictlyByNamespace(a) && StrictlyByNamespace(b) && a != [] && b != [] && a[0] == b[0]
    requires forall q :: q in a <==> q in b
    ensures p in a[1..] ==> p in b[1..]
  {
    if p in a[1..] {
      var i :| 1 <= i < |a| && a[i] == p;
      LessIrreflexive(p.namespace);
      assert p in b && p != b[0];
      var j :| 0 <= j < |b| && b[j] == p;
      assert b[1..][j - 1] == p;
    }
  }

  lemma {:induction false} SortedDistinct(ps: seq<Partition>)
    requires Sorted(ps) && Distinct(ps)
    ensures StrictlyByNamespace(ps)
  {
    forall i, j | 0 <= i < j < |ps| ensures Less(ps[i].namespace, ps[j].namespace) {
      LessTotal(ps[i].namespace, ps[j].namespace);
    }
  }

  // Distinctness does not depend on the order.
  lemma {:induction false} DistinctPermutation(a: seq<Partition>, b: seq<Partition>)
    requires Distinct(a) && multiset(a) == multiset(b)
    ensures Distinct(b)
  {
    forall i, j | 0 <= i < j < |b| ensures b[i].namespace != b[j].namespace {
      if b[i].namespace == b[j].namespace {
        assert b[i] in multiset(a) && b[j] in multiset(a);
        var x :| 0 <= x < |a| && a[x] == b[i];
        var y :| 0 <= y < |a| && a[y] == b[j];
        assert x == y;
        Twice(b, i, j);
        Once(a, x);
      }
    }
  }

  lemma {:induction false} Twice(b: seq<Partition>, i: nat, j: nat)
    requires i < j < |b| && b[i] == b[j]
    ensures multiset(b)[b[i]] >= 2
  {
    assert b == b[..j] + [b[j]] + b[j + 1..];
    assert b[..j][i] == b[i];
    assert b[i] in multiset(b[..j]);
  }

  lemma {:induction false} Once(a: seq<Partition>, x: nat)
    requires Distinct(a) && x < |a|
    ensures multiset(a)[a[x]] == 1
  {
    assert a == a[..x] + [a[x]] + a[x + 1..];
    assert a[x] !in a[..x] && a[x] !in a[x + 1..];
  }

  // ----- All -----

  datatype Partitions = InvalidVerb | Partitions(list: seq<Partition>)

  function SlashAt(id: string): (i: nat)
    ensures i <= |id|
  {
    if id == "" || id[0] == '/' then 0 else 1 + SlashAt(id[1..])
  }

  // The partition of a request for one object, by "namespace/name" or by name alone.
  function PartitionOfId(id: string): Partition {
    var i := SlashAt(id);
    if i == |id| then Partition("", false, false, {id}) else Partition(id[..i], false, false, {id[i + 1..]})
  }

  // An id is cut at its first slash.
  lemma {:induction false} SlashAfter(ns: string, name: string)
    requires '/' !in ns
    ensures SlashAt(ns) == |ns| && SlashAt(ns + "/" + name) == |ns|
  {
    if ns != "" {
      assert (ns + "/" + name)[1..] == ns[1..] + "/" + name;
      SlashAfter(ns[1..], name);
    }
  }

  lemma {:induction false} PartitionIsOfId(id: string)
    ensures '/' !in id ==> PartitionOfId(id) == Partition("", false, false, {id})
    ensures forall ns, name :: '/' !in ns && id == ns + "/" + name ==>
                                 PartitionOfId(id) == Partition(ns, false, false, {name})
  {
    if '/' !in id {
      SlashAfter(id, "");
    }
    forall ns, name | '/' !in ns && id == ns + "/" + name
      ensures PartitionOfId(id) == Partition(ns, false, false, {name})
    {
      SlashAfter(ns, name);
      assert id[..|ns|] == ns && id[|ns| + 1..] == name;
    }
  }

  method All(v: AccessListByVerb, namespaced: bool, request: Request, verb: string, id: string)
    returns (r: Partitions, ghost free: seq<Partition>, ghost from: seq<string>)
    ensures r.InvalidVerb? <==> verb != "list" && verb != "watch"
    ensures r.Partitions? && id != "" && '/' !in id ==> r.list == [Partition("", false, false, {id})]
    ensures forall ns, name :: '/' !in ns && id == ns + "/" + name ==>
                                 r.Partitions? ==> r.list == [Partition(ns, false, false, {name})]
    ensures r.Partitions? && id == "" ==> IsAll(v, namespaced, request, verb, r.list, free, from)
    ensures r.Partitions? && id == "" && request.constraint.None? ==>
              (r.list == [Partition("", false, true, {})] <==>
                  Access(ALL, ALL) in AccessList(v, verb) ||
                  (request.namespace != "" && Access(request.namespace, ALL) in AccessList(v, verb)))
  {
    free, from := [], [];
    if verb != "list" && verb != "watch" {
      return InvalidVerb, [], [];
    }
    if id != "" {
      PartitionIsOfId(id);
      return Partitions([PartitionOfId(id)]), [], [];
    }
    var ps, pass;
    ps, pass, free, from := IsPassthrough(v, namespaced, request, verb);
    if pass {
      return Partitions([PASSTHROUGH]), free, from;
    }
    var sorted := SortByNamespace(ps);
    r := Partitions(sorted);
  }

  // What All returns for a list or a watch without an id. `free` are the partitions before the
  // constraint, in any order.
  ghost predicate IsAll(v: AccessListByVerb, namespaced: bool, request: Request, verb: string, ps: seq<Partition>,
                        free: seq<Partition>, from: seq<string>)
  {
    if PassesThrough(v, verb, request.namespace) then
      match request.constraint
      case None => ps == [Partition("", false, true, {})]
      case Some(namespaces) =>
        Sorted(ps) && exists whole :: IsWholeNamespaces(whole, namespaces) && multiset(ps) == multiset(whole)
    else
      && (request.namespace != "" ==>
          |free| == 1 && free[0].namespace == request.namespace && Serves(v, verb, request.namespace, free[0]))
      && (request.namespace == "" && namespaced ==> PerNamespace(v, verb, free))
      && (request.namespace == "" && !namespaced ==> PerGrant(v, verb, free, from))
      && Sorted(ps)
      && multiset(ps) == multiset(if request.constraint.None? then free else Within(free, request.constraint.value))
  }
}
