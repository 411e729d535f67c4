/** What a user sees: the objects that the partitions of a request list
    (pkg/stores/proxy/rbac_store.go, pkg/stores/proxy/proxy_store.go). */
module VisibleListing {
  import opened Listing
  import opened AccessSets
  import opened SchemaAccess
  import opened RbacPartitions

  // The objects of a namespace, in the order of the store; the empty namespace lists them all.
  function InNamespace(objects: seq<APIObject>, namespace: string): seq<APIObject> {
    if objects == [] then []
    else if namespace == "" || objects[0].namespace == namespace then
      [objects[0]] + InNamespace(objects[1..], namespace)
    else
      InNamespace(objects[1..], namespace)
  }

  function Named(objects: seq<APIObject>, names: set<string>): seq<APIObject> {
    if objects == [] then []
    else (if objects[0].name in names then [objects[0]] else []) + Named(objects[1..], names)
  }

  // The wildcard namespace is refused by name; a partition's own namespace replaces the request's.
  function ListPartition(objects: seq<APIObject>, request: Request, p: Partition): seq<APIObject> {
    if p.passthrough then InNamespace(objects, request.namespace)
    else if p.all then InNamespace(objects, p.namespace)
    else if p.namespace == ALL then []
    else Named(InNamespace(objects, p.namespace), p.names)
  }

  function ListAll(objects: seq<APIObject>, request: Request, ps: seq<Partition>): seq<APIObject> {
    if ps == [] then [] else ListPartition(objects, request, ps[0]) + ListAll(objects, request, ps[1..])
  }

  function Count(objects: seq<APIObject>, o: APIObject): nat {
    multiset(objects)[o]
  }

  // ----- counting -----

  lemma {:induction false} CountInNamespace(objects: seq<APIObject>, namespace: string, o: APIObject)
    ensures Count(InNamespace(objects, namespace), o) == if namespace == "" ||
            o.namespace == namespace then Count(objects, o) else 0
  {
    if objects != [] {
      CountInNamespace(objects[1..], namespace, o);
      assert objects == [objects[0]] + objects[1..];
    }
  }

  lemma {:induction false} CountNamed(objects: seq<APIObject>, names: set<string>, o: APIObject)
    ensures Count(Named(objects, names), o) == if o.name in names then Count(objects, o) else 0
  {
    if objects != [] {
      CountNamed(objects[1..], names, o);
      assert objects == [objects[0]] + objects[1..];
    }
  }

  // The partition shows the objects of its own namespace that it grants.
  predicate Shows(p: Partition, o: APIObject) {
    p.namespace == o.namespace && (p.all || o.name in p.names)
  }

  // The namespace of an object of a namespaced schema.
  predicate Namespaced(o: APIObject) {
    o.namespace != "" && o.namespace != ALL
  }

  lemma {:induction false} CountPartition(objects: seq<APIObject>, request: Request, p: Partition, o: APIObject)
    requires !p.passthrough && p.namespace != "" && Namespaced(o)
    ensures Count(ListPartition(objects, request, p), o) == if Shows(p, o) then Count(objects, o) else 0
  {
    CountInNamespace(objects, p.namespace, o);
    CountNamed(InNamespace(objects, p.namespace), p.names, o);
  }

  ghost predicate Proper(ps: seq<Partition>) {
    Distinct(ps) && forall p :: p in ps ==> !p.passthrough && p.namespace != ""
  }

  ghost predicate AnyShows(ps: seq<Partition>, o: APIObject) {
    exists p :: p in ps && Shows(p, o)
  }

  lemma {:induction false} FirstShows(ps: seq<Partition>, o: APIObject)
    requires ps != []
    ensures AnyShows(ps, o) <==> Shows(ps[0], o) || AnyShows(ps[1..], o)
  {
    assert ps == [ps[0]] + ps[1..];
  }

  lemma {:induction false} ShowsOnce(ps: seq<Partition>, o: APIObject)
    requires Distinct(ps) && ps != [] && Shows(ps[0], o)
    ensures !AnyShows(ps[1..], o)
  {
    forall p | p in ps[1..] ensures !Shows(p, o) {
      var i :| 0 <= i < |ps[1..]| && ps[1..][i] == p;
      assert ps[i + 1] == p;
    }
  }

  lemma {:induction false} CountAll(objects: seq<APIObject>, request: Request, ps: seq<Partition>, o: APIObject)
    requires Proper(ps) && Namespaced(o)
    ensures Count(ListAll(objects, request, ps), o) == if AnyShows(ps, o) then Count(objects, o) else 0
  {
    if ps != [] {
      CountPartition(objects, request, ps[0], o);
      CountAll(objects, request, ps[1..], o);
      FirstShows(ps, o);
      if Shows(ps[0], o) {
        ShowsOnce(ps, o);
      }
    }
  }

  // ----- what the access lists make visible -----

  predicate Visible(v: AccessListByVerb, verb: string, o: APIObject) {
    GrantsAll(v, verb, ALL) || GrantsAll(v, verb, o.namespace) || GrantsName(v, verb, o.namespace, o.name)
  }

  // No access is bound to the empty namespace.
  ghost predicate BoundProperly(v: AccessListByVerb) {
    forall verb, a :: a in AccessList(v, verb) ==> a.namespace != ""
  }

  predicate InScope(request: Request, o: APIObject) {
    && (request.namespace == "" || o.namespace == request.namespace)
    && (request.constraint.Some? ==> o.namespace in request.constraint.value)
  }

  lemma {:induction false} UnconstrainedShows(v: AccessListByVerb, verb: string, request: Request,
        free: seq<Partition>, o: APIObject)
    requires BoundProperly(v) && Namespaced(o) && !PassesThrough(v, verb, request.namespace) && request.namespace != ALL
    requires request.namespace != "" ==>
               |free| == 1 && free[0].namespace == request.namespace && Serves(v, verb, request.namespace, free[0])
    requires request.namespace == "" ==> PerNamespace(v, verb, free)
    ensures Proper(free)
    ensures AnyShows(free, o) <==>
              (request.namespace == "" || o.namespace == request.namespace) && Visible(v, verb, o)
  {
    if request.namespace == "" {
      forall p | p in free ensures p.namespace != "" {
        assert HasGrant(v, verb, p.namespace);
      }
      if Visible(v, verb, o) {
        assert HasGrant(v, verb, o.namespace);
        var p :| p in free && p.namespace == o.namespace;
        assert Shows(p, o);
      }
    } else {
      assert free == [free[0]];
      assert AnyShows(free, o) <==> Shows(free[0], o) by {
        assert free[0] in free;
      }
    }
  }

  lemma {:induction false} WithinMembers(ps: seq<Partition>, namespaces: set<string>)
    ensures forall p :: p in Within(ps, namespaces) <==> p in ps && p.namespace in namespaces
    ensures Distinct(ps) ==> Distinct(Within(ps, namespaces))
  {
    if ps != [] {
      WithinMembers(ps[1..], namespaces);
      assert ps == [ps[0]] + ps[1..];
    }
  }

  lemma {:induction false} SameMultisetMembers(a: seq<Partition>, b: seq<Partition>)
    requires multiset(a) == multiset(b)
    ensures forall p :: p in a <==> p in b
  {
    forall p ensures p in a <==> p in b {
      assert p in a <==> p in multiset(a);
      assert p in b <==> p in multiset(b);
    }
  }

  // The partitions of a request that everything passes through to, confined to some namespaces.
  lemma {:induction false} ConfinedShows(ps: seq<Partition>, whole: seq<Partition>, namespaces: set<string>,
        o: APIObject)
    requires IsWholeNamespaces(whole, namespaces) && multiset(ps) == multiset(whole) && "" !in namespaces
    ensures Proper(ps) && (AnyShows(ps, o) <==> o.namespace in namespaces)
  {
    DistinctPermutation(whole, ps);
    SameMultisetMembers(ps, whole);
    if o.namespace in namespaces {
      assert Shows(Partition(o.namespace, true, false, {}), o);
    }
  }

  /** The partitions list an object of a namespaced schema exactly as often as the store has it if
      it is visible and in the scope of the request, and never otherwise: sound, complete and
      without repetition, for every request but one that combines a namespace with a constraint. */
  lemma {:induction false} ListsExactlyVisible(v: AccessListByVerb, request: Request, verb: string, ps: seq<Partition>,
        free: seq<Partition>, from: seq<string>, objects: seq<APIObject>, o: APIObject)
    requires IsAll(v, true, request, verb, ps, free, from) && BoundProperly(v) && Namespaced(o) &&
             request.namespace != ALL
    requires request.constraint.Some? ==> "" !in request.constraint.value
    requires request.constraint.Some? ==> request.namespace == "" || !PassesThrough(v, verb, request.namespace)
    ensures Count(ListAll(objects, request, ps), o) == if Visible(v, verb, o) &&
            InScope(request, o) then Count(objects, o) else 0
  {
    if PassesThrough(v, verb, request.namespace) {
      if request.constraint.None? {
        assert ListAll(objects, request, ps) == InNamespace(objects, request.namespace) + ListAll(objects, request, []);
        CountInNamespace(objects, request.namespace, o);
      } else {
        var whole :| IsWholeNamespaces(whole, request.constraint.value) && multiset(ps) == multiset(whole);
        ConfinedShows(ps, whole, request.constraint.value, o);
        CountAll(objects, request, ps, o);
      }
    } else {
      UnconstrainedShows(v, verb, request, free, o);
      var kept := if request.constraint.None? then free else Within(free, request.constraint.value);
      if request.constraint.Some? {
        WithinMembers(free, request.constraint.value);
      }
      DistinctPermutation(kept, ps);
      SameMultisetMembers(ps, kept);
      CountAll(objects, request, ps, o);
    }
  }

  /** A request that combines a namespace with a constraint, where the whole namespace is granted:
      the constraint replaces the namespace. The listing is right if and only if no object lies in
      another namespace of the constraint. */
  lemma {:induction false} ConstraintReplacesNamespace(v: AccessListByVerb, request: Request, verb: string,
        ps: seq<Partition>,
        free: seq<Partition>, from: seq<string>, objects: seq<APIObject>)
    requires IsAll(v, true, request, verb, ps, free, from) && request.namespace != "" && request.namespace != ALL
    requires PassesThrough(v, verb, request.namespace) && request.constraint.Some? && "" !in request.constraint.value
    requires forall o :: o in objects ==> Namespaced(o)
    ensures (forall o :: o in objects ==>
               Count(ListAll(objects, request, ps), o) == if Visible(v, verb, o) &&
                   InScope(request, o) then Count(objects, o) else 0)
            <==>
            (forall o :: o in objects && o.namespace in request.constraint.value ==> o.namespace == request.namespace)
  {
    var whole :| IsWholeNamespaces(whole, request.constraint.value) && multiset(ps) == multiset(whole);
    forall o | o in objects
      ensures Count(ListAll(objects, request, ps), o) ==
              if o.namespace in request.constraint.value then Count(objects, o) else 0
      ensures Count(objects, o) > 0
    {
      ConfinedShows(ps, whole, request.constraint.value, o);
      CountAll(objects, request, ps, o);
    }
  }

  // One object in another namespace than the request's, which is the whole constraint.
  lemma {:induction false} ForeignObjectIsListed()
    ensures var v: AccessListByVerb := map["list" := [Access("a", ALL)]];
            var request, ps, o := Request("a", Some({"b"})), [Partition("b", true, false, {})], APIObject("b", "x");
            && IsAll(v, true, request, "list", ps, [], []) && BoundProperly(v)
            && PassesThrough(v, "list", request.namespace)
            && ListAll([o], request, ps) == [o] && !Visible(v, "list", o) && !InScope(request, o)
  {
    var v: AccessListByVerb := map["list" := [Access("a", ALL)]];
    var request, ps, o := Request("a", Some({"b"})), [Partition("b", true, false, {})], APIObject("b", "x");
    assert IsWholeNamespaces(ps, {"b"});
    assert InNamespace([o], "b") == [o];
    assert ListAll([o], request, ps) == ListPartition([o], request, ps[0]) + ListAll([o], request, []);
    assert AccessList(v, "get") == [];
  }

  /** The constrained listing is the unconstrained one, filtered to the constraint's namespaces. */
  lemma {:induction false} ConstraintCommutes(v: AccessListByVerb, request: Request, verb: string,
        objects: seq<APIObject>, o: APIObject,
        ps: seq<Partition>, free: seq<Partition>, from: seq<string>,
        ps': seq<Partition>, free': seq<Partition>, from': seq<string>)
    requires request.constraint.Some? && request.namespace == "" && "" !in request.constraint.value
    requires IsAll(v, true, request, verb, ps, free, from)
    requires IsAll(v, true, request.(constraint := None), verb, ps', free', from')
    requires BoundProperly(v) && Namespaced(o)
    ensures Count(ListAll(objects, request, ps), o) ==
            if o.namespace in request.constraint.value
                then Count(ListAll(objects, request.(constraint := None), ps'), o) else 0
  {
    ListsExactlyVisible(v, request, verb, ps, free, from, objects, o);
    ListsExactlyVisible(v, request.(constraint := None), verb, ps', free', from', objects, o);
  }

  /** The order of the partitions is strictly increasing and the same for every map order, so a
      token's partition has one index. */
  lemma {:induction false} PartitionOrder(v: AccessListByVerb, request: Request, verb: string,
        ps: seq<Partition>, free: seq<Partition>, from: seq<string>,
        ps': seq<Partition>, free': seq<Partition>, from': seq<string>)
    requires request.namespace == ""
    requires IsAll(v, true, request, verb, ps, free, from) && IsAll(v, true, request, verb, ps', free', from')
    ensures StrictlyByNamespace(ps) && ps == ps'
  {
    AllStrict(v, request, verb, ps, free, from);
    AllStrict(v, request, verb, ps', free', from');
    forall p ensures p in ps <==> p in ps' {
      AllMembers(v, request, verb, ps, free, from, ps', free', from', p);
      AllMembers(v, request, verb, ps', free', from', ps, free, from, p);
    }
    OneOrder(ps, ps');
  }

  lemma {:induction false} AllStrict(v: AccessListByVerb, request: Request, verb: string, ps: seq<Partition>,
        free: seq<Partition>, from: seq<string>)
    requires request.namespace == "" && IsAll(v, true, request, verb, ps, free, from)
    ensures StrictlyByNamespace(ps)
  {
    if PassesThrough(v, verb, "") {
      if request.constraint.Some? {
        var whole :| IsWholeNamespaces(whole, request.constraint.value) && multiset(ps) == multiset(whole);
        DistinctPermutation(whole, ps);
        SortedDistinct(ps);
      }
    } else {
      var kept := if request.constraint.None? then free else Within(free, request.constraint.value);
      if request.constraint.Some? {
        WithinMembers(free, request.constraint.value);
      }
      DistinctPermutation(kept, ps);
      SortedDistinct(ps);
    }
  }

  lemma {:induction false} AllMembers(v: AccessListByVerb, request: Request, verb: string,
        ps: seq<Partition>, free: seq<Partition>, from: seq<string>,
        ps': seq<Partition>, free': seq<Partition>, from': seq<string>, p: Partition)
    requires request.namespace == ""
    requires IsAll(v, true, request, verb, ps, free, from) && IsAll(v, true, request, verb, ps', free', from')
    ensures p in ps ==> p in ps'
  {
    if p in ps {
      if PassesThrough(v, verb, "") {
        if request.constraint.Some? {
          WholeMembers(ps, request.constraint.value, p);
          WholeMembers(ps', request.constraint.value, p);
        }
      } else {
        FreeMembers(v, verb, free, free', p);
        SameMultisetMembers(ps, if request.constraint.None? then free else Within(free, request.constraint.value));
        SameMultisetMembers(ps', if request.constraint.None? then free' else Within(free', request.constraint.value));
        if request.constraint.Some? {
          WithinMembers(free, request.constraint.value);
          WithinMembers(free', request.constraint.value);
        }
      }
    }
  }

  lemma {:induction false} WholeMembers(ps: seq<Partition>, namespaces: set<string>, p: Partition)
    requires exists whole :: IsWholeNamespaces(whole, namespaces) && multiset(ps) == multiset(whole)
    ensures p in ps <==> p == Partition(p.namespace, true, false, {}) && p.namespace in namespaces
  {
    var whole :| IsWholeNamespaces(whole, namespaces) && multiset(ps) == multiset(whole);
    SameMultisetMembers(ps, whole);
  }

  lemma {:induction false} FreeMembers(v: AccessListByVerb, verb: string, free: seq<Partition>, free': seq<Partition>,
        p: Partition)
    requires PerNamespace(v, verb, free) && PerNamespace(v, verb, free')
    ensures p in free ==> p in free'
  {
    if p in free {
      assert HasGrant(v, verb, p.namespace);
      var q :| q in free' && q.namespace == p.namespace;
      assert Serves(v, verb, p.namespace, p) && Serves(v, verb, p.namespace, q);
      assert q.names == p.names;
      assert q == p;
    }
  }

  // ----- cluster-scoped schemas -----

  // Only wildcard namespaces are left after trimming.
  ghost predicate Trimmed(v: AccessListByVerb) {
    forall verb, a :: a in AccessList(v, verb) ==> a.namespace == ALL
  }

  /** A cluster-scoped schema lists exactly the objects that the wildcard namespace grants. */
  lemma {:induction false} ListsClusterScoped(v: AccessListByVerb, verb: string, ps: seq<Partition>,
        free: seq<Partition>, from: seq<string>,
        objects: seq<APIObject>, o: APIObject)
    requires Trimmed(v) && IsAll(v, false, Request("", None), verb, ps, free, from)
    ensures Count(ListAll(objects, Request("", None), ps), o) ==
            if GrantsAll(v, verb, ALL) || GrantsName(v, verb, ALL, o.name) then Count(objects, o) else 0
  {
    var request := Request("", None);
    CountInNamespace(objects, "", o);
    if GrantsAll(v, verb, ALL) {
      assert ListAll(objects, request, ps) == InNamespace(objects, "") + ListAll(objects, request, []);
    } else {
      OneGrant(v, verb, free, from);
      SameMultisetMembers(ps, free);
      assert |ps| == |multiset(ps)| == |multiset(free)| == |free|;
      if free != [] {
        assert ps[0] in free;
        assert ps == [ps[0]];
        CountNamed(InNamespace(objects, ""), ps[0].names, o);
        assert ListAll(objects, request, ps) == ListPartition(objects, request, ps[0]) + ListAll(objects, request, []);
      }
    }
  }

  lemma {:induction false} Repeats(xs: seq<string>, x: string)
    ensures |xs| > 1 && (forall i :: 0 <= i < |xs| ==> xs[i] == x) ==>
            exists i, j :: 0 <= i < j < |xs| && xs[i] == xs[j]
  {
    if |xs| > 1 && forall i :: 0 <= i < |xs| ==> xs[i] == x {
      assert xs[0] == xs[1];
    }
  }

  lemma {:induction false} OneGrant(v: AccessListByVerb, verb: string, free: seq<Partition>, from: seq<string>)
    requires Trimmed(v) && PerGrant(v, verb, free, from) && !GrantsAll(v, verb, ALL)
    ensures |free| <= 1
    ensures free != [] ==> free[0].namespace == "" && Serves(v, verb, ALL, free[0]) && from == [ALL]
    ensures free == [] ==> forall name :: !GrantsName(v, verb, ALL, name)
  {
    forall i | 0 <= i < |from| ensures from[i] == ALL {
      assert from[i] in from;
      assert HasGrant(v, verb, from[i]);
    }
    Repeats(from, ALL);
    if free == [] {
      assert !HasGrant(v, verb, ALL);
    } else {
      assert from == [from[0]];
    }
  }

  // Only the nameless one of whole partitions lists objects without a namespace.
  lemma {:induction false} CountNameless(objects: seq<APIObject>, request: Request, ps: seq<Partition>, o: APIObject)
    requires Distinct(ps) && o.namespace == ""
    requires forall p :: p in ps ==> p == Partition(p.namespace, true, false, {})
    ensures Count(ListAll(objects, request, ps), o) ==
            if Partition("", true, false, {}) in ps then Count(objects, o) else 0
  {
    if ps != [] {
      CountInNamespace(objects, ps[0].namespace, o);
      CountNameless(objects, request, ps[1..], o);
      assert ps == [ps[0]] + ps[1..];
      if ps[0].namespace == "" {
        forall p | p in ps[1..] ensures p.namespace != "" {
          var i :| 0 <= i < |ps[1..]| && ps[1..][i] == p;
          assert ps[i + 1] == p;
        }
      }
    }
  }

  lemma {:induction false} NamelessPassed(v: AccessListByVerb, verb: string, request: Request, ps: seq<Partition>,
        free: seq<Partition>, from: seq<string>, objects: seq<APIObject>, o: APIObject)
    requires IsAll(v, false, request, verb, ps, free, from) && PassesThrough(v, verb, request.namespace)
    requires o.namespace == ""
    requires request.constraint.Some? ==> request.namespace == "" || "" !in request.constraint.value
    ensures Count(ListAll(objects, request, ps), o) == if InScope(request, o) then Count(objects, o) else 0
  {
    match request.constraint
    case None =>
      assert ListAll(objects, request, ps) == InNamespace(objects, request.namespace) + ListAll(objects, request, []);
      CountInNamespace(objects, request.namespace, o);
    case Some(namespaces) =>
      var whole :| IsWholeNamespaces(whole, namespaces) && multiset(ps) == multiset(whole);
      DistinctPermutation(whole, ps);
      SameMultisetMembers(ps, whole);
      CountNameless(objects, request, ps, o);
  }

  lemma {:induction false} SingleOf(ps: seq<Partition>, kept: seq<Partition>)
    requires multiset(ps) == multiset(kept) && |kept| <= 1
    ensures ps == kept
  {
    assert |ps| == |multiset(ps)| == |multiset(kept)| == |kept|;
    if ps != [] {
      assert ps[0] in multiset(kept);
      assert kept == [kept[0]];
    }
  }

  // A single partition lists what it lists.
  lemma {:induction false} ListOne(objects: seq<APIObject>, request: Request, p: Partition)
    ensures ListAll(objects, request, [p]) == ListPartition(objects, request, p)
  {
    assert ListAll(objects, request, [p]) == ListPartition(objects, request, p) + ListAll(objects, request, []);
  }

  lemma {:induction false} NamelessOther(v: AccessListByVerb, verb: string, request: Request, ps: seq<Partition>,
        free: seq<Partition>, from: seq<string>, objects: seq<APIObject>, o: APIObject)
    requires Trimmed(v) && IsAll(v, false, request, verb, ps, free, from)
    requires !PassesThrough(v, verb, request.namespace) && request.namespace != ""
    ensures Count(ListAll(objects, request, ps), o) == 0
  {
    var kept := if request.constraint.None? then free else Within(free, request.constraint.value);
    assert free == [free[0]];
    if request.constraint.Some? {
      WithinOne(free[0], request.constraint.value);
    }
    SingleOf(ps, kept);
    if ps != [] {
      assert ps == free;
      ListOne(objects, request, free[0]);
      TrimmedServesNothing(v, verb, request, free[0], objects, o);
    }
  }

  // The partition of one namespace shows nothing where only grants for all namespaces are kept.
  lemma {:induction false} TrimmedServesNothing(v: AccessListByVerb, verb: string, request: Request, p: Partition,
        objects: seq<APIObject>, o: APIObject)
    requires Trimmed(v) && !GrantsAll(v, verb, p.namespace) && Serves(v, verb, p.namespace, p)
    ensures Count(ListPartition(objects, request, p), o) == 0
  {
    CountNamed(InNamespace(objects, p.namespace), p.names, o);
    assert p.namespace != ALL ==> !GrantsName(v, verb, p.namespace, o.name);
  }

  lemma {:induction false} WithinOne(p: Partition, namespaces: set<string>)
    ensures Within([p], namespaces) == if p.namespace in namespaces then [p] else []
  {
    assert Within([p], namespaces) == (if p.namespace in namespaces then [p] else []) + Within([], namespaces);
  }

  lemma {:induction false} NamelessFree(v: AccessListByVerb, verb: string, request: Request, ps: seq<Partition>,
        free: seq<Partition>, from: seq<string>, objects: seq<APIObject>, o: APIObject)
    requires Trimmed(v) && IsAll(v, false, request, verb, ps, free, from)
    requires !PassesThrough(v, verb, request.namespace) && request.namespace == "" && o.namespace == ""
    ensures Count(ListAll(objects, request, ps), o) ==
            if GrantsName(v, verb, ALL, o.name) && InScope(request, o) then Count(objects, o) else 0
  {
    OneGrant(v, verb, free, from);
    var kept := if request.constraint.None? then free else Within(free, request.constraint.value);
    if free != [] {
      assert free == [free[0]];
      if request.constraint.Some? {
        WithinOne(free[0], request.constraint.value);
      }
    }
    SingleOf(ps, kept);
    if ps != [] {
      assert ps == free;
      ListOne(objects, request, free[0]);
      CountInNamespace(objects, "", o);
      CountNamed(InNamespace(objects, ""), free[0].names, o);
    }
  }

  /** A cluster-scoped schema lists exactly the objects that the wildcard namespace grants, if the
      request has no namespace and a constraint, if any, names the empty one. */
  lemma {:induction false} ListsInCluster(v: AccessListByVerb, verb: string, request: Request, ps: seq<Partition>,
        free: seq<Partition>, from: seq<string>, objects: seq<APIObject>, o: APIObject)
    requires Trimmed(v) && IsAll(v, false, request, verb, ps, free, from)
    requires o.namespace == "" || request == Request("", None)
    requires request.constraint.Some? ==> request.namespace == "" || "" !in request.constraint.value
    ensures Count(ListAll(objects, request, ps), o) ==
            if (GrantsAll(v, verb, ALL) || GrantsName(v, verb, ALL, o.name)) && InScope(request, o)
            then Count(objects, o) else 0
  {
    if request == Request("", None) {
      ListsClusterScoped(v, verb, ps, free, from, objects, o);
    } else if PassesThrough(v, verb, request.namespace) {
      NamelessPassed(v, verb, request, ps, free, from, objects, o);
    } else if request.namespace != "" {
      NamelessOther(v, verb, request, ps, free, from, objects, o);
    } else {
      NamelessFree(v, verb, request, ps, free, from, objects, o);
    }
  }

  // The lists of the fallback: names to read, and nothing to list.
  lemma {:induction false} FallbackGrants(v: AccessListByVerb, m: AccessMap, s: Schema, name: string)
    requires IsNamespaces(s) && !HasVerbAccess(m, s) && IsVerbAccess(v, m, s) && name != ALL && name != ""
    ensures Trimmed(v) && !GrantsAll(v, "list", ALL)
    ensures GrantsName(v, "list", ALL, name) <==> HasReadEntry(m, name)
    ensures GrantsName(v, "watch", ALL, name) <==> HasReadEntry(m, name)
  {
    assert Access(ALL, name) in AccessList(v, "watch") <==> HasReadEntry(m, name);
    assert Access(ALL, name) in AccessList(v, "get") <==> HasReadEntry(m, name);
  }

  /** The fallback: a user without verb access to namespaces lists exactly the namespaces that an entry
      under the verb get or list is bound to. */
  lemma {:induction false} ListsOwnNamespaces(v: AccessListByVerb, m: AccessMap, s: Schema, request: Request,
        ps: seq<Partition>, free: seq<Partition>, from: seq<string>, objects: seq<APIObject>, o: APIObject)
    requires IsNamespaces(s) && !HasVerbAccess(m, s) && IsVerbAccess(v, m, s)
    requires IsAll(v, false, request, "list", ps, free, from)
    requires o.namespace == "" || request == Request("", None)
    requires request.constraint.Some? ==> request.namespace == "" || "" !in request.constraint.value
    requires o.name != ALL && o.name != ""
    ensures Count(ListAll(objects, request, ps), o) ==
            if HasReadEntry(m, o.name) && InScope(request, o) then Count(objects, o) else 0
  {
    FallbackGrants(v, m, s, o.name);
    ListsInCluster(v, "list", request, ps, free, from, objects, o);
  }
}
