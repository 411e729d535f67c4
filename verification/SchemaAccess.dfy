/** Specialising a schema to a user: the access per verb (pkg/schema/factory.go, schemasForSubject),
    and the grants per namespace it amounts to (pkg/accesscontrol/access_set.go, Granted). */
module SchemaAccess {
  import opened AccessSets

  datatype Schema = Schema(gr: GroupResource, verbs: seq<string>, namespaced: bool)

  type AccessListByVerb = map<string, seq<Access>>

  function AccessList(v: AccessListByVerb, verb: string): seq<Access> {
    if verb in v then v[verb] else []
  }

  predicate VerbGrants(v: AccessListByVerb, verb: string, namespace: string, name: string) {
    exists a :: a in AccessList(v, verb) && Allows(a, namespace, name)
  }

  // The access of one verb before the fallback: cluster-scoped schemas keep wildcard namespaces only.
  ghost predicate Keeps(m: AccessMap, s: Schema, verb: string, a: Access) {
    Found(m, verb, s.gr, a) && (s.namespaced || a.namespace == ALL)
  }

  ghost predicate HasVerbAccess(m: AccessMap, s: Schema) {
    exists verb, a :: verb in s.verbs && Keeps(m, s, verb, a)
  }

  predicate IsNamespaces(s: Schema) {
    s.gr == GroupResource("", "namespaces")
  }

  // The access lists that the user's schema carries.
  ghost predicate IsVerbAccess(v: AccessListByVerb, m: AccessMap, s: Schema) {
    if HasVerbAccess(m, s) || !IsNamespaces(s) then
      forall verb, a :: a in AccessList(v, verb) <==> verb in s.verbs && Keeps(m, s, verb, a)
    else
      forall verb, a :: a in AccessList(v, verb) <==>
                          (verb == "get" || verb == "watch") && a.namespace == ALL && HasReadEntry(m, a.resourceName)
  }

  method TrimToCluster(list: seq<Access>) returns (result: seq<Access>)
    ensures forall a :: a in result <==> a in list && a.namespace == ALL
  {
    result := [];
    for i := 0 to |list|
      invariant forall a :: a in result <==> a in list[..i] && a.namespace == ALL
    {
      if list[i].namespace == ALL {
        result := result + [list[i]];
      }
      assert list[..i + 1] == list[..i] + [list[i]];
    }
    assert list[..|list|] == list;
  }

  method VerbAccess(access: AccessSet, s: Schema) returns (v: AccessListByVerb)
    ensures IsVerbAccess(v, access.entries, s)
  {
    v := map[];
    for i := 0 to |s.verbs|
      invariant forall verb, a :: a in AccessList(v, verb) <==>
                verb in s.verbs[..i] && Keeps(access.entries, s, verb, a)
      invariant forall verb :: verb in v ==> v[verb] != []
    {
      var list := access.AccessListFor(s.verbs[i], s.gr);
      if !s.namespaced {
        list := TrimToCluster(list);
      }
      ghost var before := v;
      if |list| > 0 {
        v := v[s.verbs[i] := list];
      }
      assert s.verbs[..i + 1] == s.verbs[..i] + [s.verbs[i]];
      forall verb, a ensures a in AccessList(v, verb) <==>
          verb in s.verbs[..i + 1] && Keeps(access.entries, s, verb, a) {
        assert a in list <==> Keeps(access.entries, s, s.verbs[i], a);
        assert a in AccessList(before, verb) <==> verb in s.verbs[..i] && Keeps(access.entries, s, verb, a);
      }
    }
    assert s.verbs[..|s.verbs|] == s.verbs;
    ghost var found := v;
    if v == map[] && s.gr.group == "" && s.gr.resource == "namespaces" {
      var namespaces := access.Namespaces();
      var list: seq<Access> := [];
      for i := 0 to |namespaces|
        invariant forall a :: a in list <==> a.namespace == ALL && a.resourceName in namespaces[..i]
      {
        list := list + [Access(ALL, namespaces[i])];
        assert namespaces[..i + 1] == namespaces[..i] + [namespaces[i]];
      }
      assert namespaces[..|namespaces|] == namespaces;
      v := v["get" := list];
      v := v["watch" := list];
      assert !HasVerbAccess(access.entries, s) by {
        forall verb, a | verb in s.verbs ensures !Keeps(access.entries, s, verb, a) {
          assert a !in AccessList(found, verb);
        }
      }
    } else if v != map[] {
      var verb :| verb in v;
      assert v[verb][0] in AccessList(v, verb);
      assert HasVerbAccess(access.entries, s);
    }
  }

  /** For a namespaced schema the stored lists grant exactly what the access set grants for the
      schema's verbs; for a cluster-scoped one, exactly what its wildcard-namespace part grants. */
  lemma {:induction false} SpecialisedGrants(v: AccessListByVerb, m: AccessMap, s: Schema, verb: string,
        namespace: string, name: string)
    requires IsVerbAccess(v, m, s) && (HasVerbAccess(m, s) || !IsNamespaces(s))
    ensures s.namespaced ==>
              (VerbGrants(v, verb, namespace, name) <==> verb in s.verbs && GrantedBy(m, verb, s.gr, namespace, name))
    ensures !s.namespaced ==>
              (VerbGrants(v, verb, namespace, name) <==>
               verb in s.verbs &&
               exists a :: Found(m, verb, s.gr, a) && a.namespace == ALL && Allows(a, namespace, name))
  {
    if VerbGrants(v, verb, namespace, name) {
      var a :| a in AccessList(v, verb) && Allows(a, namespace, name);
      assert Keeps(m, s, verb, a) && Found(m, verb, s.gr, a);
    }
    if s.namespaced && verb in s.verbs && GrantedBy(m, verb, s.gr, namespace, name) {
      var a :| Found(m, verb, s.gr, a) && Allows(a, namespace, name);
      assert Keeps(m, s, verb, a);
    }
    if !s.namespaced && verb in s.verbs {
      if a :| Found(m, verb, s.gr, a) && a.namespace == ALL && Allows(a, namespace, name) {
        assert Keeps(m, s, verb, a);
      }
    }
  }

  // ----- grants per namespace -----

  datatype Resources = Resources(all: bool, names: set<string>)

  // The whole namespace is granted.
  predicate GrantsAll(v: AccessListByVerb, verb: string, namespace: string) {
    Access(namespace, ALL) in AccessList(v, verb)
  }

  // One name in the namespace is granted; objects that can be read may also be listed.
  predicate GrantsName(v: AccessListByVerb, verb: string, namespace: string, name: string) {
    && name != ALL
    && (Access(namespace, name) in AccessList(v, verb)
        || (verb == "list" && name != "" && Access(namespace, name) in AccessList(v, "get")))
  }

  // The grants per namespace of a list of accesses and of the names that "get" adds.
  ghost predicate Describes(r: map<string, Resources>, list: seq<Access>, gets: seq<Access>) {
    && (forall ns :: Access(ns, ALL) in list ==> ns in r)
    && (forall ns, name :: NameIn(list, gets, ns, name) ==> ns in r)
    && (forall ns :: ns in r ==> r[ns].all || r[ns].names != {})
    && (forall ns :: ns in r ==> (r[ns].all <==> Access(ns, ALL) in list))
    && (forall ns, name :: ns in r ==> (name in r[ns].names <==> NameIn(list, gets, ns, name)))
  }

  predicate NameIn(list: seq<Access>, gets: seq<Access>, ns: string, name: string) {
    name != ALL && (Access(ns, name) in list || (name != "" && Access(ns, name) in gets))
  }

  function Lookup(r: map<string, Resources>, namespace: string): Resources {
    if namespace in r then r[namespace] else Resources(false, {})
  }

  method AddVerb(r: map<string, Resources>, a: Access, ghost list: seq<Access>) returns (r': map<string, Resources>)
    requires Describes(r, list, [])
    ensures Describes(r', list + [a], [])
  {
    var resources := Lookup(r, a.namespace);
    if a.resourceName == ALL {
      resources := resources.(all := true);
    } else {
      resources := resources.(names := resources.names + {a.resourceName});
    }
    r' := r[a.namespace := resources];
    assert a.resourceName != ALL ==> a.resourceName in resources.names;
    assert forall ns, name :: NameIn(list + [a], [], ns, name) <==>
                                NameIn(list, [], ns, name) || (name != ALL && Access(ns, name) == a);
  }

  method AddGet(r: map<string, Resources>, a: Access, ghost list: seq<Access>,
        ghost gets: seq<Access>) returns (r': map<string, Resources>)
    requires Describes(r, list, gets)
    ensures Describes(r', list, gets + [a])
  {
    var resources := Lookup(r, a.namespace);
    assert forall ns, name :: NameIn(list, gets + [a], ns, name) <==>
                                NameIn(list, gets, ns, name) || (name != ALL && name != "" && Access(ns, name) == a);
    if a.resourceName == ALL || |a.resourceName| == 0 {
      return r;
    }
    resources := resources.(names := resources.names + {a.resourceName});
    r' := r[a.namespace := resources];
    assert a.resourceName in resources.names;
  }

  // A namespace has an entry exactly if something in it is granted.
  ghost predicate IsGranted(r: map<string, Resources>, v: AccessListByVerb, verb: string) {
    && (forall ns :: ns in r <==> GrantsAll(v, verb, ns) || exists name :: GrantsName(v, verb, ns, name))
    && (forall ns :: ns in r ==> (r[ns].all <==> GrantsAll(v, verb, ns)))
    && (forall ns, name :: ns in r ==> (name in r[ns].names <==> GrantsName(v, verb, ns, name)))
  }

  method Granted(v: AccessListByVerb, verb: string) returns (result: map<string, Resources>)
    ensures IsGranted(result, v, verb)
  {
    result := map[];
    var list := AccessList(v, verb);
    for i := 0 to |list|
      invariant Describes(result, list[..i], [])
    {
      result := AddVerb(result, list[i], list[..i]);
      assert list[..i + 1] == list[..i] + [list[i]];
    }
    assert list[..|list|] == list;
    ghost var gets: seq<Access> := [];
    if verb == "list" {
      // what can be read may be listed
      gets := AccessList(v, "get");
      for i := 0 to |AccessList(v, "get")|
        invariant Describes(result, list, gets[..i])
      {
        result := AddGet(result, AccessList(v, "get")[i], list, gets[..i]);
        assert gets[..i + 1] == gets[..i] + [gets[i]];
      }
      assert gets[..|gets|] == gets;
    }
    assert forall ns, name :: NameIn(list, gets, ns, name) <==> GrantsName(v, verb, ns, name);
    forall ns | ns in result ensures GrantsAll(v, verb, ns) || exists name :: GrantsName(v, verb, ns, name) {
      if result[ns].names != {} {
        var name :| name in result[ns].names;
        assert GrantsName(v, verb, ns, name);
      }
    }
  }
}
