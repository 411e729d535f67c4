/** From role bindings to the pages a user reads: the access index, the schema's access lists, the
    partitions and the paged lister, put together. */
module EndToEnd {
  import opened Listing
  import opened Paging
  import opened Pagination
  import opened AccessSets
  import opened PolicyRules
  import opened CacheKeys
  import opened SchemaAccess
  import opened RbacPartitions
  import opened VisibleListing
  import opened ChunkedStore

  // ----- what bindings say about the objects of a list -----

  // A rule for the verb and the resource that names `name`, or has the wildcard for it.
  ghost predicate Names(rules: seq<PolicyRule>, verb: string, gr: GroupResource, name: string) {
    exists rule :: rule in rules && Matches(rule.verbs, verb) && Matches(rule.apiGroups, gr.group)
                   && Matches(rule.resources, gr.resource) && name in NamesOf(rule)
  }

  ghost predicate SubjectBinds(b: Backend, subject: string, bound: string, verb: string, gr: GroupResource,
        name: string) {
    || (bound == ALL &&
        exists ref :: ref in ClusterRoleBindings(b, subject) && Names(Rules(b, ALL, ref), verb, gr, name))
    || (exists rb :: rb in RoleBindings(b, subject) &&
                     rb.namespace == bound && Names(Rules(b, bound, rb.roleRef), verb, gr, name))
  }

  // A binding of the user or of one of its groups, in namespace `bound` (the wildcard for all).
  ghost predicate Binds(w: World, user: User, bound: string, verb: string, gr: GroupResource, name: string) {
    || SubjectBinds(w.users, user.name, bound, verb, gr, name)
    || exists g :: g in user.groups && SubjectBinds(w.groups, g, bound, verb, gr, name)
  }

  /** The rule of visibility: list access everywhere or in the object's namespace, or list or get
      access to the object by name in its namespace. */
  ghost predicate MayList(w: World, user: User, s: Schema, o: APIObject) {
    || ("list" in s.verbs && (|| Binds(w, user, ALL, "list", s.gr, ALL)
                              || Binds(w, user, o.namespace, "list", s.gr, ALL)
                              || Binds(w, user, o.namespace, "list", s.gr, o.name)))
    || ("get" in s.verbs && Binds(w, user, o.namespace, "get", s.gr, o.name))
  }

  lemma {:induction false} RulesFound(rules: seq<PolicyRule>, bound: string, verb: string, gr: GroupResource, a: Access)
    ensures (exists k :: Answers(k, verb, gr) && RulesAdd(rules, bound, k, a)) <==>
              a.namespace == bound && Names(rules, verb, gr, a.resourceName)
  {
    if k :| Answers(k, verb, gr) && RulesAdd(rules, bound, k, a) {
      var rule :| rule in rules && RuleAdds(rule, bound, k, a);
    }
    if a.namespace == bound && Names(rules, verb, gr, a.resourceName) {
      var rule :| rule in rules && Matches(rule.verbs, verb) && Matches(rule.apiGroups, gr.group)
                  && Matches(rule.resources, gr.resource) && a.resourceName in NamesOf(rule);
      var k := Key(if ALL in rule.verbs then ALL else verb,
                   GroupResource(if ALL in rule.apiGroups then ALL else gr.group,
                                 if ALL in rule.resources then ALL else gr.resource));
      assert RuleAdds(rule, bound, k, a);
      assert Answers(k, verb, gr) && RulesAdd(rules, bound, k, a);
    }
  }

  lemma {:induction false} SubjectFound(b: Backend, subject: string, verb: string, gr: GroupResource, a: Access)
    ensures (exists k :: Answers(k, verb, gr) && SubjectAdds(b, subject, k, a)) <==>
              SubjectBinds(b, subject, a.namespace, verb, gr, a.resourceName)
  {
    if k :| Answers(k, verb, gr) && SubjectAdds(b, subject, k, a) {
      if ref :| ref in ClusterRoleBindings(b, subject) && RulesAdd(Rules(b, ALL, ref), ALL, k, a) {
        RulesFound(Rules(b, ALL, ref), ALL, verb, gr, a);
      } else {
        var rb :| rb in RoleBindings(b, subject) && RulesAdd(Rules(b, rb.namespace, rb.roleRef), rb.namespace, k, a);
        RulesFound(Rules(b, rb.namespace, rb.roleRef), rb.namespace, verb, gr, a);
      }
    }
    if SubjectBinds(b, subject, a.namespace, verb, gr, a.resourceName) {
      var rules :| Names(rules, verb, gr, a.resourceName) &&
                   (forall k :: RulesAdd(rules, a.namespace, k, a) ==> SubjectAdds(b, subject, k, a));
      RulesFound(rules, a.namespace, verb, gr, a);
      var k :| Answers(k, verb, gr) && RulesAdd(rules, a.namespace, k, a);
      assert SubjectAdds(b, subject, k, a);
    }
  }

  lemma {:induction false} UserFound(m: AccessMap, w: World, user: User, verb: string, gr: GroupResource, a: Access)
    requires IsIndexOf(m, w, user)
    ensures Found(m, verb, gr, a) <==> Binds(w, user, a.namespace, verb, gr, a.resourceName)
  {
    SubjectFound(w.users, user.name, verb, gr, a);
    forall g ensures (exists k :: Answers(k, verb, gr) && SubjectAdds(w.groups, g, k, a)) <==>
                       SubjectBinds(w.groups, g, a.namespace, verb, gr, a.resourceName) {
      SubjectFound(w.groups, g, verb, gr, a);
    }
    if Found(m, verb, gr, a) {
      var k :| Answers(k, verb, gr) && Holds(m, k, a);
      assert UserAdds(w, user, k, a);
    }
    if Binds(w, user, a.namespace, verb, gr, a.resourceName) {
      var k :| Answers(k, verb, gr) && UserAdds(w, user, k, a);
      assert Holds(m, k, a);
    }
  }

  // Role bindings have a namespace.
  ghost predicate BindingsNamespaced(w: World) {
    && (forall subject, rb :: rb in RoleBindings(w.users, subject) ==> rb.namespace != "")
    && (forall subject, rb :: rb in RoleBindings(w.groups, subject) ==> rb.namespace != "")
  }

  /** The access lists of the user's schema make an object visible to a list if and only if the
      bindings and rules say so. */
  lemma {:induction false} VisibleByRules(v: AccessListByVerb, m: AccessMap, w: World, user: User, s: Schema,
        o: APIObject)
    requires IsIndexOf(m, w, user) && IsVerbAccess(v, m, s) && s.namespaced && !IsNamespaces(s)
    requires o.name != ALL && o.name != ""
    ensures Visible(v, "list", o) <==> MayList(w, user, s, o)
  {
    UserFound(m, w, user, "list", s.gr, Access(ALL, ALL));
    UserFound(m, w, user, "list", s.gr, Access(o.namespace, ALL));
    UserFound(m, w, user, "list", s.gr, Access(o.namespace, o.name));
    UserFound(m, w, user, "get", s.gr, Access(o.namespace, o.name));
  }

  lemma {:induction false} ProperlyBound(v: AccessListByVerb, m: AccessMap, w: World, user: User, s: Schema)
    requires IsIndexOf(m, w, user) && IsVerbAccess(v, m, s) && !IsNamespaces(s) && BindingsNamespaced(w)
    ensures BoundProperly(v)
  {
    forall verb, a | a in AccessList(v, verb) ensures a.namespace != "" {
      UserFound(m, w, user, verb, s.gr, a);
    }
  }

  // ----- what a list shows and what is granted -----

  lemma {:induction false} RulesAllowNames(rules: seq<PolicyRule>, bound: string, verb: string, gr: GroupResource,
      namespace: string, name: string)
    ensures RulesAllow(rules, bound, verb, gr, namespace, name) <==>
            (bound == ALL || bound == namespace) && (Names(rules, verb, gr, ALL) || Names(rules, verb, gr, name))
  {
    if RulesAllow(rules, bound, verb, gr, namespace, name) {
      var rule :| rule in rules && RuleAllows(rule, verb, gr, name);
      assert ALL in NamesOf(rule) || name in NamesOf(rule);
    }
    if Names(rules, verb, gr, ALL) || Names(rules, verb, gr, name) {
      var rule :| rule in rules && Matches(rule.verbs, verb) && Matches(rule.apiGroups, gr.group)
                  && Matches(rule.resources, gr.resource) && (ALL in NamesOf(rule) || name in NamesOf(rule));
      assert RuleAllows(rule, verb, gr, name);
    }
  }

  // A binding for all namespaces or for this one, by the wildcard name or by this one.
  ghost predicate SubjectBindsSome(b: Backend, subject: string, verb: string, gr: GroupResource, namespace: string,
        name: string) {
    || SubjectBinds(b, subject, ALL, verb, gr, ALL) || SubjectBinds(b, subject, namespace, verb, gr, ALL)
    || SubjectBinds(b, subject, ALL, verb, gr, name) || SubjectBinds(b, subject, namespace, verb, gr, name)
  }

  lemma {:induction false} SubjectAllowedBinds(b: Backend, subject: string, verb: string, gr: GroupResource,
      namespace: string, name: string)
    ensures SubjectAllowed(b, subject, verb, gr, namespace, name) <==>
            SubjectBindsSome(b, subject, verb, gr, namespace, name)
  {
    forall ref | ref in ClusterRoleBindings(b, subject)
      ensures RulesAllow(Rules(b, ALL, ref), ALL, verb, gr, namespace, name) <==>
              Names(Rules(b, ALL, ref), verb, gr, ALL) || Names(Rules(b, ALL, ref), verb, gr, name)
    {
      RulesAllowNames(Rules(b, ALL, ref), ALL, verb, gr, namespace, name);
    }
    forall rb | rb in RoleBindings(b, subject)
      ensures RulesAllow(Rules(b, rb.namespace, rb.roleRef), rb.namespace, verb, gr, namespace, name) <==>
              (rb.namespace == ALL || rb.namespace == namespace) &&
              (Names(Rules(b, rb.namespace, rb.roleRef), verb, gr, ALL) ||
                  Names(Rules(b, rb.namespace, rb.roleRef), verb, gr, name))
    {
      RulesAllowNames(Rules(b, rb.namespace, rb.roleRef), rb.namespace, verb, gr, namespace, name);
    }
  }

  // A grant of the verb on the object, as bindings.
  ghost predicate BindsSome(w: World, user: User, verb: string, gr: GroupResource, o: APIObject) {
    || Binds(w, user, ALL, verb, gr, ALL) || Binds(w, user, o.namespace, verb, gr, ALL)
    || Binds(w, user, ALL, verb, gr, o.name) || Binds(w, user, o.namespace, verb, gr, o.name)
  }

  lemma {:induction false} AllowedBinds(w: World, user: User, verb: string, gr: GroupResource, o: APIObject)
    ensures UserAllowed(w, user, verb, gr, o.namespace, o.name) <==> BindsSome(w, user, verb, gr, o)
  {
    SubjectAllowedBinds(w.users, user.name, verb, gr, o.namespace, o.name);
    forall g ensures SubjectAllowed(w.groups, g, verb, gr, o.namespace, o.name) <==>
                     SubjectBindsSome(w.groups, g, verb, gr, o.namespace, o.name) {
      SubjectAllowedBinds(w.groups, g, verb, gr, o.namespace, o.name);
    }
  }

  // The object can be read by name in its namespace, and the schema can be read.
  ghost predicate MayGetByName(w: World, user: User, s: Schema, o: APIObject) {
    "get" in s.verbs && Binds(w, user, o.namespace, "get", s.gr, o.name)
  }

  /** An object that the user may list is not shown if and only if it is bound by name for all
      namespaces, in no other way, and cannot be read by name in its own; or the schema has no lists
      and it cannot be read by name. */
  lemma {:induction false} GrantedButInvisible(w: World, user: User, s: Schema, o: APIObject)
    ensures UserAllowed(w, user, "list", s.gr, o.namespace, o.name) && !MayList(w, user, s, o) <==>
            && !MayGetByName(w, user, s, o)
            && if "list" !in s.verbs then BindsSome(w, user, "list", s.gr, o)
               else && Binds(w, user, ALL, "list", s.gr, o.name)
                    && !Binds(w, user, ALL, "list", s.gr, ALL)
                    && !Binds(w, user, o.namespace, "list", s.gr, ALL)
                    && !Binds(w, user, o.namespace, "list", s.gr, o.name)
  {
    AllowedBinds(w, user, "list", s.gr, o);
  }

  /** An object is shown that the user may not list if and only if it can be read by name in its
      namespace, and no binding lets it be listed. */
  lemma {:induction false} VisibleButNotGranted(w: World, user: User, s: Schema, o: APIObject)
    ensures MayList(w, user, s, o) && !UserAllowed(w, user, "list", s.gr, o.namespace, o.name) <==>
            MayGetByName(w, user, s, o) && !BindsSome(w, user, "list", s.gr, o)
  {
    AllowedBinds(w, user, "list", s.gr, o);
  }

  const NO_BINDINGS := Backend(map[], map[], map[], map[])

  // The user may `verb` the pod web: everywhere by a cluster role, or in one namespace by a role.
  function ByCluster(verb: string): World {
    var rule := PolicyRule([""], ["pods"], ["web"], [verb]);
    World(Backend(map["r" := [rule]], map[], map["u" := [RoleRef("ClusterRole", "r")]], map[]), NO_BINDINGS, map[])
  }

  function ByRole(verb: string): World {
    var rule := PolicyRule([""], ["pods"], ["web"], [verb]);
    World(Backend(map[], map[("n", "r") := [rule]], map[], map["u" := [RoleBinding("n", RoleRef("Role", "r"))]]),
        NO_BINDINGS, map[])
  }

  const PODS := Schema(GroupResource("", "pods"), ["list", "get"], true)

  lemma {:induction false} ClusterBinds(verb: string, bound: string, asked: string, name: string)
    requires verb != ALL
    ensures Binds(ByCluster(verb), User("u", []), bound, asked, PODS.gr, name) <==>
            bound == ALL && asked == verb && name == "web"
  {
    var b := ByCluster(verb).users;
    var rule := PolicyRule([""], ["pods"], ["web"], [verb]);
    assert ClusterRoleBindings(b, "u") == [RoleRef("ClusterRole", "r")] && RoleBindings(b, "u") == [];
    assert Rules(b, ALL, RoleRef("ClusterRole", "r")) == [rule];
    assert Names([rule], asked, PODS.gr, name) <==> asked == verb && name == "web" by {
      assert rule in [rule];
    }
    if bound == ALL && asked == verb && name == "web" {
      assert RoleRef("ClusterRole", "r") in ClusterRoleBindings(b, "u");
    }
  }

  lemma {:induction false} RoleBinds(verb: string, bound: string, asked: string, name: string)
    requires verb != ALL
    ensures Binds(ByRole(verb), User("u", []), bound, asked, PODS.gr, name) <==>
            bound == "n" && asked == verb && name == "web"
  {
    var b := ByRole(verb).users;
    var rule := PolicyRule([""], ["pods"], ["web"], [verb]);
    var rb := RoleBinding("n", RoleRef("Role", "r"));
    assert RoleBindings(b, "u") == [rb] && ClusterRoleBindings(b, "u") == [];
    assert Rules(b, "n", rb.roleRef) == [rule];
    assert Names([rule], asked, PODS.gr, name) <==> asked == verb && name == "web" by {
      assert rule in [rule];
    }
    if bound == "n" && asked == verb && name == "web" {
      assert rb in RoleBindings(b, "u");
    }
  }

  /** One user may list a pod and is not shown it; another is shown it and may not list it. */
  lemma {:induction false} ListsAndGrantsDiffer()
    ensures var u, o := User("u", []), APIObject("n", "web");
            && UserAllowed(ByCluster("list"), u, "list", PODS.gr, "n", "web") && !MayList(ByCluster("list"), u, PODS, o)
            && !UserAllowed(ByRole("get"), u, "list", PODS.gr, "n", "web") && MayList(ByRole("get"), u, PODS, o)
  {
    var u, o := User("u", []), APIObject("n", "web");
    forall bound, asked, name ensures Binds(ByCluster("list"), u, bound, asked, PODS.gr, name) <==>
                                      bound == ALL && asked == "list" && name == "web" {
      ClusterBinds("list", bound, asked, name);
    }
    forall bound, asked, name ensures Binds(ByRole("get"), u, bound, asked, PODS.gr, name) <==>
                                      bound == "n" && asked == "get" && name == "web" {
      RoleBinds("get", bound, asked, name);
    }
    GrantedButInvisible(ByCluster("list"), u, PODS, o);
    VisibleButNotGranted(ByRole("get"), u, PODS, o);
  }

  // ----- pages over the partitions -----

  // All pages of a listing from its start, the last of which launched every partition.
  ghost predicate ReadsAll(store: Job, request: Request, ps: seq<Partition>, pages: seq<Page>) {
    && Paginates(ListerJob(store, request, ps), pages)
    && pages[|pages| - 1].next.None? && pages[|pages| - 1].launchedAll
  }

  // The cluster does not change, keeps to the limit, and holds these objects.
  ghost predicate Steady(store: Job, objects: seq<APIObject>) {
    Unchanging(store) && ChunksWithin(store) && store.limit > 0 && StoreHolds(store, objects)
  }

  lemma {:induction false} WholeIsAll(store: Job, objects: seq<APIObject>, request: Request, ps: seq<Partition>, i: nat)
    requires StoreHolds(store, objects) && WellNamed(PartitionNames(ps)) && i <= |ps|
    ensures WholeListing(ListerJob(store, request, ps), i) == ListAll(objects, request, ps[i..])
    decreases |ps| - i
  {
    if i < |ps| {
      WholeIsAll(store, objects, request, ps, i + 1);
      assert ps[i..][1..] == ps[i + 1..];
      forall j, k | 0 <= j < k < |ps| ensures ps[j].namespace != ps[k].namespace {
        assert PartitionNames(ps)[j] != PartitionNames(ps)[k];
      }
      ListerServes(store, objects, request, ps, i);
    }
  }

  /** Reading all pages is listing the partitions one after the other, whatever the schedules. */
  lemma {:induction false} PagesListPartitions(store: Job, objects: seq<APIObject>, request: Request,
      ps: seq<Partition>, pages: seq<Page>)
    requires Steady(store, objects) && WellNamed(PartitionNames(ps)) && ReadsAll(store, request, ps, pages)
    ensures AllObjects(pages) == ListAll(objects, request, ps)
  {
    ListerUnchanging(store, request, ps);
    ListerWithin(store, request, ps);
    WholePagination(ListerJob(store, request, ps), pages);
    WholeIsAll(store, objects, request, ps, 0);
    assert ps[0..] == ps;
  }

  lemma {:induction false} SortedNames(ps: seq<Partition>)
    requires StrictlyByNamespace(ps)
    ensures WellNamed(PartitionNames(ps))
  {
    forall i, j | 0 <= i < j < |ps| ensures ps[i].namespace != ps[j].namespace {
      if ps[i].namespace == ps[j].namespace {
        LessIrreflexive(ps[i].namespace);
      }
    }
    forall i | 0 < i < |ps| ensures ps[i].namespace != "" {
      assert Less(ps[0].namespace, ps[i].namespace);
    }
  }

  // Every request gets partitions that a token can name.
  lemma {:induction false} RequestNames(v: AccessListByVerb, request: Request, ps: seq<Partition>,
      free: seq<Partition>, from: seq<string>)
    requires IsAll(v, true, request, "list", ps, free, from)
    requires request.constraint.Some? ==> request.namespace == "" || !PassesThrough(v, "list", request.namespace)
    ensures WellNamed(PartitionNames(ps))
  {
    if request.namespace == "" {
      AllStrict(v, request, "list", ps, free, from);
      SortedNames(ps);
    } else if !PassesThrough(v, "list", request.namespace) {
      if request.constraint.Some? {
        WithinShorter(free, request.constraint.value);
      }
      assert |ps| == |multiset(ps)| <= 1;
    }
  }

  lemma {:induction false} WithinShorter(ps: seq<Partition>, namespaces: set<string>)
    ensures |Within(ps, namespaces)| <= |ps|
  {
    if ps != [] {
      WithinShorter(ps[1..], namespaces);
    }
  }

  /** End to end: reading all pages of a namespaced schema shows each stored object exactly as often
      as it is stored if the user's bindings let it be listed and it is in the request's namespace
      and constraint, and never otherwise, under every schedule of every page. */
  lemma {:induction false} PagesShowExactlyWhatRulesAllow(
      w: World, user: User, m: AccessMap, s: Schema, v: AccessListByVerb,
      request: Request, ps: seq<Partition>, free: seq<Partition>, from: seq<string>,
      store: Job, objects: seq<APIObject>, pages: seq<Page>, o: APIObject)
    requires IsIndexOf(m, w, user) && BindingsNamespaced(w)
    requires IsVerbAccess(v, m, s) && s.namespaced && s.gr != GroupResource("", "namespaces")
    requires IsAll(v, true, request, "list", ps, free, from) && request.namespace != ALL
    requires request.constraint.Some? ==> "" !in request.constraint.value
    requires request.constraint.Some? ==> request.namespace == "" || !PassesThrough(v, "list", request.namespace)
    requires Steady(store, objects) && ReadsAll(store, request, ps, pages)
    requires Namespaced(o) && o.name != ALL && o.name != ""
    ensures Count(AllObjects(pages), o) == if MayList(w, user, s, o) &&
            InScope(request, o) then Count(objects, o) else 0
  {
    RequestNames(v, request, ps, free, from);
    PagesListPartitions(store, objects, request, ps, pages);
    ProperlyBound(v, m, w, user, s);
    ListsExactlyVisible(v, request, "list", ps, free, from, objects, o);
    VisibleByRules(v, m, w, user, s, o);
  }

  // Visibility of cluster-scoped objects: only bindings for all namespaces matter.
  ghost predicate MayListInCluster(w: World, user: User, s: Schema, o: APIObject) {
    || ("list" in s.verbs && (Binds(w, user, ALL, "list", s.gr, ALL) || Binds(w, user, ALL, "list", s.gr, o.name)))
    || ("get" in s.verbs && Binds(w, user, ALL, "get", s.gr, o.name))
  }

  // A sorted list of whole namespaces.
  lemma {:induction false} WholeNames(ps: seq<Partition>, namespaces: set<string>)
    requires Sorted(ps) && exists whole :: IsWholeNamespaces(whole, namespaces) && multiset(ps) == multiset(whole)
    ensures WellNamed(PartitionNames(ps))
  {
    var whole :| IsWholeNamespaces(whole, namespaces) && multiset(ps) == multiset(whole);
    DistinctPermutation(whole, ps);
    SortedDistinct(ps);
    SortedNames(ps);
  }

  lemma {:induction false} ClusterNames(v: AccessListByVerb, request: Request, ps: seq<Partition>,
        free: seq<Partition>, from: seq<string>)
    requires Trimmed(v) && IsAll(v, false, request, "list", ps, free, from)
    ensures WellNamed(PartitionNames(ps))
  {
    if PassesThrough(v, "list", request.namespace) {
      if request.constraint.Some? {
        WholeNames(ps, request.constraint.value);
      }
    } else {
      if request.namespace == "" {
        OneGrant(v, "list", free, from);
      }
      if request.constraint.Some? {
        WithinShorter(free, request.constraint.value);
      }
      assert |ps| == |multiset(ps)| <= 1;
    }
  }

  lemma {:induction false} ClusterVisible(v: AccessListByVerb, m: AccessMap, w: World, user: User, s: Schema,
        o: APIObject)
    requires IsIndexOf(m, w, user) && IsVerbAccess(v, m, s) && !s.namespaced
    requires HasVerbAccess(m, s) || !IsNamespaces(s)
    requires o.name != ALL && o.name != ""
    ensures GrantsAll(v, "list", ALL) || GrantsName(v, "list", ALL, o.name) <==> MayListInCluster(w, user, s, o)
    ensures Trimmed(v)
  {
    UserFound(m, w, user, "list", s.gr, Access(ALL, ALL));
    UserFound(m, w, user, "list", s.gr, Access(ALL, o.name));
    UserFound(m, w, user, "get", s.gr, Access(ALL, o.name));
  }

  // A request that a listing of a cluster-scoped schema answers as asked: a constraint that names the
  // empty namespace replaces the namespace of the request.
  predicate AsAsked(request: Request, o: APIObject) {
    && (o.namespace == "" || request == Request("", None))
    && (request.constraint.Some? ==> request.namespace == "" || "" !in request.constraint.value)
  }

  /** End to end for a cluster-scoped schema, namespaces included if the user has verb access to them. */
  lemma {:induction false} PagesShowClusterScoped(
        w: World, user: User, m: AccessMap, s: Schema, v: AccessListByVerb,
        request: Request, ps: seq<Partition>, free: seq<Partition>, from: seq<string>,
        store: Job, objects: seq<APIObject>, pages: seq<Page>, o: APIObject)
    requires IsIndexOf(m, w, user) && IsVerbAccess(v, m, s) && !s.namespaced
    requires s.gr != GroupResource("", "namespaces") || BindsVerbs(w, user, s)
    requires IsAll(v, false, request, "list", ps, free, from) && AsAsked(request, o)
    requires Steady(store, objects) && ReadsAll(store, request, ps, pages)
    requires o.name != ALL && o.name != ""
    ensures Count(AllObjects(pages), o) ==
            if MayListInCluster(w, user, s, o) && InScope(request, o) then Count(objects, o) else 0
  {
    VerbAccessBinds(m, w, user, s);
    ClusterVisible(v, m, w, user, s, o);
    ClusterNames(v, request, ps, free, from);
    PagesListPartitions(store, objects, request, ps, pages);
    ListsInCluster(v, "list", request, ps, free, from, objects, o);
  }

  // ----- the fallback for namespaces -----

  // Some binding gives the user a verb on the schema.
  ghost predicate BindsVerbs(w: World, user: User, s: Schema) {
    exists verb, a: Access :: verb in s.verbs && BindsAccess(w, user, s, verb, a)
  }

  ghost predicate BindsAccess(w: World, user: User, s: Schema, verb: string, a: Access) {
    Binds(w, user, a.namespace, verb, s.gr, a.resourceName) && (s.namespaced || a.namespace == ALL)
  }

  lemma {:induction false} VerbAccessBinds(m: AccessMap, w: World, user: User, s: Schema)
    requires IsIndexOf(m, w, user)
    ensures HasVerbAccess(m, s) <==> BindsVerbs(w, user, s)
  {
    forall verb, a ensures Keeps(m, s, verb, a) <==> BindsAccess(w, user, s, verb, a) {
      UserFound(m, w, user, verb, s.gr, a);
    }
  }

  // A rule that lists this very verb, and is not empty.
  ghost predicate WritesVerb(rules: seq<PolicyRule>, verb: string) {
    exists rule :: rule in rules && verb in rule.verbs && rule.apiGroups != [] && rule.resources != []
  }

  ghost predicate SubjectWrites(b: Backend, subject: string, bound: string, verb: string) {
    || (bound == ALL && exists ref :: ref in ClusterRoleBindings(b, subject) && WritesVerb(Rules(b, ALL, ref), verb))
    || (exists rb :: rb in RoleBindings(b, subject) &&
                     rb.namespace == bound && WritesVerb(Rules(b, bound, rb.roleRef), verb))
  }

  // A binding in this namespace, of the user or of one of its groups, to a role with such a rule.
  ghost predicate UserWrites(w: World, user: User, bound: string, verb: string) {
    || SubjectWrites(w.users, user.name, bound, verb)
    || exists g :: g in user.groups && SubjectWrites(w.groups, g, bound, verb)
  }

  lemma {:induction false} RulesWrite(rules: seq<PolicyRule>, bound: string, verb: string)
    ensures (exists k, a :: RulesAdd(rules, bound, k, a) && k.verb == verb) <==> WritesVerb(rules, verb)
    ensures forall k, a :: RulesAdd(rules, bound, k, a) ==> a.namespace == bound
  {
    if WritesVerb(rules, verb) {
      var rule :| rule in rules && verb in rule.verbs && rule.apiGroups != [] && rule.resources != [];
      var k, a := Key(verb, GroupResource(rule.apiGroups[0], rule.resources[0])), Access(bound, NamesOf(rule)[0]);
      assert RuleAdds(rule, bound, k, a);
      assert RulesAdd(rules, bound, k, a);
    }
  }

  lemma {:induction false} SubjectWritesEntries(b: Backend, subject: string, bound: string, verb: string)
    ensures (exists k, a :: SubjectAdds(b, subject, k, a) && k.verb == verb && a.namespace == bound) <==>
            SubjectWrites(b, subject, bound, verb)
  {
    if k, a :| SubjectAdds(b, subject, k, a) && k.verb == verb && a.namespace == bound {
      if ref :| ref in ClusterRoleBindings(b, subject) && RulesAdd(Rules(b, ALL, ref), ALL, k, a) {
        RulesWrite(Rules(b, ALL, ref), ALL, verb);
      } else {
        var rb :| rb in RoleBindings(b, subject) && RulesAdd(Rules(b, rb.namespace, rb.roleRef), rb.namespace, k, a);
        RulesWrite(Rules(b, rb.namespace, rb.roleRef), rb.namespace, verb);
      }
    }
    if SubjectWrites(b, subject, bound, verb) {
      var rules :| WritesVerb(rules, verb) &&
                   (forall k, a :: RulesAdd(rules, bound, k, a) ==> SubjectAdds(b, subject, k, a));
      RulesWrite(rules, bound, verb);
      var k, a :| RulesAdd(rules, bound, k, a) && k.verb == verb;
      assert SubjectAdds(b, subject, k, a);
    }
  }

  lemma {:induction false} EntryWrites(m: AccessMap, w: World, user: User, bound: string, verb: string)
    requires IsIndexOf(m, w, user)
    ensures HasEntry(m, verb, bound) <==> UserWrites(w, user, bound, verb)
  {
    SubjectWritesEntries(w.users, user.name, bound, verb);
    forall g ensures (exists k, a :: SubjectAdds(w.groups, g, k, a) && k.verb == verb && a.namespace == bound) <==>
                     SubjectWrites(w.groups, g, bound, verb) {
      SubjectWritesEntries(w.groups, g, bound, verb);
    }
    if HasEntry(m, verb, bound) {
      var k, a :| Holds(m, k, a) && k.verb == verb && a.namespace == bound;
      assert UserAdds(w, user, k, a);
    }
    if UserWrites(w, user, bound, verb) {
      var k, a :| UserAdds(w, user, k, a) && k.verb == verb && a.namespace == bound;
      assert Holds(m, k, a);
    }
  }

  // Some binding in the namespace lets the user get or list something there.
  ghost predicate MayReadIn(w: World, user: User, namespace: string) {
    namespace != ALL &&
    exists verb, gr, name :: (verb == "get" || verb == "list") && Binds(w, user, namespace, verb, gr, name)
  }

  // A rule of such a binding writes out get or list.
  ghost predicate WritesRead(w: World, user: User, namespace: string) {
    namespace != ALL && (UserWrites(w, user, namespace, "get") || UserWrites(w, user, namespace, "list"))
  }

  lemma {:induction false} ReadsFound(m: AccessMap, w: World, user: User, namespace: string)
    requires IsIndexOf(m, w, user)
    ensures HasReadEntry(m, namespace) <==> WritesRead(w, user, namespace)
    ensures HasReadAccess(m, namespace) <==> MayReadIn(w, user, namespace)
    ensures MayReadIn(w, user, namespace) <==>
            WritesRead(w, user, namespace) || (namespace != ALL && UserWrites(w, user, namespace, ALL))
  {
    ReadEntries(m, namespace);
    ReadAccessEntries(m, namespace);
    EntryWrites(m, w, user, namespace, "get");
    EntryWrites(m, w, user, namespace, "list");
    EntryWrites(m, w, user, namespace, ALL);
    forall verb, gr, a ensures Found(m, verb, gr, a) <==> Binds(w, user, a.namespace, verb, gr, a.resourceName) {
      UserFound(m, w, user, verb, gr, a);
    }
    if MayReadIn(w, user, namespace) {
      var verb, gr, name :| (verb == "get" || verb == "list") && Binds(w, user, namespace, verb, gr, name);
      assert Found(m, verb, gr, Access(namespace, name));
    }
  }

  /** End to end for the fallback: the pages show a user that no binding gives a verb on namespaces
      exactly those in which a rule of one of its bindings writes out get or list. */
  lemma {:induction false} PagesShowOwnNamespaces(
        w: World, user: User, m: AccessMap, s: Schema, v: AccessListByVerb,
        request: Request, ps: seq<Partition>, free: seq<Partition>, from: seq<string>,
        store: Job, objects: seq<APIObject>, pages: seq<Page>, o: APIObject)
    requires IsIndexOf(m, w, user) && IsVerbAccess(v, m, s)
    requires s.gr == GroupResource("", "namespaces") && !BindsVerbs(w, user, s)
    requires IsAll(v, false, request, "list", ps, free, from) && AsAsked(request, o)
    requires Steady(store, objects) && ReadsAll(store, request, ps, pages)
    requires o.name != ALL && o.name != ""
    ensures Count(AllObjects(pages), o) ==
            if WritesRead(w, user, o.name) && InScope(request, o) then Count(objects, o) else 0
  {
    VerbAccessBinds(m, w, user, s);
    FallbackGrants(v, m, s, o.name);
    ReadsFound(m, w, user, o.name);
    ClusterNames(v, request, ps, free, from);
    PagesListPartitions(store, objects, request, ps, pages);
    ListsOwnNamespaces(v, m, s, request, ps, free, from, objects, o);
  }

  // The pages show the stored namespaces in scope in which the user may get or list something.
  ghost predicate ShowsReadable(w: World, user: User, request: Request, objects: seq<APIObject>, pages: seq<Page>) {
    forall o :: o in objects ==>
      Count(AllObjects(pages), o) == if MayReadIn(w, user, o.name) && InScope(request, o) then Count(objects, o) else 0
  }

  /** The fallback shows the namespaces in which the user may get or list something if and only if
      every one of them in which a rule has the wildcard verb also has a rule that writes out get or list. */
  lemma {:induction false} FallbackExactly(
        w: World, user: User, m: AccessMap, s: Schema, v: AccessListByVerb,
        request: Request, ps: seq<Partition>, free: seq<Partition>, from: seq<string>,
        store: Job, objects: seq<APIObject>, pages: seq<Page>)
    requires IsIndexOf(m, w, user) && IsVerbAccess(v, m, s)
    requires s.gr == GroupResource("", "namespaces") && !BindsVerbs(w, user, s)
    requires IsAll(v, false, request, "list", ps, free, from)
    requires forall o :: o in objects ==> AsAsked(request, o) && o.name != ALL && o.name != ""
    requires Steady(store, objects) && ReadsAll(store, request, ps, pages)
    ensures ShowsReadable(w, user, request, objects, pages) <==>
            forall o :: o in objects && InScope(request, o) && UserWrites(w, user, o.name, ALL) ==>
                          WritesRead(w, user, o.name)
  {
    forall o | o in objects
      ensures Count(AllObjects(pages), o) ==
              if WritesRead(w, user, o.name) && InScope(request, o) then Count(objects, o) else 0
      ensures MayReadIn(w, user, o.name) <==> WritesRead(w, user, o.name) || UserWrites(w, user, o.name, ALL)
      ensures Count(objects, o) > 0
    {
      PagesShowOwnNamespaces(w, user, m, s, v, request, ps, free, from, store, objects, pages, o);
      ReadsFound(m, w, user, o.name);
    }
  }

  // The user may do everything in one namespace.
  function AdminOfOne(): World {
    var rule := PolicyRule(["*"], ["*"], [], ["*"]);
    World(Backend(map[], map[("n", "r") := [rule]], map[], map["u" := [RoleBinding("n", RoleRef("Role", "r"))]]),
        NO_BINDINGS, map[])
  }

  const NAMESPACES := Schema(GroupResource("", "namespaces"), ["list", "get", "watch"], false)

  lemma {:induction false} AdminBinds(bound: string, verb: string, gr: GroupResource, name: string)
    ensures Binds(AdminOfOne(), User("u", []), bound, verb, gr, name) <==> bound == "n" && name == ALL
    ensures UserWrites(AdminOfOne(), User("u", []), bound, verb) <==> bound == "n" && verb == ALL
  {
    var b := AdminOfOne().users;
    var rule, rb := PolicyRule(["*"], ["*"], [], ["*"]), RoleBinding("n", RoleRef("Role", "r"));
    assert RoleBindings(b, "u") == [rb] && ClusterRoleBindings(b, "u") == [] && Rules(b, "n", rb.roleRef) == [rule];
    assert rb in RoleBindings(b, "u") && rule in [rule];
    assert Names([rule], verb, gr, name) <==> name == ALL;
    assert WritesVerb([rule], verb) <==> verb == ALL;
  }

  /** It may read every object there, and the fallback does not show it the namespace. */
  lemma {:induction false} AdminSeesNoNamespace(gr: GroupResource, name: string)
    ensures UserAllowed(AdminOfOne(), User("u", []), "list", gr, "n", name)
    ensures !BindsVerbs(AdminOfOne(), User("u", []), NAMESPACES)
    ensures MayReadIn(AdminOfOne(), User("u", []), "n") && !WritesRead(AdminOfOne(), User("u", []), "n")
  {
    AdminBinds("n", "list", gr, ALL);
    AdminBinds("n", "get", gr, ALL);
    AllowedBinds(AdminOfOne(), User("u", []), "list", gr, APIObject("n", name));
    forall verb, a: Access ensures !BindsAccess(AdminOfOne(), User("u", []), NAMESPACES, verb, a) {
      AdminBinds(a.namespace, verb, NAMESPACES.gr, a.resourceName);
    }
  }
}
