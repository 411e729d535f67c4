/** Which bindings a lookup by subject finds: the index keys that are registered, what the indexers
    say about a binding, and the key that is looked up (pkg/accesscontrol/policy_rule_index.go). */
module BindingIndex {
  import opened AccessSets
  import opened PolicyRules
  import opened CacheKeys

  datatype Subject = Subject(apiGroup: string, kind: string, namespace: string, name: string)

  // A cluster role binding (without a namespace) or a role binding.
  datatype Binding = Binding(name: string, uid: string, namespace: string, subjects: seq<Subject>, roleRef: RoleRef)

  datatype Kind = OfCluster | OfNamespace

  datatype Cluster = Cluster(
    clusterRoleBindings: seq<Binding>,
    roleBindings: seq<Binding>,
    clusterRoles: map<string, seq<PolicyRule>>,
    roles: map<(string, string), seq<PolicyRule>>)

  const RBAC_GROUP := "rbac.authorization.k8s.io"

  // ----- the indexers -----

  predicate NamedBy(indexed: string, s: Subject, subject: string) {
    || (s.apiGroup == RBAC_GROUP && s.kind == indexed && subject == s.name)
    || (s.apiGroup == "" && indexed == "User" && s.kind == "ServiceAccount" && s.namespace != ""
        && subject == "serviceaccount:" + s.namespace + ":" + s.name)
  }

  // The binding is for the user or the group of this name.
  predicate IsFor(indexed: string, b: Binding, subject: string) {
    NamedIn(indexed, b.subjects, subject)
  }

  predicate NamedIn(indexed: string, subjects: seq<Subject>, subject: string) {
    exists s :: s in subjects && NamedBy(indexed, s, subject)
  }

  lemma {:induction false} NamedInOneMore(indexed: string, subjects: seq<Subject>, i: nat)
    requires i < |subjects|
    ensures forall subject :: NamedIn(indexed, subjects[..i + 1], subject) <==>
                                NamedIn(indexed, subjects[..i], subject) || NamedBy(indexed, subjects[i], subject)
  {
    assert subjects[..i + 1] == subjects[..i] + [subjects[i]];
  }

  // A cluster role binding counts only if it refers to a cluster role.
  predicate Indexes(kind: Kind, indexed: string, b: Binding, subject: string) {
    IsFor(indexed, b, subject) && (kind.OfCluster? ==> b.roleRef.kind == "ClusterRole")
  }

  method ClusterRoleBindingBySubject(indexed: string, crb: Binding) returns (result: seq<string>)
    ensures forall subject :: subject in result <==> Indexes(OfCluster, indexed, crb, subject)
  {
    result := [];
    for i := 0 to |crb.subjects|
      invariant forall subject :: subject in result <==>
                  crb.roleRef.kind == "ClusterRole" && NamedIn(indexed, crb.subjects[..i], subject)
    {
      var s, before := crb.subjects[i], result;
      if s.apiGroup == RBAC_GROUP && s.kind == indexed && crb.roleRef.kind == "ClusterRole" {
        result := result + [s.name];
      } else if s.apiGroup == "" && indexed == "User" && s.kind == "ServiceAccount" && s.namespace != "" &&
                crb.roleRef.kind == "ClusterRole" {
        result := result + ["serviceaccount:" + s.namespace + ":" + s.name];
      }
      NamedInOneMore(indexed, crb.subjects, i);
      assert forall subject :: subject in result <==>
          subject in before || (crb.roleRef.kind == "ClusterRole" && NamedBy(indexed, s, subject));
    }
    assert crb.subjects[..|crb.subjects|] == crb.subjects;
  }

  method RoleBindingBySubject(indexed: string, rb: Binding) returns (result: seq<string>)
    ensures forall subject :: subject in result <==> Indexes(OfNamespace, indexed, rb, subject)
  {
    result := [];
    for i := 0 to |rb.subjects|
      invariant forall subject :: subject in result <==> NamedIn(indexed, rb.subjects[..i], subject)
    {
      var s, before := rb.subjects[i], result;
      if s.apiGroup == RBAC_GROUP && s.kind == indexed {
        result := result + [s.name];
      } else if s.apiGroup == "" && indexed == "User" && s.kind == "ServiceAccount" && s.namespace != "" {
        result := result + ["serviceaccount:" + s.namespace + ":" + s.name];
      }
      NamedInOneMore(indexed, rb.subjects, i);
      assert forall subject :: subject in result <==> subject in before || NamedBy(indexed, s, subject);
    }
    assert rb.subjects[..|rb.subjects|] == rb.subjects;
  }

  // A binding for a user, a group and a service account; the others are of no API group or kind it knows.
  function SixSubjects(ref: RoleRef): Binding {
    Binding("b", "1", "n",
            [Subject("rbac.authorization.k8s.io", "User", "", "u"),
             Subject("rbac.authorization.k8s.io", "Group", "", "g"),
             Subject("", "ServiceAccount", "n", "s"), Subject("", "ServiceAccount", "", "t"),
             Subject("", "User", "", "v"),
             Subject("rbac.authorization.k8s.io", "ServiceAccount", "n", "w")], ref)
  }

  lemma {:induction false} SubjectsOfSix(indexed: string, ref: RoleRef, subject: string)
    ensures IsFor(indexed, SixSubjects(ref), subject) <==>
            exists i :: 0 <= i < 6 && NamedBy(indexed, SixSubjects(ref).subjects[i], subject)
  {
    var subjects := SixSubjects(ref).subjects;
    if i :| 0 <= i < 6 && NamedBy(indexed, subjects[i], subject) {
      assert subjects[i] in subjects;
    }
  }

  /** What is indexed of one binding, for users and for groups, by kind of binding and of role. */
  lemma {:induction false} SixSubjectsIndexed(ref: RoleRef, subject: string)
    ensures Indexes(OfNamespace, "User", SixSubjects(ref), subject) <==>
            subject == "u" || subject == "serviceaccount:n:s"
    ensures Indexes(OfNamespace, "Group", SixSubjects(ref), subject) <==> subject == "g"
    ensures Indexes(OfCluster, "User", SixSubjects(ref), subject) <==>
            ref.kind == "ClusterRole" && (subject == "u" || subject == "serviceaccount:n:s")
    ensures Indexes(OfCluster, "Group", SixSubjects(ref), subject) <==> ref.kind == "ClusterRole" && subject == "g"
  {
    SubjectsOfSix("User", ref, subject);
    SubjectsOfSix("Group", ref, subject);
    var subjects := SixSubjects(ref).subjects;
    assert "serviceaccount:" + "n" + ":" + "s" == "serviceaccount:n:s";
    assert NamedBy("User", subjects[0], "u") && NamedBy("Group", subjects[1], "g");
    assert NamedBy("User", subjects[2], "serviceaccount:n:s");
  }

  // ----- registration -----

  // The registered keys of each kind of binding, with what their indexer indexes.
  type Registry = map<(Kind, string), string>

  datatype Index = Index(indexed: string, clusterKey: string, roleKey: string)

  function IndexOf(user: bool): Index {
    var key := if user then "User" else "Group";
    Index(key, "crb" + key, "rb" + key)
  }

  // Both indexers go under the cluster key; a failure ends the registration without an error.
  function Registered(registry: Registry, pi: Index, fails: (Kind, string) -> bool): Registry {
    if fails(OfCluster, pi.clusterKey) then registry
    else if fails(OfNamespace, pi.clusterKey) then registry[(OfCluster, pi.clusterKey) := pi.indexed]
    else registry[(OfCluster, pi.clusterKey) := pi.indexed][(OfNamespace, pi.clusterKey) := pi.indexed]
  }

  method NewPolicyRuleIndex(user: bool, registry: Registry, fails: (Kind, string) -> bool)
    returns (pi: Index, after: Registry)
    ensures pi == IndexOf(user) && after == Registered(registry, pi, fails)
    ensures pi == if user then Index("User", "crbUser", "rbUser") else Index("Group", "crbGroup", "rbGroup")
    ensures fails(OfCluster, pi.clusterKey) ==> after == registry
    ensures !fails(OfCluster, pi.clusterKey) ==>
              (OfCluster, pi.clusterKey) in after && after[(OfCluster, pi.clusterKey)] == pi.indexed
    ensures !fails(OfCluster, pi.clusterKey) && !fails(OfNamespace, pi.clusterKey) ==>
              (OfNamespace, pi.clusterKey) in after && after[(OfNamespace, pi.clusterKey)] == pi.indexed
    ensures fails(OfNamespace, pi.clusterKey) ==> forall key ::
              (OfNamespace, key) in after <==> (OfNamespace, key) in registry
  {
    assert "crb" + "User" == "crbUser" && "rb" + "User" == "rbUser";
    assert "crb" + "Group" == "crbGroup" && "rb" + "Group" == "rbGroup";
    var key := "Group";
    if user {
      key := "User";
    }
    pi := Index(key, "crb" + key, "rb" + key);
    after := registry;
    if fails(OfCluster, pi.clusterKey) {
      return;
    }
    after := after[(OfCluster, pi.clusterKey) := pi.indexed];
    if fails(OfNamespace, pi.clusterKey) {
      return;
    }
    after := after[(OfNamespace, pi.clusterKey) := pi.indexed];
  }

  // ----- lookups -----

  function KeyOf(pi: Index, kind: Kind): string {
    if kind.OfCluster? then pi.clusterKey else pi.roleKey
  }

  // A list by a key that is not registered is an error, and an error is no bindings.
  predicate Finds(registry: Registry, pi: Index, kind: Kind, b: Binding, subject: string) {
    (kind, KeyOf(pi, kind)) in registry && Indexes(kind, registry[(kind, KeyOf(pi, kind))], b, subject)
  }

  // Cluster role bindings are put in the order of their names, role bindings in that of their UIDs.
  function SortKey(kind: Kind, b: Binding): string {
    if kind.OfCluster? then b.name else b.uid
  }

  ghost predicate InOrder(kind: Kind, items: seq<Binding>) {
    forall i, j :: 0 <= i < j < |items| ==> !Less(SortKey(kind, items[j]), SortKey(kind, items[i]))
  }

  method GetBindings(registry: Registry, pi: Index, kind: Kind, all: seq<Binding>, subject: string)
    returns (items: seq<Binding>)
    ensures InOrder(kind, items)
    ensures kind.OfCluster? ==> forall i, j :: 0 <= i < j < |items| ==> !Less(items[j].name, items[i].name)
    ensures kind.OfNamespace? ==> forall i, j :: 0 <= i < j < |items| ==> !Less(items[j].uid, items[i].uid)
    ensures forall b :: b in items <==> b in all && Finds(registry, pi, kind, b, subject)
  {
    items := [];
    if (kind, KeyOf(pi, kind)) !in registry {
      return;
    }
    var indexed := registry[(kind, KeyOf(pi, kind))];
    for i := 0 to |all|
      invariant InOrder(kind, items)
      invariant forall b :: b in items <==> b in all[..i] && Finds(registry, pi, kind, b, subject)
    {
      assert all[..i + 1] == all[..i] + [all[i]];
      if Indexes(kind, indexed, all[i], subject) {
        items := Insert(kind, items, all[i]);
      }
    }
    assert all[..|all|] == all;
  }

  method Insert(kind: Kind, items: seq<Binding>, b: Binding) returns (more: seq<Binding>)
    requires InOrder(kind, items)
    ensures InOrder(kind, more) && forall x :: x in more <==> x == b || x in items
  {
    var i := 0;
    while i < |items| && Less(SortKey(kind, items[i]), SortKey(kind, b))
      invariant i <= |items| && forall j :: 0 <= j < i ==> Less(SortKey(kind, items[j]), SortKey(kind, b))
    {
      i := i + 1;
    }
    more := items[..i] + [b] + items[i..];
    assert items == items[..i] + items[i..];
    InsertKeepsOrder(kind, items, b, i);
  }

  lemma {:induction false} InsertKeepsOrder(kind: Kind, items: seq<Binding>, b: Binding, i: nat)
    requires InOrder(kind, items) && i <= |items|
    requires forall j :: 0 <= j < i ==> Less(SortKey(kind, items[j]), SortKey(kind, b))
    requires i < |items| ==> !Less(SortKey(kind, items[i]), SortKey(kind, b))
    ensures InOrder(kind, items[..i] + [b] + items[i..])
  {
    forall j | 0 <= j < i ensures !Less(SortKey(kind, b), SortKey(kind, items[j])) {
      NotBoth(SortKey(kind, items[j]), SortKey(kind, b));
    }
    forall j | i <= j < |items| ensures !Less(SortKey(kind, items[j]), SortKey(kind, b)) {
      if i < j {
        StaysAbove(SortKey(kind, items[i]), SortKey(kind, items[j]), SortKey(kind, b));
      }
    }
  }

  lemma {:induction false} NotBoth(a: string, b: string)
    ensures !(Less(a, b) && Less(b, a))
  {
    if Less(a, b) && Less(b, a) {
      LessTransitive(a, b, a);
      LessIrreflexive(a);
    }
  }

  lemma {:induction false} StaysAbove(low: string, high: string, x: string)
    requires !Less(low, x) && !Less(high, low)
    ensures !Less(high, x)
  {
    LessTotal(low, high);
    if Less(high, x) && Less(low, high) {
      LessTransitive(low, high, x);
    }
  }

  // What a subject's lookups give to the compilation of its rules.
  ghost predicate IsRead(registry: Registry, pi: Index, c: Cluster, subject: string,
        refs: seq<RoleRef>, rbs: seq<RoleBinding>) {
    && (forall ref :: ref in refs <==> RefersTo(registry, pi, c, subject, ref))
    && (forall rb :: rb in rbs <==> BindsTo(registry, pi, c, subject, rb))
  }

  predicate RefersTo(registry: Registry, pi: Index, c: Cluster, subject: string, ref: RoleRef) {
    exists b :: b in c.clusterRoleBindings && Finds(registry, pi, OfCluster, b, subject) && b.roleRef == ref
  }

  function AsBinding(b: Binding): RoleBinding {
    RoleBinding(b.namespace, b.roleRef)
  }

  predicate BindsTo(registry: Registry, pi: Index, c: Cluster, subject: string, rb: RoleBinding) {
    exists b :: b in c.roleBindings && Finds(registry, pi, OfNamespace, b, subject) && AsBinding(b) == rb
  }

  method ReadSubject(registry: Registry, pi: Index, c: Cluster, subject: string)
    returns (refs: seq<RoleRef>, rbs: seq<RoleBinding>)
    ensures IsRead(registry, pi, c, subject, refs, rbs)
  {
    var crbs := GetBindings(registry, pi, OfCluster, c.clusterRoleBindings, subject);
    var items := GetBindings(registry, pi, OfNamespace, c.roleBindings, subject);
    refs := seq(|crbs|, i requires 0 <= i < |crbs| => crbs[i].roleRef);
    rbs := seq(|items|, i requires 0 <= i < |items| => AsBinding(items[i]));
    forall ref ensures ref in refs <==> RefersTo(registry, pi, c, subject, ref) {
      if RefersTo(registry, pi, c, subject, ref) {
        var b :| b in c.clusterRoleBindings && Finds(registry, pi, OfCluster, b, subject) && b.roleRef == ref;
        var i :| 0 <= i < |crbs| && crbs[i] == b;
        assert refs[i] == ref;
      }
    }
    forall rb ensures rb in rbs <==> BindsTo(registry, pi, c, subject, rb) {
      if BindsTo(registry, pi, c, subject, rb) {
        var b :| b in c.roleBindings && Finds(registry, pi, OfNamespace, b, subject) && AsBinding(b) == rb;
        var i :| 0 <= i < |items| && items[i] == b;
        assert rbs[i] == rb;
      }
    }
  }

  // The backend of the index answers every subject so, and reads the roles of the cluster.
  ghost predicate Backs(registry: Registry, pi: Index, c: Cluster, b: Backend) {
    && b.clusterRoles == c.clusterRoles && b.roles == c.roles
    && forall subject :: IsRead(registry, pi, c, subject, ClusterRoleBindings(b, subject), RoleBindings(b, subject))
  }

  // ----- which keys find the role bindings -----

  // Every role binding is found under every subject that it is for, and under no other.
  ghost predicate FindsRoleBindings(registry: Registry, pi: Index) {
    forall b, subject :: Finds(registry, pi, OfNamespace, b, subject) <==> IsFor(pi.indexed, b, subject)
  }

  lemma {:induction false} ForItsSubject(indexed: string, other: string)
    ensures var b := Binding("b", "1", "n", [Subject(RBAC_GROUP, indexed, "", "s")], RoleRef("Role", "r"));
            IsFor(indexed, b, "s") && (other != indexed ==> !IsFor(other, b, "s"))
  {
    var s := Subject(RBAC_GROUP, indexed, "", "s");
    assert s in [s] && NamedBy(indexed, s, "s");
  }

  /** Role bindings are found if and only if the key that is looked up is registered for role bindings,
      with an indexer of the same kind of subject. */
  lemma {:induction false} FindsExactly(registry: Registry, pi: Index)
    ensures FindsRoleBindings(registry, pi) <==>
            (OfNamespace, pi.roleKey) in registry && registry[(OfNamespace, pi.roleKey)] == pi.indexed
  {
    var b := Binding("b", "1", "n", [Subject(RBAC_GROUP, pi.indexed, "", "s")], RoleRef("Role", "r"));
    var key := (OfNamespace, pi.roleKey);
    ForItsSubject(pi.indexed, if key in registry then registry[key] else "");
    if FindsRoleBindings(registry, pi) {
      assert Finds(registry, pi, OfNamespace, b, "s");
    }
  }

  /** On a registry that does not know the key yet, what an index registers lets it find its role
      bindings if and only if its two keys are the same, and neither registration fails. */
  lemma {:induction false} KeysMustAgree(registry: Registry, pi: Index, fails: (Kind, string) -> bool)
    requires (OfNamespace, pi.roleKey) !in registry
    ensures FindsRoleBindings(Registered(registry, pi, fails), pi) <==>
            pi.roleKey == pi.clusterKey && !fails(OfCluster, pi.clusterKey) && !fails(OfNamespace, pi.clusterKey)
  {
    FindsExactly(Registered(registry, pi, fails), pi);
  }

  // The registry after both indexes are made, of users first.
  function BothRegistered(fails: (Kind, string) -> bool): Registry {
    Registered(Registered(map[], IndexOf(true), fails), IndexOf(false), fails)
  }

  lemma {:induction false} RoleKeyUnknown(fails: (Kind, string) -> bool, user: bool)
    ensures (OfNamespace, IndexOf(user).roleKey) !in BothRegistered(fails)
  {
    assert IndexOf(user).roleKey[0] == 'r';
    assert IndexOf(true).clusterKey[0] == 'c' && IndexOf(false).clusterKey[0] == 'c';
  }

  lemma {:induction false} EmptyOrMember(rbs: seq<RoleBinding>)
    ensures rbs == [] || exists rb :: rb in rbs
  {
    if rbs != [] {
      assert rbs[0] in rbs;
    }
  }

  /** The keys of the program are not the same: no role binding is ever found. */
  lemma {:induction false} NoRoleBindingIsFound(fails: (Kind, string) -> bool, user: bool, c: Cluster, b: Backend,
        subject: string)
    requires Backs(BothRegistered(fails), IndexOf(user), c, b)
    ensures RoleBindings(b, subject) == []
  {
    RoleKeyUnknown(fails, user);
    assert IsRead(BothRegistered(fails), IndexOf(user), c, subject,
                  ClusterRoleBindings(b, subject), RoleBindings(b, subject));
    forall rb ensures rb !in RoleBindings(b, subject) {
      assert !BindsTo(BothRegistered(fails), IndexOf(user), c, subject, rb);
    }
    EmptyOrMember(RoleBindings(b, subject));
  }

  // ----- what the bindings of the cluster allow, and what the lookups make of it -----

  function RulesOf(c: Cluster, namespace: string, ref: RoleRef): seq<PolicyRule> {
    Rules(Backend(c.clusterRoles, c.roles, map[], map[]), namespace, ref)
  }

  // A cluster role binding to a cluster role allows the request to the subject.
  ghost predicate AllowedInCluster(c: Cluster, indexed: string, subject: string, verb: string, gr: GroupResource,
        namespace: string, name: string) {
    exists b :: b in c.clusterRoleBindings && Indexes(OfCluster, indexed, b, subject)
                && RulesAllow(RulesOf(c, ALL, b.roleRef), ALL, verb, gr, namespace, name)
  }

  // A role binding allows the request to the subject.
  ghost predicate AllowedInNamespace(c: Cluster, indexed: string, subject: string, verb: string, gr: GroupResource,
        namespace: string, name: string) {
    exists b :: b in c.roleBindings && IsFor(indexed, b, subject)
                && RulesAllow(RulesOf(c, b.namespace, b.roleRef), b.namespace, verb, gr, namespace, name)
  }

  // The index of the right kind is registered for cluster role bindings.
  predicate FindsClusterBindings(registry: Registry, pi: Index) {
    (OfCluster, pi.clusterKey) in registry && registry[(OfCluster, pi.clusterKey)] == pi.indexed
  }

  lemma {:induction false} SubjectAllowedByFound(registry: Registry, pi: Index, c: Cluster, b: Backend, subject: string,
        verb: string, gr: GroupResource, namespace: string, name: string)
    requires Backs(registry, pi, c, b) && FindsClusterBindings(registry, pi)
    ensures SubjectAllowed(b, subject, verb, gr, namespace, name) <==>
            || AllowedInCluster(c, pi.indexed, subject, verb, gr, namespace, name)
            || exists x :: x in c.roleBindings && Finds(registry, pi, OfNamespace, x, subject)
                           && RulesAllow(RulesOf(c, x.namespace, x.roleRef), x.namespace, verb, gr, namespace, name)
  {
    assert IsRead(registry, pi, c, subject, ClusterRoleBindings(b, subject), RoleBindings(b, subject));
    forall x | x in c.clusterRoleBindings && Indexes(OfCluster, pi.indexed, x, subject)
      ensures x.roleRef in ClusterRoleBindings(b, subject)
    {
      assert RefersTo(registry, pi, c, subject, x.roleRef);
    }
    forall x | x in c.roleBindings && Finds(registry, pi, OfNamespace, x, subject)
      ensures AsBinding(x) in RoleBindings(b, subject)
    {
      assert BindsTo(registry, pi, c, subject, AsBinding(x));
    }
  }

  // What the bindings of the user and of its groups allow, of each kind.
  ghost predicate UserInCluster(c: Cluster, user: User, verb: string, gr: GroupResource, namespace: string,
        name: string) {
    || AllowedInCluster(c, "User", user.name, verb, gr, namespace, name)
    || exists g :: g in user.groups && AllowedInCluster(c, "Group", g, verb, gr, namespace, name)
  }

  ghost predicate UserInNamespace(c: Cluster, user: User, verb: string, gr: GroupResource, namespace: string,
        name: string) {
    || AllowedInNamespace(c, "User", user.name, verb, gr, namespace, name)
    || exists g :: g in user.groups && AllowedInNamespace(c, "Group", g, verb, gr, namespace, name)
  }

  // The two backends of a world answer from this cluster.
  ghost predicate Serves(registry: Registry, users: Index, groups: Index, c: Cluster, w: World) {
    && users.indexed == "User" && groups.indexed == "Group"
    && Backs(registry, users, c, w.users) && FindsClusterBindings(registry, users)
    && Backs(registry, groups, c, w.groups) && FindsClusterBindings(registry, groups)
  }

  /** With keys that find the role bindings, the access of a user is what the bindings allow. */
  lemma {:induction false} AllowedByBindings(registry: Registry, users: Index, groups: Index, c: Cluster, w: World,
        user: User, verb: string, gr: GroupResource, namespace: string, name: string)
    requires Serves(registry, users, groups, c, w)
    requires FindsRoleBindings(registry, users) && FindsRoleBindings(registry, groups)
    ensures UserAllowed(w, user, verb, gr, namespace, name) <==>
            UserInCluster(c, user, verb, gr, namespace, name) || UserInNamespace(c, user, verb, gr, namespace, name)
  {
    SubjectAllowedByFound(registry, users, c, w.users, user.name, verb, gr, namespace, name);
    forall g ensures SubjectAllowed(w.groups, g, verb, gr, namespace, name) <==>
                     || AllowedInCluster(c, "Group", g, verb, gr, namespace, name)
                     || AllowedInNamespace(c, "Group", g, verb, gr, namespace, name) {
      SubjectAllowedByFound(registry, groups, c, w.groups, g, verb, gr, namespace, name);
    }
  }

  /** With the keys of the program only cluster role bindings count: the access of a user agrees with
      its bindings on a request if and only if a cluster role binding allows it, or no role binding does. */
  lemma {:induction false} RoleBindingsAreIgnored(fails: (Kind, string) -> bool, c: Cluster, w: World, user: User,
        verb: string, gr: GroupResource, namespace: string, name: string)
    requires Serves(BothRegistered(fails), IndexOf(true), IndexOf(false), c, w)
    ensures UserAllowed(w, user, verb, gr, namespace, name) <==> UserInCluster(c, user, verb, gr, namespace, name)
    ensures (UserAllowed(w, user, verb, gr, namespace, name) <==>
             UserInCluster(c, user, verb, gr, namespace, name) || UserInNamespace(c, user, verb, gr, namespace, name))
            <==>
            UserInCluster(c, user, verb, gr, namespace, name) || !UserInNamespace(c, user, verb, gr, namespace, name)
  {
    var registry := BothRegistered(fails);
    RoleKeyUnknown(fails, true);
    RoleKeyUnknown(fails, false);
    SubjectAllowedByFound(registry, IndexOf(true), c, w.users, user.name, verb, gr, namespace, name);
    forall g ensures SubjectAllowed(w.groups, g, verb, gr, namespace, name) <==>
                     AllowedInCluster(c, "Group", g, verb, gr, namespace, name) {
      SubjectAllowedByFound(registry, IndexOf(false), c, w.groups, g, verb, gr, namespace, name);
    }
  }

  // One user, who has everything in one namespace by a role binding.
  function OneRoleBinding(): Cluster {
    Cluster([], [Binding("b", "1", "n", [Subject(RBAC_GROUP, "User", "", "u")], RoleRef("Role", "r"))],
            map[], map[("n", "r") := [ANYTHING]])
  }

  // What every lookup of this cluster gives.
  function Nothing(): Backend {
    Backend(OneRoleBinding().clusterRoles, OneRoleBinding().roles, map[], map[])
  }

  lemma {:induction false} NothingIsRead(user: bool)
    ensures Backs(BothRegistered((k, s) => false), IndexOf(user), OneRoleBinding(), Nothing())
    ensures FindsClusterBindings(BothRegistered((k, s) => false), IndexOf(user))
  {
    var registry := BothRegistered((k, s) => false);
    RoleKeyUnknown((k, s) => false, user);
    assert IndexOf(true).clusterKey != IndexOf(false).clusterKey by {
      assert IndexOf(true).clusterKey[3] == 'U' && IndexOf(false).clusterKey[3] == 'G';
    }
    forall subject
      ensures IsRead(registry, IndexOf(user), OneRoleBinding(), subject,
                     ClusterRoleBindings(Nothing(), subject), RoleBindings(Nothing(), subject))
    {
    }
  }

  /** Its binding allows everything there, and its access is empty. */
  lemma {:induction false} OwnerHasNoAccess(gr: GroupResource, name: string)
    ensures Serves(BothRegistered((k, s) => false), IndexOf(true), IndexOf(false), OneRoleBinding(),
                   World(Nothing(), Nothing(), map[]))
    ensures UserInNamespace(OneRoleBinding(), User("u", []), "get", gr, "n", name)
    ensures !UserAllowed(World(Nothing(), Nothing(), map[]), User("u", []), "get", gr, "n", name)
  {
    NothingIsRead(true);
    NothingIsRead(false);
    var c := OneRoleBinding();
    var b, s := c.roleBindings[0], Subject(RBAC_GROUP, "User", "", "u");
    assert s in b.subjects && NamedBy("User", s, "u");
    assert RulesOf(c, "n", b.roleRef) == [ANYTHING] && ANYTHING in [ANYTHING];
    assert RuleAllows(ANYTHING, "get", gr, name);
    assert b in c.roleBindings && IsFor("User", b, "u");
    assert AllowedInNamespace(c, "User", "u", "get", gr, "n", name);
  }

  // ----- the cache's assumption, from the bindings -----

  // A revision identifies the rules of a role, the empty one those of a role that is missing.
  ghost predicate Identifies(h: History, c: Cluster, w: World) {
    && (forall r :: r in h ==> NUL !in r)
    && (forall name :: RoleRevision(w, "", name) in h
                       && h[RoleRevision(w, "", name)] == RulesOf(c, ALL, RoleRef("ClusterRole", name)))
    && (forall namespace, name :: RoleRevision(w, namespace, name) in h)
    && (forall namespace, name :: namespace != "" ==>
          h[RoleRevision(w, namespace, name)] == RulesOf(c, namespace, RoleRef("Role", name)))
  }

  // The names in bindings hold no null byte, and no namespace is named like a revision.
  ghost predicate Plainly(h: History, c: Cluster) {
    && (forall b :: b in c.clusterRoleBindings ==> NUL !in b.roleRef.name)
    && (forall b :: b in c.roleBindings ==>
          NUL !in b.roleRef.name && NUL !in b.namespace && b.namespace != "" && b.namespace !in h)
  }

  lemma {:induction false} BackedConsistently(h: History, registry: Registry, pi: Index, c: Cluster, w: World,
        b: Backend)
    requires Backs(registry, pi, c, b) && Identifies(h, c, w) && Plainly(h, c)
    ensures ConsistentBackend(h, w, b)
    ensures forall subject, ref :: ref in ClusterRoleBindings(b, subject) ==> ref.kind == "ClusterRole"
  {
    forall subject, ref | ref in ClusterRoleBindings(b, subject)
      ensures ref.kind == "ClusterRole" && ConsistentRef(h, w, b, ref)
    {
      assert IsRead(registry, pi, c, subject, ClusterRoleBindings(b, subject), RoleBindings(b, subject));
      assert RefersTo(registry, pi, c, subject, ref);
      assert ref == RoleRef("ClusterRole", ref.name);
    }
    forall subject, rb | rb in RoleBindings(b, subject) ensures ConsistentBinding(h, w, b, rb) {
      assert IsRead(registry, pi, c, subject, ClusterRoleBindings(b, subject), RoleBindings(b, subject));
      assert BindsTo(registry, pi, c, subject, rb);
    }
  }

  /** The assumption of the cache follows from what revisions are, whatever the registered keys: the
      indexer lets only cluster role bindings to cluster roles through. */
  lemma {:induction false} ServedConsistently(h: History, registry: Registry, users: Index, groups: Index,
        c: Cluster, w: World)
    requires Backs(registry, users, c, w.users) && Backs(registry, groups, c, w.groups)
    requires Identifies(h, c, w) && Plainly(h, c)
    ensures Consistent(h, w)
  {
    BackedConsistently(h, registry, users, c, w, w.users);
    BackedConsistently(h, registry, groups, c, w, w.groups);
  }
}
