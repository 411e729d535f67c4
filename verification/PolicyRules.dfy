/** Compiling role bindings into the access index (pkg/accesscontrol/policy_rule_index.go). */
module PolicyRules {
  import opened AccessSets

  datatype PolicyRule = PolicyRule(
    apiGroups: seq<string>, resources: seq<string>, resourceNames: seq<string>, verbs: seq<string>)

  datatype RoleRef = RoleRef(kind: string, name: string)

  datatype RoleBinding = RoleBinding(namespace: string, roleRef: RoleRef)

  // The roles that can be read, and the bindings that the index returns for a subject. A subject
  // that is missing stands for an empty answer and for an error: both are taken as no bindings.
  datatype Backend = Backend(
    clusterRoles: map<string, seq<PolicyRule>>,
    roles: map<(string, string), seq<PolicyRule>>,
    clusterRoleBindings: map<string, seq<RoleRef>>,
    roleBindings: map<string, seq<RoleBinding>>)

  function ClusterRoleBindings(b: Backend, subject: string): seq<RoleRef> {
    if subject in b.clusterRoleBindings then b.clusterRoleBindings[subject] else []
  }

  function RoleBindings(b: Backend, subject: string): seq<RoleBinding> {
    if subject in b.roleBindings then b.roleBindings[subject] else []
  }

  // The rules of a role; a role that cannot be read has none.
  function Rules(b: Backend, namespace: string, ref: RoleRef): seq<PolicyRule> {
    if ref.kind == "ClusterRole" then
      if ref.name in b.clusterRoles then b.clusterRoles[ref.name] else []
    else if ref.kind == "Role" then
      if (namespace, ref.name) in b.roles then b.roles[(namespace, ref.name)] else []
    else []
  }

  // ----- what a rule says -----

  predicate Matches(patterns: seq<string>, x: string) {
    ALL in patterns || x in patterns
  }

  // An empty list of names stands for every name.
  predicate RuleAllows(rule: PolicyRule, verb: string, gr: GroupResource, name: string) {
    && Matches(rule.verbs, verb)
    && Matches(rule.apiGroups, gr.group)
    && Matches(rule.resources, gr.resource)
    && (rule.resourceNames == [] || Matches(rule.resourceNames, name))
  }

  const ANYTHING := PolicyRule(["*"], ["*"], [], ["*"])

  // A binding in namespace `bound` (the wildcard for a cluster binding) allows the request.
  ghost predicate RulesAllow(rules: seq<PolicyRule>, bound: string, verb: string, gr: GroupResource,
        namespace: string, name: string) {
    (bound == ALL || bound == namespace) && exists rule :: rule in rules && RuleAllows(rule, verb, gr, name)
  }

  // Some binding of the subject allows the request.
  ghost predicate SubjectAllowed(b: Backend, subject: string, verb: string, gr: GroupResource, namespace: string,
        name: string) {
    || (exists ref :: ref in ClusterRoleBindings(b, subject) &&
                      RulesAllow(Rules(b, ALL, ref), ALL, verb, gr, namespace, name))
    || (exists rb :: rb in RoleBindings(b, subject) &&
                     RulesAllow(Rules(b, rb.namespace, rb.roleRef), rb.namespace, verb, gr, namespace, name))
  }

  // ----- what a rule adds to the index -----

  function NamesOf(rule: PolicyRule): seq<string> {
    if rule.resourceNames == [] then [ALL] else rule.resourceNames
  }

  predicate RuleAdds(rule: PolicyRule, bound: string, k: Key, a: Access) {
    && k.verb in rule.verbs && k.gr.group in rule.apiGroups && k.gr.resource in rule.resources
    && a.namespace == bound && a.resourceName in NamesOf(rule)
  }

  ghost predicate RulesAdd(rules: seq<PolicyRule>, bound: string, k: Key, a: Access) {
    exists rule :: rule in rules && RuleAdds(rule, bound, k, a)
  }

  ghost predicate ClusterRefsAdd(b: Backend, refs: seq<RoleRef>, k: Key, a: Access) {
    exists ref :: ref in refs && RulesAdd(Rules(b, ALL, ref), ALL, k, a)
  }

  ghost predicate RoleBindingsAdd(b: Backend, rbs: seq<RoleBinding>, k: Key, a: Access) {
    exists rb :: rb in rbs && RulesAdd(Rules(b, rb.namespace, rb.roleRef), rb.namespace, k, a)
  }

  ghost predicate SubjectAdds(b: Backend, subject: string, k: Key, a: Access) {
    ClusterRefsAdd(b, ClusterRoleBindings(b, subject), k, a) || RoleBindingsAdd(b, RoleBindings(b, subject), k, a)
  }

  // ----- the nested loops of addAccess, from the inside out -----

  method AddVerbs(s: AccessSet, verbs: seq<string>, gr: GroupResource, access: Access)
    modifies s
    ensures s.id == old(s.id)
    ensures forall k, a :: Holds(s.entries, k, a) <==>
                             Holds(old(s.entries), k, a) || (k.verb in verbs && k.gr == gr && a == access)
  {
    for i := 0 to |verbs|
      invariant s.id == old(s.id)
      invariant forall k, a :: Holds(s.entries, k, a) <==>
                                 Holds(old(s.entries), k, a) || (k.verb in verbs[..i] && k.gr == gr && a == access)
    {
      s.Add(verbs[i], gr, access);
      assert verbs[..i + 1] == verbs[..i] + [verbs[i]];
    }
    assert verbs[..|verbs|] == verbs;
  }

  method AddNames(s: AccessSet, rule: PolicyRule, gr: GroupResource, bound: string)
    modifies s
    ensures s.id == old(s.id)
    ensures forall k, a :: Holds(s.entries, k, a) <==>
                             || Holds(old(s.entries), k, a)
                             || (k.verb in rule.verbs && k.gr == gr && a.namespace == bound &&
                                 a.resourceName in NamesOf(rule))
  {
    var names := rule.resourceNames;
    if |names| == 0 {
      names := [ALL];
    }
    for i := 0 to |names|
      invariant s.id == old(s.id)
      invariant forall k, a :: Holds(s.entries, k, a) <==>
                                 || Holds(old(s.entries), k, a)
                                 || (k.verb in rule.verbs && k.gr == gr && a.namespace == bound &&
                                     a.resourceName in names[..i])
    {
      AddVerbs(s, rule.verbs, gr, Access(bound, names[i]));
      assert names[..i + 1] == names[..i] + [names[i]];
    }
    assert names[..|names|] == names;
  }

  method AddRule(s: AccessSet, rule: PolicyRule, bound: string)
    modifies s
    ensures s.id == old(s.id)
    ensures forall k, a :: Holds(s.entries, k, a) <==> Holds(old(s.entries), k, a) || RuleAdds(rule, bound, k, a)
  {
    var groups, resources := rule.apiGroups, rule.resources;
    for i := 0 to |groups|
      invariant s.id == old(s.id)
      invariant forall k, a :: Holds(s.entries, k, a) <==>
                                 Holds(old(s.entries), k, a) ||
                                     (RuleAdds(rule, bound, k, a) && k.gr.group in groups[..i])
    {
      ghost var before := s.entries;
      for j := 0 to |resources|
        invariant s.id == old(s.id)
        invariant forall k, a :: Holds(s.entries, k, a) <==>
                                   || Holds(before, k, a)
                                   || (RuleAdds(rule, bound, k, a) && k.gr.group == groups[i] &&
                                       k.gr.resource in resources[..j])
      {
        AddNames(s, rule, GroupResource(groups[i], resources[j]), bound);
        assert resources[..j + 1] == resources[..j] + [resources[j]];
      }
      assert resources[..|resources|] == resources;
      assert groups[..i + 1] == groups[..i] + [groups[i]];
    }
    assert groups[..|groups|] == groups;
  }

  method AddAccess(b: Backend, s: AccessSet, bound: string, ref: RoleRef)
    modifies s
    ensures s.id == old(s.id)
    ensures forall k, a :: Holds(s.entries, k, a) <==>
            Holds(old(s.entries), k, a) || RulesAdd(Rules(b, bound, ref), bound, k, a)
  {
    var rules := Rules(b, bound, ref);
    for i := 0 to |rules|
      invariant s.id == old(s.id)
      invariant forall k, a :: Holds(s.entries, k, a) <==>
                Holds(old(s.entries), k, a) || RulesAdd(rules[..i], bound, k, a)
    {
      AddRule(s, rules[i], bound);
      RulesAddOneMore(rules, i, bound);
    }
    assert rules[..|rules|] == rules;
  }

  lemma {:induction false} RulesAddOneMore(rules: seq<PolicyRule>, i: nat, bound: string)
    requires i < |rules|
    ensures forall k, a :: RulesAdd(rules[..i + 1], bound, k, a) <==>
            RulesAdd(rules[..i], bound, k, a) || RuleAdds(rules[i], bound, k, a)
  {
    assert rules[..i + 1] == rules[..i] + [rules[i]];
    forall k, a | RulesAdd(rules[..i], bound, k, a) || RuleAdds(rules[i], bound, k, a)
      ensures RulesAdd(rules[..i + 1], bound, k, a)
    {
      if RulesAdd(rules[..i], bound, k, a) {
        var rule :| rule in rules[..i] && RuleAdds(rule, bound, k, a);
        assert rule in rules[..i + 1];
      } else {
        assert rules[i] in rules[..i + 1];
      }
    }
  }

  // The role bindings first, then the cluster bindings.
  method Get(b: Backend, subject: string) returns (s: AccessSet)
    ensures fresh(s) && s.id == ""
    ensures forall k, a :: Holds(s.entries, k, a) <==> SubjectAdds(b, subject, k, a)
  {
    s := new AccessSet();
    var rbs := RoleBindings(b, subject);
    for i := 0 to |rbs|
      invariant fresh(s) && s.id == ""
      invariant forall k, a :: Holds(s.entries, k, a) <==>
                                 exists rb :: rb in rbs[..i] &&
                                     RulesAdd(Rules(b, rb.namespace, rb.roleRef), rb.namespace, k, a)
    {
      AddAccess(b, s, rbs[i].namespace, rbs[i].roleRef);
      assert rbs[..i + 1] == rbs[..i] + [rbs[i]];
    }
    assert rbs[..|rbs|] == rbs;
    ghost var before := s.entries;
    var refs := ClusterRoleBindings(b, subject);
    for i := 0 to |refs|
      invariant fresh(s) && s.id == ""
      invariant forall k, a :: Holds(s.entries, k, a) <==>
                                 Holds(before, k, a) ||
                                     exists ref :: ref in refs[..i] && RulesAdd(Rules(b, ALL, ref), ALL, k, a)
    {
      AddAccess(b, s, ALL, refs[i]);
      assert refs[..i + 1] == refs[..i] + [refs[i]];
    }
    assert refs[..|refs|] == refs;
  }

  // ----- the index refines the rules -----

  // The lookup finds what a list of rules added exactly when one of the rules allows it.
  lemma {:induction false} RulesRefined(rules: seq<PolicyRule>, bound: string, verb: string, gr: GroupResource,
        namespace: string, name: string)
    ensures (exists k, a :: Answers(k, verb, gr) && RulesAdd(rules, bound, k, a) && Allows(a, namespace, name))
            <==> RulesAllow(rules, bound, verb, gr, namespace, name)
  {
    if k, a :| Answers(k, verb, gr) && RulesAdd(rules, bound, k, a) && Allows(a, namespace, name) {
      var rule :| rule in rules && RuleAdds(rule, bound, k, a);
      assert RuleAllows(rule, verb, gr, name);
    }
    if RulesAllow(rules, bound, verb, gr, namespace, name) {
      var rule :| rule in rules && RuleAllows(rule, verb, gr, name);
      var k := Key(if ALL in rule.verbs then ALL else verb,
                   GroupResource(if ALL in rule.apiGroups then ALL else gr.group,
                                 if ALL in rule.resources then ALL else gr.resource));
      var a := Access(bound, if ALL in NamesOf(rule) then ALL else name);
      assert RuleAdds(rule, bound, k, a);
      assert RulesAdd(rules, bound, k, a) && Answers(k, verb, gr) && Allows(a, namespace, name);
    }
  }

  // Some binding of the subject adds an access that is found and allows the request exactly when
  // some binding has a rule that allows it.
  lemma {:induction false} SubjectRefined(b: Backend, subject: string, verb: string, gr: GroupResource,
        namespace: string, name: string)
    ensures (exists k, a :: Answers(k, verb, gr) && SubjectAdds(b, subject, k, a) && Allows(a, namespace, name))
            <==> SubjectAllowed(b, subject, verb, gr, namespace, name)
  {
    if k, a :| Answers(k, verb, gr) && SubjectAdds(b, subject, k, a) && Allows(a, namespace, name) {
      if ref :| ref in ClusterRoleBindings(b, subject) && RulesAdd(Rules(b, ALL, ref), ALL, k, a) {
        RulesRefined(Rules(b, ALL, ref), ALL, verb, gr, namespace, name);
      } else {
        var rb :| rb in RoleBindings(b, subject) && RulesAdd(Rules(b, rb.namespace, rb.roleRef), rb.namespace, k, a);
        RulesRefined(Rules(b, rb.namespace, rb.roleRef), rb.namespace, verb, gr, namespace, name);
      }
    }
    if SubjectAllowed(b, subject, verb, gr, namespace, name) {
      var rules, bound :| RulesAllow(rules, bound, verb, gr, namespace, name) &&
                          (forall k, a :: RulesAdd(rules, bound, k, a) ==> SubjectAdds(b, subject, k, a));
      RulesRefined(rules, bound, verb, gr, namespace, name);
      var k, a :| Answers(k, verb, gr) && RulesAdd(rules, bound, k, a) && Allows(a, namespace, name);
      assert SubjectAdds(b, subject, k, a);
    }
  }

  // ----- what is allowed, on the stored roles and bindings -----

  // The role that a binding in namespace `bound` refers to is stored, and one of its rules allows the request.
  ghost predicate RoleAllows(b: Backend, bound: string, ref: RoleRef, verb: string, gr: GroupResource, name: string) {
    || (ref.kind == "ClusterRole" && ref.name in b.clusterRoles &&
        exists rule :: rule in b.clusterRoles[ref.name] && RuleAllows(rule, verb, gr, name))
    || (ref.kind == "Role" && (bound, ref.name) in b.roles &&
        exists rule :: rule in b.roles[(bound, ref.name)] && RuleAllows(rule, verb, gr, name))
  }

  lemma {:induction false} RulesOfRole(b: Backend, bound: string, ref: RoleRef, verb: string, gr: GroupResource,
        namespace: string, name: string)
    ensures RulesAllow(Rules(b, bound, ref), bound, verb, gr, namespace, name) <==>
            (bound == ALL || bound == namespace) && RoleAllows(b, bound, ref, verb, gr, name)
  {
  }

  /** A subject is allowed a request if and only if one of its bindings, for all namespaces or for that
      of the request, refers to a stored role one of whose rules allows it. */
  lemma {:induction false} AllowedByStoredRoles(b: Backend, subject: string, verb: string, gr: GroupResource,
        namespace: string, name: string)
    ensures SubjectAllowed(b, subject, verb, gr, namespace, name) <==>
            || (subject in b.clusterRoleBindings &&
                exists ref :: ref in b.clusterRoleBindings[subject] && RoleAllows(b, ALL, ref, verb, gr, name))
            || (subject in b.roleBindings &&
                exists rb :: rb in b.roleBindings[subject] && (rb.namespace == ALL || rb.namespace == namespace) &&
                  RoleAllows(b, rb.namespace, rb.roleRef, verb, gr, name))
  {
    forall ref
      ensures RulesAllow(Rules(b, ALL, ref), ALL, verb, gr, namespace, name) <==>
              RoleAllows(b, ALL, ref, verb, gr, name)
    {
      RulesOfRole(b, ALL, ref, verb, gr, namespace, name);
    }
    forall rb: RoleBinding
      ensures RulesAllow(Rules(b, rb.namespace, rb.roleRef), rb.namespace, verb, gr, namespace, name) <==>
              (rb.namespace == ALL || rb.namespace == namespace) &&
              RoleAllows(b, rb.namespace, rb.roleRef, verb, gr, name)
    {
      RulesOfRole(b, rb.namespace, rb.roleRef, verb, gr, namespace, name);
    }
  }

  const LIST_PODS := PolicyRule([""], ["pods"], [], ["list"])
  const READ_X := PolicyRule([""], ["secrets"], ["x"], ["get", "watch"])
  const GET_APPS := PolicyRule(["apps"], ["*"], [], ["get"])
  const DELETE_Y := PolicyRule(["*"], ["pods"], ["y", "z"], ["delete"])

  const CLUSTER_ROLE := RoleRef("ClusterRole", "r")
  const ROLE := RoleRef("Role", "r")

  // A cluster role of two rules, bound for all namespaces, and a role of two rules, bound in one.
  function TwoRoles(): Backend {
    Backend(map["r" := [LIST_PODS, READ_X]], map[("n", "r") := [GET_APPS, DELETE_Y]],
            map["u" := [CLUSTER_ROLE]], map["u" := [RoleBinding("n", ROLE)]])
  }

  lemma {:induction false} FirstRules(verb: string, gr: GroupResource, name: string)
    ensures RuleAllows(LIST_PODS, verb, gr, name) <==> verb == "list" && gr.group == "" && gr.resource == "pods"
    ensures RuleAllows(READ_X, verb, gr, name) <==>
            (verb == "get" || verb == "watch") && gr.group == "" && gr.resource == "secrets" && name == "x"
  {
  }

  lemma {:induction false} LastRules(verb: string, gr: GroupResource, name: string)
    ensures RuleAllows(GET_APPS, verb, gr, name) <==> verb == "get" && gr.group == "apps"
    ensures RuleAllows(DELETE_Y, verb, gr, name) <==>
            verb == "delete" && gr.resource == "pods" && (name == "y" || name == "z")
  {
  }

  lemma {:induction false} OneOfTwo<T>(a: T, b: T)
    ensures forall x :: x in [a, b] <==> x == a || x == b
  {
  }

  lemma {:induction false} TwoRolesAllow(verb: string, gr: GroupResource, name: string)
    ensures RoleAllows(TwoRoles(), ALL, CLUSTER_ROLE, verb, gr, name) <==>
            RuleAllows(LIST_PODS, verb, gr, name) || RuleAllows(READ_X, verb, gr, name)
    ensures RoleAllows(TwoRoles(), "n", ROLE, verb, gr, name) <==>
            RuleAllows(GET_APPS, verb, gr, name) || RuleAllows(DELETE_Y, verb, gr, name)
  {
    OneOfTwo(LIST_PODS, READ_X);
    OneOfTwo(GET_APPS, DELETE_Y);
  }

  /** The subject is allowed what these four rules say, each where it is bound, and nothing else. */
  lemma {:induction false} FourRules(verb: string, gr: GroupResource, namespace: string, name: string)
    ensures SubjectAllowed(TwoRoles(), "u", verb, gr, namespace, name) <==>
            || (verb == "list" && gr.group == "" && gr.resource == "pods")
            || ((verb == "get" || verb == "watch") && gr.group == "" && gr.resource == "secrets" && name == "x")
            || (namespace == "n" && verb == "get" && gr.group == "apps")
            || (namespace == "n" && verb == "delete" && gr.resource == "pods" && (name == "y" || name == "z"))
  {
    AllowedByStoredRoles(TwoRoles(), "u", verb, gr, namespace, name);
    TwoRolesAllow(verb, gr, name);
    FirstRules(verb, gr, name);
    LastRules(verb, gr, name);
    assert CLUSTER_ROLE in [CLUSTER_ROLE] && RoleBinding("n", ROLE) in [RoleBinding("n", ROLE)];
  }
}
