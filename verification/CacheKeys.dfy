/** What the bindings of a user and its groups give, and the stream of role names and revisions that the
    cache key digests (addRolesToHash in pkg/accesscontrol/policy_rule_index.go, CacheKey in
    pkg/accesscontrol/access_store.go). The digest is taken as injective, so the key is the stream itself. */
module CacheKeys {
  import opened AccessSets
  import opened PolicyRules

  datatype User = User(name: string, groups: seq<string>)

  // What one lookup sees: the bindings by user and by group, and the revision of each role
  // (cluster roles under the empty namespace).
  datatype World = World(users: Backend, groups: Backend, revisions: map<(string, string), string>)

  // ----- meaning -----

  ghost predicate UserAdds(w: World, user: User, k: Key, a: Access) {
    SubjectAdds(w.users, user.name, k, a) || GroupsAdd(w, user.groups, k, a)
  }

  ghost predicate GroupsAdd(w: World, groups: seq<string>, k: Key, a: Access) {
    exists g :: g in groups && SubjectAdds(w.groups, g, k, a)
  }

  lemma {:induction false} FirstGroupAdds(w: World, groups: seq<string>, k: Key, a: Access)
    requires groups != []
    ensures GroupsAdd(w, groups, k, a) <==> SubjectAdds(w.groups, groups[0], k, a) || GroupsAdd(w, groups[1..], k, a)
  {
    assert groups == [groups[0]] + groups[1..];
  }

  ghost predicate UserAllowed(w: World, user: User, verb: string, gr: GroupResource, namespace: string, name: string) {
    || SubjectAllowed(w.users, user.name, verb, gr, namespace, name)
    || exists g :: g in user.groups && SubjectAllowed(w.groups, g, verb, gr, namespace, name)
  }

  ghost predicate IsIndexOf(m: AccessMap, w: World, user: User) {
    forall k, a :: Holds(m, k, a) <==> UserAdds(w, user, k, a)
  }

  /** The access set of a user grants a request if and only if some binding of the user or of one
      of its groups has a rule that allows it. */
  lemma {:induction false} IndexRefinesRules(m: AccessMap, w: World, user: User, verb: string, gr: GroupResource,
        namespace: string, name: string)
    requires IsIndexOf(m, w, user)
    ensures GrantedBy(m, verb, gr, namespace, name) <==> UserAllowed(w, user, verb, gr, namespace, name)
  {
    SubjectRefined(w.users, user.name, verb, gr, namespace, name);
    forall g
      ensures (exists k, a :: Answers(k, verb, gr) && SubjectAdds(w.groups, g, k, a) && Allows(a, namespace, name))
              <==> SubjectAllowed(w.groups, g, verb, gr, namespace, name)
    {
      SubjectRefined(w.groups, g, verb, gr, namespace, name);
    }
    if GrantedBy(m, verb, gr, namespace, name) {
      var a :| Found(m, verb, gr, a) && Allows(a, namespace, name);
      var k :| Answers(k, verb, gr) && Holds(m, k, a);
      assert UserAdds(w, user, k, a);
    }
    if UserAllowed(w, user, verb, gr, namespace, name) {
      var k, a :| Answers(k, verb, gr) && UserAdds(w, user, k, a) && Allows(a, namespace, name);
      assert Holds(m, k, a);
      assert Found(m, verb, gr, a);
    }
  }

  // ----- the hashed stream -----

  function RoleRevision(w: World, namespace: string, name: string): string {
    if (namespace, name) in w.revisions then w.revisions[(namespace, name)] else ""
  }

  function ClusterTokens(w: World, refs: seq<RoleRef>): seq<string> {
    if refs == [] then [] else [refs[0].name, RoleRevision(w, "", refs[0].name)] + ClusterTokens(w, refs[1..])
  }

  function BindingTokens(w: World, rb: RoleBinding): seq<string> {
    if rb.roleRef.kind == "Role" then [rb.roleRef.name, rb.namespace, RoleRevision(w, rb.namespace, rb.roleRef.name)]
    else if rb.roleRef.kind == "ClusterRole" then [rb.roleRef.name, rb.namespace, RoleRevision(w, "", rb.roleRef.name)]
    else []
  }

  function RoleTokens(w: World, rbs: seq<RoleBinding>): seq<string> {
    if rbs == [] then [] else BindingTokens(w, rbs[0]) + RoleTokens(w, rbs[1..])
  }

  function SubjectTokens(w: World, b: Backend, subject: string): seq<string> {
    ClusterTokens(w, ClusterRoleBindings(b, subject)) + RoleTokens(w, RoleBindings(b, subject))
  }

  function GroupTokens(w: World, groups: seq<string>): seq<string> {
    if groups == [] then [] else SubjectTokens(w, w.groups, groups[0]) + GroupTokens(w, groups[1..])
  }

  function KeyTokens(w: World, user: User): seq<string> {
    SubjectTokens(w, w.users, user.name) + GroupTokens(w, user.groups)
  }

  const NUL := '\0'

  // Every token is followed by a null byte.
  function Join(tokens: seq<string>): string {
    if tokens == [] then "" else tokens[0] + [NUL] + Join(tokens[1..])
  }

  lemma {:induction false} JoinConcat(a: seq<string>, b: seq<string>)
    ensures Join(a + b) == Join(a) + Join(b)
  {
    if a == [] {
      assert a + b == b;
    } else {
      assert (a + b)[1..] == a[1..] + b;
      JoinConcat(a[1..], b);
    }
  }

  lemma {:induction false} JoinTwo(x: string, y: string)
    ensures Join([x, y]) == x + ['\0'] + y + ['\0']
  {
    assert [x, y][1..] == [y] && [y][1..] == [];
    assert Join([y]) == y + [NUL];
  }

  lemma {:induction false} JoinThree(x: string, y: string, z: string)
    ensures Join([x, y, z]) == x + [NUL] + y + [NUL] + z + [NUL]
  {
    assert [x, y, z][1..] == [y, z];
    JoinTwo(y, z);
  }

  // Hashing one list of tokens and then another is hashing both.
  lemma {:induction false} HashBoth(digest: string, a: seq<string>, b: seq<string>)
    ensures digest + Join(a + b) == (digest + Join(a)) + Join(b)
  {
    JoinConcat(a, b);
  }

  // ----- reading the stream back -----

  function NulAt(s: string): (i: nat)
    ensures i <= |s|
  {
    if s == "" || s[0] == NUL then 0 else 1 + NulAt(s[1..])
  }

  function Split(s: string): seq<string> {
    var i := NulAt(s);
    if i == |s| then [] else [s[..i]] + Split(s[i + 1..])
  }

  ghost predicate Plain(tokens: seq<string>) {
    forall i :: 0 <= i < |tokens| ==> NUL !in tokens[i]
  }

  lemma {:induction false} NulAfter(token: string, rest: string)
    requires NUL !in token
    ensures NulAt(token + [NUL] + rest) == |token|
  {
    if token != "" {
      assert (token + [NUL] + rest)[1..] == token[1..] + [NUL] + rest;
      NulAfter(token[1..], rest);
    }
  }

  lemma {:induction false} SplitJoin(tokens: seq<string>)
    requires Plain(tokens)
    ensures Split(Join(tokens)) == tokens
  {
    if tokens != [] {
      var s, n := Join(tokens), |tokens[0]|;
      NulAfter(tokens[0], Join(tokens[1..]));
      assert s[..n] == tokens[0] && s[n + 1..] == Join(tokens[1..]);
      SplitJoin(tokens[1..]);
      assert tokens == [tokens[0]] + tokens[1..];
    }
  }

  // ----- what a stream grants -----

  // Every revision a role ever had, with its rules. The empty revision is that of a missing role.
  type History = map<string, seq<PolicyRule>>

  // The revision of the role that the binding refers to stands for the rules that are read.
  ghost predicate ConsistentRef(h: History, w: World, b: Backend, ref: RoleRef) {
    && NUL !in ref.name
    && RoleRevision(w, "", ref.name) in h && h[RoleRevision(w, "", ref.name)] == Rules(b, ALL, ref)
  }

  ghost predicate ConsistentBinding(h: History, w: World, b: Backend, rb: RoleBinding) {
    && NUL !in rb.roleRef.name && NUL !in rb.namespace && rb.namespace !in h
    && (rb.roleRef.kind == "Role" ==>
          && RoleRevision(w, rb.namespace, rb.roleRef.name) in h
          && h[RoleRevision(w, rb.namespace, rb.roleRef.name)] == Rules(b, rb.namespace, rb.roleRef))
    && (rb.roleRef.kind == "ClusterRole" ==>
          && RoleRevision(w, "", rb.roleRef.name) in h
          && h[RoleRevision(w, "", rb.roleRef.name)] == Rules(b, rb.namespace, rb.roleRef))
  }

  ghost predicate ConsistentBackend(h: History, w: World, b: Backend) {
    && (forall subject, ref :: ref in ClusterRoleBindings(b, subject) ==> ConsistentRef(h, w, b, ref))
    && (forall subject, rb :: rb in RoleBindings(b, subject) ==> ConsistentBinding(h, w, b, rb))
  }

  // A revision identifies a role's rules, and no namespace is named like a revision.
  ghost predicate Consistent(h: History, w: World) {
    && (forall r :: r in h ==> NUL !in r)
    && ConsistentBackend(h, w, w.users)
    && ConsistentBackend(h, w, w.groups)
  }

  // A revision in second place ends a cluster binding; a namespace there starts a role binding.
  ghost predicate TokensAdd(h: History, tokens: seq<string>, k: Key, a: Access) {
    if |tokens| < 2 then false
    else if tokens[1] in h then RulesAdd(h[tokens[1]], ALL, k, a) || TokensAdd(h, tokens[2..], k, a)
    else if |tokens| < 3 then false
    else (tokens[2] in h && RulesAdd(h[tokens[2]], tokens[1], k, a)) || TokensAdd(h, tokens[3..], k, a)
  }

  ghost predicate StreamAdds(h: History, stream: string, k: Key, a: Access) {
    TokensAdd(h, Split(stream), k, a)
  }

  lemma {:induction false} RefTokensAdd(h: History, w: World, b: Backend, ref: RoleRef, more: seq<string>,
        k: Key, a: Access)
    requires ConsistentRef(h, w, b, ref)
    ensures TokensAdd(h, [ref.name, RoleRevision(w, "", ref.name)] + more, k, a) <==>
            RulesAdd(Rules(b, ALL, ref), ALL, k, a) || TokensAdd(h, more, k, a)
  {
    assert ([ref.name, RoleRevision(w, "", ref.name)] + more)[2..] == more;
  }

  lemma {:induction false} FirstRefAdds(b: Backend, refs: seq<RoleRef>, k: Key, a: Access)
    requires refs != []
    ensures ClusterRefsAdd(b, refs, k, a) <==>
            RulesAdd(Rules(b, ALL, refs[0]), ALL, k, a) || ClusterRefsAdd(b, refs[1..], k, a)
  {
    assert refs == [refs[0]] + refs[1..];
  }

  lemma {:induction false} ClusterTokensAdd(h: History, w: World, b: Backend, refs: seq<RoleRef>, rest: seq<string>,
        k: Key, a: Access)
    requires forall ref :: ref in refs ==> ConsistentRef(h, w, b, ref)
    ensures TokensAdd(h, ClusterTokens(w, refs) + rest, k, a) <==>
            ClusterRefsAdd(b, refs, k, a) || TokensAdd(h, rest, k, a)
    decreases |refs|
  {
    if refs == [] {
      assert [] + rest == rest;
    } else {
      var one, more := [refs[0].name, RoleRevision(w, "", refs[0].name)], ClusterTokens(w, refs[1..]) + rest;
      ClusterTokensAdd(h, w, b, refs[1..], rest, k, a);
      RefTokensAdd(h, w, b, refs[0], more, k, a);
      FirstRefAdds(b, refs, k, a);
      assert ClusterTokens(w, refs) + rest == one + more;
    }
  }

  lemma {:induction false} BindingTokensAdd(h: History, w: World, b: Backend, rb: RoleBinding, more: seq<string>,
        k: Key, a: Access)
    requires ConsistentBinding(h, w, b, rb)
    ensures TokensAdd(h, BindingTokens(w, rb) + more, k, a) <==>
            RulesAdd(Rules(b, rb.namespace, rb.roleRef), rb.namespace, k, a) || TokensAdd(h, more, k, a)
  {
    var one := BindingTokens(w, rb);
    var tokens := one + more;
    if one != [] {
      assert tokens[1] == rb.namespace && tokens[2] == one[2] && tokens[3..] == more;
    } else {
      assert tokens == more;
    }
  }

  lemma {:induction false} FirstBindingAdds(b: Backend, rbs: seq<RoleBinding>, k: Key, a: Access)
    requires rbs != []
    ensures RoleBindingsAdd(b, rbs, k, a) <==>
            || RulesAdd(Rules(b, rbs[0].namespace, rbs[0].roleRef), rbs[0].namespace, k, a)
            || RoleBindingsAdd(b, rbs[1..], k, a)
  {
    assert rbs == [rbs[0]] + rbs[1..];
  }

  lemma {:induction false} RoleTokensAdd(h: History, w: World, b: Backend, rbs: seq<RoleBinding>, rest: seq<string>,
        k: Key, a: Access)
    requires forall rb :: rb in rbs ==> ConsistentBinding(h, w, b, rb)
    ensures TokensAdd(h, RoleTokens(w, rbs) + rest, k, a) <==>
            RoleBindingsAdd(b, rbs, k, a) || TokensAdd(h, rest, k, a)
    decreases |rbs|
  {
    if rbs == [] {
      assert [] + rest == rest;
    } else {
      var more := RoleTokens(w, rbs[1..]) + rest;
      RoleTokensAdd(h, w, b, rbs[1..], rest, k, a);
      BindingTokensAdd(h, w, b, rbs[0], more, k, a);
      FirstBindingAdds(b, rbs, k, a);
      assert RoleTokens(w, rbs) + rest == BindingTokens(w, rbs[0]) + more;
    }
  }

  lemma {:induction false} PlainConcat(a: seq<string>, b: seq<string>)
    requires Plain(a) && Plain(b)
    ensures Plain(a + b)
  {
  }

  lemma {:induction false} ClusterTokensPlain(h: History, w: World, b: Backend, refs: seq<RoleRef>)
    requires (forall r :: r in h ==> NUL !in r) && forall ref :: ref in refs ==> ConsistentRef(h, w, b, ref)
    ensures Plain(ClusterTokens(w, refs))
    decreases |refs|
  {
    if refs != [] {
      assert ConsistentRef(h, w, b, refs[0]);
      ClusterTokensPlain(h, w, b, refs[1..]);
      PlainConcat([refs[0].name, RoleRevision(w, "", refs[0].name)], ClusterTokens(w, refs[1..]));
    }
  }

  lemma {:induction false} RoleTokensPlain(h: History, w: World, b: Backend, rbs: seq<RoleBinding>)
    requires (forall r :: r in h ==> NUL !in r) && forall rb :: rb in rbs ==> ConsistentBinding(h, w, b, rb)
    ensures Plain(RoleTokens(w, rbs))
    decreases |rbs|
  {
    if rbs != [] {
      assert ConsistentBinding(h, w, b, rbs[0]);
      RoleTokensPlain(h, w, b, rbs[1..]);
      PlainConcat(BindingTokens(w, rbs[0]), RoleTokens(w, rbs[1..]));
    }
  }

  lemma {:induction false} SubjectTokensAdd(h: History, w: World, b: Backend, subject: string, rest: seq<string>,
        k: Key, a: Access)
    requires Consistent(h, w) && ConsistentBackend(h, w, b)
    ensures TokensAdd(h, SubjectTokens(w, b, subject) + rest, k, a) <==>
            SubjectAdds(b, subject, k, a) || TokensAdd(h, rest, k, a)
    ensures Plain(SubjectTokens(w, b, subject))
  {
    var refs, rbs := ClusterRoleBindings(b, subject), RoleBindings(b, subject);
    assert SubjectTokens(w, b, subject) + rest == ClusterTokens(w, refs) + (RoleTokens(w, rbs) + rest);
    ClusterTokensAdd(h, w, b, refs, RoleTokens(w, rbs) + rest, k, a);
    RoleTokensAdd(h, w, b, rbs, rest, k, a);
    ClusterTokensPlain(h, w, b, refs);
    RoleTokensPlain(h, w, b, rbs);
    PlainConcat(ClusterTokens(w, refs), RoleTokens(w, rbs));
  }

  lemma {:induction false} GroupTokensAdd(h: History, w: World, groups: seq<string>, k: Key, a: Access)
    requires Consistent(h, w)
    ensures TokensAdd(h, GroupTokens(w, groups), k, a) <==> GroupsAdd(w, groups, k, a)
    ensures Plain(GroupTokens(w, groups))
  {
    if groups != [] {
      GroupTokensAdd(h, w, groups[1..], k, a);
      SubjectTokensAdd(h, w, w.groups, groups[0], GroupTokens(w, groups[1..]), k, a);
      FirstGroupAdds(w, groups, k, a);
    }
  }

  function CacheKeyOf(w: World, user: User): string {
    Join(KeyTokens(w, user))
  }

  /** The stream decodes uniquely up to the access it grants. */
  lemma {:induction false} StreamDecodes(h: History, w: World, user: User, k: Key, a: Access)
    requires Consistent(h, w)
    ensures StreamAdds(h, CacheKeyOf(w, user), k, a) <==> UserAdds(w, user, k, a)
  {
    GroupTokensAdd(h, w, user.groups, k, a);
    SubjectTokensAdd(h, w, w.users, user.name, GroupTokens(w, user.groups), k, a);
    SplitJoin(KeyTokens(w, user));
  }

  /** Equal cache keys mean equal access, whatever has changed between the two lookups. */
  lemma {:induction false} EqualKeysEqualAccess(h: History, w: World, user: User, w': World, user': User, k: Key,
        a: Access)
    requires Consistent(h, w) && Consistent(h, w') && CacheKeyOf(w, user) == CacheKeyOf(w', user')
    ensures UserAdds(w, user, k, a) <==> UserAdds(w', user', k, a)
  {
    StreamDecodes(h, w, user, k, a);
    StreamDecodes(h, w', user', k, a);
  }

  // ----- the order of the groups -----

  /** Two orders of a user's groups have one cache key if and only if they hash the same tokens: nothing
      puts the groups in order. */
  lemma {:induction false} KeyFollowsOrder(h: History, w: World, name: string, groups: seq<string>, others: seq<string>)
    requires Consistent(h, w)
    ensures CacheKeyOf(w, User(name, groups)) == CacheKeyOf(w, User(name, others)) <==>
            GroupTokens(w, groups) == GroupTokens(w, others)
  {
    var own := SubjectTokens(w, w.users, name);
    PlainKey(h, w, name, groups);
    PlainKey(h, w, name, others);
    SplitJoin(own + GroupTokens(w, groups));
    SplitJoin(own + GroupTokens(w, others));
    assert (own + GroupTokens(w, groups))[|own|..] == GroupTokens(w, groups);
    assert (own + GroupTokens(w, others))[|own|..] == GroupTokens(w, others);
  }

  lemma {:induction false} PlainKey(h: History, w: World, name: string, groups: seq<string>)
    requires Consistent(h, w)
    ensures Plain(KeyTokens(w, User(name, groups)))
  {
    var k, a := Key("", GroupResource("", "")), Access("", "");
    SubjectTokensAdd(h, w, w.users, name, [], k, a);
    GroupTokensAdd(h, w, groups, k, a);
  }

  const UNBOUND := Backend(map[], map[], map[], map[])

  // Two groups, each with a cluster role of its own.
  const TWO_GROUPS := Backend(map[], map[],
      map["g" := [RoleRef("ClusterRole", "a")], "h" := [RoleRef("ClusterRole", "b")]], map[])

  function TwoGroups(): World {
    World(UNBOUND, TWO_GROUPS, map[("", "a") := "1", ("", "b") := "2"])
  }

  lemma {:induction false} UnboundConsistent(h: History, w: World)
    ensures ConsistentBackend(h, w, UNBOUND)
  {
  }

  lemma {:induction false} TwoGroupsRef(subject: string, ref: RoleRef)
    requires ref in ClusterRoleBindings(TWO_GROUPS, subject)
    ensures ref == RoleRef("ClusterRole", "a") || ref == RoleRef("ClusterRole", "b")
  {
  }

  lemma {:induction false} TwoGroupsBound(h: History, w: World)
    requires RoleRevision(w, "", "a") in h && h[RoleRevision(w, "", "a")] == []
    requires RoleRevision(w, "", "b") in h && h[RoleRevision(w, "", "b")] == []
    ensures ConsistentBackend(h, w, TWO_GROUPS)
  {
    forall subject, ref | ref in ClusterRoleBindings(TWO_GROUPS, subject)
      ensures ref == RoleRef("ClusterRole", "a") || ref == RoleRef("ClusterRole", "b")
    {
      TwoGroupsRef(subject, ref);
    }
    assert Rules(TWO_GROUPS, ALL, RoleRef("ClusterRole", "a")) == [] ==
        Rules(TWO_GROUPS, ALL, RoleRef("ClusterRole", "b"));
  }

  lemma {:induction false} TwoGroupsConsistent()
    ensures Consistent(map["1" := [], "2" := []], TwoGroups())
  {
    var h, w := map["1" := [], "2" := []], TwoGroups();
    UnboundConsistent(h, w);
    TwoGroupsBound(h, w);
  }

  lemma {:induction false} FirstToken(w: World, group: string, ref: RoleRef, rest: seq<string>)
    requires ClusterRoleBindings(w.groups, group) == [ref]
    ensures |GroupTokens(w, [group] + rest)| > 0 && GroupTokens(w, [group] + rest)[0] == ref.name
  {
  }

  /** The same user with its groups in another order misses the cache. */
  lemma {:induction false} OrderMissesCache()
    ensures Consistent(map["1" := [], "2" := []], TwoGroups())
    ensures CacheKeyOf(TwoGroups(), User("u", ["g"] + ["h"])) != CacheKeyOf(TwoGroups(), User("u", ["h"] + ["g"]))
  {
    TwoGroupsConsistent();
    FirstToken(TwoGroups(), "g", RoleRef("ClusterRole", "a"), ["h"]);
    FirstToken(TwoGroups(), "h", RoleRef("ClusterRole", "b"), ["g"]);
    KeyFollowsOrder(map["1" := [], "2" := []], TwoGroups(), "u", ["g"] + ["h"], ["h"] + ["g"]);
  }

  // ----- one stream, written out -----

  // A user with two cluster role bindings, one to a role that is missing, and three role bindings.
  const BOUND_USER := Backend(map[], map[],
      map["u" := [RoleRef("ClusterRole", "a"), RoleRef("ClusterRole", "x")]],
      map["u" := [RoleBinding("n", RoleRef("Role", "r")), RoleBinding("m", RoleRef("ClusterRole", "c")),
                  RoleBinding("m", RoleRef("Other", "z"))]])

  const REVISIONS := map[("", "a") := "1", ("n", "r") := "2", ("", "r") := "8", ("", "c") := "3", ("m", "c") := "9",
                         ("", "b") := "4"]

  function Written(): World {
    World(BOUND_USER, Backend(map[], map[], map["g" := [RoleRef("ClusterRole", "b")]], map[]), REVISIONS)
  }

  lemma {:induction false} ClusterTokensTwo(w: World, a: RoleRef, b: RoleRef)
    ensures ClusterTokens(w, [a]) == [a.name, RoleRevision(w, "", a.name)]
    ensures ClusterTokens(w, [a, b]) == [a.name, RoleRevision(w, "", a.name), b.name, RoleRevision(w, "", b.name)]
  {
    assert [a][1..] == [] && [b][1..] == [] && [a, b][1..] == [b];
    assert ClusterTokens(w, [b]) == [b.name, RoleRevision(w, "", b.name)];
  }

  lemma {:induction false} RoleTokensThree(w: World, a: RoleBinding, b: RoleBinding, c: RoleBinding)
    ensures RoleTokens(w, [a, b, c]) == BindingTokens(w, a) + BindingTokens(w, b) + BindingTokens(w, c)
  {
    assert [a, b, c][1..] == [b, c] && [b, c][1..] == [c] && [c][1..] == [];
    assert RoleTokens(w, [c]) == BindingTokens(w, c);
    assert RoleTokens(w, [b, c]) == BindingTokens(w, b) + BindingTokens(w, c);
  }

  lemma {:induction false} WrittenRoles()
    ensures RoleTokens(Written(), RoleBindings(BOUND_USER, "u")) == ["r", "n", "2", "c", "m", "3"]
  {
    var w := Written();
    var r, c, z := RoleBinding("n", RoleRef("Role", "r")), RoleBinding("m", RoleRef("ClusterRole", "c")),
                   RoleBinding("m", RoleRef("Other", "z"));
    RoleTokensThree(w, r, c, z);
    assert BindingTokens(w, r) == ["r", "n", "2"] && BindingTokens(w, c) == ["c", "m", "3"];
  }

  lemma {:induction false} WrittenGroups()
    ensures GroupTokens(Written(), ["h", "g"]) == ["b", "4"]
  {
    var w := Written();
    assert ["h", "g"][1..] == ["g"] && ["g"][1..] == [];
    ClusterTokensTwo(w, RoleRef("ClusterRole", "b"), RoleRef("ClusterRole", "b"));
    assert SubjectTokens(w, w.groups, "g") == ["b", "4"] && SubjectTokens(w, w.groups, "h") == [];
  }

  /** The stream of a user: name and revision of its cluster roles, name, namespace and revision of the roles
      of its role bindings, then those of its groups; a missing role has the empty revision, and a binding to
      anything but a role writes nothing. */
  lemma {:induction false} StreamWrittenOut()
    ensures KeyTokens(Written(), User("u", ["h", "g"])) == ["a", "1", "x", "", "r", "n", "2", "c", "m", "3", "b", "4"]
  {
    var w := Written();
    ClusterTokensTwo(w, RoleRef("ClusterRole", "a"), RoleRef("ClusterRole", "x"));
    WrittenRoles();
    WrittenGroups();
    assert ClusterTokens(w, ClusterRoleBindings(w.users, "u")) == ["a", "1", "x", ""];
    assert SubjectTokens(w, w.users, "u") == ["a", "1", "x", "", "r", "n", "2", "c", "m", "3"];
  }
}
