/** The access of a user and its groups, cached under a digest of role names and revisions
    (pkg/accesscontrol/access_store.go, addRolesToHash in pkg/accesscontrol/policy_rule_index.go). */
module AccessStores {
  import opened AccessSets
  import opened PolicyRules
  import opened CacheKeys

  // The entries are what the hashed stream stands for.
  ghost predicate Means(h: History, stream: string, m: AccessMap) {
    forall k, a :: Holds(m, k, a) <==> StreamAdds(h, stream, k, a)
  }

  // Both worlds give the user the same access.
  ghost predicate SameAccess(w: World, w': World, user: User) {
    forall k, a :: UserAdds(w, user, k, a) <==> UserAdds(w', user, k, a)
  }

  lemma {:induction false} KeyMeans(h: History, w: World, user: User)
    ensures Consistent(h, w) ==> forall k, a :: StreamAdds(h, CacheKeyOf(w, user), k, a) <==> UserAdds(w, user, k, a)
  {
    if Consistent(h, w) {
      forall k, a ensures StreamAdds(h, CacheKeyOf(w, user), k, a) <==> UserAdds(w, user, k, a) {
        StreamDecodes(h, w, user, k, a);
      }
    }
  }

  lemma {:induction false} MeansSame(h: History, w: World, w': World, user: User, m: AccessMap)
    requires IsIndexOf(m, w', user)
    ensures Consistent(h, w) ==> (Means(h, CacheKeyOf(w, user), m) <==> SameAccess(w, w', user))
  {
    KeyMeans(h, w, user);
  }

  lemma {:induction false} HitMeans(h: History, w: World, user: User, m: AccessMap)
    ensures Consistent(h, w) && Means(h, CacheKeyOf(w, user), m) ==> IsIndexOf(m, w, user)
  {
    KeyMeans(h, w, user);
  }

  lemma {:induction false} GroupsAddOneMore(w: World, groups: seq<string>, i: nat)
    requires i < |groups|
    ensures forall k, a :: GroupsAdd(w, groups[..i + 1], k, a) <==>
                             GroupsAdd(w, groups[..i], k, a) || SubjectAdds(w.groups, groups[i], k, a)
  {
    assert groups[..i + 1] == groups[..i] + [groups[i]];
  }

  // One lookup of a run: what it evicts first, and what it sees at the key and at the read.
  datatype Lookup = Lookup(evicted: string, atKey: World, atRead: World, user: User)

  class AccessStore {
    ghost const history: History
    const caching: bool
    var cache: map<string, AccessSet>

    // Each cached set means what its key says.
    ghost predicate Valid()
      reads this, cache.Values
    {
      forall key :: key in cache ==> cache[key].id == key && Means(history, key, cache[key].entries)
    }

    constructor (caching: bool, ghost history: History)
      ensures Valid() && this.caching == caching && this.history == history && cache == map[]
    {
      this.caching := caching;
      this.history := history;
      cache := map[];
    }

    method AddRolesToHash(w: World, b: Backend, digest: string, subject: string) returns (d: string)
      ensures d == digest + Join(SubjectTokens(w, b, subject))
    {
      var refs, rbs := ClusterRoleBindings(b, subject), RoleBindings(b, subject);
      JoinConcat(ClusterTokens(w, refs), RoleTokens(w, rbs));
      d := AddClusterRoles(w, refs, digest);
      d := AddRoles(w, rbs, d);
    }

    method AddClusterRoles(w: World, refs: seq<RoleRef>, digest: string) returns (d: string)
      ensures d == digest + Join(ClusterTokens(w, refs))
    {
      d := digest;
      assert refs[0..] == refs;
      for i := 0 to |refs|
        invariant d + Join(ClusterTokens(w, refs[i..])) == digest + Join(ClusterTokens(w, refs))
      {
        var name, revision := refs[i].name, RoleRevision(w, "", refs[i].name);
        assert refs[i..][1..] == refs[i + 1..];
        HashBoth(d, [name, revision], ClusterTokens(w, refs[i + 1..]));
        JoinTwo(name, revision);
        d := d + (name + [NUL] + revision + [NUL]);
      }
      assert d + "" == d;
    }

    method AddRoles(w: World, rbs: seq<RoleBinding>, digest: string) returns (d: string)
      ensures d == digest + Join(RoleTokens(w, rbs))
    {
      d := digest;
      assert rbs[0..] == rbs;
      for i := 0 to |rbs|
        invariant d + Join(RoleTokens(w, rbs[i..])) == digest + Join(RoleTokens(w, rbs))
      {
        var name, namespace := rbs[i].roleRef.name, rbs[i].namespace;
        assert rbs[i..][1..] == rbs[i + 1..];
        HashBoth(d, BindingTokens(w, rbs[i]), RoleTokens(w, rbs[i + 1..]));
        if rbs[i].roleRef.kind == "Role" {
          JoinThree(name, namespace, RoleRevision(w, namespace, name));
          d := d + (name + [NUL] + namespace + [NUL] + RoleRevision(w, namespace, name) + [NUL]);
        } else if rbs[i].roleRef.kind == "ClusterRole" {
          JoinThree(name, namespace, RoleRevision(w, "", name));
          d := d + (name + [NUL] + namespace + [NUL] + RoleRevision(w, "", name) + [NUL]);
        } else {
          assert d + "" == d;
        }
      }
      assert d + "" == d;
    }

    // CacheKey in access_store.go sorts a copy of the groups that has no elements: the user's order is hashed.
    method CacheKey(w: World, user: User) returns (key: string)
      ensures key == CacheKeyOf(w, user)
    {
      key := AddRolesToHash(w, w.users, "", user.name);
      key := AddGroups(w, user.groups, key);
      JoinConcat(SubjectTokens(w, w.users, user.name), GroupTokens(w, user.groups));
    }

    method AddGroups(w: World, groups: seq<string>, digest: string) returns (d: string)
      ensures d == digest + Join(GroupTokens(w, groups))
    {
      d := digest;
      assert groups[0..] == groups;
      for i := 0 to |groups|
        invariant d + Join(GroupTokens(w, groups[i..])) == digest + Join(GroupTokens(w, groups))
      {
        ghost var one, rest := SubjectTokens(w, w.groups, groups[i]), GroupTokens(w, groups[i + 1..]);
        GroupTokensStep(w, groups, i);
        HashBoth(d, one, rest);
        d := AddRolesToHash(w, w.groups, d, groups[i]);
      }
      assert d + "" == d;
    }

    lemma {:induction false} GroupTokensStep(w: World, groups: seq<string>, i: nat)
      requires i < |groups|
      ensures GroupTokens(w, groups[i..]) == SubjectTokens(w, w.groups, groups[i]) + GroupTokens(w, groups[i + 1..])
    {
      assert groups[i..][1..] == groups[i + 1..];
    }

    // What the bindings and roles give, of the user first and then of its groups.
    method Compute(w: World, user: User) returns (s: AccessSet)
      ensures fresh(s) && IsIndexOf(s.entries, w, user)
    {
      s := PolicyRules.Get(w.users, user.name);
      for i := 0 to |user.groups|
        invariant fresh(s)
        invariant forall k, a :: Holds(s.entries, k, a) <==>
                                   SubjectAdds(w.users, user.name, k, a) || GroupsAdd(w, user.groups[..i], k, a)
      {
        var g := PolicyRules.Get(w.groups, user.groups[i]);
        s.Merge(g);
        GroupsAddOneMore(w, user.groups, i);
      }
      assert user.groups[..|user.groups|] == user.groups;
    }

    /** The key is taken in one world and the bindings are read in another: both may change in between.
        A hit gives what was cached; a miss gives what is read, and caches it under the key that was
        taken before. The cache goes on meaning what its keys say if and only if the two worlds give the
        user the same access, or nothing new is cached. */
    method AccessFor(atKey: World, atRead: World, user: User) returns (s: AccessSet)
      modifies this
      ensures Hits(old(cache), atKey, user) ==> s == old(cache)[CacheKeyOf(atKey, user)] && cache == old(cache)
      ensures !Hits(old(cache), atKey, user) ==> fresh(s) && IsIndexOf(s.entries, atRead, user)
      ensures !Hits(old(cache), atKey, user) ==>
                cache == if caching then old(cache)[CacheKeyOf(atKey, user) := s] else old(cache)
      ensures !Hits(old(cache), atKey, user) && caching ==> s.id == CacheKeyOf(atKey, user)
      ensures old(Valid()) && Consistent(history, atKey) ==>
                && (Valid() <==> Hits(old(cache), atKey, user) || !caching || SameAccess(atKey, atRead, user))
                && (Hits(old(cache), atKey, user) ==> IsIndexOf(s.entries, atKey, user))
    {
      var key := "";
      if caching {
        key := CacheKey(atKey, user);
        if key in cache {
          HitMeans(history, atKey, user, cache[key].entries);
          return cache[key];
        }
      }
      s := Compute(atRead, user);
      if caching {
        Remember(key, s);
        MeansSame(history, atKey, atRead, user, s.entries);
      }
    }

    method Remember(key: string, s: AccessSet)
      requires s !in cache.Values
      modifies this, s`id
      ensures cache == old(cache)[key := s] && s.id == key
      ensures old(Valid()) && key !in old(cache) ==> (Valid() <==> Means(history, key, s.entries))
    {
      s.id := key;
      cache := cache[key := s];
      assert cache[key] == s;
      assert forall k :: k in old(cache) ==> old(cache)[k] in old(cache).Values;
    }

    // The key is in the cache.
    ghost predicate Hits(cached: map<string, AccessSet>, atKey: World, user: User) {
      caching && CacheKeyOf(atKey, user) in cached
    }

    /** Over every run of role changes, evictions and lookups, each of which sees no change between the
        key and the read: what is returned is the access that bindings and roles give then. */
    method ServeAll(lookups: seq<Lookup>) returns (sets: seq<AccessSet>)
      requires Valid()
      requires forall l :: l in lookups ==> Consistent(history, l.atKey) && SameAccess(l.atKey, l.atRead, l.user)
      modifies this
      ensures Valid() && |sets| == |lookups|
      ensures forall i :: 0 <= i < |lookups| ==> IsIndexOf(sets[i].entries, lookups[i].atRead, lookups[i].user)
    {
      sets := [];
      for i := 0 to |lookups|
        invariant Valid() && |sets| == i
        invariant forall j :: 0 <= j < i ==> IsIndexOf(sets[j].entries, lookups[j].atRead, lookups[j].user)
      {
        var l := lookups[i];
        assert l in lookups;
        Evict(l.evicted);
        var s := AccessFor(l.atKey, l.atRead, l.user);
        sets := sets + [s];
      }
    }

    // The cache may drop an entry at any time.
    method Evict(key: string)
      requires Valid()
      modifies this
      ensures Valid() && cache == old(cache) - {key}
    {
      cache := cache - {key};
    }
  }

  // Nobody is bound; then one user is bound to a role that allows everything.
  const UNBOUND_WORLD := World(UNBOUND, UNBOUND, map[])

  function BoundWorld(): World {
    World(Backend(map["a" := [ANYTHING]], map[], map["u" := [RoleRef("ClusterRole", "a")]], map[]),
          UNBOUND, map[("", "a") := "1"])
  }

  lemma {:induction false} BoundConsistent()
    ensures Consistent(map["1" := [ANYTHING]], BoundWorld()) && Consistent(map["1" := [ANYTHING]], UNBOUND_WORLD)
  {
    var h, w := map["1" := [ANYTHING]], BoundWorld();
    UnboundConsistent(h, w);
    UnboundConsistent(h, UNBOUND_WORLD);
    forall subject, ref | ref in ClusterRoleBindings(w.users, subject) ensures ConsistentRef(h, w, w.users, ref) {
      assert ref == RoleRef("ClusterRole", "a");
    }
  }

  lemma {:induction false} BoundAllows(gr: GroupResource, namespace: string, name: string)
    ensures UserAllowed(BoundWorld(), User("u", []), "get", gr, namespace, name)
    ensures !UserAllowed(UNBOUND_WORLD, User("v", []), "get", gr, namespace, name)
  {
    var b, ref := BoundWorld().users, RoleRef("ClusterRole", "a");
    assert ref in ClusterRoleBindings(b, "u") && Rules(b, ALL, ref) == [ANYTHING];
    assert ANYTHING in [ANYTHING] && RuleAllows(ANYTHING, "get", gr, name);
  }

  /** A wrong hit: u is bound between the key and the read of its lookup, and its access is cached
      under the key of no bindings. The binding goes, and v, who was never bound, is given that access. */
  method WrongHit(gr: GroupResource, namespace: string, name: string) returns (s: AccessSet)
    ensures !UserAllowed(UNBOUND_WORLD, User("v", []), "get", gr, namespace, name)
    ensures GrantedBy(s.entries, "get", gr, namespace, name)
  {
    BoundConsistent();
    BoundAllows(gr, namespace, name);
    var store := new AccessStore(true, map["1" := [ANYTHING]]);
    var first := store.AccessFor(UNBOUND_WORLD, BoundWorld(), User("u", []));
    IndexRefinesRules(first.entries, BoundWorld(), User("u", []), "get", gr, namespace, name);
    assert CacheKeyOf(UNBOUND_WORLD, User("u", [])) == "" == CacheKeyOf(UNBOUND_WORLD, User("v", []));
    s := store.AccessFor(UNBOUND_WORLD, UNBOUND_WORLD, User("v", []));
  }
}
