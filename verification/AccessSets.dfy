/** The access index of a subject and its wildcard lookup (pkg/accesscontrol/access_set.go). */
module AccessSets {

  const ALL := "*"

  datatype GroupResource = GroupResource(group: string, resource: string)

  datatype Key = Key(verb: string, gr: GroupResource)

  datatype Access = Access(namespace: string, resourceName: string)

  type AccessMap = map<Key, set<Access>>

  predicate Holds(m: AccessMap, k: Key, a: Access) {
    k in m && a in m[k]
  }

  predicate Allows(a: Access, namespace: string, name: string) {
    (a.namespace == ALL || a.namespace == namespace) && (a.resourceName == ALL || a.resourceName == name)
  }

  // A stored key answers a lookup if each of its parts is the wildcard or the part looked up.
  predicate Answers(k: Key, verb: string, gr: GroupResource) {
    && (k.verb == ALL || k.verb == verb)
    && (k.gr.group == ALL || k.gr.group == gr.group)
    && (k.gr.resource == ALL || k.gr.resource == gr.resource)
  }

  // The access that a lookup finds.
  ghost predicate Found(m: AccessMap, verb: string, gr: GroupResource, a: Access) {
    exists k :: Answers(k, verb, gr) && Holds(m, k, a)
  }

  // What the index says about one object.
  ghost predicate GrantedBy(m: AccessMap, verb: string, gr: GroupResource, namespace: string, name: string) {
    exists a :: Found(m, verb, gr, a) && Allows(a, namespace, name)
  }

  // The keys of the three nested lookup loops, in their order.
  function LookupKeys(verb: string, gr: GroupResource): seq<Key> {
    [Key(ALL, GroupResource(ALL, ALL)), Key(ALL, GroupResource(ALL, gr.resource)),
     Key(ALL, GroupResource(gr.group, ALL)), Key(ALL, gr),
     Key(verb, GroupResource(ALL, ALL)), Key(verb, GroupResource(ALL, gr.resource)),
     Key(verb, GroupResource(gr.group, ALL)), Key(verb, gr)]
  }

  // The loops visit exactly the keys that answer the lookup.
  lemma {:induction false} LookupKeysAnswer(verb: string, gr: GroupResource, k: Key)
    ensures k in LookupKeys(verb, gr) <==> Answers(k, verb, gr)
  {
    var keys := LookupKeys(verb, gr);
    if Answers(k, verb, gr) {
      var i := (if k.verb == ALL then 0 else 4) + (if k.gr.group == ALL then 0 else 2) +
          (if k.gr.resource == ALL then 0 else 1);
      assert keys[i] == k;
    }
  }

  // ----- lexicographic order of strings, for the sorted results -----

  predicate Less(a: string, b: string) {
    b != "" && (a == "" || a[0] < b[0] || (a[0] == b[0] && Less(a[1..], b[1..])))
  }

  lemma {:induction false} LessTotal(a: string, b: string)
    ensures Less(a, b) || a == b || Less(b, a)
  {
    if a != "" && b != "" && a[0] == b[0] {
      LessTotal(a[1..], b[1..]);
      assert a == [a[0]] + a[1..] && b == [b[0]] + b[1..];
    }
  }

  lemma {:induction false} LessTransitive(a: string, b: string, c: string)
    requires Less(a, b) && Less(b, c)
    ensures Less(a, c)
  {
    if a != "" && a[0] == b[0] && b[0] == c[0] {
      LessTransitive(a[1..], b[1..], c[1..]);
    }
  }

  lemma {:induction false} LessIrreflexive(a: string)
    ensures !Less(a, a)
  {
    if a != "" {
      LessIrreflexive(a[1..]);
    }
  }

  // The two strings agree up to `i`, where the first one ends or has the smaller character.
  predicate LessAt(a: string, b: string, i: nat) {
    i <= |a| && i < |b| && a[..i] == b[..i] && (i == |a| || a[i] < b[i])
  }

  /** The order goes by the first difference, and a string comes before its extensions. */
  lemma {:induction false} LessExactly(a: string, b: string)
    ensures Less(a, b) <==> exists i: nat :: LessAt(a, b, i)
  {
    forall i: nat | LessAt(a, b, i) && i > 0 ensures a[0] == b[0] {
      assert a[..i][0] == b[..i][0];
    }
    if b != "" && (a == "" || a[0] < b[0]) {
      assert LessAt(a, b, 0);
    } else if b != "" && a[0] == b[0] {
      LessExactly(a[1..], b[1..]);
      if i: nat :| LessAt(a[1..], b[1..], i) {
        assert a[..i + 1] == [a[0]] + a[1..][..i] && b[..i + 1] == [b[0]] + b[1..][..i];
        assert LessAt(a, b, i + 1);
      }
      if i: nat :| LessAt(a, b, i) {
        assert i > 0;
        assert a[1..][..i - 1] == a[..i][1..] && b[1..][..i - 1] == b[..i][1..];
        assert LessAt(a[1..], b[1..], i - 1);
      }
    }
  }

  ghost predicate StrictlySorted(xs: seq<string>) {
    forall i, j :: 0 <= i < j < |xs| ==> Less(xs[i], xs[j])
  }

  // Insert a new string at its place.
  method InsertSorted(xs: seq<string>, x: string) returns (ys: seq<string>)
    requires StrictlySorted(xs) && x !in xs
    ensures StrictlySorted(ys)
    ensures forall y :: y in ys <==> y == x || y in xs
  {
    var i := 0;
    while i < |xs| && Less(xs[i], x)
      invariant 0 <= i <= |xs|
      invariant forall j :: 0 <= j < i ==> Less(xs[j], x)
    {
      i := i + 1;
    }
    ys := xs[..i] + [x] + xs[i..];
    forall j | i <= j < |xs| ensures Less(x, xs[j]) {
      LessTotal(xs[i], x);
      if i < j {
        LessTransitive(x, xs[i], xs[j]);
      }
    }
    assert xs == xs[..i] + xs[i..];
  }

  class AccessSet {
    var id: string
    var entries: AccessMap

    constructor ()
      ensures id == "" && entries == map[]
    {
      id := "";
      entries := map[];
    }

    method Add(verb: string, gr: GroupResource, access: Access)
      modifies this
      ensures id == old(id)
      ensures forall k, a :: Holds(entries, k, a) <==> Holds(old(entries), k, a) || (k == Key(verb, gr) && a == access)
    {
      var k := Key(verb, gr);
      if k in entries {
        entries := entries[k := entries[k] + {access}];
      } else {
        entries := entries[k := {access}];
      }
    }

    // Go's map order is arbitrary: the keys are taken in any order.
    method Merge(right: AccessSet)
      modifies this
      ensures id == old(id)
      ensures forall k, a :: Holds(entries, k, a) <==> Holds(old(entries), k, a) || Holds(old(right.entries), k, a)
    {
      var from := right.entries;
      var keys := from.Keys;
      while keys != {}
        invariant keys <= from.Keys && id == old(id)
        invariant forall k, a :: Holds(entries, k, a) <==>
                  Holds(old(entries), k, a) || (k !in keys && Holds(from, k, a))
        decreases |keys|
      {
        var k :| k in keys;
        var m := if k in entries then entries[k] else {};
        entries := entries[k := m + from[k]];
        keys := keys - {k};
      }
    }

    method Grants(verb: string, gr: GroupResource, namespace: string, name: string) returns (ok: bool)
      ensures ok <==> GrantedBy(entries, verb, gr, namespace, name)
    {
      var keys := LookupKeys(verb, gr);
      for i := 0 to |keys|
        invariant forall k, a :: k in keys[..i] && Holds(entries, k, a) ==> !Allows(a, namespace, name)
      {
        if keys[i] in entries {
          var rest := entries[keys[i]];
          while rest != {}
            invariant rest <= entries[keys[i]]
            invariant forall a :: a in entries[keys[i]] - rest ==> !Allows(a, namespace, name)
            decreases |rest|
          {
            var a :| a in rest;
            if Allows(a, namespace, name) {
              LookupKeysAnswer(verb, gr, keys[i]);
              assert Holds(entries, keys[i], a) && Found(entries, verb, gr, a);
              return true;
            }
            rest := rest - {a};
          }
        }
      }
      forall k, a | Answers(k, verb, gr) && Holds(entries, k, a) ensures !Allows(a, namespace, name) {
        LookupKeysAnswer(verb, gr, k);
        assert keys[..|keys|] == keys;
      }
      return false;
    }

    // The accesses found under any answering key, each once, in any order.
    method AccessListFor(verb: string, gr: GroupResource) returns (result: seq<Access>)
      ensures forall a :: a in result <==> Found(entries, verb, gr, a)
      ensures forall i, j :: 0 <= i < j < |result| ==> result[i] != result[j]
    {
      var keys := LookupKeys(verb, gr);
      var dedup: set<Access> := {};
      for i := 0 to |keys|
        invariant forall a :: a in dedup <==> exists k :: k in keys[..i] && Holds(entries, k, a)
      {
        var before := dedup;
        if keys[i] in entries {
          dedup := dedup + entries[keys[i]];
        }
        forall a ensures a in dedup <==> exists k :: k in keys[..i + 1] && Holds(entries, k, a) {
          if a in dedup {
            if a in before {
              var k :| k in keys[..i] && Holds(entries, k, a);
              assert k in keys[..i + 1];
            } else {
              assert keys[i] in keys[..i + 1] && Holds(entries, keys[i], a);
            }
          }
        }
      }
      forall a ensures a in dedup <==> Found(entries, verb, gr, a) {
        assert keys[..|keys|] == keys;
        forall k ensures k in keys <==> Answers(k, verb, gr) {
          LookupKeysAnswer(verb, gr, k);
        }
      }
      result := SetToSeq(dedup);
    }

    // The namespaces with an entry under the verb get or list, in order.
    method Namespaces() returns (result: seq<string>)
      ensures StrictlySorted(result)
      ensures forall n :: n in result <==> HasReadEntry(entries, n)
    {
      var names: set<string> := {};
      var keys := entries.Keys;
      while keys != {}
        invariant keys <= entries.Keys
        invariant forall n :: n in names <==> exists k, a :: k !in keys && ReadsIn(entries, k, a, n)
        decreases |keys|
      {
        var k :| k in keys;
        var found := set a | a in entries[k] && a.namespace != ALL :: a.namespace;
        ghost var before := names;
        if k.verb == "get" || k.verb == "list" {
          names := names + found;
        }
        forall n ensures n in names <==> exists k', a :: k' !in keys - {k} && ReadsIn(entries, k', a, n) {
          if n in names {
            if n in before {
              var k', a :| k' !in keys && ReadsIn(entries, k', a, n);
              assert k' !in keys - {k};
            } else {
              var a :| a in entries[k] && a.namespace != ALL && a.namespace == n;
              assert ReadsIn(entries, k, a, n);
            }
          }
        }
        keys := keys - {k};
      }
      result := [];
      var rest := names;
      while rest != {}
        invariant rest <= names && StrictlySorted(result)
        invariant forall n :: n in result <==> n in names - rest
        decreases |rest|
      {
        var n :| n in rest;
        result := InsertSorted(result, n);
        rest := rest - {n};
      }
    }
  }

  predicate ReadsIn(m: AccessMap, k: Key, a: Access, namespace: string) {
    Holds(m, k, a) && (k.verb == "get" || k.verb == "list") && a.namespace == namespace && namespace != ALL
  }

  // Some entry under the verb get or list itself is bound to the namespace.
  ghost predicate HasReadEntry(m: AccessMap, namespace: string) {
    exists k, a :: ReadsIn(m, k, a, namespace)
  }

  ghost predicate HasEntry(m: AccessMap, verb: string, namespace: string) {
    exists k, a :: Holds(m, k, a) && k.verb == verb && a.namespace == namespace
  }

  // Some get or list access is found that is bound to the namespace.
  ghost predicate HasReadAccess(m: AccessMap, namespace: string) {
    namespace != ALL &&
    exists verb, gr, a :: (verb == "get" || verb == "list") && Found(m, verb, gr, a) && a.namespace == namespace
  }

  lemma {:induction false} ReadEntries(m: AccessMap, namespace: string)
    ensures HasReadEntry(m, namespace) <==>
            namespace != ALL && (HasEntry(m, "get", namespace) || HasEntry(m, "list", namespace))
  {
    if namespace != ALL && (HasEntry(m, "get", namespace) || HasEntry(m, "list", namespace)) {
      var k, a :| Holds(m, k, a) && (k.verb == "get" || k.verb == "list") && a.namespace == namespace;
      assert ReadsIn(m, k, a, namespace);
    }
  }

  /** Access under the wildcard verb is access, but no entry of its own under get or list. */
  lemma {:induction false} ReadAccessEntries(m: AccessMap, namespace: string)
    ensures HasReadAccess(m, namespace) <==>
            HasReadEntry(m, namespace) || (namespace != ALL && HasEntry(m, ALL, namespace))
  {
    ReadEntries(m, namespace);
    if HasReadAccess(m, namespace) {
      var verb, gr, a :| (verb == "get" || verb == "list") && Found(m, verb, gr, a) && a.namespace == namespace;
      var k :| Answers(k, verb, gr) && Holds(m, k, a);
    }
    if verb :| verb in {"get", "list", ALL} && namespace != ALL && HasEntry(m, verb, namespace) {
      var k, a :| Holds(m, k, a) && k.verb == verb && a.namespace == namespace;
      var read := if verb == ALL then "get" else verb;
      assert Answers(k, read, k.gr);
      assert Found(m, read, k.gr, a);
    }
  }

  method SetToSeq<T(==)>(s: set<T>) returns (xs: seq<T>)
    ensures forall x :: x in xs <==> x in s
    ensures forall i, j :: 0 <= i < j < |xs| ==> xs[i] != xs[j]
  {
    xs := [];
    var rest := s;
    while rest != {}
      invariant rest <= s
      invariant forall x :: x in xs <==> x in s - rest
      invariant forall i, j :: 0 <= i < j < |xs| ==> xs[i] != xs[j]
      decreases |rest|
    {
      var x :| x in rest;
      assert x !in xs;
      xs := xs + [x];
      rest := rest - {x};
    }
  }
}
