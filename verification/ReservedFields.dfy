/** Fields whose names the API keeps for itself, moved out of the way and back
    (pkg/stores/proxy/proxy_store.go; the names are in pkg/types/types.go). */
module ReservedFields {

  const RESERVED: set<string> := {"id", "type", "links", "actions"}

  predicate Plain(names: set<string>) {
    forall k :: k in names ==> k != "" && k[0] != '_'
  }

  // The underscored name of one of these.
  predicate Under(key: string, names: set<string>) {
    |key| > 0 && key[0] == '_' && key[1..] in names
  }

  // The fields `names` are moved to their underscored names; nothing else changes.
  function ToUnderscore<V>(obj: map<string, V>, names: set<string>): map<string, V> {
    map key | key in obj.Keys + (set k | k in names :: "_" + k)
              && key !in names && (key in obj || (Under(key, names) && key[1..] in obj)) ::
      if Under(key, names) && key[1..] in obj then obj[key[1..]] else obj[key]
  }

  // The fields `names` get the values of their underscored names, or are dropped.
  function FromUnderscore<V>(obj: map<string, V>, names: set<string>): map<string, V> {
    map key | key in obj.Keys + names && !Under(key, names) &&
        (if key in names then "_" + key in obj else key in obj) ::
      if key in names then obj["_" + key] else obj[key]
  }

  lemma {:induction false} UnderPlain(k: string, names: set<string>)
    requires Plain(names) && k in names
    ensures Under("_" + k, names) && !Under(k, names) && "_" + k !in names && ("_" + k)[1..] == k
  {
    assert ("_" + k)[1..] == k;
    assert ("_" + k)[0] == '_';
  }

  lemma {:induction false} UnderIs(key: string, names: set<string>)
    requires Under(key, names)
    ensures key == "_" + key[1..] && key[1..] in names
  {
  }

  /** An object sent to the client and back is the same if and only if it used no underscored
      reserved name. */
  lemma {:induction false} OutAndBack<V>(obj: map<string, V>, names: set<string>)
    requires Plain(names)
    ensures FromUnderscore(ToUnderscore(obj, names), names) == obj <==>
            forall k :: k in names ==> "_" + k !in obj
  {
    var out := ToUnderscore(obj, names);
    var back := FromUnderscore(out, names);
    if k :| k in names && "_" + k in obj {
      UnderPlain(k, names);
      assert "_" + k !in back;
    } else {
      forall key ensures key in back <==> key in obj
        ensures key in back && key in obj ==> back[key] == obj[key]
      {
        if key in names {
          UnderPlain(key, names);
          assert ("_" + key)[1..] == key;
        } else if Under(key, names) {
          UnderIs(key, names);
        }
      }
    }
  }

  /** An object from the client is the same after it was stored and read if and only if it set no
      reserved field itself. */
  lemma {:induction false} InAndBack<V>(obj: map<string, V>, names: set<string>)
    requires Plain(names)
    ensures ToUnderscore(FromUnderscore(obj, names), names) == obj <==>
            forall k :: k in names ==> k !in obj
  {
    var stored := FromUnderscore(obj, names);
    var back := ToUnderscore(stored, names);
    if k :| k in names && k in obj {
      assert k !in back;
    } else {
      forall key ensures key in back <==> key in obj
        ensures key in back && key in obj ==> back[key] == obj[key]
      {
        if Under(key, names) {
          UnderIs(key, names);
          UnderPlain(key[1..], names);
        }
      }
    }
  }

  lemma {:induction false} NothingMoved<V>(obj: map<string, V>)
    ensures ToUnderscore(obj, {}) == obj && FromUnderscore(obj, {}) == obj
  {
    assert FromUnderscore(obj, {}).Keys == obj.Keys;
  }

  // One more name, whatever the order of the loop.
  lemma {:induction false} ToOneMore<V>(obj: map<string, V>, done: set<string>, k: string, now: map<string, V>)
    requires Plain(done + {k}) && k !in done && now == ToUnderscore(obj, done)
    ensures ToUnderscore(obj, done + {k}) == if k in now then (now - {k})["_" + k := now[k]] else now
  {
    var next := if k in now then (now - {k})["_" + k := now[k]] else now;
    UnderPlain(k, done + {k});
    assert ("_" + k)[1..] == k;
    forall key
      ensures key in ToUnderscore(obj, done + {k}) <==> key in next
      ensures key in next ==> ToUnderscore(obj, done + {k})[key] == next[key]
    {
      if Under(key, done + {k}) {
        UnderIs(key, done + {k});
        UnderPlain(key[1..], done + {k});
      }
    }
  }

  lemma {:induction false} FromOneMore<V>(obj: map<string, V>, done: set<string>, k: string, now: map<string, V>)
    requires Plain(done + {k}) && k !in done && now == FromUnderscore(obj, done)
    ensures FromUnderscore(obj, done + {k}) ==
            if "_" + k in now then (now - {"_" + k, k})[k := now["_" + k]] else now - {"_" + k, k}
  {
    var next := if "_" + k in now then (now - {"_" + k, k})[k := now["_" + k]] else now - {"_" + k, k};
    UnderPlain(k, done + {k});
    assert ("_" + k)[1..] == k;
    forall key
      ensures key in FromUnderscore(obj, done + {k}) <==> key in next
      ensures key in next ==> FromUnderscore(obj, done + {k})[key] == next[key]
    {
      if Under(key, done + {k}) {
        UnderIs(key, done + {k});
        UnderPlain(key[1..], done + {k});
      }
      if key in done {
        UnderPlain(key, done + {k});
      }
    }
  }

  // The names that the API keeps for itself.
  predicate IsReserved(key: string) {
    key == "id" || key == "type" || key == "links" || key == "actions"
  }

  predicate IsMoved(key: string) {
    key == "_id" || key == "_type" || key == "_links" || key == "_actions"
  }

  lemma {:induction false} ReservedNames(key: string)
    ensures key in RESERVED <==> IsReserved(key)
    ensures Under(key, RESERVED) <==> IsMoved(key)
  {
    UnderPlain("id", RESERVED);
    UnderPlain("type", RESERVED);
    UnderPlain("links", RESERVED);
    UnderPlain("actions", RESERVED);
    if Under(key, RESERVED) {
      UnderIs(key, RESERVED);
    }
  }

  lemma {:induction false} ToUnderscoreAt<V>(obj: map<string, V>, key: string)
    ensures var out := ToUnderscore(obj, RESERVED);
            && (IsReserved(key) ==> key !in out)
            && (IsReserved(key) && key in obj ==> "_" + key in out && out["_" + key] == obj[key])
            && (!IsReserved(key) && !IsMoved(key) ==>
                (key in out <==> key in obj) && (key in out ==> out[key] == obj[key]))
  {
    ReservedNames(key);
    if IsReserved(key) {
      UnderPlain(key, RESERVED);
    }
  }

  lemma {:induction false} FromUnderscoreAt<V>(obj: map<string, V>, key: string)
    ensures var back := FromUnderscore(obj, RESERVED);
            && (IsMoved(key) ==> key !in back)
            && (IsReserved(key) ==> (key in back <==> "_" + key in obj) && (key in back ==> back[key] == obj["_" + key]))
            && (!IsReserved(key) && !IsMoved(key) ==>
                (key in back <==> key in obj) && (key in back ==> back[key] == obj[key]))
  {
    ReservedNames(key);
    if IsReserved(key) {
      UnderPlain(key, RESERVED);
    }
  }

  class Document<V> {
    var fields: map<string, V>

    constructor (fields: map<string, V>)
      ensures this.fields == fields
    {
      this.fields := fields;
    }

    method Move(k: string, ghost was: map<string, V>, ghost done: set<string>)
      requires Plain(done + {k}) && k !in done && fields == ToUnderscore(was, done)
      modifies this
      ensures fields == ToUnderscore(was, done + {k})
    {
      ToOneMore(was, done, k, fields);
      if k in fields {
        var v := fields[k];
        fields := fields - {k};
        fields := fields["_" + k := v];
      }
    }

    method MoveBack(k: string, ghost was: map<string, V>, ghost done: set<string>)
      requires Plain(done + {k}) && k !in done && fields == FromUnderscore(was, done)
      modifies this
      ensures fields == FromUnderscore(was, done + {k})
    {
      FromOneMore(was, done, k, fields);
      var from := "_" + k;
      if from in fields {
        var v := fields[from];
        fields := fields - {from, k};
        fields := fields[k := v];
      } else {
        fields := fields - {from, k};
      }
    }

    method MoveAll(names: set<string>)
      requires Plain(names)
      modifies this
      ensures fields == ToUnderscore(old(fields), names)
    {
      var rest, done := names, {};
      NothingMoved(fields);
      while rest != {}
        invariant rest !! done && rest + done == names && fields == ToUnderscore(old(fields), done)
        decreases rest
      {
        var k :| k in rest;
        Move(k, old(fields), done);
        rest, done := rest - {k}, done + {k};
      }
      assert done == names;
    }

    method MoveAllBack(names: set<string>)
      requires Plain(names)
      modifies this
      ensures fields == FromUnderscore(old(fields), names)
    {
      var rest, done := names, {};
      NothingMoved(fields);
      while rest != {}
        invariant rest !! done && rest + done == names && fields == FromUnderscore(old(fields), done)
        decreases rest
      {
        var k :| k in rest;
        MoveBack(k, old(fields), done);
        rest, done := rest - {k}, done + {k};
      }
      assert done == names;
    }

    method MoveToUnderscore()
      modifies this
      ensures fields == ToUnderscore(old(fields), RESERVED)
      ensures forall key :: IsReserved(key) ==> key !in fields
      ensures forall key :: IsReserved(key) && key in old(fields) ==>
                              "_" + key in fields && fields["_" + key] == old(fields)[key]
      ensures forall key :: !IsReserved(key) && !IsMoved(key) ==>
                              (key in fields <==> key in old(fields)) &&
                              (key in fields ==> fields[key] == old(fields)[key])
    {
      forall key {
        ToUnderscoreAt(fields, key);
      }
      MoveAll(RESERVED);
    }

    method MoveFromUnderscore()
      modifies this
      ensures fields == FromUnderscore(old(fields), RESERVED)
      ensures forall key :: IsMoved(key) ==> key !in fields
      ensures forall key :: IsReserved(key) ==>
                              (key in fields <==> "_" + key in old(fields)) &&
                              (key in fields ==> fields[key] == old(fields)["_" + key])
      ensures forall key :: !IsReserved(key) && !IsMoved(key) ==>
                              (key in fields <==> key in old(fields)) &&
                              (key in fields ==> fields[key] == old(fields)[key])
    {
      forall key {
        FromUnderscoreAt(fields, key);
      }
      MoveAllBack(RESERVED);
    }
  }
}
