/** Changes of the visible schemas, sent to a client as events (pkg/resources/schemas/template.go;
    LookupSchema in pkg/types/schemas.go). */
module SchemaEvents {
  import opened Listing
  import opened SchemaGraph

  // A set of schemas with the index of lower-cased IDs and plural names.
  datatype Schemas = Schemas(graph: Graph, index: map<string, string>, lower: string -> string)

  function LookupSchema(s: Schemas, name: string): Option<Schema> {
    if name in s.graph.schemas then Some(s.graph.schemas[name])
    else if s.lower(name) in s.index &&
        s.index[s.lower(name)] in s.graph.schemas then Some(s.graph.schemas[s.index[s.lower(name)]])
    else None
  }

  datatype Event = Create(schema: Schema) | Change(schema: Schema) | Remove(schema: Schema)

  // ----- the client -----

  type View = map<string, Schema>

  function Apply(view: View, e: Event): View {
    if e.Remove? then view - {e.schema.id} else view[e.schema.id := e.schema]
  }

  function ApplyAll(view: View, events: seq<Event>): View {
    if events == [] then view else Apply(ApplyAll(view, events[..|events| - 1]), events[|events| - 1])
  }

  lemma {:induction false} ApplyOneMore(view: View, events: seq<Event>, e: Event)
    ensures ApplyAll(view, events + [e]) == Apply(ApplyAll(view, events), e)
  {
    assert (events + [e])[..|events|] == events;
  }

  // The published bodies of the visible schemas.
  ghost function ViewOf(g: Graph): View {
    map id | id in g.schemas && Visible(g, id) :: ToObject(g.schemas[id])
  }

  // ----- the events -----

  // The old set already has this very body under the ID, visible or not.
  predicate Unchanged(was: Schemas, s: Schema) {
    LookupSchema(was, s.id) == Some(s)
  }

  // What the client holds under one ID after the events of the first n objects and of the
  // removal of the first m old objects.
  ghost predicate HeldAt(view: View, now: View, was: Schemas, objects: seq<Schema>, n: nat, olds: seq<Schema>, m: nat,
        id: string)
    requires n <= |objects| && m <= |olds|
  {
    && (id in now <==> (Sent(was, objects, n, id) || id in view) && !Removed(objects, olds, m, id))
    && (forall i :: 0 <= i < n && objects[i].id == id && !Unchanged(was, objects[i]) && id in now ==>
        now[id] == objects[i])
    && (id in now && !Sent(was, objects, n, id) ==> now[id] == view[id])
  }

  ghost predicate SentSoFar(view: View, now: View, was: Schemas, objects: seq<Schema>, n: nat, olds: seq<Schema>,
        m: nat)
    requires n <= |objects| && m <= |olds|
  {
    forall id :: HeldAt(view, now, was, objects, n, olds, m, id)
  }

  predicate Sent(was: Schemas, objects: seq<Schema>, n: nat, id: string)
    requires n <= |objects|
  {
    exists i :: 0 <= i < n && objects[i].id == id && !Unchanged(was, objects[i])
  }

  predicate Removed(objects: seq<Schema>, olds: seq<Schema>, m: nat, id: string)
    requires m <= |olds|
  {
    !Lists(objects, id) && exists j :: 0 <= j < m && olds[j].id == id
  }

  // Visible now and not before, but skipped because the old set had this very body out of sight.
  ghost predicate Revived(was: Schemas, next: Schemas, id: string) {
    && id in next.graph.schemas && Visible(next.graph, id)
    && Unchanged(was, ToObject(next.graph.schemas[id]))
    && !Visible(was.graph, id)
  }

  ghost predicate NoneRevived(was: Schemas, next: Schemas) {
    forall id :: !Revived(was, next, id)
  }

  ghost predicate IsDiff(was: Schemas, next: Schemas, events: seq<Event>) {
    ApplyAll(ViewOf(was.graph), events) == ViewOf(next.graph) <==> NoneRevived(was, next)
  }

  // Each event is named for what it is: unknown to the old set, known with another body, or no longer visible.
  ghost predicate Fits(was: Schemas, next: Schemas, e: Event) {
    match e
    case Create(s) => LookupSchema(was, s.id) == None
    case Change(s) => LookupSchema(was, s.id).Some? && !Unchanged(was, s)
    case Remove(s) => Visible(was.graph, s.id) && !(s.id in next.graph.schemas && Visible(next.graph, s.id))
  }

  // The number of events under an ID.
  function EventsFor(events: seq<Event>, id: string): nat {
    if events == [] then 0
    else EventsFor(events[..|events| - 1], id) + if events[|events| - 1].schema.id == id then 1 else 0
  }

  ghost predicate Shown(g: Graph, id: string) {
    id in g.schemas && Visible(g, id)
  }

  // Visible now, and not in the old set with this very body; or visible before, and no longer.
  ghost predicate Notified(was: Schemas, next: Schemas, id: string) {
    if Shown(next.graph, id) then !Unchanged(was, ToObject(next.graph.schemas[id])) else Shown(was.graph, id)
  }

  // One event for each ID that was sent or removed so far.
  ghost predicate CountedSo(events: seq<Event>, was: Schemas, objects: seq<Schema>, n: nat, olds: seq<Schema>, m: nat)
    requires n <= |objects| && m <= |olds|
  {
    forall id :: CountedAt(events, was, objects, n, olds, m, id)
  }

  predicate CountedAt(events: seq<Event>, was: Schemas, objects: seq<Schema>, n: nat, olds: seq<Schema>, m: nat,
        id: string)
    requires n <= |objects| && m <= |olds|
  {
    EventsFor(events, id) ==
      (if Sent(was, objects, n, id) then 1 else 0) + (if Removed(objects, olds, m, id) then 1 else 0)
  }

  /** The events turn the client's view of the old set into the view of the new one, with the new
      bodies, if and only if every visible schema that is skipped as unchanged was visible before.
      Each schema gets one event if it changed or went away, and none otherwise.
      When the new set cannot be computed, nothing is sent and the old set stays the baseline. */
  method SendSchemas(was: Schemas, fetched: Option<Schemas>) returns (events: seq<Event>, baseline: Schemas)
    requires WellFormed(was.graph) && (fetched.Some? ==> WellFormed(fetched.value.graph))
    ensures fetched.None? ==> events == [] && baseline == was
    ensures fetched.Some? ==> baseline == fetched.value && IsDiff(was, fetched.value, events)
    ensures fetched.Some? ==> forall e :: e in events ==> Fits(was, fetched.value, e)
    ensures fetched.Some? ==>
              forall id :: EventsFor(events, id) == if Notified(was, fetched.value, id) then 1 else 0
  {
    events := [];
    if fetched.None? {
      return [], was;
    }
    baseline := fetched.value;
    ghost var view := ViewOf(was.graph);
    var objects := FilterSchemas(baseline.graph);
    FilteredObjects(baseline.graph, objects);
    var inNew: set<string> := {};
    for i := 0 to |objects|
      invariant ListsAll(objects[..i], inNew)
      invariant SentSoFar(view, ApplyAll(view, events), was, objects, i, [], 0)
      invariant forall e :: e in events ==> Fits(was, baseline, e)
      invariant CountedSo(events, was, objects, i, [], 0)
    {
      ghost var before, sent := ApplyAll(view, events), events;
      var o := objects[i];
      ListsOneMore(objects, i, inNew);
      inNew := inNew + {o.id};
      var found := LookupSchema(was, o.id);
      if found.None? {
        ApplyOneMore(view, events, Create(o));
        events := events + [Create(o)];
      } else if found.value != o {
        ApplyOneMore(view, events, Change(o));
        events := events + [Change(o)];
      }
      SendKeeps(view, before, ApplyAll(view, events), was, objects, i);
      CountSent(sent, events, was, objects, i);
    }
    assert objects[..|objects|] == objects;
    var olds := FilterSchemas(was.graph);
    FilteredObjects(was.graph, olds);
    StartRemoving(view, ApplyAll(view, events), was, objects, olds);
    StartCounting(events, was, objects, olds);
    for j := 0 to |olds|
      invariant SentSoFar(view, ApplyAll(view, events), was, objects, |objects|, olds, j)
      invariant forall e :: e in events ==> Fits(was, baseline, e)
      invariant CountedSo(events, was, objects, |objects|, olds, j)
    {
      ghost var before, sent := ApplyAll(view, events), events;
      ListsVisible(baseline.graph, objects, olds[j].id);
      ListsVisible(was.graph, olds, olds[j].id);
      if olds[j].id !in inNew {
        ApplyOneMore(view, events, Remove(olds[j]));
        events := events + [Remove(olds[j])];
      }
      RemoveKeeps(view, before, ApplyAll(view, events), was, objects, olds, j);
      CountRemoved(sent, events, was, objects, olds, j);
    }
    CountsNotified(events, was, baseline, objects, olds);
    DiffExact(was, baseline, objects, olds, ApplyAll(view, events));
  }

  ghost predicate ListsAll(objects: seq<Schema>, ids: set<string>) {
    forall id :: id in ids <==> Lists(objects, id)
  }

  lemma {:induction false} ListsOneMore(objects: seq<Schema>, i: nat, ids: set<string>)
    requires i < |objects| && ListsAll(objects[..i], ids)
    ensures ListsAll(objects[..i + 1], ids + {objects[i].id})
  {
    forall id ensures Lists(objects[..i + 1], id) <==> id in ids || objects[i].id == id {
      if Lists(objects[..i], id) {
        var k :| 0 <= k < i && objects[..i][k].id == id;
        assert objects[..i + 1][k].id == id;
      }
      if objects[i].id == id {
        assert objects[..i + 1][i].id == id;
      }
      if Lists(objects[..i + 1], id) && objects[i].id != id {
        var k :| 0 <= k < i + 1 && objects[..i + 1][k].id == id;
        assert objects[..i][k].id == id;
      }
    }
  }

  lemma {:induction false} SentOneMore(was: Schemas, objects: seq<Schema>, i: nat, id: string)
    requires i < |objects|
    ensures Sent(was, objects, i + 1, id) <==>
              Sent(was, objects, i, id) || (objects[i].id == id && !Unchanged(was, objects[i]))
  {
    if Sent(was, objects, i, id) {
      var k :| 0 <= k < i && objects[k].id == id && !Unchanged(was, objects[k]);
      assert 0 <= k < i + 1;
    }
  }

  lemma {:induction false} SendKeeps(view: View, before: View, now: View, was: Schemas, objects: seq<Schema>, i: nat)
    requires i < |objects| && SentSoFar(view, before, was, objects, i, [], 0)
    requires forall x, y :: 0 <= x < y < |objects| ==> objects[x].id != objects[y].id
    requires now == if Unchanged(was, objects[i]) then before else before[objects[i].id := objects[i]]
    ensures SentSoFar(view, now, was, objects, i + 1, [], 0)
  {
    var n := i + 1;
    forall id ensures HeldAt(view, now, was, objects, n, [], 0, id) {
      assert HeldAt(view, before, was, objects, i, [], 0, id);
      SentOneMore(was, objects, i, id);
    }
  }

  lemma {:induction false} StartRemoving(view: View, now: View, was: Schemas, objects: seq<Schema>, olds: seq<Schema>)
    requires SentSoFar(view, now, was, objects, |objects|, [], 0)
    ensures SentSoFar(view, now, was, objects, |objects|, olds, 0)
  {
    forall id ensures HeldAt(view, now, was, objects, |objects|, olds, 0, id) {
      assert HeldAt(view, now, was, objects, |objects|, [], 0, id);
    }
  }

  lemma {:induction false} RemovedOneMore(objects: seq<Schema>, olds: seq<Schema>, j: nat, id: string)
    requires j < |olds|
    ensures Removed(objects, olds, j + 1, id) <==>
            Removed(objects, olds, j, id) || (!Lists(objects, id) && olds[j].id == id)
  {
    if Removed(objects, olds, j, id) {
      var k :| 0 <= k < j && olds[k].id == id;
      assert 0 <= k < j + 1;
    }
  }

  lemma {:induction false} RemoveKeeps(view: View, before: View, now: View, was: Schemas, objects: seq<Schema>,
        olds: seq<Schema>, j: nat)
    requires j < |olds| && SentSoFar(view, before, was, objects, |objects|, olds, j)
    requires now == if Lists(objects, olds[j].id) then before else before - {olds[j].id}
    ensures SentSoFar(view, now, was, objects, |objects|, olds, j + 1)
  {
    var m := j + 1;
    forall id ensures HeldAt(view, now, was, objects, |objects|, olds, m, id) {
      assert HeldAt(view, before, was, objects, |objects|, olds, j, id);
      RemovedOneMore(objects, olds, j, id);
    }
  }

  lemma {:induction false} CountOneMore(events: seq<Event>, e: Event, id: string)
    ensures EventsFor(events + [e], id) == EventsFor(events, id) + if e.schema.id == id then 1 else 0
  {
    assert (events + [e])[..|events|] == events;
  }

  ghost predicate DistinctIds(objects: seq<Schema>) {
    forall x, y :: 0 <= x < y < |objects| ==> objects[x].id != objects[y].id
  }

  lemma {:induction false} CountSent(sent: seq<Event>, events: seq<Event>, was: Schemas, objects: seq<Schema>, i: nat)
    requires i < |objects| && DistinctIds(objects) && CountedSo(sent, was, objects, i, [], 0)
    requires if Unchanged(was, objects[i]) then events == sent
             else |events| == |sent| + 1 && events[..|sent|] == sent && events[|sent|].schema == objects[i]
    ensures CountedSo(events, was, objects, i + 1, [], 0)
  {
    var n := i + 1;
    forall id ensures CountedAt(events, was, objects, n, [], 0, id) {
      assert CountedAt(sent, was, objects, i, [], 0, id);
      SentOneMore(was, objects, i, id);
      if !Unchanged(was, objects[i]) {
        assert events == sent + [events[|sent|]];
        CountOneMore(sent, events[|sent|], id);
      }
    }
  }

  lemma {:induction false} StartCounting(events: seq<Event>, was: Schemas, objects: seq<Schema>, olds: seq<Schema>)
    requires CountedSo(events, was, objects, |objects|, [], 0)
    ensures CountedSo(events, was, objects, |objects|, olds, 0)
  {
    forall id ensures CountedAt(events, was, objects, |objects|, olds, 0, id) {
      assert CountedAt(events, was, objects, |objects|, [], 0, id);
    }
  }

  lemma {:induction false} CountRemoved(sent: seq<Event>, events: seq<Event>, was: Schemas, objects: seq<Schema>,
        olds: seq<Schema>, j: nat)
    requires j < |olds| && DistinctIds(olds) && CountedSo(sent, was, objects, |objects|, olds, j)
    requires if Lists(objects, olds[j].id) then events == sent else events == sent + [Remove(olds[j])]
    ensures CountedSo(events, was, objects, |objects|, olds, j + 1)
  {
    var m := j + 1;
    forall id ensures CountedAt(events, was, objects, |objects|, olds, m, id) {
      assert CountedAt(sent, was, objects, |objects|, olds, j, id);
      RemovedOneMore(objects, olds, j, id);
      CountOneMore(sent, Remove(olds[j]), id);
    }
  }

  lemma {:induction false} CountsNotified(events: seq<Event>, was: Schemas, next: Schemas, objects: seq<Schema>,
        olds: seq<Schema>)
    requires WellFormed(was.graph) && WellFormed(next.graph)
    requires IsFiltered(next.graph, objects) && IsFiltered(was.graph, olds)
    requires CountedSo(events, was, objects, |objects|, olds, |olds|)
    ensures forall id :: EventsFor(events, id) == if Notified(was, next, id) then 1 else 0
  {
    forall id ensures EventsFor(events, id) == if Notified(was, next, id) then 1 else 0 {
      assert CountedAt(events, was, objects, |objects|, olds, |olds|, id);
      ListsVisible(next.graph, objects, id);
      ListsVisible(was.graph, olds, id);
      SentVisible(was, next.graph, objects, id);
      assert Removed(objects, olds, |olds|, id) <==> !Lists(objects, id) && Lists(olds, id);
    }
  }

  /** A schema whose published body did not change is sent again if and only if the old set keeps its
      access attribute: only the new side is compared without it. */
  lemma {:induction false} ResentExactly(was: Schemas, next: Schemas, id: string)
    requires WellFormed(was.graph) && WellFormed(next.graph) && Shown(next.graph, id) && id in was.graph.schemas
    requires ToObject(was.graph.schemas[id]) == ToObject(next.graph.schemas[id])
    ensures Notified(was, next, id) <==> "access" in was.graph.schemas[id].attributes
  {
    var s := was.graph.schemas[id];
    if "access" !in s.attributes {
      assert s.attributes - {"access"} == s.attributes;
    } else {
      assert "access" !in ToObject(s).attributes;
    }
  }

  // One schema with an access attribute.
  function WithAccess(): Schemas {
    var s := Schema("s", ["GET"], [], map[], map[], map[], map["access" := "all"]);
    Schemas(Graph(map["s" := s], t => t), map[], t => t)
  }

  /** A refresh that changes nothing announces it. */
  lemma {:induction false} NothingChangedIsSent()
    ensures WellFormed(WithAccess().graph) && Notified(WithAccess(), WithAccess(), "s")
  {
    VisibleRoot(WithAccess().graph, "s");
    ResentExactly(WithAccess(), WithAccess(), "s");
  }

  lemma {:induction false} ListsVisible(g: Graph, objects: seq<Schema>, id: string)
    requires WellFormed(g) && IsFiltered(g, objects)
    ensures Lists(objects, id) <==> id in g.schemas && Visible(g, id)
  {
    FilteredObjects(g, objects);
    if id in g.schemas && Visible(g, id) {
      var i :| 0 <= i < |objects| && objects[i] == ToObject(g.schemas[id]);
      assert objects[i].id == id;
    }
    if Lists(objects, id) {
      var i :| 0 <= i < |objects| && objects[i].id == id;
      assert objects[i] in objects;
    }
  }

  lemma {:induction false} SentVisible(was: Schemas, g: Graph, objects: seq<Schema>, id: string)
    requires WellFormed(g) && IsFiltered(g, objects)
    ensures Sent(was, objects, |objects|, id) <==>
              id in g.schemas && Visible(g, id) && !Unchanged(was, ToObject(g.schemas[id]))
  {
    FilteredObjects(g, objects);
    if id in g.schemas && Visible(g, id) {
      var i :| 0 <= i < |objects| && objects[i] == ToObject(g.schemas[id]);
      assert objects[i].id == id;
    }
    if Sent(was, objects, |objects|, id) {
      var i :| 0 <= i < |objects| && objects[i].id == id && !Unchanged(was, objects[i]);
      assert objects[i] in objects;
    }
  }

  lemma {:induction false} SentBody(was: Schemas, g: Graph, objects: seq<Schema>, id: string) returns (i: nat)
    requires WellFormed(g) && IsFiltered(g, objects) && Sent(was, objects, |objects|, id)
    ensures i < |objects| && objects[i].id == id && !Unchanged(was, objects[i])
    ensures id in g.schemas && objects[i] == ToObject(g.schemas[id])
  {
    FilteredObjects(g, objects);
    i :| 0 <= i < |objects| && objects[i].id == id && !Unchanged(was, objects[i]);
    assert objects[i] in objects;
  }

  lemma {:induction false} UnchangedBody(was: Schemas, s: Schema)
    requires WellFormed(was.graph) && Unchanged(was, ToObject(s))
    ensures s.id in was.graph.schemas && ToObject(was.graph.schemas[s.id]) == ToObject(s)
  {
    assert ToObject(s).attributes - {"access"} == ToObject(s).attributes;
  }

  // What the client holds under one ID after all events.
  lemma {:induction false} DiffAt(was: Schemas, next: Schemas, objects: seq<Schema>, olds: seq<Schema>, now: View,
        id: string)
    requires WellFormed(was.graph) && WellFormed(next.graph)
    requires IsFiltered(next.graph, objects) && IsFiltered(was.graph, olds)
    requires HeldAt(ViewOf(was.graph), now, was, objects, |objects|, olds, |olds|, id)
    ensures id in now <==> id in ViewOf(next.graph) && !Revived(was, next, id)
    ensures id in now ==> now[id] == ViewOf(next.graph)[id]
  {
    ListsVisible(next.graph, objects, id);
    ListsVisible(was.graph, olds, id);
    SentVisible(was, next.graph, objects, id);
    assert Removed(objects, olds, |olds|, id) <==> !Lists(objects, id) && Lists(olds, id);
    if id in now {
      if Sent(was, objects, |objects|, id) {
        var i := SentBody(was, next.graph, objects, id);
      } else {
        UnchangedBody(was, next.graph.schemas[id]);
      }
    }
  }

  lemma {:induction false} DiffExact(was: Schemas, next: Schemas, objects: seq<Schema>, olds: seq<Schema>, now: View)
    requires WellFormed(was.graph) && WellFormed(next.graph)
    requires IsFiltered(next.graph, objects) && IsFiltered(was.graph, olds)
    requires SentSoFar(ViewOf(was.graph), now, was, objects, |objects|, olds, |olds|)
    ensures now == ViewOf(next.graph) <==> NoneRevived(was, next)
  {
    forall id
      ensures id in now <==> id in ViewOf(next.graph) && !Revived(was, next, id)
      ensures id in now ==> now[id] == ViewOf(next.graph)[id]
    {
      assert HeldAt(ViewOf(was.graph), now, was, objects, |objects|, olds, |olds|, id);
      DiffAt(was, next, objects, olds, now, id);
    }
    if now == ViewOf(next.graph) {
      forall id ensures !Revived(was, next, id) {
        assert Revived(was, next, id) ==> id in ViewOf(next.graph);
      }
    }
  }

  // ----- a session -----

  // The client's view after each refresh in turn, from the view of the first set.
  ghost predicate IsSession(sets: seq<Schemas>, sent: seq<seq<Event>>) {
    && |sets| == |sent| + 1
    && (forall k :: 0 <= k < |sets| ==> WellFormed(sets[k].graph))
    && forall k :: 0 <= k < |sent| ==> IsDiff(sets[k], sets[k + 1], sent[k])
  }

  function Received(view: View, sent: seq<seq<Event>>, n: nat): View
    requires n <= |sent|
  {
    if n == 0 then view else ApplyAll(Received(view, sent, n - 1), sent[n - 1])
  }

  lemma {:induction false} ClientFollows(sets: seq<Schemas>, sent: seq<seq<Event>>, n: nat)
    requires IsSession(sets, sent) && n <= |sent|
    requires forall k :: 0 <= k < n ==> NoneRevived(sets[k], sets[k + 1])
    ensures Received(ViewOf(sets[0].graph), sent, n) == ViewOf(sets[n].graph)
  {
    if n > 0 {
      ClientFollows(sets, sent, n - 1);
      assert IsDiff(sets[n - 1], sets[n - 1 + 1], sent[n - 1]);
      assert NoneRevived(sets[n - 1], sets[n - 1 + 1]);
    }
  }

  // A shared type that nothing referred to; then a listed schema gets a field of that type.
  function Part(): Schema {
    Schema("part", [], [], map[], map[], map[], map[])
  }

  function Whole(fields: map<string, string>): Schema {
    Schema("whole", ["GET"], [], fields, map[], map[], map[])
  }

  function SetOf(whole: Schema): Schemas {
    Schemas(Graph(map["part" := Part(), "whole" := whole], t => t), map[], t => t)
  }

  lemma {:induction false} PartHidden()
    ensures !Visible(SetOf(Whole(map[])).graph, "part")
  {
    var g := SetOf(Whole(map[])).graph;
    forall path | IsPath(g, path) ensures path[|path| - 1] != "part" {
      if |path| > 1 {
        var n := |path| - 2;
        assert Edge(g, path[n], path[n + 1]);
      }
    }
  }

  lemma {:induction false} PartReferred()
    ensures Visible(SetOf(Whole(map["field" := "part"])).graph, "part")
  {
    var g := SetOf(Whole(map["field" := "part"])).graph;
    VisibleRoot(g, "whole");
    assert BaseType(g, g.schemas["whole"].fields["field"]) == "part";
    assert Edge(g, "whole", "part");
    VisibleStep(g, "whole", "part");
  }

  /** A revived schema never reaches the client. */
  lemma {:induction false} RevivedIsLost()
    ensures Visible(SetOf(Whole(map["field" := "part"])).graph, "part")
    ensures forall events :: IsDiff(SetOf(Whole(map[])), SetOf(Whole(map["field" := "part"])), events) ==>
              ApplyAll(ViewOf(SetOf(Whole(map[])).graph), events) != ViewOf(SetOf(Whole(map["field" := "part"])).graph)
  {
    var was, next := SetOf(Whole(map[])), SetOf(Whole(map["field" := "part"]));
    PartReferred();
    PartHidden();
    assert ToObject(Part()) == Part();
    assert next.graph.schemas["part"] == Part();
    assert Revived(was, next, "part");
  }
}
