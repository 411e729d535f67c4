/** The schemas that a user sees: those with methods and everything they refer to
    (pkg/stores/schema/schema_store.go). */
module SchemaGraph {

  datatype Action = Action(input: string, output: string)

  datatype Schema = Schema(
    id: string,
    collectionMethods: seq<string>,
    resourceMethods: seq<string>,
    fields: map<string, string>,
    resourceActions: map<string, Action>,
    collectionActions: map<string, Action>,
    attributes: map<string, string>)

  // The published copy does not carry the access lists.
  function ToObject(s: Schema): Schema {
    s.(attributes := s.attributes - {"access"})
  }

  // The schemas by ID, and the step from a type to its element type.
  datatype Graph = Graph(schemas: map<string, Schema>, subType: string -> string)

  ghost predicate WellFormed(g: Graph) {
    && (forall id :: id in g.schemas ==> g.schemas[id].id == id)
    && (forall t :: g.subType(t) == t || |g.subType(t)| < |t|)
  }

  // The element type at the end of all steps.
  function BaseType(g: Graph, t: string): string
    decreases |t|
  {
    var s := g.subType(t);
    if s == t || |s| >= |t| then t else BaseType(g, s)
  }

  /** The base type has no element type but itself, and all element types on the way to it share it. */
  lemma {:induction false} BaseTypeIsInnermost(g: Graph, t: string)
    requires WellFormed(g)
    ensures g.subType(BaseType(g, t)) == BaseType(g, t)
    ensures BaseType(g, g.subType(t)) == BaseType(g, t)
    ensures g.subType(t) == t ==> BaseType(g, t) == t
    decreases |t|
  {
    if g.subType(t) != t {
      BaseTypeIsInnermost(g, g.subType(t));
    }
  }

  method FindBaseType(g: Graph, type_: string) returns (t: string)
    requires WellFormed(g)
    ensures t == BaseType(g, type_) && g.subType(t) == t
  {
    BaseTypeIsInnermost(g, type_);
    t := "";
    var subType := type_;
    if subType == "" {
      return;
    }
    while subType != t
      invariant BaseType(g, subType) == BaseType(g, type_)
      invariant subType == t ==> t == BaseType(g, type_)
      decreases if subType != t then |subType| + 1 else 0
    {
      t := subType;
      subType := g.subType(t);
    }
  }

  // ----- reachability -----

  predicate Named(g: Graph, actions: map<string, Action>, t: string) {
    t != "" && exists name :: name in actions && (actions[name].output == t || actions[name].input == t)
  }

  predicate RefersTo(g: Graph, s: Schema, t: string) {
    || (exists f :: f in s.fields && BaseType(g, s.fields[f]) == t)
    || Named(g, s.resourceActions, t)
    || Named(g, s.collectionActions, t)
  }

  predicate Edge(g: Graph, a: string, b: string) {
    a in g.schemas && b in g.schemas && RefersTo(g, g.schemas[a], b)
  }

  predicate HasMethods(s: Schema) {
    |s.collectionMethods| > 0 || |s.resourceMethods| > 0
  }

  predicate IsPath(g: Graph, path: seq<string>) {
    && path != []
    && path[0] in g.schemas && HasMethods(g.schemas[path[0]])
    && forall i :: 0 <= i < |path| - 1 ==> Edge(g, path[i], path[i + 1])
  }

  // Some schema with methods leads to this one.
  ghost predicate Visible(g: Graph, id: string) {
    exists path :: IsPath(g, path) && path[|path| - 1] == id
  }

  lemma {:induction false} VisibleRoot(g: Graph, id: string)
    requires id in g.schemas && HasMethods(g.schemas[id])
    ensures Visible(g, id)
  {
    assert IsPath(g, [id]) && [id][|[id]| - 1] == id;
  }

  lemma {:induction false} VisibleStep(g: Graph, a: string, b: string)
    requires Visible(g, a) && Edge(g, a, b)
    ensures Visible(g, b)
  {
    var path :| IsPath(g, path) && path[|path| - 1] == a;
    var longer := path + [b];
    assert IsPath(g, longer) && longer[|longer| - 1] == b;
  }

  lemma {:induction false} NamedBy(g: Graph, actions: map<string, Action>, name: string)
    requires name in actions
    ensures actions[name].output != "" ==> Named(g, actions, actions[name].output)
    ensures actions[name].input != "" ==> Named(g, actions, actions[name].input)
  {
  }

  // Everything a schema refers to is included.
  predicate ClosedAt(g: Graph, included: set<string>, id: string) {
    forall t :: t in g.schemas && Edge(g, id, t) ==> t in included
  }

  lemma {:induction false} ClosedContainsPath(g: Graph, included: set<string>, path: seq<string>, n: nat)
    requires IsPath(g, path) && n < |path|
    requires forall id :: id in g.schemas && HasMethods(g.schemas[id]) ==> id in included
    requires forall id :: id in included ==> ClosedAt(g, included, id)
    ensures path[n] in included
  {
    if n > 0 {
      ClosedContainsPath(g, included, path, n - 1);
      assert Edge(g, path[n - 1], path[n]);
    }
  }

  lemma {:induction false} VisibleExists(g: Graph, id: string)
    requires Visible(g, id)
    ensures id in g.schemas
  {
    var path :| IsPath(g, path) && path[|path| - 1] == id;
    if |path| > 1 {
      assert Edge(g, path[|path| - 2], path[|path| - 1]);
    }
  }

  // ----- the result as a list of published schemas -----

  predicate Lists(objects: seq<Schema>, id: string) {
    exists i :: 0 <= i < |objects| && objects[i].id == id
  }

  // The objects of exactly these IDs, each once.
  ghost predicate IsListing(g: Graph, objects: seq<Schema>, ids: set<string>) {
    && (forall i, j :: 0 <= i < j < |objects| ==> objects[i].id != objects[j].id)
    && (forall i :: 0 <= i < |objects| ==>
          objects[i].id in ids && objects[i].id in g.schemas && objects[i] == ToObject(g.schemas[objects[i].id]))
    && (forall id :: id in ids ==> Lists(objects, id))
  }

  lemma {:induction false} ListingAppend(g: Graph, objects: seq<Schema>, ids: set<string>, id: string, all: set<string>)
    requires WellFormed(g) && IsListing(g, objects, ids) && id !in ids && id in g.schemas && all == ids + {id}
    ensures IsListing(g, objects + [ToObject(g.schemas[id])], all)
  {
    var more := objects + [ToObject(g.schemas[id])];
    forall x | x in all ensures Lists(more, x) {
      if x == id {
        assert more[|objects|].id == id;
      } else {
        var i :| 0 <= i < |objects| && objects[i].id == x;
        assert more[i].id == x;
      }
    }
  }

  // ----- the traversal, which shares `included` and the result -----

  // What a call includes: visible IDs, closed under references.
  ghost predicate Grows(g: Graph, before: set<string>, now: set<string>) {
    && before <= now
    && forall id :: id in now && id !in before ==> Visible(g, id) && ClosedAt(g, now, id)
  }

  predicate Has(g: Graph, included: set<string>, t: string) {
    t != "" && t in g.schemas ==> t in included
  }

  class Filter {
    const g: Graph
    var included: set<string>
    var objects: seq<Schema>
    // The schemas whose references are being followed: included, but not in the result yet.
    ghost var open: set<string>

    ghost predicate Valid()
      reads this
    {
      WellFormed(g) && open <= included <= g.schemas.Keys && IsListing(g, objects, included - open)
    }

    constructor (g: Graph)
      requires WellFormed(g)
      ensures this.g == g && Valid() && included == {} && open == {}
    {
      this.g := g;
      included := {};
      objects := [];
      open := {};
    }

    method AddSchema(schema: Schema)
      requires Valid() && schema.id in g.schemas && g.schemas[schema.id] == schema
      requires schema.id !in included && Visible(g, schema.id)
      modifies this
      ensures Valid() && open == old(open) && Grows(g, old(included), included) && schema.id in included
      decreases g.schemas.Keys - included, 0
    {
      ghost var before := open;
      included := included + {schema.id};
      open := open + {schema.id};
      assert included - open == old(included) - old(open);
      TraverseAndAdd(schema);
      assert included - before == (included - open) + {schema.id};
      ListingAppend(g, objects, included - open, schema.id, included - before);
      objects := objects + [ToObject(schema)];
      open := before;
    }

    method TraverseAndAdd(schema: Schema)
      requires Valid() && schema.id in g.schemas && g.schemas[schema.id] == schema && Visible(g, schema.id)
      modifies this
      ensures Valid() && open == old(open) && Grows(g, old(included), included) && ClosedAt(g, included, schema.id)
      decreases g.schemas.Keys - included, 4
    {
      AddFields(schema);
      AddActions(schema.id, schema.resourceActions);
      AddActions(schema.id, schema.collectionActions);
    }

    method AddFields(schema: Schema)
      requires Valid() && schema.id in g.schemas && g.schemas[schema.id] == schema && Visible(g, schema.id)
      modifies this
      ensures Valid() && open == old(open) && Grows(g, old(included), included)
      ensures forall f :: f in schema.fields && BaseType(g, schema.fields[f]) in g.schemas ==>
              BaseType(g, schema.fields[f]) in included
      decreases g.schemas.Keys - included, 3
    {
      var fields := schema.fields.Keys;
      while fields != {}
        invariant fields <= schema.fields.Keys && Valid() && open == old(open) && Grows(g, old(included), included)
        invariant forall f :: f in schema.fields.Keys - fields && BaseType(g, schema.fields[f]) in g.schemas ==>
                                BaseType(g, schema.fields[f]) in included
        decreases |fields|
      {
        var f :| f in fields;
        var t := FindBaseType(g, schema.fields[f]);
        AddReference(schema.id, t);
        fields := fields - {f};
      }
    }

    // The actions of one of the two kinds.
    method AddActions(id: string, actions: map<string, Action>)
      requires Valid() && id in g.schemas && Visible(g, id)
      requires forall t :: Named(g, actions, t) ==> RefersTo(g, g.schemas[id], t)
      modifies this
      ensures Valid() && open == old(open) && Grows(g, old(included), included)
      ensures forall t :: Named(g, actions, t) && t in g.schemas ==> t in included
      decreases g.schemas.Keys - included, 3
    {
      var names := actions.Keys;
      while names != {}
        invariant names <= actions.Keys && Valid() && open == old(open) && Grows(g, old(included), included)
        invariant forall name :: name in actions.Keys - names ==>
                                   Has(g, included, actions[name].output) && Has(g, included, actions[name].input)
        decreases |names|
      {
        var name :| name in names;
        NamedBy(g, actions, name);
        AddAction(id, actions[name]);
        names := names - {name};
      }
    }

    method AddAction(id: string, action: Action)
      requires Valid() && id in g.schemas && Visible(g, id)
      requires action.output != "" ==> RefersTo(g, g.schemas[id], action.output)
      requires action.input != "" ==> RefersTo(g, g.schemas[id], action.input)
      modifies this
      ensures Valid() && open == old(open) && Grows(g, old(included), included)
      ensures Has(g, included, action.output) && Has(g, included, action.input)
      decreases g.schemas.Keys - included, 2
    {
      if action.output != "" {
        AddReference(id, action.output);
      }
      if action.input != "" {
        AddReference(id, action.input);
      }
    }

    method AddReference(id: string, t: string)
      requires Valid() && Visible(g, id)
      requires t in g.schemas ==> Edge(g, id, t)
      modifies this
      ensures Valid() && open == old(open) && Grows(g, old(included), included)
      ensures t in g.schemas ==> t in included
      decreases g.schemas.Keys - included, 1
    {
      if t in g.schemas && t !in included {
        VisibleStep(g, id, t);
        AddSchema(g.schemas[t]);
      }
    }
  }

  /** Whatever the map order, the result holds each visible schema once, and nothing else. */
  method FilterSchemas(g: Graph) returns (objects: seq<Schema>)
    requires WellFormed(g)
    ensures IsFiltered(g, objects)
  {
    var f := new Filter(g);
    var rest := g.schemas.Keys;
    while rest != {}
      invariant rest <= g.schemas.Keys && f.g == g && fresh(f) && f.Valid() && f.open == {} && Grows(g, {}, f.included)
      invariant forall id :: id in g.schemas.Keys - rest && HasMethods(g.schemas[id]) ==> id in f.included
      decreases |rest|
    {
      var id :| id in rest;
      var schema := g.schemas[id];
      if schema.id !in f.included && (|schema.collectionMethods| > 0 || |schema.resourceMethods| > 0) {
        VisibleRoot(g, id);
        f.AddSchema(schema);
      }
      rest := rest - {id};
    }
    objects := f.objects;
    assert f.included - f.open == f.included;
    ClosedIsVisible(g, f.included);
    assert AreVisible(g, f.included);
  }

  ghost predicate IsFiltered(g: Graph, objects: seq<Schema>) {
    exists ids :: IsListing(g, objects, ids) && AreVisible(g, ids)
  }

  ghost predicate AreVisible(g: Graph, ids: set<string>) {
    forall id :: id in ids <==> Visible(g, id)
  }

  // A closed set with all roots contains everything visible.
  lemma {:induction false} ClosedIsVisible(g: Graph, included: set<string>)
    requires forall id :: id in g.schemas && HasMethods(g.schemas[id]) ==> id in included
    requires forall id :: id in included ==> ClosedAt(g, included, id)
    ensures forall id :: Visible(g, id) ==> id in included && id in g.schemas
  {
    forall id | Visible(g, id) ensures id in included && id in g.schemas {
      var path :| IsPath(g, path) && path[|path| - 1] == id;
      ClosedContainsPath(g, included, path, |path| - 1);
      VisibleExists(g, id);
    }
  }

  lemma {:induction false} FilteredObjects(g: Graph, objects: seq<Schema>)
    requires IsFiltered(g, objects)
    ensures forall i, j :: 0 <= i < j < |objects| ==> objects[i].id != objects[j].id
    ensures forall o: Schema :: o in objects <==>
            o.id in g.schemas && Visible(g, o.id) && o == ToObject(g.schemas[o.id])
  {
    var ids :| IsListing(g, objects, ids) && AreVisible(g, ids);
    forall o: Schema | o.id in g.schemas && Visible(g, o.id) && o == ToObject(g.schemas[o.id]) ensures o in objects {
      assert Lists(objects, o.id);
      var i :| 0 <= i < |objects| && objects[i].id == o.id;
      assert objects[i] == o;
    }
  }

  /** The published schema is the schema without its access attribute. */
  lemma {:induction false} FilteredAttributes(g: Graph, objects: seq<Schema>, o: Schema)
    requires IsFiltered(g, objects) && o in objects
    ensures o.id in g.schemas && g.schemas[o.id] == o.(attributes := g.schemas[o.id].attributes)
    ensures forall k :: k in o.attributes <==> k in g.schemas[o.id].attributes && k != "access"
    ensures forall k :: k in o.attributes ==> o.attributes[k] == g.schemas[o.id].attributes[k]
  {
    FilteredObjects(g, objects);
  }

  // ----- one graph with every kind of reference -----

  function Plain(id: string): Schema {
    Schema(id, [], [], map[], map[], map[], map[])
  }

  function WholeSchema(): Schema {
    Schema("whole", ["GET"], [], map["parts" := "array[map[part]]"], map["run" := Action("in", "out")],
           map["find" := Action("query", "found")], map[])
  }

  // An array of maps, stripped one step at a time.
  function SubTypeOf(t: string): string {
    if t == "array[map[part]]" then "map[part]" else if t == "map[part]" then "part" else t
  }

  const REFERRED := {"part", "in", "out", "query", "found"}

  function Example(): Graph {
    Graph(map id | id in REFERRED + {"whole", "alone", "hidden"} ::
            if id == "whole" then WholeSchema()
            else if id == "alone" then Plain(id).(resourceMethods := ["PUT"]) else Plain(id),
          SubTypeOf)
  }

  lemma {:induction false} ExampleTypes()
    ensures WellFormed(Example()) && BaseType(Example(), "array[map[part]]") == "part"
  {
    var g := Example();
    assert BaseType(g, "part") == "part";
    assert BaseType(g, "map[part]") == "part";
  }

  lemma {:induction false} ExampleRefers(t: string)
    ensures RefersTo(Example(), WholeSchema(), t) <==> t in REFERRED
    ensures forall id :: id in Example().schemas && id != "whole" ==> !RefersTo(Example(), Example().schemas[id], t)
  {
    ExampleTypes();
    var s := WholeSchema();
    assert "parts" in s.fields && "run" in s.resourceActions && "find" in s.collectionActions;
  }

  /** A schema brings with it the element types of its fields and the types of its actions of both kinds;
      a schema without methods that nothing refers to is not visible. */
  lemma {:induction false} ExampleIsVisible(id: string)
    ensures Visible(Example(), id) <==> id == "whole" || id == "alone" || id in REFERRED
  {
    var g := Example();
    ExampleRefers(id);
    if id == "whole" || id == "alone" {
      VisibleRoot(g, id);
    } else if id in REFERRED {
      VisibleRoot(g, "whole");
      VisibleStep(g, "whole", id);
    }
    var included := REFERRED + {"whole", "alone"};
    forall a | a in included ensures ClosedAt(g, included, a) {
      forall t | t in g.schemas && Edge(g, a, t) ensures t in included {
        ExampleRefers(t);
      }
    }
    ClosedIsVisible(g, included);
  }
}
