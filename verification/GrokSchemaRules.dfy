/** What the rewrite guarantees on every JSON tree: it is idempotent, its output
    is clean at every schema position, and it keeps everything else. */
module GrokSchemaRules {
  import opened Common
  import opened GrokSchema

  // ------------------------------------------------------- clean schemas

  /** What the proxy asks of one object at a schema position. */
  predicate NodeIsClean(entries: seq<Entry>) {
    && (forall i :: 0 <= i < |entries| ==> entries[i].key !in DROPPED_KEYS)
    && (DeclaresShape(entries) || LiteralValues(entries) == [])
    && (forall i :: 0 <= i < |entries| && entries[i].key == "properties" && entries[i].value.Obj?
          ==> PropertiesDeclareShape(entries[i].value.entries))
  }

  predicate PropertiesDeclareShape(properties: seq<Entry>) {
    forall i :: 0 <= i < |properties| && properties[i].value.Obj? ==> DeclaresShape(properties[i].value.entries)
  }

  /** All objects at schema positions are clean. */
  predicate Clean(value: Json)
    decreases value
  {
    match value
    case Arr(items) => forall i :: 0 <= i < |items| ==> Clean(items[i])
    case Obj(entries) => NodeIsClean(entries) && ChildrenAreClean(entries)
    case _ => true
  }

  predicate ChildrenAreClean(entries: seq<Entry>)
    decreases entries
  {
    forall i :: 0 <= i < |entries| ==> ChildIsClean(entries[i])
  }

  predicate ChildIsClean(entry: Entry)
    decreases entry
  {
    if entry.key in SCHEMA_MAP_KEYS && entry.value.Obj? then
      ValuesAreClean(entry.value.entries)
    else if entry.key in SCHEMA_CHILD_KEYS then Clean(entry.value)
    else true
  }

  predicate ValuesAreClean(entries: seq<Entry>)
    decreases entries
  {
    forall i :: 0 <= i < |entries| ==> Clean(entries[i].value)
  }

  /** The part of `NodeIsClean` and `ChildrenAreClean` that is about one entry. */
  predicate EntryIsClean(entry: Entry) {
    && entry.key !in DROPPED_KEYS
    && ChildIsClean(entry)
    && (entry.key == "properties" && entry.value.Obj? ==> PropertiesDeclareShape(entry.value.entries))
  }

  predicate EntriesAreClean(entries: seq<Entry>) {
    forall i :: 0 <= i < |entries| ==> EntryIsClean(entries[i])
  }

  lemma CleanByEntries(entries: seq<Entry>)
    ensures Clean(Obj(entries)) <==> EntriesAreClean(entries) && (DeclaresShape(entries) || LiteralValues(entries) == [])
  {
  }

  // -------------------------------------------------- the output is clean

  lemma {:induction false} SanitizeIsClean(value: Json)
    ensures Clean(Sanitize(value))
    decreases value
  {
    match value
    case Arr(items) =>
      ItemsBecomeClean(items);
    case Obj(entries) =>
      EntriesBecomeClean(entries);
      var node := SanitizeEntries(entries);
      if !DeclaresShape(node) && LiteralValues(node) != [] {
        AddedShapeIsClean(LiteralValues(node));
        var shaped := WithLiteralShape(node);
        assert shaped[|node|].key in SHAPE_KEYS;
        assert EntriesAreClean(shaped);
      }
      CleanByEntries(WithLiteralShape(node));
    case _ =>
  }

  lemma {:induction false} ItemsBecomeClean(items: seq<Json>)
    ensures |SanitizeItems(items)| == |items|
    ensures forall i :: 0 <= i < |items| ==> Clean(SanitizeItems(items)[i])
    decreases items
  {
    if items != [] {
      ItemsBecomeClean(items[..|items| - 1]);
      SanitizeIsClean(items[|items| - 1]);
    }
  }

  lemma {:induction false} EntriesBecomeClean(entries: seq<Entry>)
    ensures EntriesAreClean(SanitizeEntries(entries))
    decreases entries
  {
    if entries != [] {
      var last := entries[|entries| - 1];
      EntriesBecomeClean(entries[..|entries| - 1]);
      if last.key !in DROPPED_KEYS {
        EntryBecomesClean(last);
      }
    }
  }

  lemma {:induction false} EntryBecomesClean(entry: Entry)
    requires entry.key !in DROPPED_KEYS
    ensures EntryIsClean(SanitizeEntry(entry))
    decreases entry
  {
    if entry.key in SCHEMA_MAP_KEYS && entry.value.Obj? {
      PropertiesBecomeClean(entry.key, entry.value.entries);
      assert SanitizeEntry(entry) == Entry(entry.key, Obj(SanitizeProperties(entry.key, entry.value.entries)));
    } else if entry.key in SCHEMA_CHILD_KEYS {
      SanitizeIsClean(entry.value);
    }
  }

  lemma {:induction false} PropertiesBecomeClean(mapKey: string, entries: seq<Entry>)
    ensures ValuesAreClean(SanitizeProperties(mapKey, entries))
    ensures mapKey == "properties" ==> PropertiesDeclareShape(SanitizeProperties(mapKey, entries))
    decreases entries
  {
    if entries != [] {
      var last := entries[|entries| - 1];
      PropertiesBecomeClean(mapKey, entries[..|entries| - 1]);
      SanitizeIsClean(last.value);
      var schema := Sanitize(last.value);
      if mapKey == "properties" && schema.Obj? && !DeclaresShape(schema.entries) {
        OpenedIsClean(schema.entries);
      }
      var front := SanitizeProperties(mapKey, entries[..|entries| - 1]);
      var made := Entry(last.key, OpenedProperty(mapKey, schema));
      assert Clean(made.value) && (mapKey == "properties" && made.value.Obj? ==> DeclaresShape(made.value.entries));
      assert SanitizeProperties(mapKey, entries) == front + [made];
    }
  }

  lemma AddedShapeIsClean(values: seq<Json>)
    requires values != []
    ensures EntryIsClean(LiteralShape(TypesOf(values)))
    ensures LiteralShape(TypesOf(values)).key in SHAPE_KEYS
  {
    var types := TypesOf(values);
    if |types| > 1 {
      forall i | 0 <= i < |types|
        ensures Clean(TypeSchema(types[i]))
      {
        TypeSchemaIsClean(types[i]);
      }
    }
  }

  lemma TypeSchemaIsClean(name: string)
    ensures Clean(TypeSchema(name)) && Sanitize(TypeSchema(name)) == TypeSchema(name)
  {
    var entry := Entry("type", Str(name));
    assert [entry][0].key in SHAPE_KEYS;
    CleanByEntries([entry]);
    assert SanitizeEntries([entry]) == [SanitizeEntry(entry)] by {
      assert [entry][..0] == [];
    }
  }

  lemma {:induction false} SetKeepsClean(entries: seq<Entry>, key: string, value: Json)
    requires EntriesAreClean(entries) && EntryIsClean(Entry(key, value))
    ensures EntriesAreClean(Set(entries, key, value))
  {
    if entries != [] && entries[0].key != key {
      SetKeepsClean(entries[1..], key, value);
    }
  }

  lemma {:induction false} SetDeclares(entries: seq<Entry>, key: string, value: Json)
    ensures exists i :: 0 <= i < |Set(entries, key, value)| && Set(entries, key, value)[i].key == key
    ensures DeclaresShape(entries) || key in SHAPE_KEYS ==> DeclaresShape(Set(entries, key, value))
  {
    if entries == [] || entries[0].key == key {
      assert Set(entries, key, value)[0].key == key;
      if DeclaresShape(entries) && key !in SHAPE_KEYS {
        var i :| 0 <= i < |entries| && entries[i].key in SHAPE_KEYS;
        assert Set(entries, key, value)[i].key in SHAPE_KEYS;
      }
    } else {
      SetDeclares(entries[1..], key, value);
      var tail := Set(entries[1..], key, value);
      var i :| 0 <= i < |tail| && tail[i].key == key;
      assert Set(entries, key, value)[i + 1] == tail[i];
      if entries[0].key in SHAPE_KEYS {
        assert Set(entries, key, value)[0] == entries[0];
      } else if DeclaresShape(entries) {
        var j :| 0 <= j < |entries| && entries[j].key in SHAPE_KEYS;
        assert entries[1..][j - 1].key in SHAPE_KEYS;
        var k :| 0 <= k < |tail| && tail[k].key in SHAPE_KEYS;
        assert Set(entries, key, value)[k + 1] == tail[k];
      }
    }
  }

  lemma OpenedIsClean(entries: seq<Entry>)
    requires Clean(Obj(entries))
    ensures Clean(Obj(Opened(entries))) && DeclaresShape(Opened(entries))
  {
    CleanByEntries(entries);
    var typed := Set(entries, "type", Str("object"));
    SetKeepsClean(entries, "type", Str("object"));
    SetDeclares(entries, "type", Str("object"));
    SetKeepsClean(typed, "additionalProperties", Bool(true));
    SetDeclares(typed, "additionalProperties", Bool(true));
    CleanByEntries(Opened(entries));
  }

  // ------------------------------------------------- clean means unchanged

  lemma {:induction false} CleanIsUnchanged(value: Json)
    requires Clean(value)
    ensures Sanitize(value) == value
    decreases value
  {
    match value
    case Arr(items) =>
      ItemsAreUnchanged(items);
    case Obj(entries) =>
      CleanByEntries(entries);
      EntriesAreUnchanged(entries);
    case _ =>
  }

  lemma {:induction false} ItemsAreUnchanged(items: seq<Json>)
    requires forall i :: 0 <= i < |items| ==> Clean(items[i])
    ensures SanitizeItems(items) == items
    decreases items
  {
    if items != [] {
      var front := items[..|items| - 1];
      ItemsAreUnchanged(front);
      CleanIsUnchanged(items[|items| - 1]);
      assert SanitizeItems(items) == front + [items[|items| - 1]] == items;
    }
  }

  lemma {:induction false} EntriesAreUnchanged(entries: seq<Entry>)
    requires EntriesAreClean(entries)
    ensures SanitizeEntries(entries) == entries
    decreases entries
  {
    if entries != [] {
      var last := entries[|entries| - 1];
      var front := entries[..|entries| - 1];
      EntriesAreUnchanged(front);
      assert EntryIsClean(last);
      EntryIsUnchanged(last);
      assert SanitizeEntries(entries) == front + [last] == entries;
    }
  }

  lemma {:induction false} EntryIsUnchanged(entry: Entry)
    requires EntryIsClean(entry)
    ensures SanitizeEntry(entry) == entry
    decreases entry
  {
    if entry.key in SCHEMA_MAP_KEYS && entry.value.Obj? {
      PropertiesAreUnchanged(entry.key, entry.value.entries);
    } else if entry.key in SCHEMA_CHILD_KEYS {
      CleanIsUnchanged(entry.value);
    }
  }

  lemma {:induction false} PropertiesAreUnchanged(mapKey: string, entries: seq<Entry>)
    requires ValuesAreClean(entries)
    requires mapKey == "properties" ==> PropertiesDeclareShape(entries)
    ensures SanitizeProperties(mapKey, entries) == entries
    decreases entries
  {
    if entries != [] {
      var front, last := entries[..|entries| - 1], entries[|entries| - 1];
      PropertiesAreUnchanged(mapKey, front);
      CleanIsUnchanged(last.value);
      ShapedIsNotOpened(mapKey, last.value);
      assert SanitizeProperties(mapKey, entries) == front + [last] == entries;
    }
  }

  lemma ShapedIsNotOpened(mapKey: string, schema: Json)
    requires mapKey == "properties" && schema.Obj? ==> DeclaresShape(schema.entries)
    ensures OpenedProperty(mapKey, schema) == schema
  {
  }

  /** A schema is left alone exactly when it is clean already. */
  lemma UnchangedExactlyWhenClean(value: Json)
    ensures Sanitize(value) == value <==> Clean(value)
  {
    SanitizeIsClean(value);
    if Clean(value) {
      CleanIsUnchanged(value);
    }
  }

  /** The rewrite is idempotent on every JSON tree. */
  lemma SanitizeIsIdempotent(value: Json)
    ensures Sanitize(Sanitize(value)) == Sanitize(value)
  {
    SanitizeIsClean(value);
    CleanIsUnchanged(Sanitize(value));
  }

  // -------------------------------------------------- all schema positions

  /** The objects at the schema positions of a tree, outermost first. */
  function SchemaNodes(value: Json): seq<seq<Entry>>
    decreases value
  {
    match value
    case Arr(items) => NodesOfItems(items)
    case Obj(entries) => [entries] + NodesOfEntries(entries)
    case _ => []
  }

  function NodesOfItems(items: seq<Json>): seq<seq<Entry>>
    decreases items
  {
    if items == [] then [] else NodesOfItems(items[..|items| - 1]) + SchemaNodes(items[|items| - 1])
  }

  function NodesOfEntries(entries: seq<Entry>): seq<seq<Entry>>
    decreases entries
  {
    if entries == [] then []
    else NodesOfEntries(entries[..|entries| - 1]) + NodesOfEntry(entries[|entries| - 1])
  }

  function NodesOfEntry(entry: Entry): seq<seq<Entry>>
    decreases entry
  {
    if entry.key in SCHEMA_MAP_KEYS && entry.value.Obj? then NodesOfMap(entry.value.entries)
    else if entry.key in SCHEMA_CHILD_KEYS then SchemaNodes(entry.value)
    else []
  }

  function NodesOfMap(entries: seq<Entry>): seq<seq<Entry>>
    decreases entries
  {
    if entries == [] then []
    else NodesOfMap(entries[..|entries| - 1]) + SchemaNodes(entries[|entries| - 1].value)
  }

  predicate AllClean(nodes: seq<seq<Entry>>) {
    forall i :: 0 <= i < |nodes| ==> NodeIsClean(nodes[i])
  }

  lemma {:induction false} CleanNodes(value: Json)
    requires Clean(value)
    ensures AllClean(SchemaNodes(value))
    decreases value
  {
    match value
    case Arr(items) => CleanItemNodes(items);
    case Obj(entries) => CleanEntryNodes(entries);
    case _ =>
  }

  lemma {:induction false} CleanItemNodes(items: seq<Json>)
    requires forall i :: 0 <= i < |items| ==> Clean(items[i])
    ensures AllClean(NodesOfItems(items))
    decreases items
  {
    if items != [] {
      CleanItemNodes(items[..|items| - 1]);
      CleanNodes(items[|items| - 1]);
    }
  }

  lemma {:induction false} CleanEntryNodes(entries: seq<Entry>)
    requires forall i :: 0 <= i < |entries| ==> ChildIsClean(entries[i])
    ensures AllClean(NodesOfEntries(entries))
    decreases entries
  {
    if entries != [] {
      var last := entries[|entries| - 1];
      CleanEntryNodes(entries[..|entries| - 1]);
      assert ChildIsClean(last);
      if last.key in SCHEMA_MAP_KEYS && last.value.Obj? {
        CleanMapNodes(last.value.entries);
      } else if last.key in SCHEMA_CHILD_KEYS {
        CleanNodes(last.value);
      }
    }
  }

  lemma {:induction false} CleanMapNodes(entries: seq<Entry>)
    requires ValuesAreClean(entries)
    ensures AllClean(NodesOfMap(entries))
    decreases entries
  {
    if entries != [] {
      CleanMapNodes(entries[..|entries| - 1]);
      CleanNodes(entries[|entries| - 1].value);
    }
  }

  /** At no schema position of the output is there a `$schema` or an `$id`, and
      every object in a `properties` map there declares a shape. */
  lemma OutputIsCleanEverywhere(value: Json)
    ensures forall node: seq<Entry> :: node in SchemaNodes(Sanitize(value)) ==>
      && !Has(node, "$schema")
      && !Has(node, "$id")
      && forall i :: 0 <= i < |node| && node[i].key == "properties" && node[i].value.Obj?
           ==> PropertiesDeclareShape(node[i].value.entries)
  {
    SanitizeIsClean(value);
    CleanNodes(Sanitize(value));
    assert "$schema" in DROPPED_KEYS && "$id" in DROPPED_KEYS;
  }

  // ----------------------------------------------------- literal shapes

  lemma NamesOfLiterals(values: seq<Json>, name: string)
    ensures name in LiteralTypes(values) <==> exists i :: 0 <= i < |values| && LiteralType(values[i]) == name
  {
    var names := LiteralTypes(values);
    forall i | 0 <= i < |values| && LiteralType(values[i]) == name
      ensures name in names
    {
      assert names[i] == name;
    }
    if name in names {
      var i :| 0 <= i < |names| && names[i] == name;
      assert LiteralType(values[i]) == name;
    }
  }

  /** Whether a declared shape is `type: name` or lists it under `anyOf`. */
  predicate Admits(shape: Entry, name: string) {
    || (shape.key == "type" && shape.value == Str(name))
    || (shape.key == "anyOf" && shape.value.Arr? && TypeSchema(name) in shape.value.items)
  }

  /** The shape added to a node of literals admits the types of its literals and
      no others. */
  lemma AddedShapeFitsTheLiterals(entries: seq<Entry>, name: string)
    requires !DeclaresShape(entries) && LiteralValues(entries) != []
    ensures var shaped := WithLiteralShape(entries);
      && shaped[..|entries|] == entries
      && |shaped| == |entries| + 1
      && (Admits(shaped[|entries|], name)
          <==> exists i :: 0 <= i < |LiteralValues(entries)| && LiteralType(LiteralValues(entries)[i]) == name)
  {
    var types := TypesOf(LiteralValues(entries));
    var names := LiteralTypes(LiteralValues(entries));
    DistinctKeepsElements(names);
    NamesOfLiterals(LiteralValues(entries), name);
    var added := LiteralShape(types);
    assert WithLiteralShape(entries)[|entries|] == added;
    if |types| == 1 {
      assert "type" != "anyOf";
      assert name in types <==> types[0] == name;
    } else {
      if name in types {
        var i :| 0 <= i < |types| && types[i] == name;
        assert added.value.items[i] == TypeSchema(name);
      }
    }
  }

  /** The first entry with this key. */
  predicate IsFirst(entries: seq<Entry>, i: nat, key: string) {
    i < |entries| && entries[i].key == key && forall k :: 0 <= k < i ==> entries[k].key != key
  }

  lemma {:induction false} FirstIsGot(entries: seq<Entry>, i: nat, key: string)
    requires IsFirst(entries, i, key)
    ensures Get(entries, key) == entries[i].value
  {
    if i > 0 {
      FirstIsGot(entries[1..], i - 1, key);
    }
  }

  lemma {:induction false} AbsentIsNull(entries: seq<Entry>, key: string)
    requires forall i :: 0 <= i < |entries| ==> entries[i].key != key
    ensures Get(entries, key) == Null
  {
    if entries != [] {
      AbsentIsNull(entries[1..], key);
    }
  }

  /** The literals of a node are its `const`, whatever that is and whatever its
      `enum` says, or else the members of an `enum` that is a list, or none. */
  lemma LiteralsAreConstOrEnum(entries: seq<Entry>, i: nat)
    ensures IsFirst(entries, i, "const") ==> LiteralValues(entries) == [entries[i].value]
    ensures (forall k :: 0 <= k < |entries| ==> entries[k].key != "const") && IsFirst(entries, i, "enum") ==>
              LiteralValues(entries) == if entries[i].value.Arr? then entries[i].value.items else []
    ensures (forall k :: 0 <= k < |entries| ==> entries[k].key != "const" && entries[k].key != "enum") ==>
              LiteralValues(entries) == []
  {
    if IsFirst(entries, i, "const") {
      FirstIsGot(entries, i, "const");
    }
    if IsFirst(entries, i, "enum") {
      FirstIsGot(entries, i, "enum");
    }
    if forall k :: 0 <= k < |entries| ==> entries[k].key != "enum" {
      AbsentIsNull(entries, "enum");
    }
  }

  /** The value is of the JSON Schema type of this name. */
  predicate IsOfType(value: Json, name: string) {
    || (name == "null" && value.Null?) || (name == "boolean" && value.Bool?) || (name == "number" && value.Num?)
    || (name == "string" && value.Str?) || (name == "array" && value.Arr?) || (name == "object" && value.Obj?)
  }

  /** The value is what the shape asks for. */
  predicate Meets(value: Json, shape: Entry) {
    || (shape.key == "type" && shape.value.Str? && IsOfType(value, shape.value.text))
    || (shape.key == "anyOf" && shape.value.Arr?
        && exists i :: 0 <= i < |shape.value.items| && MeetsOne(value, shape.value.items[i]))
  }

  predicate MeetsOne(value: Json, schema: Json) {
    && schema.Obj? && |schema.entries| == 1 && schema.entries[0].key == "type"
    && schema.entries[0].value.Str? && IsOfType(value, schema.entries[0].value.text)
  }

  lemma LiteralIsOfItsType(value: Json)
    ensures IsOfType(value, LiteralType(value))
  {
  }

  /** Every literal of a node meets the shape that is added for it. */
  lemma LiteralsMeetTheAddedShape(entries: seq<Entry>, k: nat)
    requires !DeclaresShape(entries) && k < |LiteralValues(entries)|
    ensures var shaped := WithLiteralShape(entries);
      |shaped| == |entries| + 1 && shaped[..|entries|] == entries && Meets(LiteralValues(entries)[k], shaped[|entries|])
  {
    var values := LiteralValues(entries);
    var types, names := TypesOf(values), LiteralTypes(values);
    DistinctKeepsElements(names);
    assert names[k] in types;
    LiteralIsOfItsType(values[k]);
    assert WithLiteralShape(entries)[|entries|] == LiteralShape(types);
    if |types| > 1 {
      var i :| 0 <= i < |types| && types[i] == names[k];
      assert MeetsOne(values[k], LiteralShape(types).value.items[i]);
    }
  }

  // -------------------------------------------------- schema positions

  /** A schema that needs rewriting, and the same rewritten. */
  function Unclean(id: Json): Json {
    Obj([Entry("$id", id)])
  }

  predicate HoldsSchema(key: string) {
    || key in {"items", "prefixItems", "additionalItems", "contains", "additionalProperties", "unevaluatedProperties"}
    || key in {"unevaluatedItems", "propertyNames", "allOf", "anyOf", "oneOf", "not", "if", "then", "else", "contentSchema"}
  }

  predicate HoldsSchemasByName(key: string) {
    key in {"properties", "patternProperties", "$defs", "definitions", "dependentSchemas", "dependencies"}
  }

  lemma UncleanBecomesEmpty(id: Json)
    ensures Sanitize(Unclean(id)) == Obj([])
  {
    var entries := [Entry("$id", id)];
    assert entries[..0] == [];
    assert SanitizeEntries(entries) == [];
    assert LiteralValues([]) == [] by {
      assert !Has([], "const");
      assert Get([], "enum") == Null;
    }
  }

  lemma NamedPositions(key: string, name: string, id: Json)
    requires HoldsSchemasByName(key) && key != "properties"
    ensures SanitizeEntries([Entry(key, Obj([Entry(name, Unclean(id))]))]) == [Entry(key, Obj([Entry(name, Obj([]))]))]
  {
    UncleanBecomesEmpty(id);
    var named, inner := [Entry(key, Obj([Entry(name, Unclean(id))]))], [Entry(name, Unclean(id))];
    assert named[..0] == [] && inner[..0] == [];
    assert SanitizeProperties(key, inner) == [Entry(name, OpenedProperty(key, Obj([])))];
    assert SanitizeEntries(named) == [SanitizeEntry(named[0])];
  }

  /** The rewrite reaches what stands under the keywords that hold a schema and
      under each name of those that hold schemas by name; `$schema` and `$id` go,
      and what any other key holds is left as it is. */
  lemma SchemaPositions(key: string, name: string, id: Json)
    ensures HoldsSchema(key) ==> SanitizeEntries([Entry(key, Unclean(id))]) == [Entry(key, Obj([]))]
    ensures HoldsSchemasByName(key) && key != "properties" ==>
              SanitizeEntries([Entry(key, Obj([Entry(name, Unclean(id))]))]) == [Entry(key, Obj([Entry(name, Obj([]))]))]
    ensures key == "$schema" || key == "$id" ==> SanitizeEntries([Entry(key, Unclean(id))]) == []
    ensures !HoldsSchema(key) && !HoldsSchemasByName(key) && key != "$schema" && key != "$id" ==>
              SanitizeEntries([Entry(key, Unclean(id))]) == [Entry(key, Unclean(id))]
  {
    UncleanBecomesEmpty(id);
    if HoldsSchemasByName(key) && key != "properties" {
      NamedPositions(key, name, id);
    }
    var plain := [Entry(key, Unclean(id))];
    assert plain[..0] == [];
    assert SanitizeEntries(plain) == if key in DROPPED_KEYS then [] else [SanitizeEntry(plain[0])];
  }

  /** A property without a shape becomes an open object. */
  lemma ShapelessPropertyIsOpened(name: string, id: Json)
    ensures SanitizeEntries([Entry("properties", Obj([Entry(name, Unclean(id))]))])
            == [Entry("properties", Obj([Entry(name, Obj([Entry("type", Str("object")), Entry("additionalProperties", Bool(true))]))]))]
  {
    UncleanBecomesEmpty(id);
    var outer := [Entry("properties", Obj([Entry(name, Unclean(id))]))];
    var inner := [Entry(name, Unclean(id))];
    assert outer[..0] == [] && inner[..0] == [];
    assert Set([], "type", Str("object")) == [Entry("type", Str("object"))];
    var typed := [Entry("type", Str("object"))];
    assert typed[1..] == [];
    assert typed[0].key != "additionalProperties" by { assert "type"[0] != "additionalProperties"[0]; }
    assert Set([], "additionalProperties", Bool(true)) == [Entry("additionalProperties", Bool(true))];
    assert Set(typed, "additionalProperties", Bool(true)) == [typed[0]] + Set(typed[1..], "additionalProperties", Bool(true));
    assert Opened([]) == [Entry("type", Str("object")), Entry("additionalProperties", Bool(true))];
    assert !DeclaresShape([]);
    assert OpenedProperty("properties", Obj([])) == Obj(Opened([]));
    assert SanitizeProperties("properties", inner) == [Entry(name, Obj(Opened([])))];
    assert SanitizeEntries(outer) == [SanitizeEntry(outer[0])];
  }
}
