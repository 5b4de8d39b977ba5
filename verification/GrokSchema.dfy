/** The rewrite that makes JSON Schemas acceptable to a proxy which rejects a
    whole request for one invalid schema: no `$schema` or `$id`, and a declared
    shape for every property. */
module GrokSchema {
  import opened Common

  /** Objects keep their entries in order; keys are distinct. */
  datatype Json =
    | Null
    | Bool(truth: bool)
    | Num(number: real)
    | Str(text: string)
    | Arr(items: seq<Json>)
    | Obj(entries: seq<Entry>)

  datatype Entry = Entry(key: string, value: Json)

  const SCHEMA_MAP_KEYS: set<string> := {
    "properties", "patternProperties", "$defs", "definitions", "dependentSchemas", "dependencies"
  }

  const SCHEMA_CHILD_KEYS: set<string> := {
    "items", "prefixItems", "additionalItems", "contains", "additionalProperties", "unevaluatedProperties",
    "unevaluatedItems", "propertyNames", "allOf", "anyOf", "oneOf", "not", "if", "then", "else", "contentSchema"
  }

  const SHAPE_KEYS: set<string> := {"type", "$ref", "oneOf", "anyOf", "allOf"}

  const DROPPED_KEYS: set<string> := {"$schema", "$id"}

  // --------------------------------------------------------- specification

  predicate Has(entries: seq<Entry>, key: string) {
    exists i :: 0 <= i < |entries| && entries[i].key == key
  }

  function Get(entries: seq<Entry>, key: string): Json {
    if entries == [] then Null
    else if entries[0].key == key then entries[0].value
    else Get(entries[1..], key)
  }

  /** Assignment to a key: in place if it is there, else at the end. */
  function Set(entries: seq<Entry>, key: string, value: Json): seq<Entry> {
    if entries == [] then [Entry(key, value)]
    else if entries[0].key == key then [Entry(key, value)] + entries[1..]
    else [entries[0]] + Set(entries[1..], key, value)
  }

  predicate DeclaresShape(entries: seq<Entry>) {
    exists i :: 0 <= i < |entries| && entries[i].key in SHAPE_KEYS
  }

  function LiteralType(value: Json): string {
    match value
    case Null => "null"
    case Bool(_) => "boolean"
    case Num(_) => "number"
    case Str(_) => "string"
    case Arr(_) => "array"
    case Obj(_) => "object"
  }

  function LiteralValues(entries: seq<Entry>): seq<Json> {
    if Has(entries, "const") then [Get(entries, "const")]
    else if Get(entries, "enum").Arr? then Get(entries, "enum").items
    else []
  }

  function LiteralTypes(values: seq<Json>): seq<string> {
    seq(|values|, i requires 0 <= i < |values| => LiteralType(values[i]))
  }

  function TypesOf(values: seq<Json>): (types: seq<string>)
    ensures values != [] ==> types != []
  {
    Distinct(LiteralTypes(values))
  }

  function TypeSchema(name: string): Json {
    Obj([Entry("type", Str(name))])
  }

  function LiteralShape(types: seq<string>): Entry
    requires types != []
  {
    if |types| == 1 then Entry("type", Str(types[0]))
    else Entry("anyOf", Arr(seq(|types|, i requires 0 <= i < |types| => TypeSchema(types[i]))))
  }

  function WithLiteralShape(entries: seq<Entry>): seq<Entry> {
    if DeclaresShape(entries) || LiteralValues(entries) == [] then entries
    else entries + [LiteralShape(TypesOf(LiteralValues(entries)))]
  }

  function Opened(entries: seq<Entry>): seq<Entry> {
    Set(Set(entries, "type", Str("object")), "additionalProperties", Bool(true))
  }

  function OpenedProperty(mapKey: string, schema: Json): Json {
    if mapKey == "properties" && schema.Obj? && !DeclaresShape(schema.entries) then Obj(Opened(schema.entries))
    else schema
  }

  function Sanitize(value: Json): Json
    decreases value
  {
    match value
    case Arr(items) => Arr(SanitizeItems(items))
    case Obj(entries) => Obj(WithLiteralShape(SanitizeEntries(entries)))
    case _ => value
  }

  function SanitizeItems(items: seq<Json>): seq<Json>
    decreases items
  {
    if items == [] then [] else SanitizeItems(items[..|items| - 1]) + [Sanitize(items[|items| - 1])]
  }

  function SanitizeEntry(entry: Entry): Entry
    decreases entry
  {
    if entry.key in SCHEMA_MAP_KEYS && entry.value.Obj? then
      Entry(entry.key, Obj(SanitizeProperties(entry.key, entry.value.entries)))
    else if entry.key in SCHEMA_CHILD_KEYS then Entry(entry.key, Sanitize(entry.value))
    else entry
  }

  function SanitizeEntries(entries: seq<Entry>): seq<Entry>
    decreases entries
  {
    if entries == [] then []
    else
      var last := entries[|entries| - 1];
      SanitizeEntries(entries[..|entries| - 1]) + if last.key in DROPPED_KEYS then [] else [SanitizeEntry(last)]
  }

  function SanitizeProperties(mapKey: string, entries: seq<Entry>): seq<Entry>
    decreases entries
  {
    if entries == [] then []
    else
      var last := entries[|entries| - 1];
      SanitizeProperties(mapKey, entries[..|entries| - 1])
      + [Entry(last.key, OpenedProperty(mapKey, Sanitize(last.value)))]
  }

  // ------------------------------------------------------------ the program

  method WithLiteralShapeOf(node: seq<Entry>) returns (shaped: seq<Entry>)
    ensures shaped == WithLiteralShape(node)
  {
    if DeclaresShape(node) {
      return node;
    }
    var values := LiteralValues(node);
    var types: seq<string> := [];
    for i := 0 to |values|
      invariant types == Distinct(LiteralTypes(values)[..i])
    {
      assert LiteralTypes(values)[..i + 1][..i] == LiteralTypes(values)[..i];
      var literal := LiteralType(values[i]);
      if literal !in types {
        types := types + [literal];
      }
    }
    assert LiteralTypes(values)[..|values|] == LiteralTypes(values);
    if |types| == 0 {
      return node;
    }
    return node + [LiteralShape(types)];
  }

  method SanitizeSchema(value: Json) returns (r: Json)
    ensures r == Sanitize(value)
    decreases value
  {
    if value.Arr? {
      var items: seq<Json> := [];
      for i := 0 to |value.items|
        invariant items == SanitizeItems(value.items[..i])
      {
        assert value.items[..i + 1][..i] == value.items[..i];
        var item := SanitizeSchema(value.items[i]);
        items := items + [item];
      }
      assert value.items[..|value.items|] == value.items;
      return Arr(items);
    }
    if !value.Obj? {
      return value;
    }
    var next: seq<Entry> := [];
    for i := 0 to |value.entries|
      invariant next == SanitizeEntries(value.entries[..i])
    {
      assert value.entries[..i + 1][..i] == value.entries[..i];
      var entry := value.entries[i];
      if entry.key in DROPPED_KEYS {
        continue;
      }
      if entry.key in SCHEMA_MAP_KEYS && entry.value.Obj? {
        var props := SanitizeMap(entry.key, entry.value.entries);
        next := next + [Entry(entry.key, Obj(props))];
        continue;
      }
      if entry.key in SCHEMA_CHILD_KEYS {
        var child := SanitizeSchema(entry.value);
        next := next + [Entry(entry.key, child)];
      } else {
        next := next + [entry];
      }
    }
    assert value.entries[..|value.entries|] == value.entries;
    var shaped := WithLiteralShapeOf(next);
    return Obj(shaped);
  }

  /** The inner loop over a map of schemas. */
  method SanitizeMap(mapKey: string, entries: seq<Entry>) returns (props: seq<Entry>)
    ensures props == SanitizeProperties(mapKey, entries)
    decreases entries
  {
    props := [];
    for i := 0 to |entries|
      invariant props == SanitizeProperties(mapKey, entries[..i])
    {
      assert entries[..i + 1][..i] == entries[..i];
      var sanitized := SanitizeSchema(entries[i].value);
      if mapKey == "properties" && sanitized.Obj? && !DeclaresShape(sanitized.entries) {
        props := props + [Entry(entries[i].key, Obj(Opened(sanitized.entries)))];
      } else {
        props := props + [Entry(entries[i].key, sanitized)];
      }
    }
    assert entries[..|entries|] == entries;
  }
}
