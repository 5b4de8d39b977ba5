/** What the rewrite leaves alone. */
module GrokSchemaKeeps {
  import opened GrokSchema

  /** How many entries of a node the rewrite keeps. */
  function KeptCount(entries: seq<Entry>): nat {
    if entries == [] then 0
    else KeptCount(entries[..|entries| - 1]) + if entries[|entries| - 1].key in DROPPED_KEYS then 0 else 1
  }

  /** What the rewrite opens when it stands in a `properties` map: an object that
      says nothing of its shape, nor of the literals it takes. */
  predicate Shapeless(value: Json) {
    value.Obj? && !DeclaresShape(value.entries) && LiteralValues(value.entries) == []
  }

  /** What is written behind the entries of a node. */
  function Added(entries: seq<Entry>, opening: bool): seq<Entry> {
    if opening then
      [Entry("type", Str("object"))]
      + if Has(entries, "additionalProperties") then [] else [Entry("additionalProperties", Bool(true))]
    else if DeclaresShape(entries) || LiteralValues(entries) == [] then []
    else [LiteralShape(TypesOf(LiteralValues(entries)))]
  }

  /** `after` is `before` with nothing changed but what the rewrite is for. At
      schema positions `$schema` and `$id` are gone; a node of literals has
      their shape added; a shapeless property is opened, which adds a type and
      sets its first `additionalProperties` to true. Every other entry stays
      where it was, and under a key that is no schema keyword, `enum`, `const`,
      `default` and `example` among them, it is the same. */
  predicate Kept(before: Json, after: Json, opening: bool)
    decreases before
  {
    match before
    case Arr(items) =>
      && after.Arr?
      && |after.items| == |items|
      && forall i :: 0 <= i < |items| ==> Kept(items[i], after.items[i], false)
    case Obj(entries) => after.Obj? && KeptNode(entries, after.entries, opening)
    case _ => after == before
  }

  predicate KeptNode(entries: seq<Entry>, after: seq<Entry>, opening: bool)
    decreases entries, 1
  {
    var n := KeptCount(entries);
    && n <= |after|
    && KeptEntries(entries, after[..n], opening)
    && after[n..] == Added(entries, opening)
  }

  predicate KeptEntries(entries: seq<Entry>, after: seq<Entry>, opening: bool)
    decreases entries, 0
  {
    if entries == [] then after == []
    else
      var last := entries[|entries| - 1];
      var front := entries[..|entries| - 1];
      if last.key in DROPPED_KEYS then KeptEntries(front, after, opening)
      else
        && after != []
        && KeptEntry(last, after[|after| - 1], opening && !Has(front, "additionalProperties"))
        && KeptEntries(front, after[..|after| - 1], opening)
  }

  predicate KeptEntry(entry: Entry, after: Entry, opening: bool)
    decreases entry
  {
    && after.key == entry.key
    && if opening && entry.key == "additionalProperties" then after.value == Bool(true)
       else if entry.key in SCHEMA_MAP_KEYS && entry.value.Obj? then
         after.value.Obj? && KeptMap(entry.key, entry.value.entries, after.value.entries)
       else if entry.key in SCHEMA_CHILD_KEYS then Kept(entry.value, after.value, false)
       else after.value == entry.value
  }

  /** Every name in a map of schemas stays, whatever it is. */
  predicate KeptMap(mapKey: string, entries: seq<Entry>, after: seq<Entry>)
    decreases entries
  {
    && |after| == |entries|
    && forall i :: 0 <= i < |entries| ==>
         && after[i].key == entries[i].key
         && Kept(entries[i].value, after[i].value, mapKey == "properties" && Shapeless(entries[i].value))
  }

  // ------------------------------------- what the rewrite decides by

  lemma {:induction false} GetAppend(entries: seq<Entry>, last: Entry, key: string)
    ensures Has(entries + [last], key) <==> Has(entries, key) || last.key == key
    ensures Get(entries + [last], key)
         == if Has(entries, key) then Get(entries, key) else if last.key == key then last.value else Null
  {
    var all := entries + [last];
    assert all[|entries|] == last;
    assert forall i :: 0 <= i < |entries| ==> all[i] == entries[i];
    if entries != [] {
      GetAppend(entries[1..], last, key);
      assert all[1..] == entries[1..] + [last];
      HasFirst(entries, key);
    }
  }

  lemma HasFirst(entries: seq<Entry>, key: string)
    requires entries != []
    ensures Has(entries, key) <==> entries[0].key == key || Has(entries[1..], key)
  {
    if Has(entries, key) {
      var i :| 0 <= i < |entries| && entries[i].key == key;
      assert i > 0 ==> entries[1..][i - 1].key == key;
    }
    if Has(entries[1..], key) {
      var i :| 0 <= i < |entries[1..]| && entries[1..][i].key == key;
      assert entries[i + 1].key == key;
    }
  }

  lemma {:induction false} GetAbsent(entries: seq<Entry>, key: string)
    requires !Has(entries, key)
    ensures Get(entries, key) == Null
  {
    if entries != [] {
      HasFirst(entries, key);
      GetAbsent(entries[1..], key);
    }
  }

  /** Under a literal key the rewrite leaves everything as it is. */
  lemma {:induction false} LiteralKeyIsKept(entries: seq<Entry>, key: string)
    requires key == "const" || key == "enum"
    ensures var after := SanitizeEntries(entries);
            (Has(after, key) <==> Has(entries, key)) && Get(after, key) == Get(entries, key)
  {
    if entries != [] {
      var front, last := entries[..|entries| - 1], entries[|entries| - 1];
      LiteralKeyIsKept(front, key);
      assert entries == front + [last];
      GetAppend(front, last, key);
      LiteralKeyOfEntry(last, key);
      if last.key in DROPPED_KEYS {
        assert SanitizeEntries(entries) == SanitizeEntries(front);
        if !Has(front, key) {
          GetAbsent(front, key);
        }
      } else {
        assert SanitizeEntries(entries) == SanitizeEntries(front) + [SanitizeEntry(last)];
        GetAppend(SanitizeEntries(front), SanitizeEntry(last), key);
      }
    }
  }

  lemma LiteralKeyOfEntry(entry: Entry, key: string)
    requires key == "const" || key == "enum"
    ensures entry.key in DROPPED_KEYS ==> entry.key != key
    ensures SanitizeEntry(entry).key == entry.key && (entry.key == key ==> SanitizeEntry(entry) == entry)
  {
    assert key !in DROPPED_KEYS && key !in SCHEMA_MAP_KEYS && key !in SCHEMA_CHILD_KEYS;
  }

  lemma {:induction false} ShapeIsKept(entries: seq<Entry>)
    ensures DeclaresShape(SanitizeEntries(entries)) <==> DeclaresShape(entries)
  {
    if entries != [] {
      var front, last := entries[..|entries| - 1], entries[|entries| - 1];
      ShapeIsKept(front);
      DeclaresLast(front, last);
      assert entries == front + [last];
      assert last.key in DROPPED_KEYS ==> last.key !in SHAPE_KEYS;
      if last.key in DROPPED_KEYS {
        assert SanitizeEntries(entries) == SanitizeEntries(front);
      } else {
        DeclaresLast(SanitizeEntries(front), SanitizeEntry(last));
      }
    }
  }

  lemma DeclaresLast(entries: seq<Entry>, last: Entry)
    ensures DeclaresShape(entries + [last]) <==> DeclaresShape(entries) || last.key in SHAPE_KEYS
  {
    var all := entries + [last];
    assert all[|entries|] == last;
    assert forall i :: 0 <= i < |entries| ==> all[i] == entries[i];
  }

  /** So whether a node gets a shape, and whether a property is opened, can be
      read off the schema as it came. */
  lemma DecisionsAreOfTheInput(entries: seq<Entry>)
    ensures var node := SanitizeEntries(entries);
      && (DeclaresShape(node) <==> DeclaresShape(entries))
      && LiteralValues(node) == LiteralValues(entries)
      && (DeclaresShape(WithLiteralShape(node)) <==> !Shapeless(Obj(entries)))
      && WithLiteralShape(node) == node + Added(entries, false)
  {
    var node := SanitizeEntries(entries);
    ShapeIsKept(entries);
    LiteralKeyIsKept(entries, "const");
    LiteralKeyIsKept(entries, "enum");
    AddedShapeDeclares(node);
  }

  lemma {:induction false} SanitizeKeeps(value: Json)
    ensures Kept(value, Sanitize(value), false)
    decreases value, 0
  {
    match value
    case Arr(items) => ItemsAreKept(items);
    case Obj(entries) =>
      EntriesAreKept(entries);
      DecisionsAreOfTheInput(entries);
    case _ =>
  }

  lemma {:induction false} ItemsAreKept(items: seq<Json>)
    ensures |SanitizeItems(items)| == |items|
    ensures forall i :: 0 <= i < |items| ==> Kept(items[i], SanitizeItems(items)[i], false)
    decreases items
  {
    if items != [] {
      ItemsAreKept(items[..|items| - 1]);
      SanitizeKeeps(items[|items| - 1]);
    }
  }

  lemma {:induction false} EntriesAreKept(entries: seq<Entry>)
    ensures |SanitizeEntries(entries)| == KeptCount(entries)
    ensures KeptEntries(entries, SanitizeEntries(entries), false)
    decreases entries
  {
    if entries != [] {
      var last := entries[|entries| - 1];
      var front := entries[..|entries| - 1];
      EntriesAreKept(front);
      if last.key in DROPPED_KEYS {
        assert SanitizeEntries(entries) == SanitizeEntries(front);
      } else {
        EntryIsKept(last);
        var after := SanitizeEntries(entries);
        assert after == SanitizeEntries(front) + [SanitizeEntry(last)];
        assert after[..|after| - 1] == SanitizeEntries(front) && after[|after| - 1] == SanitizeEntry(last);
      }
    }
  }

  lemma {:induction false} EntryIsKept(entry: Entry)
    ensures KeptEntry(entry, SanitizeEntry(entry), false)
    decreases entry
  {
    if entry.key in SCHEMA_MAP_KEYS && entry.value.Obj? {
      MapIsKept(entry.key, entry.value.entries);
    } else if entry.key in SCHEMA_CHILD_KEYS {
      SanitizeKeeps(entry.value);
    }
  }

  lemma {:induction false} MapIsKept(mapKey: string, entries: seq<Entry>)
    ensures KeptMap(mapKey, entries, SanitizeProperties(mapKey, entries))
    decreases entries
  {
    if entries != [] {
      var last := entries[|entries| - 1];
      MapIsKept(mapKey, entries[..|entries| - 1]);
      PropertyIsKept(mapKey, last.value);
      assert SanitizeProperties(mapKey, entries)
          == SanitizeProperties(mapKey, entries[..|entries| - 1])
             + [Entry(last.key, OpenedProperty(mapKey, Sanitize(last.value)))];
    }
  }

  lemma {:induction false} PropertyIsKept(mapKey: string, schema: Json)
    ensures Kept(schema, OpenedProperty(mapKey, Sanitize(schema)), mapKey == "properties" && Shapeless(schema))
    decreases schema, 1
  {
    if schema.Obj? {
      DecisionsAreOfTheInput(schema.entries);
    }
    if mapKey == "properties" && Shapeless(schema) {
      EntriesAreKept(schema.entries);
      OpeningKeepsNode(schema.entries);
    } else {
      SanitizeKeeps(schema);
    }
  }

  lemma {:induction false} SetPlace(entries: seq<Entry>, key: string, value: Json) returns (i: nat)
    ensures i <= |entries|
    ensures forall k :: 0 <= k < i ==> entries[k].key != key
    ensures i == |entries| ==> !Has(entries, key) && Set(entries, key, value) == entries + [Entry(key, value)]
    ensures i < |entries| ==> entries[i].key == key && Set(entries, key, value) == entries[i := Entry(key, value)]
  {
    if entries == [] || entries[0].key == key {
      i := 0;
    } else {
      var later := SetPlace(entries[1..], key, value);
      i := later + 1;
    }
  }

  lemma {:induction false} KeysAreKept(entries: seq<Entry>, after: seq<Entry>, key: string)
    requires KeptEntries(entries, after, false) && key !in DROPPED_KEYS
    ensures Has(after, key) <==> Has(entries, key)
  {
    if entries != [] {
      var front, last := entries[..|entries| - 1], entries[|entries| - 1];
      assert entries == front + [last];
      GetAppend(front, last, key);
      if last.key in DROPPED_KEYS {
        KeysAreKept(front, after, key);
      } else {
        var m := |after| - 1;
        KeysAreKept(front, after[..m], key);
        assert after == after[..m] + [after[m]];
        GetAppend(after[..m], after[m], key);
      }
    }
  }

  const AnyAdditional: Entry := Entry("additionalProperties", Bool(true))

  /** Setting the first additional properties, if there are any, opens a node. */
  lemma {:induction false} OpeningKeepsEntries(entries: seq<Entry>, after: seq<Entry>, i: nat)
    requires KeptEntries(entries, after, false)
    requires i < |after| ==> after[i].key == "additionalProperties"
    requires forall k :: 0 <= k < i && k < |after| ==> after[k].key != "additionalProperties"
    ensures KeptEntries(entries, if i < |after| then after[i := AnyAdditional] else after, true)
    decreases entries
  {
    if entries != [] {
      var front, last := entries[..|entries| - 1], entries[|entries| - 1];
      if last.key in DROPPED_KEYS {
        OpeningKeepsEntries(front, after, i);
      } else {
        var m := |after| - 1;
        OpeningKeepsEntries(front, after[..m], i);
        assert "additionalProperties" !in DROPPED_KEYS;
        KeysAreKept(front, after[..m], "additionalProperties");
        if i < m {
          assert after[..m][i].key == "additionalProperties";
          assert after[i := AnyAdditional][..m] == after[..m][i := AnyAdditional];
        } else if i == m {
          assert after[i := AnyAdditional][..m] == after[..m];
        }
      }
    }
  }

  lemma AddedShapeDeclares(entries: seq<Entry>)
    ensures DeclaresShape(WithLiteralShape(entries)) <==> DeclaresShape(entries) || LiteralValues(entries) != []
  {
    var shaped := WithLiteralShape(entries);
    if shaped != entries {
      assert shaped[|entries|].key in SHAPE_KEYS;
    }
  }

  lemma NoShapeNoType(entries: seq<Entry>)
    requires !DeclaresShape(entries)
    ensures !Has(entries, "type")
  {
    assert "type" in SHAPE_KEYS;
  }

  /** What opening writes, and where. */
  lemma OpenedPlace(node: seq<Entry>) returns (place: nat)
    requires !Has(node, "type")
    ensures place <= |node| && (place < |node| ==> node[place].key == "additionalProperties")
    ensures forall k :: 0 <= k < place ==> node[k].key != "additionalProperties"
    ensures Opened(node)
         == (if place < |node| then node[place := AnyAdditional] else node)
            + [Entry("type", Str("object"))] + (if place < |node| then [] else [AnyAdditional])
  {
    var typed := node + [Entry("type", Str("object"))];
    var typePlace := SetPlace(node, "type", Str("object"));
    assert Set(node, "type", Str("object")) == typed;
    var i := SetPlace(typed, "additionalProperties", Bool(true));
    assert typed[|node|].key != "additionalProperties";
    assert forall k :: 0 <= k < |node| ==> typed[k] == node[k];
    place := if i < |node| then i else |node|;
    if i < |node| {
      assert typed[i := AnyAdditional] == node[i := AnyAdditional] + [Entry("type", Str("object"))];
    }
  }

  lemma OpeningKeepsNode(entries: seq<Entry>)
    requires Shapeless(Obj(entries))
    requires KeptEntries(entries, SanitizeEntries(entries), false)
    requires |SanitizeEntries(entries)| == KeptCount(entries)
    ensures KeptNode(entries, Opened(WithLiteralShape(SanitizeEntries(entries))), true)
  {
    var node := SanitizeEntries(entries);
    DecisionsAreOfTheInput(entries);
    assert WithLiteralShape(node) == node;
    NoShapeNoType(node);
    OpenedIsKept(entries, node);
  }

  lemma OpenedIsKept(entries: seq<Entry>, node: seq<Entry>)
    requires KeptEntries(entries, node, false) && |node| == KeptCount(entries)
    requires !Has(node, "type") && Shapeless(Obj(entries))
    ensures KeptNode(entries, Opened(node), true)
  {
    var place := OpenedPlace(node);
    KeysAreKept(entries, node, "additionalProperties");
    OpeningKeepsEntries(entries, node, place);
    var after := Opened(node);
    assert after[..|node|] == if place < |node| then node[place := AnyAdditional] else node;
    assert after[|node|..] == Added(entries, true);
  }

  lemma LoneEntry(key: string, value: Json)
    requires key == "additionalProperties" || key == "properties"
    ensures LiteralValues([Entry(key, value)]) == [] && !DeclaresShape([Entry(key, value)])
  {
    assert key !in SHAPE_KEYS && key != "const" && key != "enum";
    assert Get([Entry(key, value)][1..], "enum") == Null;
  }

  lemma LoneOpened(restriction: Json)
    ensures Opened([Entry("additionalProperties", restriction)]) == [AnyAdditional, Entry("type", Str("object"))]
  {
    var cleaned := [Entry("additionalProperties", restriction)];
    var typed := cleaned + [Entry("type", Str("object"))];
    var typePlace := SetPlace(cleaned, "type", Str("object"));
    assert Set(cleaned, "type", Str("object")) == typed;
  }

  lemma LoneRestriction(restriction: Json)
    ensures OpenedProperty("properties", Sanitize(Obj([Entry("additionalProperties", restriction)])))
         == Obj([AnyAdditional, Entry("type", Str("object"))])
  {
    var inner := [Entry("additionalProperties", restriction)];
    assert inner[..0] == [];
    assert SanitizeEntries(inner) == [Entry("additionalProperties", Sanitize(restriction))];
    LoneEntry("additionalProperties", Sanitize(restriction));
    LoneOpened(Sanitize(restriction));
  }

  lemma LoneMap(entry: Entry, open: Json)
    requires OpenedProperty("properties", Sanitize(entry.value)) == open
    ensures SanitizeProperties("properties", [entry]) == [Entry(entry.key, open)]
  {
    assert [entry][..0] == [];
  }

  /** Opening is not free: a property that only restricts its additional
      properties loses the restriction. */
  lemma OpeningDropsAdditionalProperties(restriction: Json)
    ensures Sanitize(Obj([Entry("properties", Obj([Entry("p", Obj([Entry("additionalProperties", restriction)]))]))]))
         == Obj([Entry("properties", Obj([Entry("p", Obj([Entry("additionalProperties", Bool(true)),
                                                          Entry("type", Str("object"))]))]))])
  {
    var property := Entry("p", Obj([Entry("additionalProperties", restriction)]));
    var open := Obj([AnyAdditional, Entry("type", Str("object"))]);
    LoneRestriction(restriction);
    LoneMap(property, open);
    var root := [Entry("properties", Obj([property]))];
    assert root[..0] == [];
    LoneEntry("properties", Obj([Entry("p", open)]));
    assert SanitizeEntries(root) == [Entry("properties", Obj([Entry("p", open)]))];
  }
}
