/** Which literals of a schema survive the rewrite. */
module GrokSchemaLiterals {
  import opened Common
  import opened GrokSchema
  import opened GrokSchemaKeeps

  const LITERAL_KEYS: set<string> := {"enum", "const", "default", "example"}

  /** The literals at the schema positions of a tree, in order. */
  function Literals(value: Json): seq<Entry>
    decreases value
  {
    match value
    case Arr(items) => LiteralsOfItems(items)
    case Obj(entries) => LiteralsOfEntries(entries)
    case _ => []
  }

  function LiteralsOfItems(items: seq<Json>): seq<Entry>
    decreases items
  {
    if items == [] then [] else LiteralsOfItems(items[..|items| - 1]) + Literals(items[|items| - 1])
  }

  function LiteralsOfEntries(entries: seq<Entry>): seq<Entry>
    decreases entries
  {
    if entries == [] then []
    else LiteralsOfEntries(entries[..|entries| - 1]) + LiteralsOfEntry(entries[|entries| - 1])
  }

  function LiteralsOfEntry(entry: Entry): seq<Entry>
    decreases entry
  {
    if entry.key in SCHEMA_MAP_KEYS && entry.value.Obj? then LiteralsOfMap(entry.value.entries)
    else if entry.key in SCHEMA_CHILD_KEYS then Literals(entry.value)
    else if entry.key in LITERAL_KEYS then [entry]
    else []
  }

  function LiteralsOfMap(entries: seq<Entry>): seq<Entry>
    decreases entries
  {
    if entries == [] then []
    else LiteralsOfMap(entries[..|entries| - 1]) + Literals(entries[|entries| - 1].value)
  }

  /** No shapeless property has a literal under its additional properties: the
      one place the rewrite overwrites. */
  predicate Spared(value: Json, opening: bool)
    decreases value
  {
    match value
    case Arr(items) => ItemsSpared(items)
    case Obj(entries) => EntriesSpared(entries, opening)
    case _ => true
  }

  predicate ItemsSpared(items: seq<Json>)
    decreases items
  {
    forall i :: 0 <= i < |items| ==> Spared(items[i], false)
  }

  predicate EntriesSpared(entries: seq<Entry>, opening: bool)
    decreases entries
  {
    if entries == [] then true
    else
      var front, last := entries[..|entries| - 1], entries[|entries| - 1];
      EntriesSpared(front, opening) && EntrySpared(last, opening && !Has(front, "additionalProperties"))
  }

  predicate EntrySpared(entry: Entry, opening: bool)
    decreases entry
  {
    if opening && entry.key == "additionalProperties" then Literals(entry.value) == []
    else if entry.key in SCHEMA_MAP_KEYS && entry.value.Obj? then MapSpared(entry.key, entry.value.entries)
    else entry.key in SCHEMA_CHILD_KEYS ==> Spared(entry.value, false)
  }

  predicate MapSpared(mapKey: string, entries: seq<Entry>)
    decreases entries
  {
    forall i :: 0 <= i < |entries| ==>
      Spared(entries[i].value, mapKey == "properties" && Shapeless(entries[i].value))
  }

  // ------------------------------------------------ counting what is kept

  /** Of two parts neither of which grew, both stayed if the whole did. */
  lemma PartsStay<T>(x: seq<T>, y: seq<T>, u: seq<T>, v: seq<T>)
    requires |u| <= |x| && |v| <= |y|
    ensures u + v == x + y <==> u == x && v == y
  {
    if u + v == x + y {
      assert |u| == |x|;
      assert u == (u + v)[..|u|] && x == (x + y)[..|x|];
      assert v == (u + v)[|u|..] && y == (x + y)[|x|..];
    }
  }

  lemma {:induction false} LiteralsAppend(entries: seq<Entry>, more: seq<Entry>)
    ensures LiteralsOfEntries(entries + more) == LiteralsOfEntries(entries) + LiteralsOfEntries(more)
  {
    if more == [] {
      assert entries + more == entries;
    } else {
      var front, last := more[..|more| - 1], more[|more| - 1];
      LiteralsAppend(entries, front);
      assert (entries + more)[..|entries + more| - 1] == entries + front;
      assert LiteralsOfEntries(entries + more) == LiteralsOfEntries(entries + front) + LiteralsOfEntry(last);
    }
  }

  lemma {:induction false} TypeSchemasHaveNone(items: seq<Json>)
    requires forall i :: 0 <= i < |items| ==> items[i].Obj? && |items[i].entries| == 1 && items[i].entries[0].key == "type"
    ensures LiteralsOfItems(items) == []
  {
    if items != [] {
      TypeSchemasHaveNone(items[..|items| - 1]);
      var entries := items[|items| - 1].entries;
      assert entries == [entries[0]] && entries[..0] == [];
      TypeIsNoLiteral(entries[0]);
      assert LiteralsOfEntries(entries) == [];
    }
  }

  lemma TypeIsNoLiteral(entry: Entry)
    requires entry.key == "type"
    ensures LiteralsOfEntry(entry) == []
  {
  }

  lemma AddedHasNoLiterals(entries: seq<Entry>, opening: bool)
    ensures LiteralsOfEntries(Added(entries, opening)) == []
  {
    var added := Added(entries, opening);
    forall i | 0 <= i < |added|
      ensures LiteralsOfEntry(added[i]) == []
    {
      if added[i].key == "type" {
        TypeIsNoLiteral(added[i]);
      } else if added[i].key == "anyOf" {
        TypeSchemasHaveNone(added[i].value.items);
      } else {
        assert added[i] == AnyAdditional;
      }
    }
    NoneFromNone(added);
  }

  lemma {:induction false} NoneFromNone(entries: seq<Entry>)
    requires forall i :: 0 <= i < |entries| ==> LiteralsOfEntry(entries[i]) == []
    ensures LiteralsOfEntries(entries) == []
  {
    if entries != [] {
      NoneFromNone(entries[..|entries| - 1]);
    }
  }

  /** What a kept tree has of the literals: never more, and all exactly when the
      rewrite spared them. */
  predicate Accounted(before: seq<Entry>, after: seq<Entry>, spared: bool) {
    |after| <= |before| && (after == before <==> spared)
  }

  lemma {:induction false} KeptLiterals(before: Json, after: Json, opening: bool)
    requires Kept(before, after, opening)
    ensures Accounted(Literals(before), Literals(after), Spared(before, opening))
    decreases before
  {
    match before
    case Arr(items) => ItemsLiterals(items, after.items);
    case Obj(entries) =>
      EntriesLiterals(entries, after.entries[..KeptCount(entries)], opening);
      AddedIsNotCounted(entries, after.entries, opening);
    case _ =>
  }

  lemma AddedIsNotCounted(entries: seq<Entry>, after: seq<Entry>, opening: bool)
    requires KeptNode(entries, after, opening)
    ensures LiteralsOfEntries(after) == LiteralsOfEntries(after[..KeptCount(entries)])
  {
    var n := KeptCount(entries);
    AddedHasNoLiterals(entries, opening);
    LiteralsAppend(after[..n], after[n..]);
    assert after == after[..n] + after[n..];
    assert LiteralsOfEntries(after[..n]) + [] == LiteralsOfEntries(after[..n]);
  }

  lemma {:induction false} ItemsLiterals(items: seq<Json>, after: seq<Json>)
    requires |after| == |items| && forall i :: 0 <= i < |items| ==> Kept(items[i], after[i], false)
    ensures Accounted(LiteralsOfItems(items), LiteralsOfItems(after), ItemsSpared(items))
    decreases items
  {
    if items != [] {
      var m := |items| - 1;
      ItemsLiterals(items[..m], after[..m]);
      KeptLiterals(items[m], after[m], false);
      assert ItemsSpared(items) <==> ItemsSpared(items[..m]) && Spared(items[m], false);
      PartsStay(LiteralsOfItems(items[..m]), Literals(items[m]), LiteralsOfItems(after[..m]), Literals(after[m]));
    }
  }

  lemma {:induction false} EntriesLiterals(entries: seq<Entry>, after: seq<Entry>, opening: bool)
    requires KeptEntries(entries, after, opening)
    ensures Accounted(LiteralsOfEntries(entries), LiteralsOfEntries(after), EntriesSpared(entries, opening))
    decreases entries
  {
    if entries != [] {
      var front, last := entries[..|entries| - 1], entries[|entries| - 1];
      if last.key in DROPPED_KEYS {
        EntriesLiterals(front, after, opening);
        assert LiteralsOfEntry(last) == [] && last.key != "additionalProperties";
      } else {
        var m := |after| - 1;
        var first := opening && !Has(front, "additionalProperties");
        EntriesLiterals(front, after[..m], opening);
        EntryLiterals(last, after[m], first);
        PartsStay(LiteralsOfEntries(front), LiteralsOfEntry(last), LiteralsOfEntries(after[..m]), LiteralsOfEntry(after[m]));
      }
    }
  }

  lemma {:induction false} EntryLiterals(entry: Entry, after: Entry, opening: bool)
    requires KeptEntry(entry, after, opening)
    ensures Accounted(LiteralsOfEntry(entry), LiteralsOfEntry(after), EntrySpared(entry, opening))
    decreases entry
  {
    if opening && entry.key == "additionalProperties" {
      assert LiteralsOfEntry(after) == [] && LiteralsOfEntry(entry) == Literals(entry.value);
    } else if entry.key in SCHEMA_MAP_KEYS && entry.value.Obj? {
      MapLiterals(entry.key, entry.value.entries, after.value.entries);
    } else if entry.key in SCHEMA_CHILD_KEYS {
      KeptLiterals(entry.value, after.value, false);
      ChildStaysChild(entry, after);
    }
  }

  /** A child that is no map of schemas does not become one. */
  lemma ChildStaysChild(entry: Entry, after: Entry)
    requires entry.key in SCHEMA_CHILD_KEYS && after.key == entry.key
    ensures LiteralsOfEntry(after) == Literals(after.value) && LiteralsOfEntry(entry) == Literals(entry.value)
  {
    assert SCHEMA_CHILD_KEYS !! SCHEMA_MAP_KEYS;
  }

  lemma {:induction false} MapLiterals(mapKey: string, entries: seq<Entry>, after: seq<Entry>)
    requires KeptMap(mapKey, entries, after)
    ensures Accounted(LiteralsOfMap(entries), LiteralsOfMap(after), MapSpared(mapKey, entries))
    decreases entries
  {
    if entries != [] {
      var m := |entries| - 1;
      MapLiterals(mapKey, entries[..m], after[..m]);
      var opening := mapKey == "properties" && Shapeless(entries[m].value);
      KeptLiterals(entries[m].value, after[m].value, opening);
      PartsStay(LiteralsOfMap(entries[..m]), Literals(entries[m].value), LiteralsOfMap(after[..m]), Literals(after[m].value));
    }
  }

  /** Every `enum`, `const`, `default` and `example` at a schema position
      survives the rewrite, unchanged and in order, exactly when no shapeless
      property holds one under its additional properties; else some are lost,
      and none is ever gained. */
  lemma LiteralsSurviveExactlyWhenSpared(value: Json)
    ensures Literals(Sanitize(value)) == Literals(value) <==> Spared(value, false)
    ensures |Literals(Sanitize(value))| <= |Literals(value)|
  {
    SanitizeKeeps(value);
    KeptLiterals(value, Sanitize(value), false);
  }
}
