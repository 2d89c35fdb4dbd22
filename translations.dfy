/**
 * The generator of the configuration's English translation files: the
 * labels and descriptions of a JSON schema, gathered field by field into
 * a tree keyed like the configuration, with the detector types and the
 * camera-level wording handled on the side.
 *
 * `extract_translations_from_schema` recurses through `$ref`s; a schema
 * whose references form a cycle makes it recurse without end. The model
 * takes a depth bound, `fuel`, spent once per nested field, and answers
 * None when it is exhausted or when a `$ref` is not a string (where the
 * source raises).
 */
module ConfigTranslations {
  import opened Wrappers
  import opened Json
  import Text
  import Seqs

  /** The prefix every resolvable reference starts with. */
  const DefsPrefix: string := "#/$defs/"

  /**
   * `get_field_translations`: "label" from a non-empty title,
   * "description" from a non-empty description, and no other key.
   */
  function FieldTranslations(title: Option<string>, description: Option<string>): (r: JSON)
    ensures r.Obj? && WellFormed(r)
    ensures Get(r, "label") == (if title.Some? && title.value != "" then Some(Str(title.value)) else None)
    ensures Get(r, "description") == (if description.Some? && description.value != "" then Some(Str(description.value)) else None)
    ensures forall k :: Has(r, k) ==> k == "label" || k == "description"
  {
    var withLabel := if title.Some? && title.value != "" then Set(Empty, "label", Str(title.value)) else Empty;
    assert "label" != "description" by { assert "label"[0] != "description"[0]; }
    SetKeepsShape(Empty, "label", Str(title.GetOr("")));
    if description.Some? && description.value != "" then
      SetKeepsShape(withLabel, "description", Str(description.value));
      Set(withLabel, "description", Str(description.value))
    else withLabel
  }

  /** `ref.split("/")[-1]`. */
  function LastSegment(ref: string): string {
    var parts := Text.Split(ref, '/');
    parts[|parts| - 1]
  }

  /**
   * The schema a string reference names: under "#/$defs/", the definition
   * called by its last path segment, when there is one.
   */
  function Target(ref: string, defs: JSON): (r: Option<JSON>)
    ensures r.Some? <==> Text.StartsWith(ref, DefsPrefix) && Has(defs, LastSegment(ref))
    ensures r.Some? ==> r == Get(defs, LastSegment(ref))
  {
    if Text.StartsWith(ref, DefsPrefix) then Get(defs, LastSegment(ref)) else None
  }

  /** The two keys a schema's own wording is stored under. */
  predicate IsRootKey(k: string) {
    k == "label" || k == "description"
  }

  /** The entries other than "label" and "description". */
  function WithoutRoot(t: JSON): (r: JSON)
    requires t.Obj?
    ensures r.Obj? && forall k :: Get(r, k) == if IsRootKey(k) then None else Get(t, k)
  {
    Obj(Seqs.Filter(k => !IsRootKey(k), t.keys), map k | k in t.values && !IsRootKey(k) :: t.values[k])
  }

  /** A schema's own wording: "label" from a "title" key and "description" from a "description" key, whatever their values. */
  function Own(schema: JSON): (r: JSON)
    ensures r.Obj?
    ensures Get(r, "label") == Get(schema, "title") && Get(r, "description") == Get(schema, "description")
    ensures forall k :: Has(r, k) ==> IsRootKey(k)
  {
    assert "label" != "description" by { assert "label"[0] != "description"[0]; }
    var withLabel := if Has(schema, "title") then Set(Empty, "label", schema.values["title"]) else Empty;
    if Has(schema, "description") then Set(withLabel, "description", schema.values["description"]) else withLabel
  }

  /** `acc.update(nested_without_root)`. */
  function MergeNested(acc: JSON, nested: JSON): (r: JSON)
    requires acc.Obj? && nested.Obj?
  {
    Update(acc, WithoutRoot(nested))
  }

  /**
   * `extract_translations_from_schema(schema, defs)`: the schema's own
   * wording, then one entry per property that yields any translation.
   * Dict-valued nodes are read as dicts; any other node as having no keys.
   */
  function Extract(schema: JSON, defs: JSON, fuel: nat): (r: Option<JSON>)
    ensures r.Some? ==> r.value.Obj?
    decreases fuel, 3, 0
  {
    var props := GetOr(schema, "properties", Empty);
    Properties(props, if props.Obj? then props.keys else [], Own(schema), defs, fuel)
  }

  /** The loop over `properties.items()`, from `acc` on: a property's entry is stored only when it is non-empty. */
  function Properties(props: JSON, keys: seq<string>, acc: JSON, defs: JSON, fuel: nat): (r: Option<JSON>)
    requires acc.Obj?
    ensures r.Some? ==> r.value.Obj?
    decreases fuel, 2, |keys|
  {
    if keys == [] then Some(acc)
    else match FieldEntry(GetOr(props, keys[0], Null), defs, fuel)
      case None => None
      case Some(t) => Properties(props, keys[1..], if Truthy(t) then Set(acc, keys[0], t) else acc, defs, fuel)
  }

  /**
   * One property's translations: a `$ref` to a definition takes that
   * definition's entries, its wording overridden by the property's own; a
   * dict's `additionalProperties`, an array's `items`, inline `properties`
   * and the alternatives of `anyOf` add their nested entries to the
   * property's own wording.
   */
  function FieldEntry(f: JSON, defs: JSON, fuel: nat): (r: Option<JSON>)
    ensures r.Some? ==> r.value.Obj?
    decreases fuel, 1, 0
  {
    if fuel == 0 then None
    else if Has(f, "$ref") then
      var ref := f.values["$ref"];
      if !ref.Str? then None
      else match Target(ref.s, defs)
        case None => Some(Empty)
        case Some(target) =>
          match Extract(target, defs, fuel - 1)
          case None => None
          case Some(t) => Some(MergeNested(Overridden(f, t), t))
    else if Has(f, "additionalProperties") then RefMerge(Own(f), f.values["additionalProperties"], defs, fuel)
    else if Has(f, "items") then RefMerge(Own(f), f.values["items"], defs, fuel)
    else if Has(f, "properties") then
      match Extract(f, defs, fuel - 1)
      case None => None
      case Some(n) => Some(MergeNested(Own(f), n))
    else if Has(f, "anyOf") then
      var alternatives := f.values["anyOf"];
      AnyOf(Own(f), if alternatives.Arr? then alternatives.items else [], defs, fuel)
    else Some(Own(f))
  }

  /** The wording of a `$ref` property: its own title and description where present, else the definition's. */
  function Overridden(f: JSON, t: JSON): (r: JSON)
    ensures r.Obj?
    ensures Get(r, "label") == (if Has(f, "title") then Get(f, "title") else Get(t, "label"))
    ensures Get(r, "description") == (if Has(f, "description") then Get(f, "description") else Get(t, "description"))
    ensures forall k :: Has(r, k) ==> IsRootKey(k)
  {
    assert "label" != "description" by { assert "label"[0] != "description"[0]; }
    var withLabel :=
      if Has(f, "title") then Set(Empty, "label", f.values["title"])
      else if Has(t, "label") then Set(Empty, "label", t.values["label"])
      else Empty;
    if Has(f, "description") then Set(withLabel, "description", f.values["description"])
    else if Has(t, "description") then Set(withLabel, "description", t.values["description"])
    else withLabel
  }

  /** The entries of the definition a node's `$ref` names, merged into `acc`; nothing when it names none. */
  function RefMerge(acc: JSON, node: JSON, defs: JSON, fuel: nat): (r: Option<JSON>)
    requires acc.Obj? && fuel > 0
    ensures r.Some? ==> r.value.Obj?
    decreases fuel, 0, 0
  {
    if !Has(node, "$ref") then Some(acc)
    else
      var ref := node.values["$ref"];
      if !ref.Str? then None
      else match Target(ref.s, defs)
        case None => Some(acc)
        case Some(target) =>
          match Extract(target, defs, fuel - 1)
          case None => None
          case Some(n) => Some(MergeNested(acc, n))
  }

  /** The loop over `anyOf`: an alternative with inline properties, else one with a `$ref`, adds its nested entries. */
  function AnyOf(acc: JSON, alternatives: seq<JSON>, defs: JSON, fuel: nat): (r: Option<JSON>)
    requires acc.Obj? && fuel > 0
    ensures r.Some? ==> r.value.Obj?
    decreases fuel, 0, |alternatives|
  {
    if alternatives == [] then Some(acc)
    else
      var item := alternatives[0];
      var merged :=
        if Has(item, "properties") then
          match Extract(item, defs, fuel - 1)
          case None => None
          case Some(n) => Some(MergeNested(acc, n))
        else RefMerge(acc, item, defs, fuel);
      match merged
      case None => None
      case Some(next) => AnyOf(next, alternatives[1..], defs, fuel)
  }

  /** `generate_section_translation`: the definitions are the schema's own `$defs`. */
  function SectionTranslations(schema: JSON, fuel: nat): Option<JSON> {
    Extract(schema, GetOr(schema, "$defs", Empty), fuel)
  }

  // ------------------------------------------------------------- properties of the extraction

  /** The property loop leaves every key outside the properties as it found it. */
  lemma {:induction false} PropertiesKeepOthers(props: JSON, keys: seq<string>, acc: JSON, defs: JSON, fuel: nat, k: string)
    requires acc.Obj? && k !in keys
    requires Properties(props, keys, acc, defs, fuel).Some?
    ensures Get(Properties(props, keys, acc, defs, fuel).value, k) == Get(acc, k)
    decreases |keys|
  {
    if keys != [] {
      var t := FieldEntry(GetOr(props, keys[0], Null), defs, fuel).value;
      PropertiesKeepOthers(props, keys[1..], if Truthy(t) then Set(acc, keys[0], t) else acc, defs, fuel, k);
    }
  }

  /**
   * A property the loop visits once gets its entry exactly when that entry
   * is non-empty, and otherwise keeps what `acc` held.
   */
  lemma {:induction false} PropertiesEntry(props: JSON, keys: seq<string>, acc: JSON, defs: JSON, fuel: nat, k: string)
    requires acc.Obj? && Distinct(keys) && k in keys
    requires Properties(props, keys, acc, defs, fuel).Some?
    ensures var t := FieldEntry(GetOr(props, k, Null), defs, fuel);
            && t.Some?
            && Get(Properties(props, keys, acc, defs, fuel).value, k) == if Truthy(t.value) then t else Get(acc, k)
    decreases |keys|
  {
    var t := FieldEntry(GetOr(props, keys[0], Null), defs, fuel).value;
    var next := if Truthy(t) then Set(acc, keys[0], t) else acc;
    assert Distinct(keys[1..]) by {
      forall a, b | 0 <= a < b < |keys[1..]| ensures keys[1..][a] != keys[1..][b] {
        assert keys[1..][a] == keys[a + 1] && keys[1..][b] == keys[b + 1];
      }
    }
    if keys[0] == k {
      assert k !in keys[1..] by {
        forall i | 0 <= i < |keys[1..]| ensures keys[1..][i] != k { assert keys[1..][i] == keys[i + 1]; }
      }
      PropertiesKeepOthers(props, keys[1..], next, defs, fuel, k);
    } else {
      assert k in keys[1..] by {
        var i :| 0 <= i < |keys| && keys[i] == k;
        assert keys[1..][i - 1] == k;
      }
      PropertiesEntry(props, keys[1..], next, defs, fuel, k);
    }
  }

  /** The keys of a well-formed schema's properties dict are exactly its properties. */
  lemma PropertiesShape(schema: JSON)
    requires WellFormed(schema)
    ensures var props := GetOr(schema, "properties", Empty);
            var keys := if props.Obj? then props.keys else [];
            Distinct(keys) && forall k :: k in keys <==> Has(props, k)
  {
    var props := GetOr(schema, "properties", Empty);
    if Has(schema, "properties") {
      assert WellFormed(props);
    }
  }

  /**
   * A schema's own title and description become its "label" and
   * "description", unless a property of that name overrides them.
   */
  lemma RootWording(schema: JSON, defs: JSON, fuel: nat)
    requires WellFormed(schema) && Extract(schema, defs, fuel).Some?
    requires !Has(GetOr(schema, "properties", Empty), "label") && !Has(GetOr(schema, "properties", Empty), "description")
    ensures Get(Extract(schema, defs, fuel).value, "label") == Get(schema, "title")
    ensures Get(Extract(schema, defs, fuel).value, "description") == Get(schema, "description")
  {
    var props := GetOr(schema, "properties", Empty);
    var keys := if props.Obj? then props.keys else [];
    PropertiesShape(schema);
    PropertiesKeepOthers(props, keys, Own(schema), defs, fuel, "label");
    PropertiesKeepOthers(props, keys, Own(schema), defs, fuel, "description");
  }

  /**
   * Each property other than "label" and "description" appears in the
   * result exactly when its translations are non-empty, and then holds them.
   */
  lemma PropertyTranslations(schema: JSON, defs: JSON, fuel: nat, k: string)
    requires WellFormed(schema) && Extract(schema, defs, fuel).Some?
    requires Has(GetOr(schema, "properties", Empty), k) && !IsRootKey(k)
    ensures var t := FieldEntry(GetOr(schema, "properties", Empty).values[k], defs, fuel);
            var r := Extract(schema, defs, fuel).value;
            && t.Some?
            && (Has(r, k) <==> Truthy(t.value))
            && (Truthy(t.value) ==> Get(r, k) == t)
  {
    var props := GetOr(schema, "properties", Empty);
    PropertiesShape(schema);
    PropertiesEntry(props, props.keys, Own(schema), defs, fuel, k);
  }

  /**
   * A property whose `$ref` resolves takes its own title and description
   * where it has them, else the definition's, and every nested entry of
   * the definition.
   */
  lemma RefEntry(f: JSON, defs: JSON, fuel: nat)
    requires fuel > 0 && Has(f, "$ref") && f.values["$ref"].Str?
    requires Target(f.values["$ref"].s, defs).Some?
    requires Extract(Target(f.values["$ref"].s, defs).value, defs, fuel - 1).Some?
    ensures var t := Extract(Target(f.values["$ref"].s, defs).value, defs, fuel - 1).value;
            var e := FieldEntry(f, defs, fuel);
            && e.Some?
            && Get(e.value, "label") == (if Has(f, "title") then Get(f, "title") else Get(t, "label"))
            && Get(e.value, "description") == (if Has(f, "description") then Get(f, "description") else Get(t, "description"))
            && forall k :: !IsRootKey(k) ==> Get(e.value, k) == Get(t, k)
  {
  }

  /** A `$ref` property whose reference names no definition has no translations, so it is left out. */
  lemma UnresolvedRefEmpty(f: JSON, defs: JSON, fuel: nat)
    requires fuel > 0 && Has(f, "$ref") && f.values["$ref"].Str?
    requires Target(f.values["$ref"].s, defs).None?
    ensures FieldEntry(f, defs, fuel) == Some(Empty) && !Truthy(Empty)
  {
  }

  /**
   * A dict-typed (`additionalProperties`) or array-typed (`items`) property
   * keeps its own wording and takes the nested entries of the definition
   * its element schema references.
   */
  lemma ElementRefEntry(f: JSON, defs: JSON, fuel: nat)
    requires fuel > 0 && !Has(f, "$ref") && (Has(f, "additionalProperties") || Has(f, "items"))
    ensures var node := if Has(f, "additionalProperties") then f.values["additionalProperties"] else f.values["items"];
            var e := FieldEntry(f, defs, fuel);
            && (!Has(node, "$ref") || (node.values["$ref"].Str? && Target(node.values["$ref"].s, defs).None?) ==> e == Some(Own(f)))
            && (Has(node, "$ref") && node.values["$ref"].Str? && Target(node.values["$ref"].s, defs).Some? ==>
                  var n := Extract(Target(node.values["$ref"].s, defs).value, defs, fuel - 1);
                  n.Some? ==>
                    && e.Some?
                    && Get(e.value, "label") == Get(f, "title")
                    && Get(e.value, "description") == Get(f, "description")
                    && forall k :: !IsRootKey(k) ==> Get(e.value, k) == Get(n.value, k))
  {
  }

  /** A property with inline `properties` keeps its own wording and takes its nested entries. */
  lemma InlineEntry(f: JSON, defs: JSON, fuel: nat)
    requires fuel > 0 && !Has(f, "$ref") && !Has(f, "additionalProperties") && !Has(f, "items") && Has(f, "properties")
    requires Extract(f, defs, fuel - 1).Some?
    ensures var n := Extract(f, defs, fuel - 1).value;
            var e := FieldEntry(f, defs, fuel);
            && e.Some?
            && Get(e.value, "label") == Get(f, "title")
            && Get(e.value, "description") == Get(f, "description")
            && forall k :: !IsRootKey(k) ==> Get(e.value, k) == Get(n, k)
  {
  }

  /** A plain property's translations are its own title and description and nothing else. */
  lemma PlainEntry(f: JSON, defs: JSON, fuel: nat)
    requires fuel > 0
    requires !Has(f, "$ref") && !Has(f, "additionalProperties") && !Has(f, "items") && !Has(f, "properties") && !Has(f, "anyOf")
    ensures var e := FieldEntry(f, defs, fuel);
            && e.Some?
            && Get(e.value, "label") == Get(f, "title")
            && Get(e.value, "description") == Get(f, "description")
            && forall k :: !IsRootKey(k) ==> !Has(e.value, k)
  {
  }

  // ------------------------------------------------------------- detector types

  /** What one entry of the detector discriminator's mapping contributes. */
  datatype DetectorStep =
    | Skipped
    | Added(entry: JSON, nested: set<string>)
    | Exhausted

  /** A definition's wording when truthy: "label" from its title, "description" from its description. */
  function TypeWording(schema: JSON): (r: JSON)
    ensures r.Obj? && forall k :: Has(r, k) ==> IsRootKey(k)
    ensures Get(r, "label") == (if Get(schema, "title").Some? && Truthy(Get(schema, "title").value) then Get(schema, "title") else None)
    ensures Get(r, "description") == (if Get(schema, "description").Some? && Truthy(Get(schema, "description").value) then Get(schema, "description") else None)
  {
    assert "label" != "description" by { assert "label"[0] != "description"[0]; }
    var title := GetOr(schema, "title", Null);
    var description := GetOr(schema, "description", Null);
    var withLabel := if Truthy(title) then Set(Empty, "label", title) else Empty;
    if Truthy(description) then Set(withLabel, "description", description) else withLabel
  }

  /**
   * One detector type: a reference that is not a string, not under
   * "#/$defs/", or names a missing or empty definition is skipped;
   * otherwise the definition's wording and nested entries form the type's
   * entry, stored only when non-empty, and the nested keys are reported.
   */
  function DetectorEntry(ref: JSON, defs: JSON, fuel: nat): (s: DetectorStep)
    ensures !ref.Str? || !Text.StartsWith(ref.s, DefsPrefix) ==> s == Skipped
    ensures ref.Str? && !Truthy(GetOr(defs, LastSegment(ref.s), Empty)) ==> s == Skipped
    ensures s.Added? ==> s.entry.Obj? && Truthy(s.entry) && forall k :: k in s.nested <==> Has(s.entry, k) && !IsRootKey(k)
  {
    if !ref.Str? || !Text.StartsWith(ref.s, DefsPrefix) then Skipped
    else
      var target := GetOr(defs, LastSegment(ref.s), Empty);
      if !Truthy(target) then Skipped
      else match Extract(target, defs, fuel)
        case None => Exhausted
        case Some(n) =>
          var nested := WithoutRoot(n);
          var wording := TypeWording(target);
          var entry := if Truthy(nested) then Update(wording, nested) else wording;
          var keys := if Truthy(nested) then nested.values.Keys else {};
          if Truthy(entry) then Added(entry, keys) else Skipped
  }

  /** The step of `get_detector_translations` for one mapping entry, under the schema's definitions. */
  function EntryOf(defs: JSON, fuel: nat): JSON -> DetectorStep {
    ref => DetectorEntry(ref, defs, fuel)
  }

  /** `nested_field_keys` gains `k` from this mapping entry. */
  predicate AddsKey(step: JSON -> DetectorStep, ref: JSON, k: string) {
    step(ref).Added? && k in step(ref).nested
  }

  /** The loop of `get_detector_translations` over the first mapping entries: the type entries and the nested keys. */
  function Detectors(mapping: JSON, keys: seq<string>, step: JSON -> DetectorStep): (r: Option<(JSON, set<string>)>)
    ensures r.Some? ==> r.value.0.Obj?
    decreases |keys|
  {
    if keys == [] then Some((Empty, {}))
    else match Detectors(mapping, keys[..|keys| - 1], step)
      case None => None
      case Some(acc) =>
        match step(GetOr(mapping, keys[|keys| - 1], Null))
        case Exhausted => None
        case Skipped => Some(acc)
        case Added(entry, nested) => Some((Set(acc.0, keys[|keys| - 1], entry), acc.1 + nested))
  }

  /**
   * Over distinct detector types, a type has an entry exactly when its
   * mapping entry adds one, and then holds that entry.
   */
  lemma {:induction false} DetectorsTypes(mapping: JSON, keys: seq<string>, step: JSON -> DetectorStep)
    requires Distinct(keys) && Detectors(mapping, keys, step).Some?
    ensures var types := Detectors(mapping, keys, step).value.0;
            && (forall d :: Has(types, d) ==> d in keys)
            && forall i :: 0 <= i < |keys| ==>
                 Get(types, keys[i]) == if step(GetOr(mapping, keys[i], Null)).Added? then Some(step(GetOr(mapping, keys[i], Null)).entry) else None
    decreases |keys|
  {
    if keys != [] {
      var front := keys[..|keys| - 1];
      var d := keys[|keys| - 1];
      assert Distinct(front) by {
        forall a, b | 0 <= a < b < |front| ensures front[a] != front[b] {
          assert front[a] == keys[a] && front[b] == keys[b];
        }
      }
      assert d !in front by {
        forall i | 0 <= i < |front| ensures front[i] != d { assert front[i] == keys[i]; }
      }
      DetectorsTypes(mapping, front, step);
      var before := Detectors(mapping, front, step).value.0;
      var types := Detectors(mapping, keys, step).value.0;
      var s := step(GetOr(mapping, d, Null));
      assert Get(types, d) == if s.Added? then Some(s.entry) else None by {
        if !s.Added? { assert !Has(before, d); }
      }
      forall e | Has(types, e) ensures e in keys {
        if e != d {
          assert Has(before, e);
          var i :| 0 <= i < |front| && front[i] == e;
          assert keys[i] == e;
        }
      }
      forall i | 0 <= i < |front|
        ensures Get(types, keys[i]) == if step(GetOr(mapping, keys[i], Null)).Added? then Some(step(GetOr(mapping, keys[i], Null)).entry) else None
      {
        assert keys[i] == front[i] && keys[i] != d;
      }
    }
  }

  /** The reported keys are the union of the nested keys of all the added entries. */
  lemma {:induction false} DetectorsKeys(mapping: JSON, keys: seq<string>, step: JSON -> DetectorStep)
    requires Detectors(mapping, keys, step).Some?
    ensures var nested := Detectors(mapping, keys, step).value.1;
            forall k :: k in nested <==> exists i :: 0 <= i < |keys| && AddsKey(step, GetOr(mapping, keys[i], Null), k)
    decreases |keys|
  {
    if keys != [] {
      var front := keys[..|keys| - 1];
      DetectorsKeys(mapping, front, step);
      var nested := Detectors(mapping, keys, step).value.1;
      var before := Detectors(mapping, front, step).value.1;
      forall k ensures k in nested <==> exists i :: 0 <= i < |keys| && AddsKey(step, GetOr(mapping, keys[i], Null), k) {
        if k in nested {
          if k !in before {
            assert AddsKey(step, GetOr(mapping, keys[|keys| - 1], Null), k);
          } else {
            var i :| 0 <= i < |front| && AddsKey(step, GetOr(mapping, front[i], Null), k);
            assert keys[i] == front[i];
          }
        }
        if exists i :: 0 <= i < |keys| && AddsKey(step, GetOr(mapping, keys[i], Null), k) {
          var i :| 0 <= i < |keys| && AddsKey(step, GetOr(mapping, keys[i], Null), k);
          if i < |front| { assert keys[i] == front[i]; }
        }
      }
    }
  }

  /** Every added entry reports as nested exactly its own keys other than "label" and "description". */
  ghost predicate NestedAreEntryKeys(step: JSON -> DetectorStep) {
    forall ref :: step(ref).Added? ==> forall k :: k in step(ref).nested <==> Has(step(ref).entry, k) && !IsRootKey(k)
  }

  /**
   * For the detector step proper: the reported nested keys are exactly the
   * keys, other than "label" and "description", of the stored type entries.
   */
  lemma NestedKeysOfEntries(mapping: JSON, keys: seq<string>, defs: JSON, fuel: nat)
    requires Distinct(keys) && Detectors(mapping, keys, EntryOf(defs, fuel)).Some?
    ensures var r := Detectors(mapping, keys, EntryOf(defs, fuel)).value;
            forall k :: k in r.1 <==>
              exists i :: 0 <= i < |keys| && Get(r.0, keys[i]).Some? && Has(Get(r.0, keys[i]).value, k) && !IsRootKey(k)
  {
    var step := EntryOf(defs, fuel);
    forall ref | step(ref).Added?
      ensures forall k :: k in step(ref).nested <==> Has(step(ref).entry, k) && !IsRootKey(k)
    {
      assert step(ref) == DetectorEntry(ref, defs, fuel);
    }
    NestedKeysOfStoredEntries(mapping, keys, step);
  }

  /** The same for any step whose added entries report their own keys as nested. */
  lemma NestedKeysOfStoredEntries(mapping: JSON, keys: seq<string>, step: JSON -> DetectorStep)
    requires Distinct(keys) && Detectors(mapping, keys, step).Some? && NestedAreEntryKeys(step)
    ensures var r := Detectors(mapping, keys, step).value;
            forall k :: k in r.1 <==>
              exists i :: 0 <= i < |keys| && Get(r.0, keys[i]).Some? && Has(Get(r.0, keys[i]).value, k) && !IsRootKey(k)
  {
    var r := Detectors(mapping, keys, step).value;
    DetectorsTypes(mapping, keys, step);
    DetectorsKeys(mapping, keys, step);
    forall k ensures k in r.1 <==> exists i :: 0 <= i < |keys| && Get(r.0, keys[i]).Some? && Has(Get(r.0, keys[i]).value, k) && !IsRootKey(k) {
      if k in r.1 {
        var i :| 0 <= i < |keys| && AddsKey(step, GetOr(mapping, keys[i], Null), k);
        assert Get(r.0, keys[i]) == Some(step(GetOr(mapping, keys[i], Null)).entry);
      }
      if exists i :: 0 <= i < |keys| && Get(r.0, keys[i]).Some? && Has(Get(r.0, keys[i]).value, k) && !IsRootKey(k) {
        var i :| 0 <= i < |keys| && Get(r.0, keys[i]).Some? && Has(Get(r.0, keys[i]).value, k) && !IsRootKey(k);
        var st := step(GetOr(mapping, keys[i], Null));
        assert st.Added? && Get(r.0, keys[i]).value == st.entry;
        assert k in st.nested;
      }
    }
  }

  /** Once the loop is exhausted it stays exhausted. */
  lemma {:induction false} DetectorsStayExhausted(mapping: JSON, keys: seq<string>, n: nat, step: JSON -> DetectorStep)
    requires n <= |keys| && Detectors(mapping, keys[..n], step).None?
    ensures Detectors(mapping, keys, step).None?
    decreases |keys|
  {
    if n == |keys| {
      assert keys[..n] == keys;
    } else {
      var front := keys[..|keys| - 1];
      assert front[..n] == keys[..n];
      DetectorsStayExhausted(mapping, front, n, step);
    }
  }

  /** The discriminator mapping of the detector definitions: `$defs.DetectorConfig.discriminator.mapping`. */
  function DetectorMapping(configSchema: JSON): JSON {
    var defs := GetOr(configSchema, "$defs", Empty);
    GetOr(GetOr(GetOr(defs, "DetectorConfig", Empty), "discriminator", Empty), "mapping", Empty)
  }

  /** One more mapping key folds its step outcome into the accumulated pair. */
  lemma DetectorsNext(mapping: JSON, keys: seq<string>, i: nat, step: JSON -> DetectorStep,
                      acc: (JSON, set<string>), outcome: DetectorStep)
    requires i < |keys|
    requires Detectors(mapping, keys[..i], step) == Some(acc)
    requires outcome == step(GetOr(mapping, keys[i], Null))
    ensures Detectors(mapping, keys[..i + 1], step) ==
            match outcome
            case Exhausted => None
            case Skipped => Some(acc)
            case Added(entry, nested) => Some((Set(acc.0, keys[i], entry), acc.1 + nested))
  {
    assert keys[..i + 1][..i] == keys[..i];
  }

  /**
   * `get_detector_translations`: the type entries and the set of nested
   * keys, built over the mapping in order; None when the depth bound is
   * exhausted.
   */
  method DetectorTranslations(configSchema: JSON, fuel: nat) returns (r: Option<(JSON, set<string>)>)
    ensures var mapping := DetectorMapping(configSchema);
            r == Detectors(mapping, if mapping.Obj? then mapping.keys else [], EntryOf(GetOr(configSchema, "$defs", Empty), fuel))
  {
    var defs := GetOr(configSchema, "$defs", Empty);
    var mapping := DetectorMapping(configSchema);
    var keys := if mapping.Obj? then mapping.keys else [];
    var step := EntryOf(defs, fuel);
    var typeTranslations := Empty;
    var nestedFieldKeys: set<string> := {};
    for i := 0 to |keys|
      invariant Detectors(mapping, keys[..i], step) == Some((typeTranslations, nestedFieldKeys))
    {
      var outcome := step(GetOr(mapping, keys[i], Null));
      DetectorsNext(mapping, keys, i, step, (typeTranslations, nestedFieldKeys), outcome);
      match outcome
      case Exhausted =>
        DetectorsStayExhausted(mapping, keys, i + 1, step);
        return None;
      case Skipped =>
      case Added(entry, nested) =>
        typeTranslations := Set(typeTranslations, keys[i], entry);
        nestedFieldKeys := nestedFieldKeys + nested;
    }
    assert keys[..|keys|] == keys;
    r := Some((typeTranslations, nestedFieldKeys));
  }

  // ------------------------------------------------------------- camera descriptions

  /** The global wording replaced in the camera file, and its replacement. */
  const GlobalWording: string := "for all cameras; can be overridden per-camera"
  const CameraWording: string := "for this camera"

  /**
   * `sanitize_camera_descriptions`: every string under a "description"
   * key, at any depth through dicts and lists, has the global wording
   * replaced; the rest of the tree is kept.
   */
  function Sanitize(j: JSON): (r: JSON)
    ensures r.Obj? <==> j.Obj?
    ensures r.Obj? ==> r.keys == j.keys && r.values.Keys == j.values.Keys
    ensures r.Arr? <==> j.Arr?
    ensures r.Arr? ==> |r.items| == |j.items|
    ensures !r.Obj? && !r.Arr? ==> r == j
    decreases j, 1
  {
    match j
    case Obj(keys, values) => Obj(keys, map k | k in values :: SanitizeAt(k, values[k]))
    case Arr(items) => Arr(seq(|items|, i requires 0 <= i < |items| => Sanitize(items[i])))
    case _ => j
  }

  /** The value under key `k` after sanitizing: a description string is reworded, anything else is walked. */
  function SanitizeAt(k: string, v: JSON): JSON
    decreases v, 2
  {
    if k == "description" && v.Str? then Str(Text.Replace(v.s, GlobalWording, CameraWording)) else Sanitize(v)
  }

  /** Some description string in the tree mentions the global wording. */
  ghost predicate MentionsGlobal(j: JSON)
    decreases j
  {
    match j
    case Obj(_, values) =>
      exists k :: k in values && (if k == "description" && values[k].Str? then Text.Contains(values[k].s, GlobalWording) else MentionsGlobal(values[k]))
    case Arr(items) => exists i :: 0 <= i < |items| && MentionsGlobal(items[i])
    case _ => false
  }

  /** A tree whose descriptions never mention the global wording is left exactly as it was. */
  lemma {:induction false} SanitizeUnchanged(j: JSON)
    requires !MentionsGlobal(j)
    ensures Sanitize(j) == j
    decreases j
  {
    match j
    case Obj(keys, values) =>
      forall k | k in values ensures SanitizeAt(k, values[k]) == values[k] {
        if !(k == "description" && values[k].Str?) {
          SanitizeUnchanged(values[k]);
        }
      }
    case Arr(items) =>
      forall i | 0 <= i < |items| ensures Sanitize(items[i]) == items[i] {
        SanitizeUnchanged(items[i]);
      }
    case _ =>
  }

  /** A description that begins with the global wording begins with the camera wording afterwards. */
  lemma Reworded(rest: string)
    ensures Text.Replace(GlobalWording + rest, GlobalWording, CameraWording) == CameraWording + Text.Replace(rest, GlobalWording, CameraWording)
  {
    assert (GlobalWording + rest)[..|GlobalWording|] == GlobalWording;
    assert (GlobalWording + rest)[|GlobalWording|..] == rest;
  }
}
