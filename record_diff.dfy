/**
 * The single-record differ: `Model.getChangedProperties`, its boolean twin
 * `Model.propertiesChanged`, and the self-diff path
 * `Model.prototype.itemHasChangedProperties`.
 */
module RecordDiff {
  import opened JsValues
  import opened Storage

  /** Changed property name -> new value, for one record. */
  type Entry = map<string, Value>

  /** Record id (as an object key) -> the entry of that record. */
  type ChangeMap = map<string, Entry>

  /** What the differs return: `false`, or an object keyed by record id. */
  datatype Diff = NoChange | Changed(items: ChangeMap)

  /**
   * The single-record rule: a property counts only when its new value is
   * truthy, and then when the old value is falsy or differs strictly.
   */
  predicate ReportsChange(oldVal: Value, newVal: Value) {
    Truthy(newVal) && (!Truthy(oldVal) || newVal != oldVal)
  }

  /** The rule is "truthy new value, strictly different from the old one". */
  lemma ReportsChangeIsStrictInequality(oldVal: Value, newVal: Value)
    ensures ReportsChange(oldVal, newVal) <==> Truthy(newVal) && newVal != oldVal
  {
  }

  /**
   * The entry `changedProperties[itemId]` after the `forEach` over
   * `properties`: a fold over the list, last property last.
   */
  function ChangedEntry(oldVals: JsObject, newVals: JsObject, properties: seq<string>): (entry: Entry)
    ensures forall k :: k in entry <==> k in properties && ReportsChange(Get(oldVals, k), Get(newVals, k))
    ensures forall k :: k in entry ==> entry[k] == Get(newVals, k)
    decreases |properties|
  {
    if properties == [] then map[]
    else
      var key := properties[|properties| - 1];
      var before := ChangedEntry(oldVals, newVals, properties[..|properties| - 1]);
      if ReportsChange(Get(oldVals, key), Get(newVals, key)) then before[key := Get(newVals, key)] else before
  }

  /** A falsy new value (0, "", false, null, undefined) is never reported. */
  lemma FalsyNewValueNeverReported(oldVals: JsObject, newVals: JsObject, properties: seq<string>, k: string)
    requires !Truthy(Get(newVals, k))
    ensures k !in ChangedEntry(oldVals, newVals, properties)
  {
  }

  /** What `getChangedProperties` returns. */
  function ChangedProperties(oldVals: JsObject, newVals: JsObject, properties: seq<string>, idName: string): (d: Diff)
    ensures d.NoChange? <==> forall k :: k in properties ==> !ReportsChange(Get(oldVals, k), Get(newVals, k))
    ensures d.Changed? ==>
      var itemId := PropertyKey(Get(oldVals, idName));
      && d.items.Keys == {itemId}
      && d.items[itemId] == ChangedEntry(oldVals, newVals, properties)
      && d.items[itemId] != map[]
  {
    var entry := ChangedEntry(oldVals, newVals, properties);
    if entry == map[] then NoChange else Changed(map[PropertyKey(Get(oldVals, idName)) := entry])
  }

  /** With no watched property nothing is ever reported. */
  lemma NoPropertiesNoChange(oldVals: JsObject, newVals: JsObject, idName: string)
    ensures ChangedProperties(oldVals, newVals, [], idName) == NoChange
  {
  }

  /** Comparing a record with itself reports nothing. */
  lemma SelfComparisonNoChange(vals: JsObject, properties: seq<string>, idName: string)
    ensures ChangedProperties(vals, vals, properties, idName) == NoChange
  {
  }

  /**
   * `Model.getChangedProperties(oldVals, newVals, properties)`: fills the
   * entry of `oldVals[idName]` property by property, then returns `false`
   * when it stayed empty.
   */
  method GetChangedProperties(oldVals: JsObject, newVals: JsObject, properties: seq<string>, idName: string)
    returns (d: Diff)
    ensures d == ChangedProperties(oldVals, newVals, properties, idName)
  {
    var itemId := PropertyKey(Get(oldVals, idName));
    var entry: Entry := map[];
    var i := 0;
    while i < |properties|
      invariant 0 <= i <= |properties|
      invariant entry == ChangedEntry(oldVals, newVals, properties[..i])
    {
      var key := properties[i];
      var newVal := Get(newVals, key);
      if Truthy(newVal) {
        var oldVal := Get(oldVals, key);
        if !Truthy(oldVal) || newVal != oldVal {
          entry := entry[key := newVal];
        }
      }
      assert properties[..i + 1][..i] == properties[..i];
      i := i + 1;
    }
    assert properties[..i] == properties;
    if entry == map[] {
      d := NoChange;
    } else {
      d := Changed(map[itemId := entry]);
    }
  }

  /** The `changed` flag of `propertiesChanged` after the `forEach`. */
  function AnyPropertyChanged(source: JsObject, target: JsObject, properties: seq<string>): bool
    decreases |properties|
  {
    if properties == [] then false
    else
      var key := properties[|properties| - 1];
      AnyPropertyChanged(source, target, properties[..|properties| - 1])
        || ReportsChange(Get(source, key), Get(target, key))
  }

  /** The flag is set exactly when some watched property changes. */
  lemma {:induction false} AnyPropertyChangedMeaning(source: JsObject, target: JsObject, properties: seq<string>)
    ensures AnyPropertyChanged(source, target, properties)
        <==> exists k :: k in properties && ReportsChange(Get(source, k), Get(target, k))
    decreases |properties|
  {
    if properties != [] {
      var prefix := properties[..|properties| - 1];
      var key := properties[|properties| - 1];
      AnyPropertyChangedMeaning(source, target, prefix);
      assert properties == prefix + [key];
      if AnyPropertyChanged(source, target, properties) {
        if !AnyPropertyChanged(source, target, prefix) {
          assert key in properties && ReportsChange(Get(source, key), Get(target, key));
        }
      }
    }
  }

  /**
   * `propertiesChanged` and `getChangedProperties` apply the same rule:
   * the flag is set exactly when the differ does not return `false`.
   */
  lemma PropertiesChangedIffDiff(source: JsObject, target: JsObject, properties: seq<string>, idName: string)
    ensures AnyPropertyChanged(source, target, properties)
        <==> ChangedProperties(source, target, properties, idName).Changed?
  {
    AnyPropertyChangedMeaning(source, target, properties);
  }

  /** `Model.propertiesChanged(source, target, properties)`. */
  method PropertiesChanged(source: JsObject, target: JsObject, properties: seq<string>)
    returns (changed: bool)
    ensures changed == AnyPropertyChanged(source, target, properties)
  {
    changed := false;
    var i := 0;
    while i < |properties|
      invariant 0 <= i <= |properties|
      invariant changed == AnyPropertyChanged(source, target, properties[..i])
    {
      var key := properties[i];
      if Truthy(Get(target, key)) {
        if !Truthy(Get(source, key)) || Get(target, key) != Get(source, key) {
          changed := true;
        }
      }
      assert properties[..i + 1][..i] == properties[..i];
      i := i + 1;
    }
    assert properties[..i] == properties;
  }

  /**
   * What `itemHasChangedProperties(data, properties)` on `instance` settles
   * to: `false` for no properties, else the stored copy (looked up by the
   * instance's id) diffed against `data`. A `null` stored copy makes the
   * differ read a property of `null`, a TypeError.
   */
  function SelfDiffChanges(instance: JsObject, data: JsObject, properties: seq<string>, store: Store): Result<Diff> {
    if properties == [] then Ok(NoChange)
    else
      match store.findById(Get(instance, store.idName))
      case Err(e) => Err(e)
      case Ok(None) => Err(TypeError("Cannot read the id property of null"))
      case Ok(Some(stored)) => Ok(ChangedProperties(stored, data, properties, store.idName))
  }

  /** `Model.prototype.itemHasChangedProperties(data, properties)`. */
  method ItemHasChangedProperties(instance: JsObject, data: JsObject, properties: seq<string>, store: Store)
    returns (r: Result<Diff>)
    ensures properties == [] ==> r == Ok(NoChange)
    ensures properties != [] ==> r.Ok? ==>
      exists stored :: store.findById(Get(instance, store.idName)) == Ok(Some(stored))
        && r.value == ChangedProperties(stored, data, properties, store.idName)
    ensures r == SelfDiffChanges(instance, data, properties, store)
  {
    if properties == [] {
      return Ok(NoChange);
    }
    var found := store.findById(Get(instance, store.idName));
    match found {
      case Err(e) =>
        r := Err(e);
      case Ok(None) =>
        r := Err(TypeError("Cannot read the id property of null"));
      case Ok(Some(stored)) =>
        var d := GetChangedProperties(stored, data, properties, store.idName);
        r := Ok(d);
    }
  }
}
