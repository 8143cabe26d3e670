/**
 * The bulk path, `Model.itemsWithChangedProperties(conditions, newVals,
 * properties)`: build a narrowing query from the watched keys the patch
 * touches, fetch, and re-diff every fetched record into a map from id to entry.
 */
module BulkQuery {
  import opened JsValues
  import opened Storage
  import opened RecordDiff

  /** The watched keys of the patch, in the patch's own key order. */
  function TouchedKeys(keys: seq<string>, properties: seq<string>): (touched: seq<string>)
    ensures forall k :: k in touched <==> k in keys && k in properties
    ensures |touched| <= |keys|
    ensures Distinct(keys) ==> Distinct(touched)
    decreases |keys|
  {
    if keys == [] then []
    else
      var key := keys[|keys| - 1];
      var before := TouchedKeys(keys[..|keys| - 1], properties);
      if key in properties then before + [key] else before
  }

  /** The touched keys keep the patch's key order. */
  lemma {:induction false} TouchedKeysInKeyOrder(keys: seq<string>, properties: seq<string>, i: nat, j: nat)
    requires i < j < |TouchedKeys(keys, properties)|
    ensures exists p, q ::
      0 <= p < q < |keys| && keys[p] == TouchedKeys(keys, properties)[i] && keys[q] == TouchedKeys(keys, properties)[j]
    decreases |keys|
  {
    var prefix := keys[..|keys| - 1];
    var before := TouchedKeys(prefix, properties);
    var touched := TouchedKeys(keys, properties);
    if j < |before| {
      TouchedKeysInKeyOrder(prefix, properties, i, j);
      var p, q :| 0 <= p < q < |prefix| && prefix[p] == before[i] && prefix[q] == before[j];
      assert keys[p] == touched[i] && keys[q] == touched[j];
    } else {
      assert touched == before + [keys[|keys| - 1]];
      assert touched[i] in before;
      var p :| 0 <= p < |prefix| && prefix[p] == touched[i];
      assert keys[p] == touched[i] && keys[|keys| - 1] == touched[j];
    }
  }

  /** One `{key: {neq: newVals[key]}}` clause per key. */
  function NeqClauses(newVals: JsObject, keys: seq<string>): (clauses: seq<Where>)
    ensures |clauses| == |keys|
    ensures forall i :: 0 <= i < |keys| ==> clauses[i] == Field(keys[i], Neq(Get(newVals, keys[i])))
    decreases |keys|
  {
    if keys == [] then []
    else
      var key := keys[|keys| - 1];
      NeqClauses(newVals, keys[..|keys| - 1]) + [Field(key, Neq(Get(newVals, key)))]
  }

  lemma TouchedKeysStep(keys: seq<string>, i: nat, properties: seq<string>)
    requires i < |keys|
    ensures TouchedKeys(keys[..i + 1], properties)
      == if keys[i] in properties then TouchedKeys(keys[..i], properties) + [keys[i]]
         else TouchedKeys(keys[..i], properties)
  {
    assert keys[..i + 1][..i] == keys[..i];
  }

  lemma NeqClausesStep(newVals: JsObject, keys: seq<string>, key: string)
    ensures NeqClauses(newVals, keys + [key]) == NeqClauses(newVals, keys) + [Field(key, Neq(Get(newVals, key)))]
  {
    assert (keys + [key])[..|keys|] == keys;
  }

  /** `conditions || {}`. */
  function BaseCondition(conditions: Option<Where>): Where {
    match conditions
    case None => All
    case Some(w) => w
  }

  /**
   * The narrowing query, or `None` when no key of the patch is watched (the
   * source then answers `false` without querying). Each touched key is asked
   * to differ from its new value, the clauses are OR-ed and AND-ed with the
   * caller's condition; only the id and the touched keys are fetched.
   */
  function NarrowingFilter(conditions: Option<Where>, newVals: JsObject, properties: seq<string>, idName: string)
    : (r: Option<Filter>)
    ensures r.None? <==> forall k :: k in newVals.keys ==> k !in properties
    ensures r.Some? ==>
      var f := r.value;
      && 2 <= |f.fields|
      && f.fields[0] == idName
      && f.fields[1..] == TouchedKeys(newVals.keys, properties)
      && (forall k :: k in f.fields[1..] <==> k in newVals.keys && k in properties)
      && Distinct(f.fields[1..])
      && f.where.And? && |f.where.conjuncts| == 2
      && f.where.conjuncts[1] == BaseCondition(conditions)
      && f.where.conjuncts[0].Or?
      && |f.where.conjuncts[0].disjuncts| == |f.fields| - 1
      && (forall i :: 0 <= i < |f.fields| - 1 ==>
            f.where.conjuncts[0].disjuncts[i] == Field(f.fields[i + 1], Neq(Get(newVals, f.fields[i + 1]))))
  {
    var touched := TouchedKeys(newVals.keys, properties);
    if touched == [] then None
    else
      var f := Filter([idName] + touched, And([Or(NeqClauses(newVals, touched)), BaseCondition(conditions)]));
      assert f.fields[1..] == touched;
      Some(f)
  }

  /** The `forEach` over the patch: the fetched fields and the `or` clauses. */
  method CollectPropertyConditions(newVals: JsObject, properties: seq<string>, idName: string)
    returns (filterFields: seq<string>, clauses: seq<Where>)
    ensures filterFields == [idName] + TouchedKeys(newVals.keys, properties)
    ensures clauses == NeqClauses(newVals, TouchedKeys(newVals.keys, properties))
  {
    var keys := newVals.keys;
    filterFields := [idName];
    clauses := [];
    var i := 0;
    while i < |keys|
      invariant 0 <= i <= |keys|
      invariant filterFields == [idName] + TouchedKeys(keys[..i], properties)
      invariant clauses == NeqClauses(newVals, TouchedKeys(keys[..i], properties))
    {
      var key := keys[i];
      TouchedKeysStep(keys, i, properties);
      if key in properties {
        NeqClausesStep(newVals, TouchedKeys(keys[..i], properties), key);
        clauses := clauses + [Field(key, Neq(Get(newVals, key)))];
        filterFields := filterFields + [key];
      }
      i := i + 1;
    }
    assert keys[..i] == keys;
  }

  /** The filter-building half of `itemsWithChangedProperties`. */
  method BuildNarrowingFilter(conditions: Option<Where>, newVals: JsObject, properties: seq<string>, idName: string)
    returns (r: Option<Filter>)
    ensures r == NarrowingFilter(conditions, newVals, properties, idName)
  {
    var filterFields, clauses := CollectPropertyConditions(newVals, properties, idName);
    if |clauses| == 0 {
      r := None;
    } else {
      r := Some(Filter(filterFields, And([Or(clauses), BaseCondition(conditions)])));
    }
  }

  /**
   * The aggregator's rule: a property counts when its new value is not
   * `undefined`, and then when the old value is falsy or differs strictly.
   */
  predicate BulkReportsChange(oldVal: Value, newVal: Value) {
    newVal != Undefined && (!Truthy(oldVal) || newVal != oldVal)
  }

  /** The `changed` object built for one fetched record. */
  function BulkEntry(oldVals: JsObject, newVals: JsObject, properties: seq<string>): (entry: Entry)
    ensures forall k :: k in entry <==> k in properties && BulkReportsChange(Get(oldVals, k), Get(newVals, k))
    ensures forall k :: k in entry ==> entry[k] == Get(newVals, k)
    decreases |properties|
  {
    if properties == [] then map[]
    else
      var key := properties[|properties| - 1];
      var before := BulkEntry(oldVals, newVals, properties[..|properties| - 1]);
      if BulkReportsChange(Get(oldVals, key), Get(newVals, key)) then before[key := Get(newVals, key)] else before
  }

  /**
   * The bulk rule is looser than the single-record rule: whatever
   * `getChangedProperties` reports for a record, the aggregator reports too,
   * and the only extra properties are those whose new value is falsy.
   */
  lemma ChangedEntryWithinBulkEntry(oldVals: JsObject, newVals: JsObject, properties: seq<string>)
    ensures forall k :: k in ChangedEntry(oldVals, newVals, properties) ==>
      k in BulkEntry(oldVals, newVals, properties)
      && BulkEntry(oldVals, newVals, properties)[k] == ChangedEntry(oldVals, newVals, properties)[k]
    ensures forall k :: k in BulkEntry(oldVals, newVals, properties) && k !in ChangedEntry(oldVals, newVals, properties) ==>
      Get(newVals, k) != Undefined && !Truthy(Get(newVals, k))
  {
  }

  /** An unchanged falsy value such as 0 -> 0 is reported by the aggregator. */
  lemma UnchangedFalsyValueReported(oldVals: JsObject, newVals: JsObject, properties: seq<string>, k: string)
    requires k in properties
    requires Get(oldVals, k) == Get(newVals, k) != Undefined && !Truthy(Get(newVals, k))
    ensures k in BulkEntry(oldVals, newVals, properties)
    ensures k !in ChangedEntry(oldVals, newVals, properties)
  {
  }

  /** The key a fetched record is filed under. */
  function RecordKey(record: JsObject, keyField: string): string {
    PropertyKey(Get(record, keyField))
  }

  /** No later record in `records` is filed under the key of `records[i]`. */
  predicate LastWithKey(records: seq<JsObject>, i: nat, keyField: string)
    requires i < |records|
  {
    forall j :: i < j < |records| ==> RecordKey(records[j], keyField) != RecordKey(records[i], keyField)
  }

  lemma RecordKeysStep(prefix: seq<JsObject>, last: JsObject, keyField: string)
    ensures (set r | r in prefix + [last] :: RecordKey(r, keyField))
         == (set r | r in prefix :: RecordKey(r, keyField)) + {RecordKey(last, keyField)}
  {
  }

  lemma LastWithKeyStep(prefix: seq<JsObject>, last: JsObject, i: nat, keyField: string)
    requires i < |prefix|
    requires LastWithKey(prefix + [last], i, keyField)
    ensures LastWithKey(prefix, i, keyField)
    ensures RecordKey(prefix[i], keyField) != RecordKey(last, keyField)
  {
    assert (prefix + [last])[|prefix|] == last;
    assert forall j :: 0 <= j < |prefix| ==> (prefix + [last])[j] == prefix[j];
  }

  /**
   * `changedProperties` after `results.map(...)`, filing each record's entry
   * under the value of `keyField`: every fetched record leaves an entry,
   * even an empty one, and a later record with the same key overwrites.
   */
  function AggregateBy(records: seq<JsObject>, newVals: JsObject, properties: seq<string>, keyField: string)
    : (m: ChangeMap)
    ensures m.Keys == set r | r in records :: RecordKey(r, keyField)
    decreases |records|
  {
    if records == [] then map[]
    else
      var last := records[|records| - 1];
      var prefix := records[..|records| - 1];
      var before := AggregateBy(prefix, newVals, properties, keyField);
      assert records == prefix + [last];
      RecordKeysStep(prefix, last, keyField);
      before[RecordKey(last, keyField) := BulkEntry(last, newVals, properties)]
  }

  /** The entry filed under a record's key is that record's own, unless a later record has the same key. */
  lemma {:induction false} AggregateByEntry(records: seq<JsObject>, newVals: JsObject, properties: seq<string>,
                                             keyField: string, i: nat)
    requires i < |records| && LastWithKey(records, i, keyField)
    ensures RecordKey(records[i], keyField) in AggregateBy(records, newVals, properties, keyField)
    ensures AggregateBy(records, newVals, properties, keyField)[RecordKey(records[i], keyField)]
         == BulkEntry(records[i], newVals, properties)
    decreases |records|
  {
    var last := records[|records| - 1];
    var prefix := records[..|records| - 1];
    assert records == prefix + [last];
    if i < |prefix| {
      LastWithKeyStep(prefix, last, i, keyField);
      AggregateByEntry(prefix, newVals, properties, keyField, i);
    }
  }

  /**
   * The aggregation as written: entries are filed under `oldVals.id`,
   * whatever the model's id property is called.
   */
  function AggregateAsWritten(records: seq<JsObject>, newVals: JsObject, properties: seq<string>): (m: ChangeMap)
    ensures m.Keys == set r | r in records :: PropertyKey(Get(r, "id"))
  {
    AggregateBy(records, newVals, properties, "id")
  }

  /** The aggregation as intended: entries are filed under the model's id property. */
  function Aggregate(records: seq<JsObject>, newVals: JsObject, properties: seq<string>, idName: string): ChangeMap {
    AggregateBy(records, newVals, properties, idName)
  }

  /**
   * Both agree when the model's id property is called `id`, the usual case.
   * This holds by definition: both unfold to `AggregateBy` keyed on `id`.
   */
  lemma AsWrittenAgreesForIdNamedId(records: seq<JsObject>, newVals: JsObject, properties: seq<string>)
    ensures AggregateAsWritten(records, newVals, properties) == Aggregate(records, newVals, properties, "id")
  {
  }

  /** An empty fetch yields an empty map. */
  lemma AggregateOfNoRecords(newVals: JsObject, properties: seq<string>, idName: string)
    ensures AggregateAsWritten([], newVals, properties) == map[]
    ensures Aggregate([], newVals, properties, idName) == map[]
  {
  }

  /**
   * With distinct numeric ids every fetched record keeps its own entry, empty
   * or not.
   */
  lemma NumericIdsKeepEveryRecord(records: seq<JsObject>, newVals: JsObject, properties: seq<string>, idName: string)
    requires forall i :: 0 <= i < |records| ==> Get(records[i], idName).Num?
    requires forall i, j :: 0 <= i < j < |records| ==> Get(records[i], idName) != Get(records[j], idName)
    ensures forall i :: 0 <= i < |records| ==>
      && RecordKey(records[i], idName) in Aggregate(records, newVals, properties, idName)
      && Aggregate(records, newVals, properties, idName)[RecordKey(records[i], idName)]
         == BulkEntry(records[i], newVals, properties)
  {
    forall i | 0 <= i < |records|
      ensures RecordKey(records[i], idName) in Aggregate(records, newVals, properties, idName)
      ensures Aggregate(records, newVals, properties, idName)[RecordKey(records[i], idName)]
           == BulkEntry(records[i], newVals, properties)
    {
      forall j | i < j < |records|
        ensures RecordKey(records[j], idName) != RecordKey(records[i], idName)
      {
        NumericKeysDistinct(Get(records[j], idName).n, Get(records[i], idName).n);
      }
      AggregateByEntry(records, newVals, properties, idName, i);
    }
  }

  lemma AggregateByKeysOfOne(record: JsObject, newVals: JsObject, properties: seq<string>, keyField: string)
    ensures AggregateBy([record], newVals, properties, keyField)
         == map[RecordKey(record, keyField) := BulkEntry(record, newVals, properties)]
  {
    assert [record][..0] == [];
  }

  lemma AggregateByKeysOfTwo(first: JsObject, second: JsObject, newVals: JsObject, properties: seq<string>,
                             keyField: string)
    ensures AggregateBy([first, second], newVals, properties, keyField).Keys
         == {RecordKey(first, keyField), RecordKey(second, keyField)}
  {
    RecordKeysStep([first], second, keyField);
    RecordKeysStep([], first, keyField);
    assert [first] + [second] == [first, second];
    assert [] + [first] == [first];
  }

  /**
   * Two fetched records with ids 1 and 2 under an id property other than
   * `id` (the query fetches only that property and the touched ones): the
   * as-written aggregation files both under "undefined", so the first is
   * lost; the intended one keeps both.
   */
  lemma AsWrittenMergesDistinctRecords(first: JsObject, second: JsObject, newVals: JsObject,
                                       properties: seq<string>, idName: string)
    requires "id" !in first.keys && "id" !in second.keys
    requires Get(first, idName) == Num(1) && Get(second, idName) == Num(2)
    ensures AggregateAsWritten([first, second], newVals, properties).Keys == {"undefined"}
    ensures Aggregate([first, second], newVals, properties, idName).Keys == {"1", "2"}
  {
    assert RecordKey(first, "id") == "undefined" && RecordKey(second, "id") == "undefined";
    assert Digits(1) == "1" && Digits(2) == "2";
    assert RecordKey(first, idName) == "1" && RecordKey(second, idName) == "2";
    AggregateByKeysOfTwo(first, second, newVals, properties, "id");
    AggregateByKeysOfTwo(first, second, newVals, properties, idName);
  }

  /** The per-record `properties.map(...)` of the aggregator. */
  method ComputeBulkEntry(oldVals: JsObject, newVals: JsObject, properties: seq<string>) returns (changed: Entry)
    ensures changed == BulkEntry(oldVals, newVals, properties)
  {
    changed := map[];
    var i := 0;
    while i < |properties|
      invariant 0 <= i <= |properties|
      invariant changed == BulkEntry(oldVals, newVals, properties[..i])
    {
      var property := properties[i];
      var newVal := Get(newVals, property);
      if newVal != Undefined {
        if !Truthy(Get(oldVals, property)) {
          changed := changed[property := newVal];
        } else if newVal != Get(oldVals, property) {
          changed := changed[property := newVal];
        }
      }
      assert properties[..i + 1][..i] == properties[..i];
      i := i + 1;
    }
    assert properties[..i] == properties;
  }

  /**
   * The aggregation half of `itemsWithChangedProperties`, over the fetched
   * records; as in the source, each entry is filed under the record's `id`.
   */
  method AggregateChanges(records: seq<JsObject>, newVals: JsObject, properties: seq<string>)
    returns (changedProperties: ChangeMap)
    ensures changedProperties == AggregateAsWritten(records, newVals, properties)
  {
    changedProperties := map[];
    var i := 0;
    while i < |records|
      invariant 0 <= i <= |records|
      invariant changedProperties == AggregateBy(records[..i], newVals, properties, "id")
    {
      var oldVals := records[i];
      var changed := ComputeBulkEntry(oldVals, newVals, properties);
      changedProperties := changedProperties[PropertyKey(Get(oldVals, "id")) := changed];
      assert records[..i + 1][..i] == records[..i];
      i := i + 1;
    }
    assert records[..i] == records;
  }

  /** What `itemsWithChangedProperties` settles to, given the storage's answer. */
  function BulkChanges(conditions: Option<Where>, newVals: JsObject, properties: seq<string>, store: Store)
    : Result<Diff>
  {
    match NarrowingFilter(conditions, newVals, properties, store.idName)
    case None => Ok(NoChange)
    case Some(filter) =>
      match store.find(filter)
      case Err(e) => Err(e)
      case Ok(records) => Ok(Changed(AggregateAsWritten(records, newVals, properties)))
  }

  /** When the narrowing fetch finds nothing, the result is an empty map, not `false`. */
  lemma EmptyFetchGivesEmptyMap(conditions: Option<Where>, newVals: JsObject, properties: seq<string>, store: Store)
    requires NarrowingFilter(conditions, newVals, properties, store.idName).Some?
    requires store.find(NarrowingFilter(conditions, newVals, properties, store.idName).value) == Ok([])
    ensures BulkChanges(conditions, newVals, properties, store) == Ok(Changed(map[]))
  {
  }

  /** `Model.itemsWithChangedProperties(conditions, newVals, properties)`. */
  method ItemsWithChangedProperties(conditions: Option<Where>, newVals: JsObject, properties: seq<string>, store: Store)
    returns (r: Result<Diff>)
    ensures (forall k :: k in newVals.keys ==> k !in properties) ==> r == Ok(NoChange)
    ensures r.Ok? && r.value.Changed? ==>
      exists records :: store.find(NarrowingFilter(conditions, newVals, properties, store.idName).value) == Ok(records)
        && r.value.items.Keys == set rec | rec in records :: PropertyKey(Get(rec, "id"))
    ensures r == BulkChanges(conditions, newVals, properties, store)
  {
    var filter := BuildNarrowingFilter(conditions, newVals, properties, store.idName);
    if filter.None? {
      return Ok(NoChange);
    }
    var found := store.find(filter.value);
    match found {
      case Err(e) =>
        r := Err(e);
      case Ok(records) =>
        var changedProperties := AggregateChanges(records, newVals, properties);
        r := Ok(Changed(changedProperties));
    }
  }
}
