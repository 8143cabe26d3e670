# Changed mixin: a verified model of its change detection

This project models the core of `loopback-ds-changed-mixin`. That core is a
LoopBack "Changed" mixin. It watches a configured list of model properties.
Around every save it works out which records had a watched property change,
and it hands the result (record id -> changed property -> new value) to a
model function named in the options.

The model has five modules:

- `JsValues` (`values.dfy`): JavaScript values with truthiness and strict
  equality. It also has plain objects (`JsObject`: own keys in the order
  `Object.keys` lists them, plus their values) and the string a value becomes when used as an
  object key (`PropertyKey`).
- `Storage` (`storage.dfy`): the query filters the mixin builds
  (`{fields, where}` with `and`, `or`, `neq`, `inq`). It also has the storage
  collaborator (`Store`). `find` and `findById` are function-valued inputs, so
  the model never evaluates a filter.
- `RecordDiff` (`record_diff.dfy`): the single-record differ
  `getChangedProperties`, its boolean twin `propertiesChanged`, and the
  self-diff path `itemHasChangedProperties`.
- `BulkQuery` (`bulk_query.dfy`): `itemsWithChangedProperties`. It builds the
  narrowing filter, fetches, and re-diffs every fetched record into one map.
- `Lifecycle` (`lifecycle.dfy`): the "before save" and "after save" observers
  and the per-operation `hookState` (a class with a `changedItems` field).
  `Save` composes them into one save operation.

`Scenarios` (`scenarios.dfy`) works through concrete cases.

Every loop in the source is a method with a `while` loop. Each such method is
proved equal to a specification function: a fold over the same list, in the
same order. The properties are proved about those functions.

Points a reader might not expect:

- The single-record differ ignores every falsy new value (`0`, `""`, `false`,
  `null`, `undefined`), not only absent ones.
- The bulk aggregator ignores only `undefined` new values. It therefore reports
  an unchanged falsy value (`0` -> `0`) as changed. It keeps an entry, possibly
  empty, for every fetched record.
- The bulk filter gets a clause for every watched key of the patch, even one
  whose value is `undefined`.
- The bulk aggregator files each record's entry under the record's `id`
  property, even when the model's id property has another name (see
  "## Findings"). The records lose their keys only if the fetched records
  are plain objects with no `id` accessor; if the framework's instances
  alias `id` to the id property, nothing collapses.
- "After save" trims nothing. The callback receives the stored change set as
  is, whatever the confirmation query returns.

## Model

| member | source | states |
|---|---|---|
| `RecordDiff.ReportsChangeIsStrictInequality` | index.js:283-291 | the single-record rule (truthy new value, and old value falsy or strictly different) is the same as "new value truthy and strictly different from the old one" |
| `RecordDiff.ChangedEntry` | index.js:277-293 | a property is in the entry iff it is watched, its new value is truthy, and its old value is falsy or strictly different; its value in the entry is the new value |
| `RecordDiff.FalsyNewValueNeverReported` | index.js:283 | a property whose new value is falsy never appears in the entry |
| `RecordDiff.ChangedProperties` | index.js:276-298 | `false` iff no watched property changes by that rule; otherwise exactly one key, the key string of `oldVals[idName]`, holding the non-empty entry |
| `RecordDiff.NoPropertiesNoChange` | index.js:280-298 | an empty property list gives `false` |
| `RecordDiff.SelfComparisonNoChange` | index.js:287 | diffing a record against itself gives `false` |
| `RecordDiff.GetChangedProperties` | index.js:273-299 | the loop that fills `changedProperties[itemId]` returns exactly `ChangedProperties` |
| `RecordDiff.AnyPropertyChangedMeaning` | index.js:258-266 | the `changed` flag ends true iff some watched property satisfies the single-record rule |
| `RecordDiff.PropertiesChangedIffDiff` | index.js:255-299 | `propertiesChanged` is true exactly when `getChangedProperties` does not return `false` |
| `RecordDiff.PropertiesChanged` | index.js:255-271 | the loop that flips `changed` returns the flag the fold defines |
| `RecordDiff.ItemHasChangedProperties` | index.js:224-244 | an empty property list gives `false` without a lookup; otherwise the result is the stored copy (found by the instance's id) diffed against `data`; lookup errors pass through, and a `null` stored copy is a TypeError |
| `BulkQuery.TouchedKeys` | index.js:132-139 | the touched keys are exactly the patch keys that are watched, each once, at most as many as the patch has |
| `BulkQuery.TouchedKeysInKeyOrder` | index.js:132-139 | any two touched keys appear in the same order as in the patch |
| `BulkQuery.NeqClauses` | index.js:134-136 | one `{key: {neq: newVals[key]}}` clause per touched key, in the same order |
| `BulkQuery.NarrowingFilter` | index.js:126-159 | no filter (`false`) iff no patch key is watched; otherwise `fields` is the id name followed by the touched keys (distinct, in patch order), and `where.and` has exactly two members: the OR of one `neq` clause per fetched key, then the caller's condition (`{}` when absent) |
| `BulkQuery.CollectPropertyConditions` | index.js:126-139 | the `forEach` over the patch produces `[idName] + touched keys` and their `neq` clauses |
| `BulkQuery.BuildNarrowingFilter` | index.js:126-159 | the filter-building code returns exactly `NarrowingFilter` |
| `BulkQuery.BulkEntry` | index.js:180-203 | a property is in a fetched record's entry iff it is watched, its new value is not `undefined`, and its old value is falsy or strictly different; its value is the new value |
| `BulkQuery.ChangedEntryWithinBulkEntry` | index.js:186-199 | everything the single-record differ reports for a record the aggregator reports too, with the same value; the only extra properties have a defined but falsy new value |
| `BulkQuery.UnchangedFalsyValueReported` | index.js:186-193 | an unchanged, defined, falsy value (`0` -> `0`) is reported by the aggregator and not by the single-record differ |
| `BulkQuery.AggregateBy` | index.js:171-208 | the keys of the aggregate are exactly the key strings of the fetched records, so every record leaves an entry even when it is empty |
| `BulkQuery.AggregateByEntry` | index.js:173-206 | the entry under a record's key is that record's own entry, unless a later record has the same key |
| `BulkQuery.AggregateAsWritten` | index.js:171-208 | the aggregate as written has exactly one key per distinct key string of the fetched records' `id` properties, whatever the model's id property is |
| `BulkQuery.AsWrittenAgreesForIdNamedId` | index.js:206 | when the id property is `id`, the as-written aggregation equals the intended one (true by definition) |
| `BulkQuery.AggregateOfNoRecords` | index.js:171-211 | an empty fetch gives an empty map, both as written and as intended |
| `BulkQuery.NumericIdsKeepEveryRecord` | index.js:173-208 | with distinct numeric ids, every fetched record's entry is present under its own id |
| `BulkQuery.AsWrittenMergesDistinctRecords` | index.js:206 | with an id property other than `id`, two fetched records with ids 1 and 2 and no `id` property of their own end up under the single key "undefined" as written, but under "1" and "2" as intended |
| `BulkQuery.ComputeBulkEntry` | index.js:180-203 | the per-record `properties.map` loop returns exactly `BulkEntry` |
| `BulkQuery.AggregateChanges` | index.js:171-208 | the `results.map` loop returns exactly the as-written aggregate, each record's entry filed under the key string of its `id` |
| `BulkQuery.EmptyFetchGivesEmptyMap` | index.js:166-211 | when the narrowing query finds nothing, the result is an empty map, not `false` |
| `BulkQuery.ItemsWithChangedProperties` | index.js:115-215 | `false` when no patch key is watched; otherwise the fetch error, or a map whose keys are exactly the key strings of the fetched records' `id` properties |
| `JsValues.NumericKeysDistinct` | index.js:276-278 | distinct numeric ids become distinct object keys |
| `Lifecycle.Classify` | index.js:21-63 | a new instance is skipped; otherwise `currentInstance` is tested before `instance`: the patch path iff `currentInstance` is present (diffing against it), the self-diff path iff only `instance` is present (on that instance), the bulk path iff neither is |
| `Lifecycle.BeforeSave` | index.js:19-64 | a new-instance save leaves `changedItems` untouched; otherwise `changedItems` becomes the result of the chosen path (`currentInstance`: the differ on `data`; `instance`: the self-diff; else the bulk path on `where`/`data`), watching the keys of `options.properties`; on an error it stays `[]` (or its earlier truthy value) and the error is passed on |
| `Lifecycle.ExtractChangedItemIds` | index.js:301-303 | one id per item, in order |
| `Lifecycle.AfterSave` | index.js:66-104 | nothing happens unless `changedItems` is a non-empty map; then a confirmation query error is passed on; otherwise the callback, if it is a function, is called once with `changedItems` unchanged, and its outcome is the hook's |
| `Lifecycle.Save` | index.js:19-104 | a new-instance save never calls back and ends with the write's outcome; a change-computation error aborts the save; a failed write ends the save with its error and no callback; after a successful write with no non-empty change set the save is `Done`; with one, a confirmation query error is passed on, no callback function means `Done`, and otherwise the callback receives the change set unchanged and its outcome is the save's |
| `Scenarios.PatchReportsChangedStatus` | index.js:273-299 | watching status and priority, the patch `{status: "closed"}` on `{id: 1, status: "open", priority: 2}` gives `{1: {status: "closed"}}` |
| `Scenarios.UnchangedPatchReportsNothing` | index.js:273-299 | the patch `{priority: 2}` on the same record gives `false` |
| `Scenarios.BulkCloseQuery` | index.js:126-159 | the bulk update of team "x" to status "closed" queries `{fields: [id, status], where: {and: [{or: [{status: {neq: "closed"}}]}, {team: "x"}]}}` |
| `Scenarios.BulkCloseOfTeam` | index.js:166-211 | if that query finds only record 1, still "open", the result is `{1: {status: "closed"}}` |
| `Scenarios.SaveWithoutCallback` | index.js:66-104 | when the callback option names no function, no save delivers a change set, and every save ends with the outcome of its own steps: the change-computation error, the write's error, the confirmation query's error, or `Done` |

## Left out

- Logging (`debug(...)`) and the setup warning when the callback option names no model function. Such a callback is `Options.callback == None`.
- Mixin registration and the `require` calls: framework glue.
- The promise/callback duality (`createPromiseCallback`, `process.nextTick`, `.then`/`.catch`). Storage answers are inputs. A rejected promise is a `Failed`/`Err` outcome, passed on unchanged.
- Executing a filter: the meaning of `and`, `or`, `neq` and `inq` in storage is not modelled. `find` is any function from filter to records.
- The `toJSON` conversion of the patch, and a missing patch or property list (`undefined` data throws in the source). The patch is always a plain object, and the property list is always a list.
- JavaScript numbers: values are integers, so NaN, `-0` and floating point are not modelled.
- Deep equality: an object or array value is compared by identity (`Obj(ref)`). Any such value used as an id becomes the key "[object Object]". In the source an id object becomes the string its own `toString` gives: a real array its joined elements, a MongoDB ObjectID its hex string, a Date its date string. The model does not capture this, so records with distinct object ids share one key in it where the source keeps them apart.
- Key order inside a change entry and inside the change map (Dafny maps are unordered). The order of the `inq` list (a set here).
- Special property names such as `__proto__`.
- How `Object.keys` orders keys (integer-like names first, ascending, then insertion order): an object's key list is given already in that order, not computed from a history of insertions.
- Concurrency between overlapping saves. Rollback between the two hooks is represented only by the write outcome given to `Save`.
- `Lifecycle.ConfirmationFilter`: kept as written, matching ids against the property literally named `id`. Its result is discarded by the source anyway.

## Findings

| source | as written | input that shows it | evidently intended | confidence | as-written member | corrected member |
|---|---|---|---|---|---|---|
| index.js:206 | each fetched record's entry is filed under `oldVals.id`, while the query fetches only `Model.getIdName()` and the touched keys | a model whose id property is `uid`; the narrowing query returns `{uid: 1, status: "open"}` and `{uid: 2, status: "open"}`; both are filed under "undefined", so record 1's entry is lost. This assumes `find` yields plain objects with no `id` accessor; if the framework's instances alias `id` to the id property, `oldVals.id` is 1 and 2 and nothing collapses | file each entry under `oldVals[Model.getIdName()]`, as `getChangedProperties` does at index.js:276 | low, conditional on fetched records having no `id` accessor; not executed | `BulkQuery.AsWrittenMergesDistinctRecords` | `BulkQuery.NumericIdsKeepEveryRecord` |

The model follows the code: `BulkQuery.AggregateChanges`,
`BulkQuery.BulkChanges` and everything built on them (`BulkQuery.ItemsWithChangedProperties`,
`Lifecycle.PendingChanges`, `Lifecycle.BeforeSave`, `Lifecycle.Save`) file
entries under `id`, as `BulkQuery.AggregateAsWritten` does. The corrected
aggregation is `BulkQuery.Aggregate`, keyed on the model's id property; its
intended property is `BulkQuery.NumericIdsKeepEveryRecord`. The two are equal
when the id property is `id`, the LoopBack default
(`BulkQuery.AsWrittenAgreesForIdNamedId`).
