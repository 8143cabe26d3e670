/** Worked examples of the differ, the bulk path and the hooks on concrete records. */
module Scenarios {
  import opened JsValues
  import opened Storage
  import opened RecordDiff
  import opened BulkQuery
  import opened Lifecycle

  /** A record `{id: 1, status: "open", priority: 2}`. */
  function Ticket(): JsObject {
    ObjectData(["id", "status", "priority"], map["id" := Num(1), "status" := Str("open"), "priority" := Num(2)])
  }

  /** A patch `{status: "closed"}`. */
  function ClosePatch(): JsObject {
    ObjectData(["status"], map["status" := Str("closed")])
  }

  /** Watching status and priority, the patch `{status: "closed"}` reports `{1: {status: "closed"}}`. */
  lemma PatchReportsChangedStatus()
    ensures ChangedProperties(Ticket(), ClosePatch(), ["status", "priority"], "id")
         == Changed(map["1" := map["status" := Str("closed")]])
  {
    var entry := ChangedEntry(Ticket(), ClosePatch(), ["status", "priority"]);
    assert "status" in entry;
    assert entry.Keys == {"status"};
    assert entry == map["status" := Str("closed")];
    assert PropertyKey(Num(1)) == Digits(1) == "1";
  }

  /** The patch `{priority: 2}` repeats the stored value: `false`. */
  lemma UnchangedPatchReportsNothing()
    ensures ChangedProperties(Ticket(), ObjectData(["priority"], map["priority" := Num(2)]), ["status", "priority"], "id")
         == NoChange
  {
  }

  /** The caller's condition `{team: "x"}`. */
  function TeamX(): Where {
    Field("team", Eq(Str("x")))
  }

  /**
   * Bulk update of team "x" to status "closed", watching status: the query
   * asks for the id and status of the team's records whose status is not
   * "closed".
   */
  lemma BulkCloseQuery()
    ensures NarrowingFilter(Some(TeamX()), ClosePatch(), ["status"], "id")
         == Some(Filter(["id", "status"], And([Or([Field("status", Neq(Str("closed")))]), TeamX()])))
  {
    var touched := TouchedKeys(ClosePatch().keys, ["status"]);
    assert ["status"][..0] == [];
    assert touched == ["status"];
    assert Get(ClosePatch(), "status") == Str("closed");
    assert NeqClauses(ClosePatch(), touched) == [Field("status", Neq(Str("closed")))];
    assert [("id")] + touched == ["id", "status"];
  }

  /** If that query finds only record 1, still "open", the result is `{1: {status: "closed"}}`. */
  lemma BulkCloseOfTeam(store: Store, record: JsObject)
    requires store.idName == "id"
    requires Get(record, "id") == Num(1) && Get(record, "status") == Str("open")
    requires store.find(Filter(["id", "status"], And([Or([Field("status", Neq(Str("closed")))]), TeamX()])))
          == Ok([record])
    ensures BulkChanges(Some(TeamX()), ClosePatch(), ["status"], store)
         == Ok(Changed(map["1" := map["status" := Str("closed")]]))
  {
    BulkCloseQuery();
    var entry := BulkEntry(record, ClosePatch(), ["status"]);
    assert Get(ClosePatch(), "status") == Str("closed");
    assert entry.Keys == {"status"};
    assert entry == map["status" := Str("closed")];
    assert RecordKey(record, "id") == "1" by {
      assert Digits(1) == "1";
    }
    AggregateByKeysOfOne(record, ClosePatch(), ["status"], "id");
    assert AggregateAsWritten([record], ClosePatch(), ["status"]) == map["1" := map["status" := Str("closed")]];
  }

  /**
   * A callback option that does not name a model function: every save
   * still completes with the outcome of its own steps, and nothing is ever
   * delivered.
   */
  method SaveWithoutCallback(ctx: SaveContext, properties: JsObject, store: Store, write: Outcome)
    returns (outcome: Outcome, delivered: Option<ChangeMap>)
    ensures delivered == None
    ensures Classify(ctx).NewInstance? ==> outcome == write
    ensures !Classify(ctx).NewInstance? ==>
      var pending := PendingChanges(ctx, Options(properties, None), store);
      && (pending.Err? ==> outcome == Failed(pending.error))
      && (pending.Ok? && write.Failed? ==> outcome == write)
      && (pending.Ok? && write == Done && !(pending.value.Changed? && pending.value.items != map[]) ==>
            outcome == Done)
      && (pending.Ok? && write == Done && pending.value.Changed? && pending.value.items != map[] ==>
            var confirmed := store.find(ConfirmationFilter(pending.value.items, store.idName));
            outcome == if confirmed.Ok? then Done else Failed(confirmed.error))
  {
    outcome, delivered := Save(ctx, Options(properties, None), store, write);
  }
}
