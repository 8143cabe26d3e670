/**
 * The two observers the mixin registers: "before save" decides which of the
 * three update shapes is in play and stores its change set in
 * `ctx.hookState.changedItems`; "after save" hands a non-empty change set to
 * the configured model callback.
 */
module Lifecycle {
  import opened JsValues
  import opened Storage
  import opened RecordDiff
  import opened BulkQuery

  /** `ctx.hookState.changedItems`: unset, the `[]` placeholder, `false`, or an id -> entry object. */
  datatype ChangedItems = Unset | Placeholder | NoChanges | Items(changes: ChangeMap)

  /** JavaScript truthiness of `changedItems` (`[]` and `{}` are truthy, `false` is not). */
  predicate IsTruthy(c: ChangedItems) {
    c.Placeholder? || c.Items?
  }

  /** `changedItems && !_.isEmpty(changedItems)`. */
  predicate HasChanges(c: ChangedItems) {
    c.Items? && c.changes != map[]
  }

  function FromDiff(d: Diff): (c: ChangedItems)
    ensures HasChanges(c) <==> d.Changed? && d.items != map[]
  {
    match d
    case NoChange => NoChanges
    case Changed(m) => Items(m)
  }

  /** The per-operation `ctx.hookState`, shared by the two observers of one save. */
  class HookState {
    var changedItems: ChangedItems

    constructor()
      ensures changedItems == Unset
    {
      changedItems := Unset;
    }
  }

  /** The observer context: `instance`, `isNewInstance`, `currentInstance`, `data`, `where`. */
  datatype SaveContext = SaveContext(
    instance: Option<JsObject>,
    isNewInstance: bool,
    currentInstance: Option<JsObject>,
    data: JsObject,
    where: Option<Where>)

  /**
   * The mixin options: the watched properties (an object whose keys are the
   * names) and the model function named by `callback`, if it is one.
   */
  datatype Options = Options(properties: JsObject, callback: Option<ChangeMap -> Outcome>)

  /** The update shapes "before save" tells apart, in the order it tests them. */
  datatype SavePath = NewInstance | PatchUpdate(current: JsObject) | SelfDiff(instance: JsObject) | BulkUpdate

  function Classify(ctx: SaveContext): (p: SavePath)
    ensures p.NewInstance? <==> ctx.instance.Some? && ctx.isNewInstance
    ensures p.BulkUpdate? <==> ctx.instance.None? && ctx.currentInstance.None?
    ensures p.PatchUpdate? <==> !p.NewInstance? && ctx.currentInstance.Some?
    ensures p.PatchUpdate? ==> p.current == ctx.currentInstance.value
    ensures p.SelfDiff? ==> ctx.currentInstance.None? && p.instance == ctx.instance.value
  {
    if ctx.instance.Some? && ctx.isNewInstance then NewInstance
    else if ctx.currentInstance.Some? then PatchUpdate(ctx.currentInstance.value)
    else if ctx.instance.Some? then SelfDiff(ctx.instance.value)
    else BulkUpdate
  }

  /**
   * The change set "before save" computes for an update, watching the keys
   * of `options.properties`.
   */
  function PendingChanges(ctx: SaveContext, options: Options, store: Store): Result<Diff>
    requires !Classify(ctx).NewInstance?
  {
    var properties := options.properties.keys;
    match Classify(ctx)
    case PatchUpdate(current) => Ok(ChangedProperties(current, ctx.data, properties, store.idName))
    case SelfDiff(instance) => SelfDiffChanges(instance, instance, properties, store)
    case BulkUpdate => BulkChanges(ctx.where, ctx.data, properties, store)
  }

  /** The "before save" observer; its outcome is what it passes to `next`. */
  method BeforeSave(ctx: SaveContext, options: Options, store: Store, hookState: HookState)
    returns (outcome: Outcome)
    modifies hookState
    ensures Classify(ctx).NewInstance? ==>
      outcome == Done && hookState.changedItems == old(hookState.changedItems)
    ensures !Classify(ctx).NewInstance? && PendingChanges(ctx, options, store).Ok? ==>
      outcome == Done && hookState.changedItems == FromDiff(PendingChanges(ctx, options, store).value)
    ensures !Classify(ctx).NewInstance? && PendingChanges(ctx, options, store).Err? ==>
      && outcome == Failed(PendingChanges(ctx, options, store).error)
      && hookState.changedItems
         == if IsTruthy(old(hookState.changedItems)) then old(hookState.changedItems) else Placeholder
  {
    if ctx.instance.Some? && ctx.isNewInstance {
      return Done;
    }
    if !IsTruthy(hookState.changedItems) {
      hookState.changedItems := Placeholder;
    }
    var properties := options.properties.keys;
    var changed: Result<Diff>;
    if ctx.currentInstance.Some? {
      var d := GetChangedProperties(ctx.currentInstance.value, ctx.data, properties, store.idName);
      changed := Ok(d);
    } else if ctx.instance.Some? {
      changed := ItemHasChangedProperties(ctx.instance.value, ctx.instance.value, properties, store);
    } else {
      changed := ItemsWithChangedProperties(ctx.where, ctx.data, properties, store);
    }
    match changed {
      case Ok(d) =>
        hookState.changedItems := FromDiff(d);
        outcome := Done;
      case Err(e) =>
        outcome := Failed(e);
    }
  }

  /** `Model.extractChangedItemIds(items)`: the id of each item, in order. */
  function ExtractChangedItemIds(items: seq<JsObject>, idName: string): (ids: seq<Value>)
    ensures |ids| == |items|
    ensures forall i :: 0 <= i < |items| ==> ids[i] == Get(items[i], idName)
    decreases |items|
  {
    if items == [] then []
    else ExtractChangedItemIds(items[..|items| - 1], idName) + [Get(items[|items| - 1], idName)]
  }

  /**
   * The confirmation query "after save" sends: the ids of the change map,
   * matched against the property literally named `id`.
   */
  function ConfirmationFilter(changes: ChangeMap, idName: string): Filter {
    Filter([idName], Field("id", Inq(changes.Keys)))
  }

  /**
   * The "after save" observer. `delivered` is the argument the callback was
   * called with, if it was called: the stored change set itself, whatever
   * the confirmation query found.
   */
  method AfterSave(options: Options, store: Store, hookState: HookState)
    returns (outcome: Outcome, delivered: Option<ChangeMap>)
    ensures !HasChanges(hookState.changedItems) ==> outcome == Done && delivered == None
    ensures HasChanges(hookState.changedItems) ==>
      var changes := hookState.changedItems.changes;
      var confirmed := store.find(ConfirmationFilter(changes, store.idName));
      && (confirmed.Err? ==> outcome == Failed(confirmed.error) && delivered == None)
      && (confirmed.Ok? && options.callback.None? ==> outcome == Done && delivered == None)
      && (confirmed.Ok? && options.callback.Some? ==>
            delivered == Some(changes) && outcome == options.callback.value(changes))
  {
    if !HasChanges(hookState.changedItems) {
      return Done, None;
    }
    var changedItems := hookState.changedItems.changes;
    var found := store.find(ConfirmationFilter(changedItems, store.idName));
    if found.Err? {
      return Failed(found.error), None;
    }
    var itemIds := ExtractChangedItemIds(found.value, store.idName);
    // The surviving ids are computed but not used: nothing is trimmed.
    var callbackItems := changedItems;
    match options.callback {
      case None =>
        outcome, delivered := Done, None;
      case Some(callback) =>
        outcome, delivered := callback(callbackItems), Some(callbackItems);
    }
  }

  /**
   * One save operation: a fresh hook state, "before save", the write itself
   * (whose outcome is given), then "after save" if both succeeded.
   */
  method Save(ctx: SaveContext, options: Options, store: Store, write: Outcome)
    returns (outcome: Outcome, delivered: Option<ChangeMap>)
    ensures Classify(ctx).NewInstance? ==> delivered == None
    ensures Classify(ctx).NewInstance? ==> outcome == write
    ensures !Classify(ctx).NewInstance? && PendingChanges(ctx, options, store).Err? ==>
      outcome == Failed(PendingChanges(ctx, options, store).error) && delivered == None
    ensures delivered.Some? ==>
      && !Classify(ctx).NewInstance?
      && PendingChanges(ctx, options, store) == Ok(Changed(delivered.value))
      && delivered.value != map[]
      && write == Done
      && options.callback.Some?
    ensures !Classify(ctx).NewInstance? && PendingChanges(ctx, options, store).Ok? && write.Failed? ==>
      outcome == write && delivered == None
    ensures !Classify(ctx).NewInstance? && write == Done ==>
      var pending := PendingChanges(ctx, options, store);
      pending.Ok? && !(pending.value.Changed? && pending.value.items != map[]) ==>
        outcome == Done && delivered == None
    ensures !Classify(ctx).NewInstance? && write == Done ==>
      var pending := PendingChanges(ctx, options, store);
      pending.Ok? && pending.value.Changed? && pending.value.items != map[] ==>
        var changes := pending.value.items;
        var confirmed := store.find(ConfirmationFilter(changes, store.idName));
        && (confirmed.Err? ==> outcome == Failed(confirmed.error) && delivered == None)
        && (confirmed.Ok? && options.callback.None? ==> outcome == Done && delivered == None)
        && (confirmed.Ok? && options.callback.Some? ==>
              delivered == Some(changes) && outcome == options.callback.value(changes))
  {
    var hookState := new HookState();
    var before := BeforeSave(ctx, options, store, hookState);
    if before.Failed? {
      return before, None;
    }
    if write.Failed? {
      return write, None;
    }
    outcome, delivered := AfterSave(options, store, hookState);
  }
}
