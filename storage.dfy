/**
 * The storage collaborator as the mixin sees it: the query filters it builds,
 * and `find` / `findById` / the id property name of the model. The storage
 * engine itself is not modelled: its answers are inputs.
 */
module Storage {
  import opened JsValues

  /** The operator of a per-property condition: `{eq: v}`, `{neq: v}`, `{inq: [...]}`. */
  datatype Op = Eq(value: Value) | Neq(value: Value) | Inq(keys: set<string>)

  /**
   * A where clause: `{}` (matches every record), `{prop: {op}}`,
   * `{and: [...]}` or `{or: [...]}`.
   */
  datatype Where =
    | All
    | Field(prop: string, op: Op)
    | And(conjuncts: seq<Where>)
    | Or(disjuncts: seq<Where>)

  /** A query `{fields: [...], where: {...}}`. */
  datatype Filter = Filter(fields: seq<string>, where: Where)

  /**
   * The model's storage as the mixin uses it. `find` and `findById` stand for
   * the results the storage would give (or the error it would raise); a
   * `findById` answer of `None` is JavaScript's `null`, "no such record".
   */
  datatype Store = Store(
    idName: string,
    find: Filter -> Result<seq<JsObject>>,
    findById: Value -> Result<Option<JsObject>>)
}
