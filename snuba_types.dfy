/** The query-building records that the Discover layer hands to the
    backend, and the raw results it gets back. */
module SnubaTypes {
  import opened Common

  /** A result row: column name to value, in column order. */
  type Row = Dict<Value>

  /** One entry of a result's `meta` list: a column name and the type the
      backend reported, if any. */
  datatype ColumnMeta = ColumnMeta(name: string, typ: Option<string>)

  /** What a backend query returns: rows and per-column metadata. */
  datatype RawResult = RawResult(data: seq<Row>, meta: seq<ColumnMeta>)

  /** A column reference or a function applied to terms (`isNull(col)`). */
  datatype Term = Column(name: string) | Apply(fn: string, args: seq<Term>)

  /** A backend condition `[lhs, op, rhs]`; a list of conditions nested in the
      condition list is their disjunction. */
  datatype Condition =
    | Compare(lhs: Term, op: string, rhs: Value)
    | AnyOf(disjuncts: seq<Condition>)

  /** An aggregation `[function, argument, alias]`; its last element is the alias. */
  datatype Aggregation = Aggregation(fn: string, argument: Value, alias: string)

  datatype BoolOp = And | Or

  /** An argument met while walking a nested having expression. A function
      whose name is the AND or OR combinator is a Combinator; each element of
      its argument list is itself walked as a list of arguments. Any other
      function is a Call, and only the first element of its argument list
      matters (None when its arguments are not a list). */
  datatype HavingArg =
    | Combinator(op: BoolOp, operands: seq<ArgList>)
    | Call(firstArg: Option<string>)

  datatype ArgList = ArgList(args: seq<HavingArg>)

  /** The first element of a having clause: a plain aggregate alias, or a
      function expression in the `[fn, [args]]` form. */
  datatype HavingLhs = AliasRef(alias: string) | Nested(expr: HavingArg)

  datatype HavingClause = HavingClause(lhs: HavingLhs, op: string, rhs: Value)

  /** The query-building context, in backend (physical) names once resolved.
      Timestamps are whole seconds since the epoch. */
  datatype Filter = Filter(
    start: Option<int>,
    end: Option<int>,
    rollup: Option<int>,
    conditions: seq<Condition>,
    having: seq<HavingClause>,
    aggregations: seq<Aggregation>,
    selectedColumns: seq<string>,
    groupby: seq<string>,
    orderby: seq<string>,
    filterKeys: map<string, seq<Value>>)

  /** The arguments of one backend call (referrer and dataset left out). */
  datatype SnubaRequest = SnubaRequest(
    start: Option<int>,
    end: Option<int>,
    groupby: seq<string>,
    conditions: seq<Condition>,
    aggregations: seq<Aggregation>,
    selectedColumns: seq<string>,
    filterKeys: map<string, seq<Value>>,
    having: seq<HavingClause>,
    orderby: seq<string>,
    limit: Option<int>,
    offset: Option<int>,
    rollup: Option<int>,
    sample: Option<real>,
    turbo: bool,
    limitBy: Option<(int, string)>)

  /** The aliases of a list of aggregations (each one's last element). */
  function AggregateAliases(aggregations: seq<Aggregation>): (s: set<string>)
    ensures forall i :: 0 <= i < |aggregations| ==> aggregations[i].alias in s
    ensures forall a :: a in s ==> exists i :: 0 <= i < |aggregations| && aggregations[i].alias == a
  {
    set i | 0 <= i < |aggregations| :: aggregations[i].alias
  }

  /** `name.get(k, k)` on a translation map. */
  function Translate(translation: map<string, string>, name: string): string
  {
    if name in translation then translation[name] else name
  }
}
