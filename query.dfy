/** `query`, `get_timeseries_snuba_filter` and `timeseries_query`: the
    checks and filter rewrites around the backend call. The collaborators
    (field resolution, alias resolution, the function-alias naming, the
    backend itself) are parameters. */
module Query {
  import opened Common
  import opened SnubaTypes
  import opened Zerofill
  import opened Transform
  import opened Having

  /** What field-list resolution produces: the columns, aggregations and
      group-by to merge into the filter, and the function-alias map. */
  datatype ResolvedFields<F> = ResolvedFields(
    selectedColumns: seq<string>,
    aggregations: seq<Aggregation>,
    groupby: seq<string>,
    functions: map<string, F>)

  /** The helpers this layer calls and does not define. */
  datatype Collaborators<!F> = Collaborators(
    /** `get_function_alias`. */
    functionAlias: string -> string,
    /** `resolve_field_list(columns, filter, auto_fields, auto_aggregations)`. */
    resolveFields: (seq<string>, Filter, bool, bool) -> Result<ResolvedFields<F>>,
    /** `resolve_discover_aliases`: the rewritten filter and the translation map. */
    resolveAliases: Filter -> (Filter, map<string, string>),
    /** `get_json_meta_type`. */
    metaType: (string, Option<string>, Option<F>) -> string)

  /** The backend (`raw_query`): a request to rows and meta, or an error. */
  type Backend = SnubaRequest -> Result<RawResult>

  /** The keyword arguments of `query`. */
  datatype QueryOptions = QueryOptions(
    orderby: Option<seq<string>>,
    offset: Option<int>,
    limit: int,
    autoFields: bool,
    autoAggregations: bool,
    useAggregateConditions: bool,
    conditions: Option<seq<Condition>>)

  /** `snuba_filter.update_with(resolved_fields)`. */
  function UpdateWith<F>(f: Filter, rf: ResolvedFields<F>): (r: Filter)
    ensures r.selectedColumns == rf.selectedColumns && r.aggregations == rf.aggregations && r.groupby == rf.groupby
    ensures r.(selectedColumns := f.selectedColumns, aggregations := f.aggregations, groupby := f.groupby) == f
  {
    f.(selectedColumns := rf.selectedColumns, aggregations := rf.aggregations, groupby := rf.groupby)
  }

  function MapAlias(functionAlias: string -> string, orderby: seq<string>): (r: seq<string>)
    ensures |r| == |orderby| && forall i :: 0 <= i < |orderby| ==> r[i] == functionAlias(orderby[i])
  {
    seq(|orderby|, i requires 0 <= i < |orderby| => functionAlias(orderby[i]))
  }

  // ---------------------------------------------------------------------
  // `query`
  // ---------------------------------------------------------------------

  /** The filter after the steps before field resolution: having cleared
      when aggregate conditions are off, order-by in function-alias form
      when one is given. */
  function PrepareFilter<F>(f: Filter, opts: QueryOptions, c: Collaborators<F>): (r: Filter)
    ensures !opts.useAggregateConditions ==> r.having == []
    ensures opts.useAggregateConditions ==> r.having == f.having
    ensures r.orderby == if opts.orderby.Some? then MapAlias(c.functionAlias, opts.orderby.value) else f.orderby
    ensures r.(having := f.having, orderby := f.orderby) == f
  {
    var cleared := if !opts.useAggregateConditions then f.(having := []) else f;
    if opts.orderby.Some? then cleared.(orderby := MapAlias(c.functionAlias, opts.orderby.value)) else cleared
  }

  /** Everything `query` hands to the backend and to the result transformation. */
  datatype Plan<F> = Plan(filter: Filter, translated: map<string, string>, functions: map<string, F>)

  /** The steps of `query` up to the backend call, with the errors in the
      order they are raised. `parsed` is what `get_filter` gave. */
  function PlanQuery<F>(columns: seq<string>, parsed: Result<Filter>, opts: QueryOptions,
                        c: Collaborators<F>): (r: Result<Plan<F>>)
    ensures columns == [] ==> r == Fail(InvalidSearchQuery(NoColumnsSelected))
    ensures columns != [] && parsed.Fail? ==> r == Fail(parsed.error)
    ensures columns != [] && parsed.Ok? && !opts.useAggregateConditions && opts.autoAggregations
            ==> r == Fail(AutoAggregationsWithoutConditions)
    ensures r.Ok? ==> CheckHaving(r.value.filter.having, AggregateAliases(r.value.filter.aggregations),
                                  opts.autoAggregations).None?
  {
    if columns == [] then Fail(InvalidSearchQuery(NoColumnsSelected))
    else if parsed.Fail? then Fail(parsed.error)
    else if !opts.useAggregateConditions && opts.autoAggregations then Fail(AutoAggregationsWithoutConditions)
    else
      var f := PrepareFilter(parsed.value, opts, c);
      var rf := c.resolveFields(columns, f, opts.autoFields, opts.autoAggregations);
      if rf.Fail? then Fail(rf.error)
      else
        var (resolved, tm) := c.resolveAliases(UpdateWith(f, rf.value));
        var err := CheckHaving(resolved.having, AggregateAliases(resolved.aggregations), opts.autoAggregations);
        if err.Some? then Fail(InvalidSearchQuery(err.value))
        else
          var extended := if opts.conditions.Some? then resolved.(conditions := resolved.conditions + opts.conditions.value)
                          else resolved;
          Ok(Plan(extended, tm, rf.value.functions))
  }

  /** A having clause that fails the check fails the whole query, with the
      first failing clause's error. */
  lemma PlanQueryHavingFails<F>(columns: seq<string>, parsed: Result<Filter>, opts: QueryOptions, c: Collaborators<F>)
    requires columns != [] && parsed.Ok? && !(!opts.useAggregateConditions && opts.autoAggregations)
    requires c.resolveFields(columns, PrepareFilter(parsed.value, opts, c), opts.autoFields, opts.autoAggregations).Ok?
    ensures var rf := c.resolveFields(columns, PrepareFilter(parsed.value, opts, c), opts.autoFields, opts.autoAggregations);
            var resolved := c.resolveAliases(UpdateWith(PrepareFilter(parsed.value, opts, c), rf.value)).0;
            var err := CheckHaving(resolved.having, AggregateAliases(resolved.aggregations), opts.autoAggregations);
            err.Some? ==> PlanQuery(columns, parsed, opts, c) == Fail(InvalidSearchQuery(err.value))
  {
  }

  /** The backend request of `query`. */
  function QueryRequest(f: Filter, opts: QueryOptions): SnubaRequest
  {
    SnubaRequest(f.start, f.end, f.groupby, f.conditions, f.aggregations, f.selectedColumns, f.filterKeys,
                 f.having, f.orderby, Some(opts.limit), opts.offset, None, None, false, None)
  }

  /** What `query` returns or raises. */
  function QuerySpec<F>(columns: seq<string>, parsed: Result<Filter>, opts: QueryOptions,
                        c: Collaborators<F>, backend: Backend): (r: Result<Transformed>)
    ensures PlanQuery(columns, parsed, opts, c).Fail? ==> r == Fail(PlanQuery(columns, parsed, opts, c).error)
  {
    var p := PlanQuery(columns, parsed, opts, c);
    if p.Fail? then Fail(p.error)
    else
      var result := backend(QueryRequest(p.value.filter, opts));
      if result.Fail? then Fail(result.error)
      else TransformResultsSpec(result.value, p.value.functions, p.value.translated, p.value.filter, c.metaType)
  }

  method Query<F>(columns: seq<string>, parsed: Result<Filter>, opts: QueryOptions,
                  c: Collaborators<F>, backend: Backend) returns (r: Result<Transformed>)
    ensures r == QuerySpec(columns, parsed, opts, c, backend)
  {
    if columns == [] {
      return Fail(InvalidSearchQuery(NoColumnsSelected));
    }
    if parsed.Fail? {
      return Fail(parsed.error);
    }
    var snubaFilter := parsed.value;
    if !opts.useAggregateConditions {
      if opts.autoAggregations {
        return Fail(AutoAggregationsWithoutConditions);
      }
      snubaFilter := snubaFilter.(having := []);
    }
    if opts.orderby.Some? {
      snubaFilter := snubaFilter.(orderby := MapAlias(c.functionAlias, opts.orderby.value));
    }
    var resolvedFields := c.resolveFields(columns, snubaFilter, opts.autoFields, opts.autoAggregations);
    if resolvedFields.Fail? {
      return Fail(resolvedFields.error);
    }
    snubaFilter := UpdateWith(snubaFilter, resolvedFields.value);
    var aliased := c.resolveAliases(snubaFilter);
    var translated := aliased.1;
    snubaFilter := aliased.0;
    var err := ValidateHaving(snubaFilter.having, snubaFilter.aggregations, opts.autoAggregations);
    if err.Some? {
      return Fail(InvalidSearchQuery(err.value));
    }
    if opts.conditions.Some? {
      snubaFilter := snubaFilter.(conditions := snubaFilter.conditions + opts.conditions.value);
    }
    var result := backend(QueryRequest(snubaFilter, opts));
    if result.Fail? {
      return Fail(result.error);
    }
    r := TransformResults(result.value, resolvedFields.value.functions, translated, snubaFilter, c.metaType);
  }

  /** A clause on an alias no aggregation carries makes `query` fail naming
      that alias; the same query with the alias among the aggregations gets
      past validation. */
  lemma QueryRejectsUnselectedAggregate<F>(columns: seq<string>, parsed: Result<Filter>, opts: QueryOptions,
                                           c: Collaborators<F>, alias: string)
    requires columns != [] && parsed.Ok?
    requires opts.useAggregateConditions
    requires var f := PrepareFilter(parsed.value, opts, c);
             var rf := c.resolveFields(columns, f, opts.autoFields, opts.autoAggregations);
             rf.Ok? &&
             var resolved := c.resolveAliases(UpdateWith(f, rf.value)).0;
             resolved.having == [HavingClause(AliasRef(alias), ">", VInt(0))]
    ensures var resolved := c.resolveAliases(UpdateWith(PrepareFilter(parsed.value, opts, c),
                              c.resolveFields(columns, PrepareFilter(parsed.value, opts, c), opts.autoFields,
                                              opts.autoAggregations).value)).0;
            PlanQuery(columns, parsed, opts, c).Fail? <==> alias !in AggregateAliases(resolved.aggregations)
    ensures var resolved := c.resolveAliases(UpdateWith(PrepareFilter(parsed.value, opts, c),
                              c.resolveFields(columns, PrepareFilter(parsed.value, opts, c), opts.autoFields,
                                              opts.autoAggregations).value)).0;
            alias !in AggregateAliases(resolved.aggregations) ==>
              PlanQuery(columns, parsed, opts, c)
              == Fail(InvalidSearchQuery(AggregateNotSelected(alias, opts.autoAggregations)))
  {
    var f := PrepareFilter(parsed.value, opts, c);
    var rf := c.resolveFields(columns, f, opts.autoFields, opts.autoAggregations);
    var resolved := c.resolveAliases(UpdateWith(f, rf.value)).0;
    var aliases := AggregateAliases(resolved.aggregations);
    assert CheckHaving(resolved.having, aliases, opts.autoAggregations)
           == ClauseError(resolved.having[0], aliases, opts.autoAggregations);
  }

  // ---------------------------------------------------------------------
  // Timeseries
  // ---------------------------------------------------------------------

  /** `get_timeseries_snuba_filter`: the resolved filter and translation map.
      It raises when the filter has neither a start nor an end (one of the
      two is enough to pass), or when no aggregation remains. */
  function TimeseriesFilter<F>(columns: seq<string>, parsed: Result<Filter>, c: Collaborators<F>,
                               defaultCount: bool): (r: Result<(Filter, map<string, string>)>)
    ensures parsed.Ok? && parsed.value.start.None? && parsed.value.end.None?
            ==> r == Fail(InvalidSearchQuery(NoTimeRange))
    ensures r.Ok? ==> r.value.0.aggregations != []
  {
    if parsed.Fail? then Fail(parsed.error)
    else
      var f := parsed.value;
      if f.start.None? && f.end.None? then Fail(InvalidSearchQuery(NoTimeRange))
      else
        var rf := c.resolveFields(columns, f, false, false);
        if rf.Fail? then Fail(rf.error)
        else
          var (resolved, tm) := c.resolveAliases(UpdateWith(f, rf.value));
          if resolved.aggregations == [] then Fail(InvalidSearchQuery(NoAggregation))
          else Ok((Relabel(resolved, defaultCount), tm))
  }

  /** With exactly one aggregation and default counting, its alias becomes "count". */
  function Relabel(f: Filter, defaultCount: bool): (r: Filter)
    requires f.aggregations != []
    ensures |r.aggregations| == |f.aggregations|
    ensures r.(aggregations := f.aggregations) == f
    ensures |f.aggregations| == 1 && defaultCount ==>
              r.aggregations == [f.aggregations[0].(alias := "count")]
    ensures !(|f.aggregations| == 1 && defaultCount) ==> r == f
  {
    if |f.aggregations| == 1 && defaultCount then f.(aggregations := [f.aggregations[0].(alias := "count")])
    else f
  }

  /** Raises exactly when both bounds are missing, a collaborator fails, or
      resolution leaves no aggregation; otherwise only the single
      aggregation's alias can differ from the resolved filter. */
  lemma TimeseriesFilterOutcome<F>(columns: seq<string>, f: Filter, c: Collaborators<F>, defaultCount: bool)
    requires c.resolveFields(columns, f, false, false).Ok?
    ensures var resolved := c.resolveAliases(UpdateWith(f, c.resolveFields(columns, f, false, false).value));
            var r := TimeseriesFilter(columns, Ok(f), c, defaultCount);
            && (r.Fail? <==> (f.start.None? && f.end.None?) || resolved.0.aggregations == [])
            && (r.Ok? ==> r.value == (Relabel(resolved.0, defaultCount), resolved.1))
  {
  }

  /** `SnubaTSResult`: zerofilled rows with the range and rollup. */
  datatype TSResult = TSResult(data: seq<Row>, start: Option<int>, end: Option<int>, rollup: int)

  /** The backend request of a timeseries query: grouped and ordered by
      time, capped at 10000 rows. */
  function TimeseriesRequest(f: Filter, rollup: int): SnubaRequest
  {
    SnubaRequest(f.start, f.end, ["time"], f.conditions, f.aggregations, [], f.filterKeys, [], ["time"],
                 Some(10000), None, Some(rollup), None, false, None)
  }

  /** What `timeseries_query` returns or raises. */
  function TimeseriesQuerySpec<F>(columns: seq<string>, parsed: Result<Filter>, rollup: int,
                                  c: Collaborators<F>, backend: Backend): (r: Result<TSResult>)
    requires rollup > 0
    ensures r.Ok? ==> r.value.rollup == rollup
    ensures r.Ok? ==> r.value.start.Some? && r.value.end.Some?
    ensures r.Ok? ==> var tf := TimeseriesFilter(columns, parsed, c, true);
                      tf.Ok? && (var f := tf.value.0;
                                 var result := backend(TimeseriesRequest(f, rollup));
                                 && result.Ok? && f.start.Some? && f.end.Some?
                                 && r.value.data == ZerofillSpec(result.value.data, f.start.value, f.end.value, rollup, ["time"]))
  {
    var tf := TimeseriesFilter(columns, parsed, c, true);
    if tf.Fail? then Fail(tf.error)
    else
      var f := tf.value.0;
      var result := backend(TimeseriesRequest(f, rollup));
      if result.Fail? then Fail(result.error)
      else
        var filled := ZerofillOrFail(result.value.data, f.start, f.end, rollup, ["time"]);
        if filled.Fail? then Fail(filled.error)
        else Ok(TSResult(filled.value, f.start, f.end, rollup))
  }

  method TimeseriesQuery<F>(columns: seq<string>, parsed: Result<Filter>, rollup: int,
                            c: Collaborators<F>, backend: Backend) returns (r: Result<TSResult>)
    requires rollup > 0
    ensures r == TimeseriesQuerySpec(columns, parsed, rollup, c, backend)
  {
    var tf := TimeseriesFilter(columns, parsed, c, true);
    if tf.Fail? {
      return Fail(tf.error);
    }
    var snubaFilter := tf.value.0;
    var result := backend(TimeseriesRequest(snubaFilter, rollup));
    if result.Fail? {
      return Fail(result.error);
    }
    var filled := ZerofillChecked(result.value.data, snubaFilter.start, snubaFilter.end, rollup, ["time"]);
    if filled.Fail? {
      return Fail(filled.error);
    }
    r := Ok(TSResult(filled.value, snubaFilter.start, snubaFilter.end, rollup));
  }

  /** A filter with only one bound passes the range check but the zerofill
      of the backend rows then fails on the missing bound. */
  lemma OneSidedRangeFailsLater<F>(columns: seq<string>, f: Filter, rollup: int,
                                   c: Collaborators<F>, backend: Backend)
    requires rollup > 0
    requires f.start.Some? != f.end.Some?
    requires TimeseriesFilter(columns, Ok(f), c, true).Ok?
    requires var g := TimeseriesFilter(columns, Ok(f), c, true).value.0;
             (g.start.Some? != g.end.Some?) && backend(TimeseriesRequest(g, rollup)).Ok?
    ensures TimeseriesQuerySpec(columns, Ok(f), rollup, c, backend) == Fail(MissingTimestamp)
  {
  }

  // ---------------------------------------------------------------------
  // Small helpers
  // ---------------------------------------------------------------------

  /** `is_real_column`: a column to fetch, neither an aggregate function nor
      a field alias. */
  function IsRealColumn(col: string, isFunction: string -> bool, fieldAliases: set<string>): (r: bool)
    ensures r <==> !isFunction(col) && col !in fieldAliases
  {
    if isFunction(col) then false
    else if col in fieldAliases then false
    else true
  }

  /** `get_id`: the second element of a non-empty result, else None; a
      one-element result has no second element. */
  function GetId<T>(result: seq<T>): (r: Result<Option<T>>)
    ensures result == [] ==> r == Ok(None)
    ensures |result| == 1 ==> r == Fail(IndexOutOfRange)
    ensures |result| >= 2 ==> r == Ok(Some(result[1]))
  {
    if result == [] then Ok(None)
    else if |result| < 2 then Fail(IndexOutOfRange)
    else Ok(Some(result[1]))
  }
}
