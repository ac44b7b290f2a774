/** Facet planning (`get_facets`): the most frequent tag keys, the sampling
    decision, the split of tags into individually and jointly queried ones,
    and the rescaled facet counts. */
module Facets {
  import opened Common
  import opened SnubaTypes
  import opened Query

  /** `FacetResult(key, value, count)`. */
  datatype FacetResult = FacetResult(key: Value, value: Value, count: int)

  /** The configuration values and helpers the code reads from outside:
      `discover2.tags_facet_enable_sampling`, `discover2.max_tags_to_combine`,
      `TOP_VALUES_DEFAULT_LIMIT`, and `str` on a tag key. */
  datatype FacetsConfig = FacetsConfig(
    samplingEnabled: bool,
    maxTagsToCombine: int,
    topValuesLimit: int,
    text: Value -> string)

  const CountAggregation := Aggregation("count", VNone, "count")

  // ---------------------------------------------------------------------
  // Reading result rows
  // ---------------------------------------------------------------------

  /** `r[col]`: a KeyError when the row lacks the column. */
  function Field(row: Row, col: string): (r: Result<Value>)
    ensures r.Ok? <==> HasKey(row, col)
    ensures r.Ok? ==> Get(row, col) == Some(r.value)
    ensures r.Fail? ==> r.error == MissingKey(col)
  {
    match Get(row, col)
    case None => Fail(MissingKey(col))
    case Some(v) => Ok(v)
  }

  /** `int(r["count"])`. */
  function Count(row: Row): (r: Result<int>)
    ensures r.Ok? <==> HasKey(row, "count") && PyInt(Get(row, "count").value, "count").Ok?
    ensures r.Ok? ==> r == PyInt(Get(row, "count").value, "count")
    ensures !HasKey(row, "count") ==> r == Fail(MissingKey("count"))
  {
    match Get(row, "count")
    case None => Fail(MissingKey("count"))
    case Some(v) => PyInt(v, "count")
  }

  /** Where a facet's key comes from: a fixed key, or a column of the row. */
  datatype FacetKey = Fixed(key: Value) | FromColumn(col: string)

  /** The facet of one row: key, value and count read in that order, the
      count truncated to an integer and then rescaled. */
  function RowFacet(row: Row, key: FacetKey, valueCol: string, multiplier: int): (r: Result<FacetResult>)
    ensures r.Ok? ==> (key.Fixed? ==> r.value.key == key.key)
    ensures r.Ok? ==> Count(row).Ok? && r.value.count == Count(row).value * multiplier
    ensures r.Ok? ==> Get(row, valueCol) == Some(r.value.value)
  {
    var k := if key.Fixed? then Ok(key.key) else Field(row, key.col);
    if k.Fail? then Fail(k.error)
    else
      var v := Field(row, valueCol);
      if v.Fail? then Fail(v.error)
      else
        var n := Count(row);
        if n.Fail? then Fail(n.error) else Ok(FacetResult(k.value, v.value, n.value * multiplier))
  }

  /** The facets of all rows, in row order; the first bad row raises. */
  function RowFacets(rows: seq<Row>, key: FacetKey, valueCol: string, multiplier: int): (r: Result<seq<FacetResult>>)
    ensures r.Ok? ==> |r.value| == |rows|
    ensures r.Ok? ==> forall i :: 0 <= i < |rows| ==> RowFacet(rows[i], key, valueCol, multiplier) == Ok(r.value[i])
    ensures r.Fail? <==> exists i :: 0 <= i < |rows| && RowFacet(rows[i], key, valueCol, multiplier).Fail?
  {
    if rows == [] then Ok([])
    else
      var n := |rows| - 1;
      var pre := RowFacets(rows[..n], key, valueCol, multiplier);
      var last := RowFacet(rows[n], key, valueCol, multiplier);
      assert forall i :: 0 <= i < n ==> rows[..n][i] == rows[i];
      if pre.Fail? then pre
      else if last.Fail? then Fail(last.error)
      else Ok(pre.value + [last.value])
  }

  /** `[r["tags_key"] for r in data]`. */
  function TagKeys(rows: seq<Row>): (r: Result<seq<Value>>)
    ensures r.Ok? ==> |r.value| == |rows|
    ensures r.Ok? ==> forall i :: 0 <= i < |rows| ==> Get(rows[i], "tags_key") == Some(r.value[i])
    ensures r.Fail? <==> exists i :: 0 <= i < |rows| && !HasKey(rows[i], "tags_key")
  {
    if rows == [] then Ok([])
    else
      var n := |rows| - 1;
      var pre := TagKeys(rows[..n]);
      var last := Field(rows[n], "tags_key");
      assert forall i :: 0 <= i < n ==> rows[..n][i] == rows[i];
      if pre.Fail? then pre
      else if last.Fail? then Fail(last.error)
      else Ok(pre.value + [last.value])
  }

  // ---------------------------------------------------------------------
  // Sampling, the dropped tag and the partition
  // ---------------------------------------------------------------------

  /** A value Python 3 can order against an integer: a number or a bool. */
  predicate Comparable(v: Value)
  {
    v.VBool? || v.VInt? || v.VFloat? || v.VNaN?
  }

  /** A count compared with 10000 as Python compares numbers (a bool counts
      as 0 or 1, and NaN exceeds nothing). */
  predicate Exceeds(v: Value, bound: int)
  {
    (v.VBool? && (if v.b then 1 else 0) > bound) || (v.VInt? && v.i > bound) || (v.VFloat? && v.r > bound as real)
  }

  /** The sample rate: 0.1 when sampling is enabled and the first tag's
      count exceeds 10000, otherwise none. The count is only read when
      sampling is enabled. */
  function SampleRate(samplingEnabled: bool, first: Row): (r: Result<Option<real>>)
    ensures !samplingEnabled ==> r == Ok(None)
    ensures r.Ok? ==> (r.value.Some? <==>
                         samplingEnabled && HasKey(first, "count") && Exceeds(Get(first, "count").value, 10000))
    ensures r.Ok? && r.value.Some? ==> r.value.value == 1.0 / 10.0
    ensures r.Fail? <==> samplingEnabled && (!HasKey(first, "count") || !Comparable(Get(first, "count").value))
    ensures r.Fail? ==> r.error == if HasKey(first, "count") then NotComparable("count") else MissingKey("count")
  {
    if !samplingEnabled then Ok(None)
    else
      match Get(first, "count")
      case None => Fail(MissingKey("count"))
      case Some(v) =>
        if !Comparable(v) then Fail(NotComparable("count"))
        else Ok(if Exceeds(v, 10000) then Some(1.0 / 10.0) else None)
  }

  /** `1 / sample_rate`, which is exactly 10 for the only rate used, or 1. */
  function Multiplier(rate: Option<real>): (m: int)
    ensures m == 1 <==> rate.None?
  {
    if rate.Some? then 10 else 1
  }

  /** The tags kept: with several projects the last tag is dropped when
      exactly `limit` tags came back, to make room for the project facet. */
  function KeptTags(topTags: seq<Value>, fetchProjects: bool, limit: int): (r: seq<Value>)
    requires topTags != []
    ensures |r| <= |topTags| && r == topTags[..|r|]
    ensures |r| == if fetchProjects && |topTags| == limit then |topTags| - 1 else |topTags|
  {
    if fetchProjects && |topTags| == limit then topTags[..|topTags| - 1] else topTags
  }

  /** The tag queried on its own whatever its position. */
  const Environment := VStr("environment")

  /** The split of the first `n` tags into individual and aggregate ones:
      "environment" is individual, a tag among the last `maxAggregate` of
      all tags is aggregate, any other is individual. */
  function Split(tags: seq<Value>, n: nat, maxAggregate: int): (p: (seq<Value>, seq<Value>))
    requires n <= |tags|
    ensures |p.0| + |p.1| == n
  {
    if n == 0 then ([], [])
    else
      var pre := Split(tags, n - 1, maxAggregate);
      var tag := tags[n - 1];
      if tag == Environment then (pre.0 + [tag], pre.1)
      else if n - 1 >= |tags| - maxAggregate then (pre.0, pre.1 + [tag])
      else (pre.0 + [tag], pre.1)
  }

  /** The two lists together hold exactly the tags, and "environment" is
      never an aggregate tag. */
  lemma SplitPartitions(tags: seq<Value>, n: nat, maxAggregate: int)
    requires n <= |tags|
    ensures multiset(Split(tags, n, maxAggregate).0) + multiset(Split(tags, n, maxAggregate).1) == multiset(tags[..n])
    ensures Environment !in Split(tags, n, maxAggregate).1
  {
    SplitPerm(tags, n, maxAggregate);
    SplitNoEnvironment(tags, n, maxAggregate);
  }

  /** The split neither loses nor adds a tag. */
  lemma {:induction false} SplitPerm(tags: seq<Value>, n: nat, maxAggregate: int)
    requires n <= |tags|
    ensures multiset(Split(tags, n, maxAggregate).0) + multiset(Split(tags, n, maxAggregate).1) == multiset(tags[..n])
  {
    if n > 0 {
      var pre := Split(tags, n - 1, maxAggregate);
      var tag := tags[n - 1];
      SplitPerm(tags, n - 1, maxAggregate);
      PrefixMultisetStep(tags, n);
      AppendOneMultiset(pre.0, pre.1, multiset(tags[..n - 1]), tag);
    }
  }

  /** Appending `x` to either list adds `x` to the lists' combined multiset. */
  lemma AppendOneMultiset<T>(a: seq<T>, b: seq<T>, whole: multiset<T>, x: T)
    requires multiset(a) + multiset(b) == whole
    ensures multiset(a + [x]) + multiset(b) == whole + multiset{x}
    ensures multiset(a) + multiset(b + [x]) == whole + multiset{x}
  {
  }

  /** "environment" is never put with the aggregate tags. */
  lemma {:induction false} SplitNoEnvironment(tags: seq<Value>, n: nat, maxAggregate: int)
    requires n <= |tags|
    ensures Environment !in Split(tags, n, maxAggregate).1
  {
    if n > 0 {
      var pre := Split(tags, n - 1, maxAggregate);
      var tag := tags[n - 1];
      SplitNoEnvironment(tags, n - 1, maxAggregate);
      if tag != Environment && n - 1 >= |tags| - maxAggregate {
        InLast(pre.1 + [tag], Environment);
        assert (pre.1 + [tag])[..|pre.1|] == pre.1;
      }
    }
  }

  lemma PrefixMultisetStep(tags: seq<Value>, n: nat)
    requires 0 < n <= |tags|
    ensures multiset(tags[..n]) == multiset(tags[..n - 1]) + multiset{tags[n - 1]}
  {
    assert tags[..n] == tags[..n - 1] + [tags[n - 1]];
  }

  /** The first tag position that is aggregate when "environment" is absent. */
  function AggregateFrom(count: int, maxAggregate: int): (k: int)
    requires count >= 0
    ensures 0 <= k <= count
  {
    if count - maxAggregate < 0 then 0 else if count - maxAggregate > count then count else count - maxAggregate
  }

  /** Without "environment", the individual tags are the leading ones and the
      aggregate tags are the last `maxAggregate` (all of them when there
      are fewer), both in their original order. */
  lemma {:induction false} SplitWithoutEnvironment(tags: seq<Value>, n: nat, maxAggregate: int)
    requires n <= |tags|
    requires Environment !in tags
    ensures var k := AggregateFrom(|tags|, maxAggregate);
            Split(tags, n, maxAggregate) == if n <= k then (tags[..n], []) else (tags[..k], tags[k..n])
  {
    var k := AggregateFrom(|tags|, maxAggregate);
    if n > 0 {
      SplitWithoutEnvironment(tags, n - 1, maxAggregate);
      assert tags[n - 1] in tags;
      assert tags[..n] == tags[..n - 1] + [tags[n - 1]];
      if n - 1 >= k {
        assert tags[k..n] == tags[k..n - 1] + [tags[n - 1]];
      }
    }
  }

  /** The partition loop. */
  method PartitionTags(tags: seq<Value>, maxAggregate: int) returns (individual: seq<Value>, aggregate: seq<Value>)
    ensures (individual, aggregate) == Split(tags, |tags|, maxAggregate)
  {
    individual, aggregate := [], [];
    for i := 0 to |tags|
      invariant (individual, aggregate) == Split(tags, i, maxAggregate)
    {
      var tag := tags[i];
      if tag == Environment {
        individual := individual + [tag];
      } else if i >= |tags| - maxAggregate {
        aggregate := aggregate + [tag];
      } else {
        individual := individual + [tag];
      }
    }
  }

  // ---------------------------------------------------------------------
  // The backend requests
  // ---------------------------------------------------------------------

  /** Tracing tags and `project` are excluded from the key query. */
  const ExcludedTags := HavingClause(AliasRef("tags_key"), "NOT IN",
                                     VList([VStr("trace"), VStr("trace.ctx"), VStr("trace.span"), VStr("project")]))

  /** The most frequent tag keys, in `turbo` mode when sampling. */
  function KeyNamesRequest(f: Filter, limit: int, sample: bool): SnubaRequest
  {
    SnubaRequest(f.start, f.end, ["tags_key"], f.conditions, [CountAggregation], [], f.filterKeys, [ExcludedTags],
                 ["-count", "tags_key"], Some(limit), None, None, None, sample, None)
  }

  /** The per-project counts. */
  function ProjectsRequest(f: Filter, rate: Option<real>): SnubaRequest
  {
    SnubaRequest(f.start, f.end, ["project_id"], f.conditions, [CountAggregation], [], f.filterKeys, [],
                 ["-count"], None, None, None, rate, rate.Some?, None)
  }

  /** The value counts of one tag. */
  function TagRequest(f: Filter, tagColumn: string, rate: Option<real>, cfg: FacetsConfig): SnubaRequest
  {
    SnubaRequest(f.start, f.end, [tagColumn], f.conditions, [CountAggregation], [], f.filterKeys, [],
                 ["-count"], Some(cfg.topValuesLimit), None, None, rate, rate.Some?, None)
  }

  /** The value counts of the aggregate tags together, limited per tag key. */
  function AggregateRequest(f: Filter, tags: seq<Value>, rate: Option<real>, cfg: FacetsConfig): SnubaRequest
  {
    SnubaRequest(f.start, f.end, ["tags_key", "tags_value"],
                 f.conditions + [Compare(Column("tags_key"), "IN", VList(tags))], [CountAggregation], [],
                 f.filterKeys, [], ["tags_key", "-count"], None, None, None, rate, rate.Some?,
                 Some((cfg.topValuesLimit, "tags_key")))
  }

  /** The column holding a tag's values: `tags[<name>]`. */
  function TagColumn(tag: Value, cfg: FacetsConfig): string
  {
    "tags[" + cfg.text(tag) + "]"
  }

  // ---------------------------------------------------------------------
  // The facets
  // ---------------------------------------------------------------------

  /** The facets of one backend answer. */
  function Facets(result: Result<RawResult>, key: FacetKey, valueCol: string, multiplier: int): Result<seq<FacetResult>>
  {
    if result.Fail? then Fail(result.error) else RowFacets(result.value.data, key, valueCol, multiplier)
  }

  /** The facets of the individual tags, one query each, in tag order. */
  function IndividualFacets(f: Filter, tags: seq<Value>, rate: Option<real>, cfg: FacetsConfig, backend: Backend)
    : Result<seq<FacetResult>>
  {
    if tags == [] then Ok([])
    else
      var n := |tags| - 1;
      var pre := IndividualFacets(f, tags[..n], rate, cfg, backend);
      if pre.Fail? then pre
      else
        var column := TagColumn(tags[n], cfg);
        var more := Facets(backend(TagRequest(f, column, rate, cfg)), Fixed(tags[n]), column, Multiplier(rate));
        if more.Fail? then more else Ok(pre.value + more.value)
  }

  /** The per-project facets, fetched only when several projects are in scope. */
  function ProjectFacets(f: Filter, fetchProjects: bool, rate: Option<real>, backend: Backend): Result<seq<FacetResult>>
  {
    if fetchProjects
    then Facets(backend(ProjectsRequest(f, rate)), Fixed(VStr("project")), "project_id", Multiplier(rate))
    else Ok([])
  }

  /** The facets of the aggregate tags, fetched only when there are any. */
  function AggregateFacets(f: Filter, tags: seq<Value>, rate: Option<real>, cfg: FacetsConfig, backend: Backend)
    : Result<seq<FacetResult>>
  {
    if tags == [] then Ok([])
    else Facets(backend(AggregateRequest(f, tags, rate, cfg)), FromColumn("tags_key"), "tags_value", Multiplier(rate))
  }

  /** Three lists of facets in turn: the first failure, or their concatenation. */
  function Concat3(a: Result<seq<FacetResult>>, b: Result<seq<FacetResult>>, c: Result<seq<FacetResult>>)
    : (r: Result<seq<FacetResult>>)
    ensures r.Ok? <==> a.Ok? && b.Ok? && c.Ok?
  {
    if a.Fail? then a else if b.Fail? then b else if c.Fail? then c else Ok(a.value + b.value + c.value)
  }

  /** What `get_facets` raises or returns once the tags are known. */
  function TagFacets(f: Filter, topTags: seq<Value>, first: Row, paramsProjects: seq<Value>, limit: int,
                     cfg: FacetsConfig, backend: Backend): Result<seq<FacetResult>>
    requires topTags != []
  {
    var rate := SampleRate(cfg.samplingEnabled, first);
    if rate.Fail? then Fail(rate.error)
    else
      var fetchProjects := |paramsProjects| > 1;
      var tags := KeptTags(topTags, fetchProjects, limit);
      var split := Split(tags, |tags|, cfg.maxTagsToCombine);
      Concat3(ProjectFacets(f, fetchProjects, rate.value, backend),
              IndividualFacets(f, split.0, rate.value, cfg, backend),
              AggregateFacets(f, split.1, rate.value, cfg, backend))
  }

  /** What `get_facets` raises or returns. The filter keys must name the
      projects; more than two of them put the key query in `turbo` mode. */
  function GetFacetsSpec<F>(parsed: Result<Filter>, paramsProjects: seq<Value>, limit: int, c: Collaborators<F>,
                            cfg: FacetsConfig, backend: Backend): (r: Result<seq<FacetResult>>)
  {
    if parsed.Fail? then Fail(parsed.error)
    else
      var f := c.resolveAliases(parsed.value).0;
      if "project_id" !in f.filterKeys then Fail(MissingKey("project_id"))
      else
        var sample := |f.filterKeys["project_id"]| > 2;
        var keyNames := backend(KeyNamesRequest(f, limit, sample));
        if keyNames.Fail? then Fail(keyNames.error)
        else
          var topTags := TagKeys(keyNames.value.data);
          if topTags.Fail? then Fail(topTags.error)
          else if topTags.value == [] then Ok([])
          else TagFacets(f, topTags.value, keyNames.value.data[0], paramsProjects, limit, cfg, backend)
  }

  /** No frequent tag keys, no facets. */
  lemma NoTagsNoFacets<F>(parsed: Result<Filter>, paramsProjects: seq<Value>, limit: int, c: Collaborators<F>,
                          cfg: FacetsConfig, backend: Backend)
    requires parsed.Ok?
    requires "project_id" in c.resolveAliases(parsed.value).0.filterKeys
    requires var f := c.resolveAliases(parsed.value).0;
             var keyNames := backend(KeyNamesRequest(f, limit, |f.filterKeys["project_id"]| > 2));
             keyNames.Ok? && keyNames.value.data == []
    ensures GetFacetsSpec(parsed, paramsProjects, limit, c, cfg, backend) == Ok([])
  {
  }

  /** Every facet count is the truncated count of its row times the
      multiplier. */
  lemma {:induction false} FacetCountsScaled(rows: seq<Row>, key: FacetKey, valueCol: string, multiplier: int, i: nat)
    requires RowFacets(rows, key, valueCol, multiplier).Ok?
    requires i < |rows|
    ensures Count(rows[i]).Ok?
    ensures RowFacets(rows, key, valueCol, multiplier).value[i].count == Count(rows[i]).value * multiplier
  {
    assert RowFacet(rows[i], key, valueCol, multiplier) == Ok(RowFacets(rows, key, valueCol, multiplier).value[i]);
  }

  // ---------------------------------------------------------------------
  // The method
  // ---------------------------------------------------------------------

  /** The loop over the individual tags, extending the results. */
  method QueryIndividualTags(f: Filter, tags: seq<Value>, rate: Option<real>, cfg: FacetsConfig, backend: Backend)
    returns (r: Result<seq<FacetResult>>)
    ensures r == IndividualFacets(f, tags, rate, cfg, backend)
  {
    var results: seq<FacetResult> := [];
    for i := 0 to |tags|
      invariant IndividualFacets(f, tags[..i], rate, cfg, backend) == Ok(results)
    {
      assert tags[..i + 1][..i] == tags[..i];
      var column := TagColumn(tags[i], cfg);
      var values := Facets(backend(TagRequest(f, column, rate, cfg)), Fixed(tags[i]), column, Multiplier(rate));
      if values.Fail? {
        IndividualFacetsFail(f, tags, i + 1, rate, cfg, backend);
        return values;
      }
      results := results + values.value;
    }
    assert tags[..|tags|] == tags;
    r := Ok(results);
  }

  /** A failing prefix makes the whole loop fail the same way. */
  lemma {:induction false} IndividualFacetsFail(f: Filter, tags: seq<Value>, n: nat, rate: Option<real>,
                                                cfg: FacetsConfig, backend: Backend)
    requires n <= |tags|
    requires IndividualFacets(f, tags[..n], rate, cfg, backend).Fail?
    ensures IndividualFacets(f, tags, rate, cfg, backend) == IndividualFacets(f, tags[..n], rate, cfg, backend)
    decreases |tags| - n
  {
    if n < |tags| {
      assert tags[..n + 1][..n] == tags[..n];
      IndividualFacetsFail(f, tags, n + 1, rate, cfg, backend);
    } else {
      assert tags[..n] == tags;
    }
  }

  /** `get_facets`. */
  method GetFacets<F>(parsed: Result<Filter>, paramsProjects: seq<Value>, limit: int, c: Collaborators<F>,
                      cfg: FacetsConfig, backend: Backend) returns (r: Result<seq<FacetResult>>)
    ensures r == GetFacetsSpec(parsed, paramsProjects, limit, c, cfg, backend)
  {
    if parsed.Fail? {
      return Fail(parsed.error);
    }
    var snubaFilter := c.resolveAliases(parsed.value).0;
    if "project_id" !in snubaFilter.filterKeys {
      return Fail(MissingKey("project_id"));
    }
    var sample := |snubaFilter.filterKeys["project_id"]| > 2;
    var keyNames := backend(KeyNamesRequest(snubaFilter, limit, sample));
    if keyNames.Fail? {
      return Fail(keyNames.error);
    }
    var topTagsOr := TagKeys(keyNames.value.data);
    if topTagsOr.Fail? {
      return Fail(topTagsOr.error);
    }
    var topTags := topTagsOr.value;
    if topTags == [] {
      return Ok([]);
    }
    r := QueryTagFacets(snubaFilter, topTags, keyNames.value.data[0], paramsProjects, limit, cfg, backend);
  }

  /** `get_facets` from the sampling decision on. */
  method QueryTagFacets(snubaFilter: Filter, topTags0: seq<Value>, first: Row, paramsProjects: seq<Value>, limit: int,
                        cfg: FacetsConfig, backend: Backend) returns (r: Result<seq<FacetResult>>)
    requires topTags0 != []
    ensures r == TagFacets(snubaFilter, topTags0, first, paramsProjects, limit, cfg, backend)
  {
    var topTags := topTags0;
    var rate := SampleRate(cfg.samplingEnabled, first);
    if rate.Fail? {
      return Fail(rate.error);
    }
    var multiplier := Multiplier(rate.value);

    var fetchProjects := false;
    if |paramsProjects| > 1 {
      if |topTags| == limit {
        topTags := topTags[..|topTags| - 1];
      }
      fetchProjects := true;
    }
    assert topTags == KeptTags(topTags0, fetchProjects, limit);

    var results: seq<FacetResult> := [];
    if fetchProjects {
      var projectValues := Facets(backend(ProjectsRequest(snubaFilter, rate.value)), Fixed(VStr("project")),
                                  "project_id", multiplier);
      if projectValues.Fail? {
        return projectValues;
      }
      assert [] + projectValues.value == projectValues.value;
      results := results + projectValues.value;
    }
    assert ProjectFacets(snubaFilter, fetchProjects, rate.value, backend) == Ok(results);

    var individualTags, aggregateTags := PartitionTags(topTags, cfg.maxTagsToCombine);
    var individual := QueryIndividualTags(snubaFilter, individualTags, rate.value, cfg, backend);
    if individual.Fail? {
      return individual;
    }
    ghost var projects := results;
    results := results + individual.value;

    if aggregateTags != [] {
      var tagValues := Facets(backend(AggregateRequest(snubaFilter, aggregateTags, rate.value, cfg)),
                              FromColumn("tags_key"), "tags_value", multiplier);
      if tagValues.Fail? {
        return tagValues;
      }
      results := results + tagValues.value;
    } else {
      assert results == projects + individual.value + [];
    }
    r := Ok(results);
  }
}
