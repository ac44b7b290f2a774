# Discover query translation and result shaping, modelled in Dafny

This project models the Discover layer of Sentry's Snuba integration
(`src/sentry/snuba/discover.py`). The layer turns a user's column list and
search filter into a Snuba request. It checks having-clauses against the
selected aggregations and plans the timeseries, top-events, tag-facet and
histogram queries. It then reshapes the rows Snuba returns:

- renaming columns back to their public names;
- coercing NaN to 0;
- zero-filling time buckets;
- routing rows to per-event series;
- scaling sampled facet counts;
- normalising histogram buckets.

Each Snuba call is a parameter of the model. So is each helper defined
outside the file. The model states what the layer itself does with their
answers.

Modules, one per part of the file:

| module | file | models |
|---|---|---|
| `Common` | `common.dfy` | values held in rows, Python dicts as association lists in insertion order, `Result`/`Option`, error kinds and their messages, `int()` on reals |
| `SnubaTypes` | `snuba_types.dfy` | the Snuba filter record, aggregations, having-clause trees, conditions, raw results, and the collaborators given as parameters |
| `Zerofill` | `zerofill.dfy` | `zerofill` |
| `Transform` | `transform.dfy` | `transform_data`, `transform_meta`, `transform_results` |
| `Having` | `having.dfy` | the having-clause check inside `query`, including the nested AND/OR worklist |
| `Query` | `query.dfy` | `query`, `get_timeseries_snuba_filter`, `timeseries_query`, `is_real_column`, `get_id` |
| `TopEvents` | `top_events.dfy` | `create_result_key`, `top_events_timeseries` |
| `Facets` | `facets.dfy` | `get_facets` |
| `Histogram` | `histogram.dfy` | `histogram_query`, `get_histogram_column`, `find_histogram_params`, `find_histogram_min_max`, `normalize_histogram_results` |

The shape of each part follows the source:

- Loops that build or mutate lists and dicts are methods with `while`
  loops. These are the zerofill dictionary, the row rebuild, the having
  worklist, the top-events buckets, the tag partition and the histogram
  bucket maps.
- Each such method's `ensures` ties its result to a specification
  function.
- The properties of those functions are proved as lemmas.
- Straight-line code is written as functions: the histogram parameters,
  the result key, `get_id` and `is_real_column`.

## Model

| member | source | states |
|---|---|---|
| Zerofill.TruncDiv | src/sentry/snuba/discover.py:86-87 | `int(t / rollup)` truncates toward zero: the quotient brackets t from below for t >= 0 and from above for t < 0 |
| Zerofill.GroupByTime | src/sentry/snuba/discover.py:88-94 | the `data_by_time` loop groups every row under its `time`, keeping input order within each group |
| Zerofill.Zerofill | src/sentry/snuba/discover.py:84-106 | the imperative zerofill (grouping, bucket walk, clearing of used groups, final reversal) equals `ZerofillSpec` |
| Zerofill.ZerofillBucketCount | src/sentry/snuba/discover.py:86-96 | the walk visits `q2 - q1 + 1` keys, where q1 and q2 are the truncated quotients of start and end, and no keys when q2 < q1 |
| Zerofill.BucketKeysAt | src/sentry/snuba/discover.py:96 | the m-th key is `start + m * rollup`, the last key is below `end`, and the walk covers up to `end` |
| Zerofill.BucketKeysIncreasing | src/sentry/snuba/discover.py:96 | the keys are at least `start` and strictly increasing |
| Zerofill.ZerofillContents | src/sentry/snuba/discover.py:96-101 | the rows of the output at a time t are all input rows with that time, in input order, or the single row `{time: t}` when there are none, if t is a bucket key; otherwise there are none, so rows off the key grid are dropped |
| Zerofill.FillNoData | src/sentry/snuba/discover.py:101 | with no data, every key gives exactly the row `{time: key}` |
| Zerofill.ZerofillAscending | src/sentry/snuba/discover.py:96-106 | without `-time` in orderby, the output times never decrease |
| Zerofill.ZerofillOrder | src/sentry/snuba/discover.py:103-106 | the output is the filled list reversed iff `-time` is in orderby, and that list unchanged otherwise |
| Zerofill.ZerofillOrFail | src/sentry/snuba/discover.py:86-91 | zerofill fails iff a bound is missing or a row has no `time`; a missing bound is reported first |
| Zerofill.ZerofillChecked | src/sentry/snuba/discover.py:84-106 | the guarded zerofill method equals `ZerofillOrFail` |
| Transform.Coerce | src/sentry/snuba/discover.py:149-150 | the result is never NaN, and non-NaN values are unchanged |
| Transform.GetRow | src/sentry/snuba/discover.py:146-153 | the row-rebuilding loop equals `TranslatedRow` |
| Transform.TranslatedRowKeys | src/sentry/snuba/discover.py:148-151 | the keys of a rebuilt row are exactly the translated keys of the input row |
| Transform.TranslatedRowNoNaN | src/sentry/snuba/discover.py:149-150 | no value of a rebuilt row is NaN |
| Transform.TranslatedRowLength | src/sentry/snuba/discover.py:148-151 | when no two keys translate to the same name, the rebuilt row has as many entries as the input |
| Transform.TranslatedRowGet | src/sentry/snuba/discover.py:148-151 | when no two keys clash, the translated key holds the coerced value of the original key |
| Transform.TranslateMeta | src/sentry/snuba/discover.py:142-144 | every meta entry keeps its type and gets its translated name (or its own name when untranslated) |
| Transform.RenameMeta | src/sentry/snuba/discover.py:142-144 | the meta-renaming loop equals `TranslateMeta` |
| Transform.RebuildRows | src/sentry/snuba/discover.py:156 | the list comprehension gives, at each position, that row rebuilt by `get_row` (`TranslateRows`) |
| Transform.RenameRows | src/sentry/snuba/discover.py:155-156 | equals `RenamedRows`: rows are rebuilt only when the translation map is non-empty, otherwise kept as they are |
| Transform.TransformDataSpec | src/sentry/snuba/discover.py:132-168 | the meta is always renamed; the result fails iff rollup > 0 and zerofill cannot run |
| Transform.TransformData | src/sentry/snuba/discover.py:132-168 | the method equals `TransformDataSpec` |
| Transform.TransformKeepsRows | src/sentry/snuba/discover.py:155-159 | without a positive rollup the row count is unchanged, and the rows are untouched when the map is empty |
| Transform.TransformRowsCoerced | src/sentry/snuba/discover.py:155-156 | with a non-empty map and no rollup, each row is its rebuilt row and holds no NaN |
| Transform.TransformZerofills | src/sentry/snuba/discover.py:158-166 | with a positive rollup, the data is exactly the zerofill of the renamed rows with the filter's bounds and orderby |
| Transform.TransformMeta | src/sentry/snuba/discover.py:117-129 | the method equals `TransformMetaSpec` |
| Transform.MetaTypesKeys | src/sentry/snuba/discover.py:118-123 | the meta dict has exactly the names in the result's meta |
| Transform.MetaTypesGet | src/sentry/snuba/discover.py:118-123 | for the last entry with a name, the dict holds `get_json_meta_type` of that name, its type and its alias details |
| Transform.DefaultTypesKeys | src/sentry/snuba/discover.py:125-128 | after the fill-in, a name has a type iff it was typed before or is one of the listed keys |
| Transform.DefaultTypesKeep | src/sentry/snuba/discover.py:125-128 | the fill-in never changes a type that was already there |
| Transform.DefaultTypesNew | src/sentry/snuba/discover.py:125-128 | a listed key with no type gets `"string"` |
| Transform.DefaultTypesGet | src/sentry/snuba/discover.py:125-128 | existing types are kept, missing first-row keys get `"string"`, and nothing else is added |
| Transform.TransformMetaTyped | src/sentry/snuba/discover.py:117-129 | a meta name no later meta entry repeats keeps the type computed from its entry, the first-row fill-in notwithstanding |
| Transform.TransformMetaOthers | src/sentry/snuba/discover.py:117-129 | a first-row key absent from meta is typed `"string"`; the typed names are exactly the meta names and the first row's keys |
| Transform.TransformMetaTypes | src/sentry/snuba/discover.py:117-129 | for distinct meta names: each meta name gets its computed type, each first-row key missing from meta gets `"string"`, and the keys are exactly the meta names plus the first row's keys |
| Transform.TransformResults | src/sentry/snuba/discover.py:109-114 | the method equals `TransformResultsSpec`, which succeeds iff `transform_data` does |
| Having.MissingAliases | src/sentry/snuba/discover.py:254-278 | the pop/extend worklist loop equals `NestedMissing` |
| Having.ScanArgs | src/sentry/snuba/discover.py:261-274 | scanning one argument list pushes every nested list and reports every leaf alias not among the aggregation aliases |
| Having.WalkFindsMissing | src/sentry/snuba/discover.py:254-278 | the worklist reports, as a multiset, exactly the missing leaves of the whole stack |
| Having.MissingIffReaches | src/sentry/snuba/discover.py:261-274 | an alias is reported iff it is reachable through AND/OR nodes and is not an aggregation alias |
| Having.NestedMissingMeaning | src/sentry/snuba/discover.py:254-278 | the nested check's list holds each missing leaf as often as it occurs, and an alias is in it iff it is reachable and not an aggregation alias |
| Having.CheckHaving | src/sentry/snuba/discover.py:250-289 | no error iff every clause passes; otherwise the error is that of the first failing clause |
| Having.ValidateHaving | src/sentry/snuba/discover.py:250-289 | the clause loop equals `CheckHaving` over the aggregation aliases |
| Having.MessageNamesAlias | src/sentry/snuba/discover.py:275-278 | the combined error message names each alias in its list |
| Having.NestedClauseFails | src/sentry/snuba/discover.py:275-278 | a nested clause fails iff some alias is missing, and the message names every reachable missing alias |
| Having.FlatClauseFails | src/sentry/snuba/discover.py:279-289 | a flat clause fails iff its alias is not an aggregation alias, and the message names that alias |
| Query.UpdateWith | src/sentry/snuba/discover.py:242 | the resolved columns, aggregations and groupby replace those of the filter, and nothing else changes |
| Query.MapAlias | src/sentry/snuba/discover.py:230-232 | each orderby entry is replaced by its function alias, in order |
| Query.PrepareFilter | src/sentry/snuba/discover.py:220-232 | having is cleared iff aggregate conditions are disabled, orderby is aliased when one is given, and all else is kept |
| Query.PlanQuery | src/sentry/snuba/discover.py:209-292 | no columns fails first, then a filter error, then auto aggregations without aggregate conditions; a plan is returned only when its having-clauses pass |
| Query.PlanQueryHavingFails | src/sentry/snuba/discover.py:250-292 | once the columns resolve, a failing having check is the query's error |
| Query.QuerySpec | src/sentry/snuba/discover.py:209-317 | a planning failure is the query's result |
| Query.Query | src/sentry/snuba/discover.py:209-317 | the method equals `QuerySpec` |
| Query.QueryRejectsUnselectedAggregate | src/sentry/snuba/discover.py:279-289 | a flat having on an alias fails iff the alias is not selected, with the aggregate-not-selected error |
| Query.TimeseriesFilter | src/sentry/snuba/discover.py:320-337 | missing both start and end fails with a no-time-range error; a success has at least one aggregation |
| Query.Relabel | src/sentry/snuba/discover.py:334-335 | a single aggregation is renamed `"count"` when the default count is asked for; otherwise the filter is unchanged |
| Query.TimeseriesFilterOutcome | src/sentry/snuba/discover.py:320-337 | fails iff both bounds are missing or no aggregation remains; otherwise returns the relabelled filter and the translations |
| Query.TimeseriesQuerySpec | src/sentry/snuba/discover.py:340-387 | a success carries the requested rollup and both bounds, and its data is the zerofill of the backend's rows over that range, in ascending time |
| Query.TimeseriesQuery | src/sentry/snuba/discover.py:340-387 | the method equals `TimeseriesQuerySpec` |
| Query.OneSidedRangeFailsLater | src/sentry/snuba/discover.py:322 | one missing bound passes the filter check (line 322) but fails at zerofill (lines 158-166) |
| Query.IsRealColumn | src/sentry/snuba/discover.py:57-68 | true iff the column is neither a function nor a field alias |
| Query.GetId | src/sentry/snuba/discover.py:571-573 | empty gives nothing, one element is an index error, and otherwise the second element |
| TopEvents.FieldText | src/sentry/snuba/discover.py:393-402 | `issue.id` fails only when missing, gives its short id when mapped and `"unknown"` otherwise; any other field gives the text of None when absent, `""` for an empty list, the text of a list's last element, or the text of its value |
| TopEvents.KeyParts | src/sentry/snuba/discover.py:391-402 | one part per field, each the field's text; fails iff `issue.id` is a field and the row lacks it |
| TopEvents.CreateResultKey | src/sentry/snuba/discover.py:390-403 | fails iff `issue.id` is a field and the row lacks it; otherwise the key is the fields' texts, in field order, joined with `","` |
| TopEvents.KeyHoldsEachField | src/sentry/snuba/discover.py:403 | the joined key contains each field's text |
| TopEvents.SameFieldsSameKey | src/sentry/snuba/discover.py:390-403 | rows that agree on the key fields get equal keys |
| TopEvents.InsertPerm | src/sentry/snuba/discover.py:539 | one insertion step of the sort adds exactly one occurrence of the inserted field |
| TopEvents.InsertSorted | src/sentry/snuba/discover.py:539 | inserting into a sorted list keeps it sorted |
| TopEvents.SortStrings | src/sentry/snuba/discover.py:539 | the groupby sort yields a sorted permutation of its input |
| TopEvents.FieldValues | src/sentry/snuba/discover.py:473-479 | a value is collected iff some top event holds it, not as a list, under the field |
| TopEvents.CollectValues | src/sentry/snuba/discover.py:473-479 | the collection loop yields those values without duplicates |
| TopEvents.RangeConditionAdmits | src/sentry/snuba/discover.py:480-493 | a timestamp-OR, isNull-or-IN, or IN condition admits exactly the collected values |
| TopEvents.FieldConditionMeaning | src/sentry/snuba/discover.py:466-493 | a field other than project gets a condition iff some top event holds a value, and that condition admits exactly the held values |
| TopEvents.GatherMembers | src/sentry/snuba/discover.py:466-493 | the appending loop keeps each present per-field result and nothing else |
| TopEvents.TopEventConditionsFromFields | src/sentry/snuba/discover.py:466-493 | the conditions are exactly the conditions of the selected fields |
| TopEvents.AddTopEventConditions | src/sentry/snuba/discover.py:466-493 | the loop appends those conditions to the filter's |
| TopEvents.ResultKeys | src/sentry/snuba/discover.py:544-547 | one key per row, failing iff some row's key fails |
| TopEvents.RanksOrder | src/sentry/snuba/discover.py:543-545 | a key's bucket has `order` equal to the last index with that key, and no data |
| TopEvents.RouteAllKeys | src/sentry/snuba/discover.py:546-554 | routing adds no bucket: unmatched rows are dropped |
| TopEvents.RouteAllBucket | src/sentry/snuba/discover.py:546-549 | a bucket receives, in input order, exactly the rows with its key |
| TopEvents.RouteSpecBucket | src/sentry/snuba/discover.py:541-554 | every top event has a bucket with `order` at least its index, holding the rows with its key |
| TopEvents.RankTopEvents | src/sentry/snuba/discover.py:543-545 | the ranking loop equals `Ranks` of the top events' keys |
| TopEvents.RouteResultRows | src/sentry/snuba/discover.py:546-554 | the routing loop equals `RouteAll` of the result's keys |
| TopEvents.RouteRows | src/sentry/snuba/discover.py:541-554 | the method equals `RouteSpec` |
| TopEvents.FillSeries | src/sentry/snuba/discover.py:555-566 | each bucket keeps its key and order and gets the zerofill of its rows; fails iff some zerofill fails |
| TopEvents.FillBuckets | src/sentry/snuba/discover.py:555-566 | the loop equals `FillSeries` |
| TopEvents.KeyFields | src/sentry/snuba/discover.py:527-539 | a sorted permutation of the translated groupby, with `project_id` read back as `project` when `project` is selected |
| TopEvents.Issues | src/sentry/snuba/discover.py:531-537 | the issue lookup fails iff issue is selected and some top event lacks `issue.id` |
| TopEvents.TopEventsSpec | src/sentry/snuba/discover.py:406-568 | an empty series is returned only when empty results are not allowed, and it is the zerofill of no rows over the query's range |
| TopEvents.TopEventsEmptyData | src/sentry/snuba/discover.py:511-516 | with empty results not allowed and no rows back, the answer is the ascending zero-filled series over the range, failing iff a bound is missing |
| TopEvents.TopEventsTimeseries | src/sentry/snuba/discover.py:406-568 | the method equals `TopEventsSpec` |
| Facets.Field | src/sentry/snuba/discover.py:662 | reading a column succeeds iff the row has it, and with its value (likewise lines 705 and 731) |
| Common.PyInt | src/sentry/snuba/discover.py:662 | Python's `int()`: a bool gives 0 or 1, an integer itself, a float its truncation toward zero; anything else fails |
| Facets.Count | src/sentry/snuba/discover.py:662 | `int(count)` is `PyInt` of the count column, and a missing column is a KeyError (likewise lines 705 and 731) |
| Facets.RowFacet | src/sentry/snuba/discover.py:662 | a facet has its key, the row's value, and count times the multiplier (likewise lines 705 and 731) |
| Facets.RowFacets | src/sentry/snuba/discover.py:660-665 | one facet per row, failing iff some row fails (the same loop recurs at lines 703-708 and 729-734) |
| Facets.FacetCountsScaled | src/sentry/snuba/discover.py:662 | every facet count is the row's count times the multiplier (likewise lines 705 and 731) |
| Facets.TagKeys | src/sentry/snuba/discover.py:624 | one tag per key row, failing iff some row lacks `tags_key` |
| Facets.SampleRate | src/sentry/snuba/discover.py:632-633 | the count is read only when sampling is enabled; it fails on a missing count, and on a count Python 3 cannot compare with 10000 (None, a string, a list); otherwise the rate is 0.1 iff the count exceeds 10000 |
| Facets.Multiplier | src/sentry/snuba/discover.py:635 | the multiplier is 1 iff there is no sample rate |
| Facets.KeptTags | src/sentry/snuba/discover.py:637-641 | the last tag is dropped iff projects are fetched and the tag count equals the limit; the rest is a prefix |
| Facets.SplitPartitions | src/sentry/snuba/discover.py:673-680 | individual and aggregate tags together are exactly the tags, and `environment` is never aggregate |
| Facets.SplitWithoutEnvironment | src/sentry/snuba/discover.py:673-680 | without `environment`, tags before index len − max are individual and the rest aggregate, both in order |
| Facets.PartitionTags | src/sentry/snuba/discover.py:671-680 | the partition loop equals `Split` |
| Facets.NoTagsNoFacets | src/sentry/snuba/discover.py:624-626 | no top tags returns no facets |
| Facets.QueryIndividualTags | src/sentry/snuba/discover.py:686-708 | the per-tag loop equals `IndividualFacets` |
| Facets.GetFacets | src/sentry/snuba/discover.py:576-736 | the method equals `GetFacetsSpec` |
| Facets.QueryTagFacets | src/sentry/snuba/discover.py:632-736 | the planning after the key query equals `TagFacets` |
| Histogram.FloorDiv | src/sentry/snuba/discover.py:883 | Python's `//` rounds toward minus infinity |
| Histogram.FindHistogramParams | src/sentry/snuba/discover.py:845-885 | a missing bound gives `(num_buckets, 1, int(scaled_min), multiplier)`; zero buckets is a division error; a success keeps the multiplier and has a non-zero bucket size |
| Histogram.HistogramParamsCount | src/sentry/snuba/discover.py:882-885 | the returned bucket count is `int((scaled_max − start_offset) / bucket_size) + 1` |
| Histogram.HistogramParamsCover | src/sentry/snuba/discover.py:856-885 | for non-negative bounds and a non-negative `nice_int`: size ≥ 1, 0 ≤ offset ≤ scaled min, at least one bucket, and the last bucket contains scaled max |
| Histogram.MinOrNone | src/sentry/snuba/discover.py:934-937 | None iff no candidate; otherwise the least candidate |
| Histogram.MaxOrNone | src/sentry/snuba/discover.py:939-942 | None iff no candidate; otherwise the greatest candidate (the same `max` idiom picks the fence at line 964) |
| Histogram.SmallerOf | src/sentry/snuba/discover.py:966-970 | the smaller of two optional values, ignoring a missing one |
| Histogram.Reading | src/sentry/snuba/discover.py:934-942 | None reads as no value, an integer or float as its value, anything else but NaN as an error (NaN: see "Left out") |
| Histogram.Readings | src/sentry/snuba/discover.py:934-942 | a value is a candidate iff some column holds it |
| Histogram.Fence | src/sentry/snuba/discover.py:958-961 | the fence `q3 + 3·|q3 − q1|` is at least both quartiles |
| Histogram.FieldFence | src/sentry/snuba/discover.py:948-961 | two integer or float quartiles always give their fence, and only they give one; a None quartile gives none; it fails iff a quartile `isnan` is applied to is not a number |
| Histogram.Fences | src/sentry/snuba/discover.py:944-961 | a fence is listed iff some field's two quartile columns give it |
| Histogram.BoundsFromRow | src/sentry/snuba/discover.py:932-970 | given bounds are kept; min is the least min; max is the smaller of the largest fence and the largest max |
| Histogram.FindHistogramMinMax | src/sentry/snuba/discover.py:888-972 | both bounds given are returned unchanged; otherwise anything but exactly one row gives (None, None), and exactly one row gives `BoundsFromRow` of that row |
| Histogram.MaxIsCapped | src/sentry/snuba/discover.py:939-970 | the max exists iff there is a max or a fence, is one of them, and is at most the largest of each |
| Histogram.HistogramColumn | src/sentry/snuba/discover.py:826-842 | fails iff there is no key column and no field |
| Histogram.LastHit | src/sentry/snuba/discover.py:1000-1008 | the last matching index, with no match after it, or None iff nothing matches |
| Histogram.RecordedOverwrites | src/sentry/snuba/discover.py:1000-1008 | a bin is in a field's map iff some row falls in it, and it holds the count of the last such row |
| Histogram.RecordRows | src/sentry/snuba/discover.py:1000-1008 | the row loop equals `Recorded` |
| Histogram.BinOf | src/sentry/snuba/discover.py:1002 | the bucket is `PyInt` of the bin column, and a missing column is a KeyError |
| Histogram.BinRow | src/sentry/snuba/discover.py:1012-1018 | the row's bin is the bin value and its count the recorded count, or 0 |
| Histogram.BinValue | src/sentry/snuba/discover.py:1016-1017 | with multiplier > 1 the bin is the bucket divided by the multiplier; otherwise it is the bucket unchanged |
| Histogram.AddBucketMeaning | src/sentry/snuba/discover.py:1011-1018 | one bucket step appends one row to each requested field and changes no other entry |
| Histogram.NewDataMeaning | src/sentry/snuba/discover.py:1010-1018 | each requested field gets exactly `num_buckets` rows, the i-th for bin `start_offset + i·bucket_size` |
| Histogram.BinsIncrease | src/sentry/snuba/discover.py:1012 | bins increase strictly with the bucket index |
| Histogram.NormalizedCounts | src/sentry/snuba/discover.py:975-1020 | for each requested field, there are `num_buckets` rows; the i-th row has bin `start_offset + i·bucket_size`, count 0 where no row matched, and otherwise the count of the last matching row |
| Histogram.BuildSeries | src/sentry/snuba/discover.py:1010-1018 | the nested bucket loop equals `NewData` |
| Histogram.NormalizeHistogramResults | src/sentry/snuba/discover.py:975-1020 | the method equals `NormalizeSpec` |
| Histogram.Measurements | src/sentry/snuba/discover.py:782-793 | succeeds iff every field is a measurement, giving their names; otherwise the error names the first non-measurement field |
| Histogram.MeasurementNames | src/sentry/snuba/discover.py:782-793 | the loop equals `Measurements` |
| Histogram.KeyConditions | src/sentry/snuba/discover.py:782-793 | one field needs no key condition; several succeed iff all are measurements |
| Histogram.ExclusiveMax | src/sentry/snuba/discover.py:774-777 | a given max is lowered below itself |
| Histogram.MultihistogramNeedsMeasurements | src/sentry/snuba/discover.py:782-793 | with several fields, the first non-measurement field makes the query fail with its name |
| Histogram.QueryBins | src/sentry/snuba/discover.py:795-823 | the method equals `BinnedHistograms` |
| Histogram.HistogramQuery | src/sentry/snuba/discover.py:744-823 | the method equals `HistogramQuerySpec` |

## Left out

- Snuba I/O. Every `raw_query` call is a `Backend` function from request to result, passed in.
- Outside helpers. These are parameters, so only what the layer does with their answers is modelled:
  - `get_filter` (its outcome is an input);
  - `resolve_field_list`, resolving the columns that `update_with` copies in;
  - `resolve_discover_aliases` and `resolve_discover_column`;
  - `get_function_alias`, `get_json_meta_type`, `get_measurement_name`, `nice_int`;
  - `FIELD_ALIASES`, `is_function` and `six.text_type`.
- Datetime conversion. `to_naive_timestamp` and `naiveify_datetime` are not modelled; timestamps are integer seconds.
- Issue and option lookups. `Group.issues_mapping` is a map passed in. The options `discover2.tags_facet_enable_sampling` and `discover2.max_tags_to_combine` are configuration parameters.
- Tracing and logging. `sentry_sdk` spans and `logger.warning` do not affect results.
- The top-events fetch. When `top_events` is None, the inner `query` call is not composed in; the top-event rows are an input.
- In-place mutation as values. The mutation of `snuba_filter`, `result` and the meta entries is modelled as returned new values, so aliasing between a caller's objects and the returned ones is not captured.
- Float details:
  - NaN detection is a `VNaN` value;
  - floats are Dafny reals, so rounding is not modelled;
  - `0.1 / multiplier` is kept exact;
  - `1 / sample_rate` is the integer 10.
- Iteration order of Python sets:
  - `list(set(...))` of the top-event values is modelled as first-appearance order;
  - the order of `set(timeseries_columns + selected_columns)` is left to the resolver parameter.
- Histogram output order. The histogram output is a map from field to rows, so the insertion order of `new_data`'s keys is not modelled.
- Python's `1 == True` when hashing dict and set keys is not modelled: values of different kinds are distinct.
- Zerofill.Zerofill requires `rollup > 0`. So do TopEvents.FillSeries, Query.TimeseriesQuery and TopEvents.TopEventsTimeseries. Callers always pass a positive rollup, and `transform_data` checks it before zerofilling.
- Histogram.HistogramQuerySpec: negative `precision` is not modelled, because `precision` is a `nat`.
- Histogram.FindHistogramMinMax: a Snuba result whose `data` is None is not modelled; the backend returns a list of rows.
- Histogram.Reading: a NaN min or max is dropped like None, and a bool or other non-numeric min or max is an error. Python does otherwise:
  - `min` at line 938 and `max` at line 943 keep a NaN that is the first candidate and pass over a later one. A leading NaN min makes `int(scaled_min)` at line 860 raise ValueError.
  - A leading NaN max with a fence: `min([fence, nan])` at line 970 gives the fence. The model gives the smaller of the fence and the largest other max, which can be lower.
  - A leading NaN max without a fence: the max stays NaN, and `int()` at line 882 raises ValueError. The model's max is then the largest other max, or None, and None returns empty histograms (line 801).
  - Python compares a bool as 0 or 1.
  - A lone non-numeric candidate is never compared at line 938 or 943. It reaches `find_histogram_params`, where lines 856-866 compute with it. Two candidates of incomparable types raise TypeError at line 938 or 943.
- Histogram.FieldFence: a bool quartile, which `math.isnan` accepts, is an error here.
- Histogram.HistogramEnv.runQuery: the two calls of this layer's own `query` from `histogram_query` (lines 812 and 918) are a parameter rather than `Query.QuerySpec`. So `query`'s own errors, such as "No columns selected" for an empty column list, and the renaming by `transform_results` are not composed in.
- `functions_acl`: the list of allowed functions passed to `resolve_field_list` (lines 183 and 239) has no counterpart in `Query.Collaborators.resolveFields`, so the ACL widening for `histogram_query` (line 820) is not modelled.
- Having argument shapes: `HavingArg` cannot represent the malformed arguments that crash the walk at lines 261-276. These are an empty string (IndexError at line 261), a combinator with no operands (line 262), a one-character string (line 264), an empty argument list (line 265), and a non-string alias (TypeError in `", ".join` at line 276). `get_filter` does not produce such clauses.
- Common.PyInt: `int()` of a string is an error here, though Python parses a decimal string such as `"12"`. This affects Facets.Count and Histogram.BinOf.
- Histogram.AddBucketMeaning, Histogram.NewDataMeaning and Histogram.NormalizedCounts require distinct histogram fields. A field listed twice gets its bucket rows appended twice in `new_data`, and that case is not described by any lemma.

Places where the code differs from a plain reading of its intent; the model follows the code:

- `int(x / rollup)` in `zerofill` truncates toward zero (`TruncDiv`). For negative timestamps this is not a floor.
- `get_timeseries_snuba_filter` rejects only when start **and** end are both missing (line 322). A one-sided range fails later, at zerofill (`Query.OneSidedRangeFailsLater`).
- NaN is coerced to 0 only when the translation map is non-empty (lines 155-156).
- The outlier cap is the **largest** fence across fields, then the smaller of that and the raw max (lines 964-970).
- `find_histogram_min_max` drops even given bounds when the query returns anything but exactly one row (lines 929-930).
- Histogram normalisation **overwrites** a bucket's count with the last matching row's count rather than summing (line 1005).
- The upper bin condition uses the requested `num_buckets`, not the adjusted one (line 808).
- Facet counts are truncated with `int()` before they are multiplied by the sampling multiplier (lines 662, 705, 731).
- A duplicated top-event key keeps the later index as its `order` (lines 543-545).
