/** Histograms (`histogram_query`): the bounds of the data, the bucket
    geometry, the bin-range conditions, and the normalised, zero-filled
    buckets of every field. */
module Histogram {
  import opened Common
  import opened SnubaTypes

  /** A call of the Discover `query` of this layer, by the arguments that
      differ between the two histogram calls. */
  datatype QueryCall = QueryCall(selectedColumns: seq<string>, conditions: seq<Condition>, orderby: seq<string>,
                                 limit: int)

  /** The helpers the code calls from outside this layer: `get_function_alias`,
      `get_measurement_name`, `nice_int`, the text of a row value, and the
      Discover query itself, by the rows it returns. */
  datatype HistogramEnv = HistogramEnv(
    functionAlias: string -> string,
    measurementName: string -> Option<string>,
    niceInt: real -> int,
    text: Value -> string,
    runQuery: QueryCall -> Result<seq<Row>>)

  /** `HistogramParams(num_buckets, bucket_size, start_offset, multiplier)`. */
  datatype HistogramParams = HistogramParams(numBuckets: int, bucketSize: int, startOffset: int, multiplier: int)

  function Pow10(n: nat): (p: int)
    ensures p >= 1
  {
    if n == 0 then 1 else 10 * Pow10(n - 1)
  }

  /** Python's `a // b` for a non-zero divisor: the floor of the quotient. */
  function FloorDiv(a: int, b: int): (q: int)
    requires b != 0
    ensures b > 0 ==> q * b <= a < q * b + b
    ensures b < 0 ==> q * b >= a > q * b + b
  {
    if b > 0 then a / b else (-a) / (-b)
  }

  // ---------------------------------------------------------------------
  // Bucket geometry (`find_histogram_params`)
  // ---------------------------------------------------------------------

  /** A bound times the multiplier, 0 when absent. */
  function Scaled(bound: Option<real>, multiplier: int): real
  {
    if bound.None? then 0.0 else multiplier as real * bound.value
  }

  /** The first bin and the width for a known range: a nice width for the
      range (1 when it rounds to 0), the first bin aligned to it, and the
      width grown once when the maximum would fall just past the last
      bucket. */
  function Widened(scaledMin: real, scaledMax: real, numBuckets: int, niceInt: real -> int): (r: (int, int))
    requires numBuckets != 0
  {
    var nice := niceInt((scaledMax - scaledMin) / numBuckets as real);
    var width := if nice == 0 then 1 else nice;
    var offset := TruncReal(scaledMin / width as real) * width;
    var size := if (offset + numBuckets * width) as real <= scaledMax then niceInt((width + 1) as real) else width;
    (offset, size)
  }

  /** The parameters with the bucket count trimmed to end at the bin of the
      maximum. */
  function Trimmed(scaledMax: real, offset: int, size: int, multiplier: int): (p: HistogramParams)
    requires size != 0
  {
    var lastBin := TruncReal((scaledMax - offset as real) / size as real) * size + offset;
    HistogramParams(FloorDiv(lastBin - offset, size) + 1, size, offset, multiplier)
  }

  /** The bucket geometry. Without both bounds: the requested bucket count,
      width 1 and the truncated scaled minimum. Otherwise the widened
      geometry, trimmed. Both divisions raise on a zero divisor. */
  function FindHistogramParams(numBuckets: int, minValue: Option<real>, maxValue: Option<real>, multiplier: int,
                               niceInt: real -> int): (r: Result<HistogramParams>)
    ensures minValue.None? || maxValue.None? ==>
              r == Ok(HistogramParams(numBuckets, 1, TruncReal(Scaled(minValue, multiplier)), multiplier))
    ensures minValue.Some? && maxValue.Some? && numBuckets == 0 ==> r == Fail(ZeroDivision)
    ensures r.Fail? ==> r.error == ZeroDivision
    ensures r.Ok? ==> r.value.multiplier == multiplier && r.value.bucketSize != 0
  {
    var scaledMin := Scaled(minValue, multiplier);
    var scaledMax := Scaled(maxValue, multiplier);
    if minValue.None? || maxValue.None? then Ok(HistogramParams(numBuckets, 1, TruncReal(scaledMin), multiplier))
    else if numBuckets == 0 then Fail(ZeroDivision)
    else
      var (offset, size) := Widened(scaledMin, scaledMax, numBuckets, niceInt);
      if size == 0 then Fail(ZeroDivision) else Ok(Trimmed(scaledMax, offset, size, multiplier))
  }

  /** `nice_int` of a non-negative number is non-negative. */
  ghost predicate NonNegativeNice(niceInt: real -> int)
  {
    forall x: real :: x >= 0.0 ==> niceInt(x) >= 0
  }

  lemma MulMono(a: real, c: real, b: real)
    requires a <= c && b >= 0.0
    ensures a * b <= c * b
  {
  }

  lemma MulStrict(a: real, c: real, b: real)
    requires a < c && b > 0.0
    ensures a * b < c * b
  {
    assert (c - a) * b > 0.0;
  }
  lemma DivTimes(x: real, b: real)
    requires b > 0.0
    ensures (x / b) * b == x
    ensures x >= 0.0 ==> x / b >= 0.0
  {
  }
  lemma CastMul(k: int, b: int)
    ensures (k * b) as real == k as real * b as real
  {}
  lemma Sandwich(x: real, q: real, b: real, lo: real, hi: real)
    requires b > 0.0 && q * b == x && lo <= q < hi
    ensures lo * b <= x < hi * b
  {
    MulMono(lo, q, b);
    MulStrict(q, hi, b);
  }
  /** Truncating a non-negative quotient and multiplying back lands within
      one divisor below the dividend. */
  lemma TruncTimes(x: real, b: int)
    requires x >= 0.0 && b >= 1
    ensures 0 <= TruncReal(x / b as real)
    ensures (TruncReal(x / b as real) * b) as real <= x < ((TruncReal(x / b as real) + 1) * b) as real
  {
    var br := b as real;
    var q := x / br;
    var k := TruncReal(q);
    DivTimes(x, br);
    Sandwich(x, q, br, k as real, (k + 1) as real);
    CastMul(k, b);
    CastMul(k + 1, b);
  }
  lemma IntMulMono(a: int, c: int, s: int)
    requires a <= c && s >= 0
    ensures a * s <= c * s
  {
  }
  /** Floor division undoes a multiplication. */
  lemma FloorDivTimes(k: int, s: int)
    requires s != 0
    ensures FloorDiv(k * s, s) == k
  {
    var q := FloorDiv(k * s, s);
    if s > 0 {
      if q > k { IntMulMono(k + 1, q, s); }
      else if q < k { IntMulMono(q + 1, k, s); }
    } else {
      if q > k { IntMulMono(k + 1, q, -s); }
      else if q < k { IntMulMono(q + 1, k, -s); }
    }
  }

  /** The bucket count is the number of whole buckets from the first bin to
      the maximum's, plus one. */
  lemma HistogramParamsCount(numBuckets: int, minValue: Option<real>, maxValue: Option<real>, multiplier: int,
                             niceInt: real -> int)
    requires minValue.Some? && maxValue.Some?
    requires FindHistogramParams(numBuckets, minValue, maxValue, multiplier, niceInt).Ok?
    ensures var p := FindHistogramParams(numBuckets, minValue, maxValue, multiplier, niceInt).value;
            p.numBuckets ==
              TruncReal((Scaled(maxValue, multiplier) - p.startOffset as real) / p.bucketSize as real) + 1
  {
    var p := FindHistogramParams(numBuckets, minValue, maxValue, multiplier, niceInt).value;
    var hi := Scaled(maxValue, multiplier);
    assert p == Trimmed(hi, p.startOffset, p.bucketSize, multiplier);
    var k := TruncReal((hi - p.startOffset as real) / p.bucketSize as real);
    FloorDivTimes(k, p.bucketSize);
    assert k * p.bucketSize + p.startOffset - p.startOffset == k * p.bucketSize;
  }

  /** For a non-negative minimum, the widened width is at least 1 when it
      is not 0, and the first bin lies in [0, min]. */
  lemma WidenedStart(scaledMin: real, scaledMax: real, numBuckets: int, niceInt: real -> int)
    requires numBuckets > 0 && 0.0 <= scaledMin <= scaledMax
    requires NonNegativeNice(niceInt)
    ensures var (offset, size) := Widened(scaledMin, scaledMax, numBuckets, niceInt);
            0 <= offset && offset as real <= scaledMin && size >= 0
  {
    var nice := niceInt((scaledMax - scaledMin) / numBuckets as real);
    var width := if nice == 0 then 1 else nice;
    TruncTimes(scaledMin, width);
    assert niceInt((width + 1) as real) >= 0;
  }

  /** For a non-negative, non-empty range and a `nice_int` that keeps
      non-negative numbers non-negative: the width is at least 1, the first
      bin is at most the scaled minimum, and the last bucket
      [start + (n - 1) * size, start + n * size) holds the scaled maximum. */
  lemma HistogramParamsCover(numBuckets: int, minValue: Option<real>, maxValue: Option<real>, multiplier: int,
                             niceInt: real -> int)
    requires minValue.Some? && maxValue.Some? && numBuckets > 0 && multiplier >= 1
    requires 0.0 <= minValue.value <= maxValue.value
    requires NonNegativeNice(niceInt)
    requires FindHistogramParams(numBuckets, minValue, maxValue, multiplier, niceInt).Ok?
    ensures var p := FindHistogramParams(numBuckets, minValue, maxValue, multiplier, niceInt).value;
            var lo := Scaled(minValue, multiplier);
            var hi := Scaled(maxValue, multiplier);
            && p.bucketSize >= 1
            && 0 <= p.startOffset
            && p.startOffset as real <= lo
            && p.numBuckets >= 1
            && (p.startOffset + (p.numBuckets - 1) * p.bucketSize) as real <= hi
            && hi < (p.startOffset + p.numBuckets * p.bucketSize) as real
  {
    var p := FindHistogramParams(numBuckets, minValue, maxValue, multiplier, niceInt).value;
    var lo := Scaled(minValue, multiplier);
    var hi := Scaled(maxValue, multiplier);
    ScaledOrder(minValue.value, maxValue.value, multiplier);
    WidenedStart(lo, hi, numBuckets, niceInt);
    assert (p.startOffset, p.bucketSize) == Widened(lo, hi, numBuckets, niceInt);
    HistogramParamsCount(numBuckets, minValue, maxValue, multiplier, niceInt);
    TruncTimes(hi - p.startOffset as real, p.bucketSize);
    CoverStep(p.startOffset, p.bucketSize, p.numBuckets - 1, p.numBuckets, hi);
  }

  /** Scaling by a positive multiplier keeps `0 <= min <= max`. */
  lemma ScaledOrder(lo: real, hi: real, multiplier: int)
    requires 0.0 <= lo <= hi && multiplier >= 1
    ensures 0.0 <= Scaled(Some(lo), multiplier) <= Scaled(Some(hi), multiplier)
  {
    MulMono(0.0, lo, multiplier as real);
    MulMono(lo, hi, multiplier as real);
  }

  /** The bucket holding a point `k` whole buckets past the first bin. */
  lemma CoverStep(start: int, size: int, k: int, n: int, hi: real)
    requires n == k + 1
    requires (k * size) as real <= hi - start as real < (n * size) as real
    ensures (start + k * size) as real <= hi < (start + n * size) as real
  {
  }

  // ---------------------------------------------------------------------
  // Bounds of the data (`find_histogram_min_max`)
  // ---------------------------------------------------------------------

  function Smallest(s: seq<real>): (m: real)
    requires s != []
    ensures m in s && forall x :: x in s ==> m <= x
  {
    if |s| == 1 then s[0]
    else
      var rest := Smallest(s[1..]);
      assert forall x :: x in s[1..] ==> x in s;
      assert forall x :: x in s ==> x == s[0] || x in s[1..];
      if s[0] <= rest then s[0] else rest
  }

  function Largest(s: seq<real>): (m: real)
    requires s != []
    ensures m in s && forall x :: x in s ==> x <= m
  {
    if |s| == 1 then s[0]
    else
      var rest := Largest(s[1..]);
      assert forall x :: x in s[1..] ==> x in s;
      assert forall x :: x in s ==> x == s[0] || x in s[1..];
      if s[0] >= rest then s[0] else rest
  }

  /** `min(values) if values else None`. */
  function MinOrNone(s: seq<real>): (r: Option<real>)
    ensures r.None? <==> s == []
    ensures r.Some? ==> r.value in s && forall x :: x in s ==> r.value <= x
  {
    if s == [] then None else Some(Smallest(s))
  }

  /** `max(values) if values else None`. */
  function MaxOrNone(s: seq<real>): (r: Option<real>)
    ensures r.None? <==> s == []
    ensures r.Some? ==> r.value in s && forall x :: x in s ==> x <= r.value
  {
    if s == [] then None else Some(Largest(s))
  }

  /** The smaller of two optional bounds, ignoring a missing one. */
  function SmallerOf(a: Option<real>, b: Option<real>): (r: Option<real>)
    ensures r.None? <==> a.None? && b.None?
    ensures a.Some? && b.Some? ==> r.value <= a.value && r.value <= b.value && (r == a || r == b)
    ensures a.Some? && b.None? ==> r == a
    ensures a.None? && b.Some? ==> r == b
  {
    if a.None? then b else if b.None? then a else if b.value < a.value then b else a
  }

  /** A min or max column value: None is dropped; a NaN is dropped too. */
  function Reading(v: Value, column: string): (r: Result<Option<real>>)
    ensures r.Ok? <==> v.VNone? || v.VNaN? || v.VInt? || v.VFloat?
    ensures r.Ok? && r.value.Some? ==> v.VInt? || v.VFloat?
  {
    match v
    case VNone => Ok(None)
    case VNaN => Ok(None)
    case VInt(i) => Ok(Some(i as real))
    case VFloat(x) => Ok(Some(x))
    case _ => Fail(NotANumber(column))
  }

  /** The column holds the number `x`. */
  ghost predicate Holds(row: Row, column: string, x: real)
  {
    Get(row, column).Some? && Reading(Get(row, column).value, column) == Ok(Some(x))
  }

  /** The numbers in the given columns of the row, Nones and NaNs dropped;
      a missing column raises. */
  function Readings(row: Row, columns: seq<string>): (r: Result<seq<real>>)
    ensures r.Ok? ==> forall x :: x in r.value <==> exists i :: 0 <= i < |columns| && Holds(row, columns[i], x)
  {
    if columns == [] then Ok([])
    else
      var n := |columns| - 1;
      var pre := Readings(row, columns[..n]);
      if pre.Fail? then pre
      else
        var v := Get(row, columns[n]);
        if v.None? then Fail(MissingKey(columns[n]))
        else
          var x := Reading(v.value, columns[n]);
          assert forall i :: 0 <= i < n ==> columns[..n][i] == columns[i];
          if x.Fail? then Fail(x.error)
          else
            assert x.value.Some? ==> Holds(row, columns[n], x.value.value);
            assert forall y :: !Holds(row, columns[n], y) || x.value == Some(y);
            if x.value.Some? then Ok(pre.value + [x.value.value]) else pre
  }

  /** `"{}({})".format(fn, field)` for every field. */
  function Columns(fn: string, fields: seq<string>): (r: seq<string>)
    ensures |r| == |fields|
    ensures forall i :: 0 <= i < |fields| ==> r[i] == fn + "(" + fields[i] + ")"
  {
    seq(|fields|, i requires 0 <= i < |fields| => fn + "(" + fields[i] + ")")
  }

  function Aliases(columns: seq<string>, alias: string -> string): (r: seq<string>)
    ensures |r| == |columns|
    ensures forall i :: 0 <= i < |columns| ==> r[i] == alias(columns[i])
  {
    seq(|columns|, i requires 0 <= i < |columns| => alias(columns[i]))
  }

  function Q1Column(field: string): string { "percentile(" + field + ", 0.25)" }
  function Q3Column(field: string): string { "percentile(" + field + ", 0.75)" }

  /** The quartile columns, first and third for each field in turn. */
  function QuartileColumns(fields: seq<string>): (r: seq<string>)
    ensures |r| == 2 * |fields|
  {
    if fields == [] then [] else [Q1Column(fields[0]), Q3Column(fields[0])] + QuartileColumns(fields[1..])
  }

  predicate IsNumber(v: Value)
  {
    v.VInt? || v.VFloat? || v.VNaN?
  }

  function RealOf(v: Value): real
  {
    if v.VInt? then v.i as real else if v.VFloat? then v.r else 0.0
  }

  function Abs(x: real): real
  {
    if x < 0.0 then -x else x
  }

  /** The upper outer fence Q3 + 3 * |Q3 - Q1|. */
  function Fence(q1: real, q3: real): (f: real)
    ensures f >= q3 && f >= q1
  {
    q3 + 3.0 * Abs(q3 - q1)
  }

  /** The fence of one field, or none when a quartile is None or NaN;
      `isnan` raises on a quartile that is not a number. */
  function FieldFence(q1: Value, q3: Value, q1Column: string, q3Column: string): (r: Result<Option<real>>)
    ensures r.Ok? && r.value.Some? ==>
              (q1.VInt? || q1.VFloat?) && (q3.VInt? || q3.VFloat?) && r.value.value == Fence(RealOf(q1), RealOf(q3))
    ensures (q1.VInt? || q1.VFloat?) && (q3.VInt? || q3.VFloat?) ==> r == Ok(Some(Fence(RealOf(q1), RealOf(q3))))
    ensures q1.VNone? || q3.VNone? ==> r == Ok(None)
    ensures r.Fail? <==> !q1.VNone? && !q3.VNone? && (!IsNumber(q1) || (!q1.VNaN? && !IsNumber(q3)))
  {
    if q1.VNone? || q3.VNone? then Ok(None)
    else if !IsNumber(q1) then Fail(NotANumber(q1Column))
    else if q1.VNaN? then Ok(None)
    else if !IsNumber(q3) then Fail(NotANumber(q3Column))
    else if q3.VNaN? then Ok(None)
    else Ok(Some(Fence(RealOf(q1), RealOf(q3))))
  }

  /** The field's quartile columns are present and give the fence `x`. */
  ghost predicate HasFence(row: Row, field: string, alias: string -> string, x: real)
  {
    var a1 := alias(Q1Column(field));
    var a3 := alias(Q3Column(field));
    HasKey(row, a1) && HasKey(row, a3) && FieldFence(Get(row, a1).value, Get(row, a3).value, a1, a3) == Ok(Some(x))
  }

  /** The fences of the fields whose quartiles are both numbers. */
  function Fences(row: Row, fields: seq<string>, alias: string -> string): (r: Result<seq<real>>)
    ensures r.Ok? ==> |r.value| <= |fields|
    ensures r.Ok? ==> forall x :: x in r.value <==> exists i :: 0 <= i < |fields| && HasFence(row, fields[i], alias, x)
  {
    if fields == [] then Ok([])
    else
      var n := |fields| - 1;
      var pre := Fences(row, fields[..n], alias);
      if pre.Fail? then pre
      else
        var a1 := alias(Q1Column(fields[n]));
        var a3 := alias(Q3Column(fields[n]));
        var q1 := Get(row, a1);
        var q3 := Get(row, a3);
        if q1.None? then Fail(MissingKey(a1))
        else if q3.None? then Fail(MissingKey(a3))
        else
          var f := FieldFence(q1.value, q3.value, a1, a3);
          assert forall i :: 0 <= i < n ==> fields[..n][i] == fields[i];
          if f.Fail? then Fail(f.error)
          else
            assert f.value.Some? ==> HasFence(row, fields[n], alias, f.value.value);
            assert forall y :: !HasFence(row, fields[n], alias, y) || f.value == Some(y);
            if f.value.Some? then Ok(pre.value + [f.value.value]) else pre
  }

  /** The bounds read from the single result row: a missing minimum is the
      smallest of the fields' minima; a missing maximum is the largest of
      their maxima, capped, when outliers are excluded, by the largest
      upper outer fence. */
  function BoundsFromRow(fields: seq<string>, minValue: Option<real>, maxValue: Option<real>, excludeOutliers: bool,
                         row: Row, alias: string -> string): (r: Result<(Option<real>, Option<real>)>)
    ensures r.Ok? && minValue.Some? ==> r.value.0 == minValue
    ensures r.Ok? && maxValue.Some? ==> r.value.1 == maxValue
    ensures r.Ok? && minValue.None? ==>
              var mins := Readings(row, Aliases(Columns("min", fields), alias));
              mins.Ok? && r.value.0 == MinOrNone(mins.value)
    ensures r.Ok? && maxValue.None? ==>
              var maxes := Readings(row, Aliases(Columns("max", fields), alias));
              var fences := if excludeOutliers then Fences(row, fields, alias) else Ok([]);
              maxes.Ok? && fences.Ok? && r.value.1 == SmallerOf(MaxOrNone(fences.value), MaxOrNone(maxes.value))
  {
    var lo := if minValue.Some? then Ok(minValue)
              else
                var mins := Readings(row, Aliases(Columns("min", fields), alias));
                if mins.Fail? then Fail(mins.error) else Ok(MinOrNone(mins.value));
    if lo.Fail? then Fail(lo.error)
    else if maxValue.Some? then Ok((lo.value, maxValue))
    else
      var maxes := Readings(row, Aliases(Columns("max", fields), alias));
      if maxes.Fail? then Fail(maxes.error)
      else
        var fences := if excludeOutliers then Fences(row, fields, alias) else Ok([]);
        if fences.Fail? then Fail(fences.error)
        else Ok((lo.value, SmallerOf(MaxOrNone(fences.value), MaxOrNone(maxes.value))))
  }

  /** The columns of the bounds query: a minimum per field when the minimum
      is missing, a maximum per field when the maximum is, and both
      quartiles per field when outliers are excluded. */
  function BoundsColumns(fields: seq<string>, minValue: Option<real>, maxValue: Option<real>, excludeOutliers: bool)
    : seq<string>
  {
    (if minValue.None? then Columns("min", fields) else [])
    + (if maxValue.None? then Columns("max", fields) else [])
    + (if excludeOutliers then QuartileColumns(fields) else [])
  }

  /** `find_histogram_min_max`: given bounds are returned as they are;
      otherwise one query row is read, and anything but exactly one row
      gives no bounds at all. */
  function FindHistogramMinMax(fields: seq<string>, minValue: Option<real>, maxValue: Option<real>,
                               excludeOutliers: bool, env: HistogramEnv): (r: Result<(Option<real>, Option<real>)>)
    ensures minValue.Some? && maxValue.Some? ==> r == Ok((minValue, maxValue))
    ensures !(minValue.Some? && maxValue.Some?) ==>
              var rows := env.runQuery(QueryCall(BoundsColumns(fields, minValue, maxValue, excludeOutliers), [], [], 1));
              rows.Ok? && |rows.value| != 1 ==> r == Ok((None, None))
    ensures !(minValue.Some? && maxValue.Some?) ==>
              var rows := env.runQuery(QueryCall(BoundsColumns(fields, minValue, maxValue, excludeOutliers), [], [], 1));
              rows.Ok? && |rows.value| == 1 ==>
                r == BoundsFromRow(fields, minValue, maxValue, excludeOutliers, rows.value[0], env.functionAlias)
  {
    if minValue.Some? && maxValue.Some? then Ok((minValue, maxValue))
    else
      var rows := env.runQuery(QueryCall(BoundsColumns(fields, minValue, maxValue, excludeOutliers), [], [], 1));
      if rows.Fail? then Fail(rows.error)
      else if |rows.value| != 1 then Ok((None, None))
      else BoundsFromRow(fields, minValue, maxValue, excludeOutliers, rows.value[0], env.functionAlias)
  }

  /** The queried maximum never exceeds the largest raw maximum, and never
      exceeds the largest fence when there is one. */
  lemma MaxIsCapped(fields: seq<string>, minValue: Option<real>, excludeOutliers: bool, row: Row,
                    alias: string -> string)
    requires BoundsFromRow(fields, minValue, None, excludeOutliers, row, alias).Ok?
    ensures var hi := BoundsFromRow(fields, minValue, None, excludeOutliers, row, alias).value.1;
            var maxes := Readings(row, Aliases(Columns("max", fields), alias)).value;
            var fences := if excludeOutliers then Fences(row, fields, alias).value else [];
            && (hi.Some? <==> maxes != [] || fences != [])
            && (hi.Some? ==> hi.value in maxes || hi.value in fences)
            && (maxes != [] ==> hi.Some? && hi.value <= Largest(maxes))
            && (fences != [] ==> hi.Some? && hi.value <= Largest(fences))
  {
    var maxes := Readings(row, Aliases(Columns("max", fields), alias)).value;
    if maxes != [] {
      var hi := BoundsFromRow(fields, minValue, None, excludeOutliers, row, alias).value.1;
      assert hi.Some?;
      assert Largest(maxes) in maxes;
    }
  }

  // ---------------------------------------------------------------------
  // The histogram column and the normalised results
  // ---------------------------------------------------------------------

  const KeyColumn := "array_join(measurements_key)"

  /** `get_histogram_column`: `histogram(<field>, <size>, <offset>, <multiplier>)`
      over the first field, or over the measurement values of a
      multihistogram; an empty field list has no first field. */
  function HistogramColumn(fields: seq<string>, keyColumn: Option<string>, p: HistogramParams): (r: Result<string>)
    ensures r.Fail? <==> keyColumn.None? && fields == []
    ensures r.Fail? ==> r.error == NoFields
  {
    if keyColumn.None? && fields == [] then Fail(NoFields)
    else
      var field := if keyColumn.None? then fields[0] else "measurements_value";
      Ok("histogram(" + field + ", " + IntText(p.bucketSize) + ", " + IntText(p.startOffset) + ", "
         + IntText(p.multiplier) + ")")
  }

  /** `int(row[bin_name])`. */
  function BinOf(row: Row, binName: string): (r: Result<int>)
    ensures r.Ok? <==> HasKey(row, binName) && PyInt(Get(row, binName).value, binName).Ok?
    ensures r.Ok? ==> r == PyInt(Get(row, binName).value, binName)
    ensures !HasKey(row, binName) ==> r == Fail(MissingKey(binName))
  {
    match Get(row, binName)
    case None => Fail(MissingKey(binName))
    case Some(v) => PyInt(v, binName)
  }

  /** The field a row belongs to: the first field, or for a multihistogram
      `measurements.<key>`. */
  function RowField(row: Row, fields: seq<string>, keyName: Option<string>, text: Value -> string): Result<string>
    requires keyName.Some? || fields != []
  {
    if keyName.None? then Ok(fields[0])
    else
      match Get(row, keyName.value)
      case None => Fail(MissingKey(keyName.value))
      case Some(v) => Ok("measurements." + text(v))
  }

  type BucketMaps = map<string, map<int, Value>>

  function EmptyMaps(fields: seq<string>): (m: BucketMaps)
    ensures forall f :: f in m <==> f in fields
    ensures forall f :: f in m ==> m[f] == map[]
  {
    map f | f in fields :: map[]
  }

  /** One row recorded: its count stored under its bin, replacing any count
      stored there before; a row of another field is ignored. */
  function Record(maps: BucketMaps, row: Row, fields: seq<string>, keyName: Option<string>, binName: string,
                  text: Value -> string): (r: Result<BucketMaps>)
    requires keyName.Some? || fields != []
    ensures r.Ok? ==> r.value.Keys == maps.Keys
  {
    var key := RowField(row, fields, keyName, text);
    if key.Fail? then Fail(key.error)
    else
      var bin := BinOf(row, binName);
      if bin.Fail? then Fail(bin.error)
      else if key.value !in maps then Ok(maps)
      else
        match Get(row, "count")
        case None => Fail(MissingKey("count"))
        case Some(c) => Ok(maps[key.value := maps[key.value][bin.value := c]])
  }

  /** The bucket maps after all rows, in row order. */
  function Recorded(rows: seq<Row>, fields: seq<string>, keyName: Option<string>, binName: string,
                    text: Value -> string): (r: Result<BucketMaps>)
    requires keyName.Some? || fields != []
    ensures r.Ok? ==> forall f :: f in r.value <==> f in fields
  {
    if rows == [] then Ok(EmptyMaps(fields))
    else
      var pre := Recorded(rows[..|rows| - 1], fields, keyName, binName, text);
      if pre.Fail? then pre else Record(pre.value, rows[|rows| - 1], fields, keyName, binName, text)
  }

  /** The row belongs to field `f` and falls in bin `b`. */
  predicate InBin(row: Row, fields: seq<string>, keyName: Option<string>, binName: string, text: Value -> string,
                  f: string, b: int)
    requires keyName.Some? || fields != []
  {
    RowField(row, fields, keyName, text) == Ok(f) && BinOf(row, binName) == Ok(b)
  }

  /** The last index that holds `true`, if any. */
  function LastHit(hits: seq<bool>): (r: Option<nat>)
    ensures r.Some? ==> r.value < |hits| && hits[r.value] && forall j :: r.value < j < |hits| ==> !hits[j]
    ensures r.None? ==> forall j :: 0 <= j < |hits| ==> !hits[j]
  {
    if hits == [] then None
    else if hits[|hits| - 1] then Some(|hits| - 1)
    else
      var r := LastHit(hits[..|hits| - 1]);
      assert forall j :: 0 <= j < |hits| - 1 ==> hits[..|hits| - 1][j] == hits[j];
      r
  }

  /** Which rows belong to field `f` and fall in bin `b`. */
  function InBinRows(rows: seq<Row>, fields: seq<string>, keyName: Option<string>, binName: string,
                     text: Value -> string, f: string, b: int): (hits: seq<bool>)
    requires keyName.Some? || fields != []
    ensures |hits| == |rows|
    ensures forall j :: 0 <= j < |rows| ==> hits[j] == InBin(rows[j], fields, keyName, binName, text, f, b)
  {
    seq(|rows|, j requires 0 <= j < |rows| => InBin(rows[j], fields, keyName, binName, text, f, b))
  }

  /** Recording one row changes bin `b` of field `f` only when the row
      falls there, and then to the row's count. */
  lemma RecordStep(maps: BucketMaps, row: Row, fields: seq<string>, keyName: Option<string>, binName: string,
                   text: Value -> string, f: string, b: int)
    requires keyName.Some? || fields != []
    requires f in maps
    requires Record(maps, row, fields, keyName, binName, text).Ok?
    ensures var m := Record(maps, row, fields, keyName, binName, text).value;
            if InBin(row, fields, keyName, binName, text, f, b)
            then b in m[f] && Get(row, "count") == Some(m[f][b])
            else (b in m[f] <==> b in maps[f]) && (b in maps[f] ==> m[f][b] == maps[f][b])
  {
  }

  /** Recording the rows of a prefix succeeds when recording all of them does. */
  lemma RecordedPrefix(rows: seq<Row>, fields: seq<string>, keyName: Option<string>, binName: string,
                       text: Value -> string)
    requires keyName.Some? || fields != []
    requires rows != []
    requires Recorded(rows, fields, keyName, binName, text).Ok?
    ensures Recorded(rows[..|rows| - 1], fields, keyName, binName, text).Ok?
    ensures Recorded(rows, fields, keyName, binName, text) ==
            Record(Recorded(rows[..|rows| - 1], fields, keyName, binName, text).value, rows[|rows| - 1],
                   fields, keyName, binName, text)
  {
  }

  /** A bin of a requested field holds a count exactly when some row falls
      in it, and then the count of the LAST such row: a later row
      overwrites an earlier one, it does not add to it. */
  lemma {:induction false} RecordedOverwrites(rows: seq<Row>, fields: seq<string>, keyName: Option<string>,
                                              binName: string, text: Value -> string, f: string, b: int)
    requires keyName.Some? || fields != []
    requires f in fields
    requires Recorded(rows, fields, keyName, binName, text).Ok?
    ensures var m := Recorded(rows, fields, keyName, binName, text).value;
            var last := LastHit(InBinRows(rows, fields, keyName, binName, text, f, b));
            && (b in m[f] <==> last.Some?)
            && (last.Some? ==> Get(rows[last.value], "count") == Some(m[f][b]))
  {
    if rows != [] {
      var n := |rows| - 1;
      var pre := rows[..n];
      RecordedPrefix(rows, fields, keyName, binName, text);
      RecordedOverwrites(pre, fields, keyName, binName, text, f, b);
      var m0 := Recorded(pre, fields, keyName, binName, text).value;
      RecordStep(m0, rows[n], fields, keyName, binName, text, f, b);
      var hits := InBinRows(rows, fields, keyName, binName, text, f, b);
      assert InBinRows(pre, fields, keyName, binName, text, f, b) == hits[..n];
      if !InBin(rows[n], fields, keyName, binName, text, f, b) {
        var last := LastHit(hits[..n]);
        assert LastHit(hits) == last;
        if last.Some? {
          assert rows[last.value] == pre[last.value];
        }
      }
    }
  }

  /** An output row: the bin (divided by the multiplier when it exceeds 1)
      and its count, 0 when no row fell in it. */
  function BinRow(maps: BucketMaps, f: string, bucket: int, multiplier: int): (r: Row)
    ensures Get(r, "bin") == Some(BinValue(bucket, multiplier))
    ensures Get(r, "count") == Some(if f in maps && bucket in maps[f] then maps[f][bucket] else VInt(0))
  {
    var count := if f in maps && bucket in maps[f] then maps[f][bucket] else VInt(0);
    [("bin", BinValue(bucket, multiplier)), ("count", count)]
  }

  /** The bin as reported: divided by the multiplier, as a float, when the
      multiplier exceeds 1. */
  function BinValue(bucket: int, multiplier: int): (v: Value)
    ensures multiplier > 1 ==> v.VFloat? && v.r * multiplier as real == bucket as real
    ensures multiplier <= 1 ==> v == VInt(bucket)
  {
    if multiplier > 1 then VFloat(bucket as real / multiplier as real) else VInt(bucket)
  }

  function Bin(p: HistogramParams, i: int): int
  {
    p.startOffset + p.bucketSize * i
  }

  /** The histograms being built, one list of rows per field. The key order
      of the returned dict is not modelled. */
  type Histograms = map<string, seq<Row>>

  /** `new_data[f]`, empty when absent. */
  function Series(d: Histograms, f: string): seq<Row>
  {
    if f in d then d[f] else []
  }

  /** One pass of the inner loop: bucket `i` appended to every field's list,
      twice to a field listed twice. */
  function AddBucket(d: Histograms, fields: seq<string>, maps: BucketMaps, p: HistogramParams, i: int): Histograms
  {
    if fields == [] then d
    else
      var pre := AddBucket(d, fields[..|fields| - 1], maps, p, i);
      var f := fields[|fields| - 1];
      pre[f := Series(pre, f) + [BinRow(maps, f, Bin(p, i), p.multiplier)]]
  }

  /** `{field: [] for field in fields}`. */
  function EmptySeries(fields: seq<string>): (d: Histograms)
    ensures forall f :: f in d <==> f in fields
    ensures forall f :: f in d ==> d[f] == []
  {
    map f | f in fields :: []
  }

  /** The outer loop over the first `n` buckets. */
  function NewData(fields: seq<string>, maps: BucketMaps, p: HistogramParams, n: nat): Histograms
  {
    if n == 0 then EmptySeries(fields) else AddBucket(NewData(fields, maps, p, n - 1), fields, maps, p, n - 1)
  }

  /** The fields have no duplicates. */
  ghost predicate Unique(fields: seq<string>)
  {
    forall i, j :: 0 <= i < j < |fields| ==> fields[i] != fields[j]
  }

  /** A bucket pass adds the fields as keys and no others. */
  lemma {:induction false} AddBucketKeys(d: Histograms, fields: seq<string>, maps: BucketMaps, p: HistogramParams,
                                         i: int)
    ensures forall f :: f in AddBucket(d, fields, maps, p, i) <==> f in d || f in fields
  {
    if fields != [] {
      var pre := fields[..|fields| - 1];
      AddBucketKeys(d, pre, maps, p, i);
      assert fields == pre + [fields[|fields| - 1]];
    }
  }

  /** With unique fields every field gains exactly the row of the bucket;
      other keys are untouched. */
  lemma {:induction false} AddBucketMeaning(d: Histograms, fields: seq<string>, maps: BucketMaps,
                                            p: HistogramParams, i: int, f: string)
    requires Unique(fields)
    ensures f in fields ==> f in AddBucket(d, fields, maps, p, i) && AddBucket(d, fields, maps, p, i)[f] ==
                             Series(d, f) + [BinRow(maps, f, Bin(p, i), p.multiplier)]
    ensures f !in fields ==> Series(AddBucket(d, fields, maps, p, i), f) == Series(d, f)
  {
    AddBucketKeys(d, fields, maps, p, i);
    if fields != [] {
      var pre := fields[..|fields| - 1];
      assert Unique(pre);
      AddBucketMeaning(d, pre, maps, p, i, f);
      assert fields == pre + [fields[|fields| - 1]];
      if f == fields[|fields| - 1] {
        assert f !in pre;
      }
    }
  }

  /** The result has exactly one histogram per field. */
  lemma {:induction false} NewDataKeys(fields: seq<string>, maps: BucketMaps, p: HistogramParams, n: nat)
    ensures forall f :: f in NewData(fields, maps, p, n) <==> f in fields
  {
    if n > 0 {
      NewDataKeys(fields, maps, p, n - 1);
      AddBucketKeys(NewData(fields, maps, p, n - 1), fields, maps, p, n - 1);
    }
  }

  /** With unique fields, each field's series is exactly the first `n`
      buckets: bin `start + size * i` and the count recorded there, or 0. */
  lemma {:induction false} NewDataMeaning(fields: seq<string>, maps: BucketMaps, p: HistogramParams, n: nat, f: string)
    requires Unique(fields)
    requires f in fields
    ensures f in NewData(fields, maps, p, n)
    ensures var s := NewData(fields, maps, p, n)[f];
            |s| == n && forall i :: 0 <= i < n ==> s[i] == BinRow(maps, f, Bin(p, i), p.multiplier)
  {
    NewDataKeys(fields, maps, p, n);
    if n > 0 {
      var before := NewData(fields, maps, p, n - 1);
      NewDataMeaning(fields, maps, p, n - 1, f);
      var prev := before[f];
      AddBucketMeaning(before, fields, maps, p, n - 1, f);
      var s := NewData(fields, maps, p, n)[f];
      assert s == prev + [BinRow(maps, f, Bin(p, n - 1), p.multiplier)];
      forall i | 0 <= i < n
        ensures s[i] == BinRow(maps, f, Bin(p, i), p.multiplier)
      {
        if i < n - 1 {
          assert s[i] == prev[i];
        }
      }
    }
  }

  /** Consecutive bins are one bucket width apart, so they increase
      strictly for a positive width. */
  lemma BinsIncrease(p: HistogramParams, i: int, j: int)
    requires p.bucketSize > 0 && i < j
    ensures Bin(p, i) < Bin(p, j)
  {
    assert Bin(p, j) - Bin(p, i) == p.bucketSize * (j - i);
  }

  /** The alias of the key column, for a multihistogram. */
  function KeyName(keyColumn: Option<string>, env: HistogramEnv): (r: Option<string>)
    ensures r.Some? <==> keyColumn.Some?
  {
    if keyColumn.None? then None else Some(env.functionAlias(keyColumn.value))
  }

  /** What `normalize_histogram_results` returns or raises. */
  function NormalizeSpec(fields: seq<string>, keyColumn: Option<string>, p: HistogramParams, rows: seq<Row>,
                         env: HistogramEnv): (r: Result<Histograms>)
    ensures r.Fail? && keyColumn.None? && fields == [] ==> r.error == NoFields
  {
    var column := HistogramColumn(fields, keyColumn, p);
    if column.Fail? then Fail(column.error)
    else
      var maps := Recorded(rows, fields, KeyName(keyColumn, env), env.functionAlias(column.value), env.text);
      if maps.Fail? then Fail(maps.error)
      else Ok(NewData(fields, maps.value, p, if p.numBuckets < 0 then 0 else p.numBuckets))
  }

  /** Each requested field gets one row per bucket, in bin order: the i-th
      reports bin `start + size * i` and the count of the last result row of
      the field in that bin, or 0 when there is none. */
  lemma NormalizedCounts(fields: seq<string>, keyColumn: Option<string>, p: HistogramParams, rows: seq<Row>,
                         env: HistogramEnv, f: string, i: nat)
    requires Unique(fields) && f in fields
    requires NormalizeSpec(fields, keyColumn, p, rows, env).Ok?
    requires i < p.numBuckets
    ensures var h := NormalizeSpec(fields, keyColumn, p, rows, env).value;
            var binName := env.functionAlias(HistogramColumn(fields, keyColumn, p).value);
            var last := LastHit(InBinRows(rows, fields, KeyName(keyColumn, env), binName, env.text, f, Bin(p, i)));
            && f in h && |h[f]| == p.numBuckets
            && Get(h[f][i], "bin") == Some(BinValue(Bin(p, i), p.multiplier))
            && (last.None? ==> Get(h[f][i], "count") == Some(VInt(0)))
            && (last.Some? ==> Get(h[f][i], "count") == Get(rows[last.value], "count"))
  {
    var binName := env.functionAlias(HistogramColumn(fields, keyColumn, p).value);
    var keyName := KeyName(keyColumn, env);
    var maps := Recorded(rows, fields, keyName, binName, env.text).value;
    NewDataMeaning(fields, maps, p, p.numBuckets, f);
    RecordedOverwrites(rows, fields, keyName, binName, env.text, f, Bin(p, i));
  }

  /** The loop over the result rows that fills the bucket maps. */
  method RecordRows(rows: seq<Row>, fields: seq<string>, keyName: Option<string>, binName: string,
                    text: Value -> string) returns (r: Result<BucketMaps>)
    requires keyName.Some? || fields != []
    ensures r == Recorded(rows, fields, keyName, binName, text)
  {
    var bucketMaps := EmptyMaps(fields);
    for j := 0 to |rows|
      invariant Recorded(rows[..j], fields, keyName, binName, text) == Ok(bucketMaps)
    {
      assert rows[..j + 1][..j] == rows[..j];
      var key := RowField(rows[j], fields, keyName, text);
      if key.Fail? {
        RecordedFail(rows, j + 1, fields, keyName, binName, text);
        return Fail(key.error);
      }
      var bucket := BinOf(rows[j], binName);
      if bucket.Fail? {
        RecordedFail(rows, j + 1, fields, keyName, binName, text);
        return Fail(bucket.error);
      }
      if key.value in bucketMaps {
        var count := Get(rows[j], "count");
        if count.None? {
          RecordedFail(rows, j + 1, fields, keyName, binName, text);
          return Fail(MissingKey("count"));
        }
        bucketMaps := bucketMaps[key.value := bucketMaps[key.value][bucket.value := count.value]];
      }
    }
    assert rows[..|rows|] == rows;
    r := Ok(bucketMaps);
  }

  /** A failure on a prefix of the rows is the failure of all rows. */
  lemma {:induction false} RecordedFail(rows: seq<Row>, n: nat, fields: seq<string>, keyName: Option<string>,
                                        binName: string, text: Value -> string)
    requires keyName.Some? || fields != []
    requires n <= |rows|
    requires Recorded(rows[..n], fields, keyName, binName, text).Fail?
    ensures Recorded(rows, fields, keyName, binName, text) == Recorded(rows[..n], fields, keyName, binName, text)
    decreases |rows| - n
  {
    if n < |rows| {
      assert rows[..n + 1][..n] == rows[..n];
      RecordedFail(rows, n + 1, fields, keyName, binName, text);
    } else {
      assert rows[..n] == rows;
    }
  }

  /** The loop that starts every field with an empty series. */
  method StartSeries(fields: seq<string>) returns (newData: Histograms)
    ensures newData == EmptySeries(fields)
  {
    newData := map[];
    for k := 0 to |fields|
      invariant forall f :: f in newData <==> f in fields[..k]
      invariant forall f :: f in newData ==> newData[f] == []
    {
      assert fields[..k + 1] == fields[..k] + [fields[k]];
      newData := newData[fields[k] := []];
    }
    assert fields[..|fields|] == fields;
  }

  lemma AddBucketSnoc(d: Histograms, fields: seq<string>, maps: BucketMaps, p: HistogramParams, i: int, k: nat)
    requires k < |fields|
    ensures var pre := AddBucket(d, fields[..k], maps, p, i);
            AddBucket(d, fields[..k + 1], maps, p, i) ==
            pre[fields[k] := Series(pre, fields[k]) + [BinRow(maps, fields[k], Bin(p, i), p.multiplier)]]
  {
    assert fields[..k + 1][..k] == fields[..k];
  }

  /** The inner loop: bucket `i` appended to the series of every field. */
  method AppendBucket(d: Histograms, fields: seq<string>, maps: BucketMaps, p: HistogramParams, i: int)
    returns (newData: Histograms)
    ensures newData == AddBucket(d, fields, maps, p, i)
  {
    newData := d;
    var bucket := Bin(p, i);
    for k := 0 to |fields|
      invariant newData == AddBucket(d, fields[..k], maps, p, i)
    {
      AddBucketSnoc(d, fields, maps, p, i, k);
      var row := BinRow(maps, fields[k], bucket, p.multiplier);
      newData := newData[fields[k] := Series(newData, fields[k]) + [row]];
    }
    assert fields[..|fields|] == fields;
  }

  /** The outer loop over the buckets. */
  method BuildSeries(fields: seq<string>, maps: BucketMaps, p: HistogramParams) returns (newData: Histograms)
    ensures newData == NewData(fields, maps, p, if p.numBuckets < 0 then 0 else p.numBuckets)
  {
    newData := StartSeries(fields);
    var n := if p.numBuckets < 0 then 0 else p.numBuckets;
    for i := 0 to n
      invariant newData == NewData(fields, maps, p, i)
    {
      newData := AppendBucket(newData, fields, maps, p, i);
    }
  }

  /** `normalize_histogram_results`. */
  method NormalizeHistogramResults(fields: seq<string>, keyColumn: Option<string>, p: HistogramParams,
                                   rows: seq<Row>, env: HistogramEnv) returns (r: Result<Histograms>)
    ensures r == NormalizeSpec(fields, keyColumn, p, rows, env)
  {
    var keyName := KeyName(keyColumn, env);
    var column := HistogramColumn(fields, keyColumn, p);
    if column.Fail? {
      return Fail(column.error);
    }
    var maps := RecordRows(rows, fields, keyName, env.functionAlias(column.value), env.text);
    if maps.Fail? {
      return Fail(maps.error);
    }
    var newData := BuildSeries(fields, maps.value, p);
    r := Ok(newData);
  }

  // ---------------------------------------------------------------------
  // The query
  // ---------------------------------------------------------------------

  /** The measurement names of the fields; the first field that is not a
      measurement raises. */
  function Measurements(fields: seq<string>, measurementName: string -> Option<string>): (r: Result<seq<string>>)
    ensures r.Ok? <==> forall i :: 0 <= i < |fields| ==> measurementName(fields[i]).Some?
    ensures r.Ok? ==> |r.value| == |fields| &&
                      forall i :: 0 <= i < |fields| ==> measurementName(fields[i]) == Some(r.value[i])
    ensures r.Fail? ==> exists i :: 0 <= i < |fields| && measurementName(fields[i]).None? &&
                                    (forall j :: 0 <= j < i ==> measurementName(fields[j]).Some?) &&
                                    r.error == InvalidSearchQuery(NotAMeasurement(fields[i]))
  {
    if fields == [] then Ok([])
    else
      var n := |fields| - 1;
      var pre := Measurements(fields[..n], measurementName);
      assert forall i :: 0 <= i < n ==> fields[..n][i] == fields[i];
      if pre.Fail? then pre
      else
        match measurementName(fields[n])
        case None => Fail(InvalidSearchQuery(NotAMeasurement(fields[n])))
        case Some(m) => Ok(pre.value + [m])
  }

  /** The loop that checks each field is a measurement. */
  method MeasurementNames(fields: seq<string>, measurementName: string -> Option<string>)
    returns (r: Result<seq<string>>)
    ensures r == Measurements(fields, measurementName)
  {
    var measurements := [];
    for i := 0 to |fields|
      invariant Measurements(fields[..i], measurementName) == Ok(measurements)
    {
      assert fields[..i + 1][..i] == fields[..i];
      var measurement := measurementName(fields[i]);
      if measurement.None? {
        MeasurementsFail(fields, i + 1, measurementName);
        return Fail(InvalidSearchQuery(NotAMeasurement(fields[i])));
      }
      measurements := measurements + [measurement.value];
    }
    assert fields[..|fields|] == fields;
    r := Ok(measurements);
  }

  lemma {:induction false} MeasurementsFail(fields: seq<string>, n: nat, measurementName: string -> Option<string>)
    requires n <= |fields|
    requires Measurements(fields[..n], measurementName).Fail?
    ensures Measurements(fields, measurementName) == Measurements(fields[..n], measurementName)
    decreases |fields| - n
  {
    if n < |fields| {
      assert fields[..n + 1][..n] == fields[..n];
      MeasurementsFail(fields, n + 1, measurementName);
    } else {
      assert fields[..n] == fields;
    }
  }

  /** The bin-range conditions: at least the first bin, at most the first
      bin plus the requested number of buckets (not the trimmed count). */
  function BinConditions(histogramAlias: string, p: HistogramParams, numBuckets: int): seq<Condition>
  {
    [Compare(Column(histogramAlias), ">=", VInt(p.startOffset)),
     Compare(Column(histogramAlias), "<=", VInt(p.startOffset + p.bucketSize * numBuckets))]
  }

  /** The part of `histogram_query` after the bounds and the measurement
      check: the bucket geometry, the histogram column, and either the
      zero-filled histograms of no rows (a bound is missing) or those of the
      rows the bin-range query returns. */
  function BinnedHistograms(fields: seq<string>, numBuckets: int, multiplier: int, lo: Option<real>, hi: Option<real>,
                            keyColumn: Option<string>, conditions: seq<Condition>, env: HistogramEnv)
    : (r: Result<Histograms>)
  {
    var params := FindHistogramParams(numBuckets, lo, hi, multiplier, env.niceInt);
    if params.Fail? then Fail(params.error)
    else
      var column := HistogramColumn(fields, keyColumn, params.value);
      if column.Fail? then Fail(column.error)
      else if lo.None? || hi.None? then NormalizeSpec(fields, keyColumn, params.value, [], env)
      else
        var alias := env.functionAlias(column.value);
        var call := QueryCall((if keyColumn.None? then [] else [KeyColumn]) + [column.value, "count()"],
                              conditions + BinConditions(alias, params.value, numBuckets), [alias],
                              |fields| * numBuckets);
        var rows := env.runQuery(call);
        if rows.Fail? then Fail(rows.error)
        else NormalizeSpec(fields, keyColumn, params.value, rows.value, env)
  }

  /** The condition of a multihistogram: the measurement key among the
      measurements of the fields; none for a single field. */
  function KeyConditions(fields: seq<string>, env: HistogramEnv): (r: Result<seq<Condition>>)
    ensures |fields| <= 1 ==> r == Ok([])
    ensures |fields| > 1 ==> (r.Ok? <==> Measurements(fields, env.measurementName).Ok?)
  {
    if |fields| <= 1 then Ok([])
    else
      var measurements := Measurements(fields, env.measurementName);
      if measurements.Fail? then Fail(measurements.error)
      else Ok([Compare(Column(env.functionAlias(KeyColumn)), "IN", VList(Strs(measurements.value)))])
  }

  /** The maximum made exclusive: lowered by a tenth of the precision. */
  function ExclusiveMax(maxValue: Option<real>, multiplier: int): (r: Option<real>)
    requires multiplier >= 1
    ensures r.None? <==> maxValue.None?
    ensures r.Some? ==> r.value < maxValue.value
  {
    if maxValue.Some? then Some(maxValue.value - 1.0 / (10 * multiplier) as real) else None
  }

  /** The outcome of `histogram_query`: the histogram of every field, or the error. */
  function HistogramQuerySpec(fields: seq<string>, numBuckets: int, precision: nat, minValue: Option<real>,
                              maxValue: Option<real>, excludeOutliers: bool, env: HistogramEnv)
    : (r: Result<Histograms>)
  {
    var multiplier := Pow10(precision);
    var bounds := FindHistogramMinMax(fields, minValue, ExclusiveMax(maxValue, multiplier), excludeOutliers, env);
    if bounds.Fail? then Fail(bounds.error)
    else
      var (lo, hi) := bounds.value;
      var keyColumn := if |fields| > 1 then Some(KeyColumn) else None;
      var conditions := KeyConditions(fields, env);
      if conditions.Fail? then Fail(conditions.error)
      else BinnedHistograms(fields, numBuckets, multiplier, lo, hi, keyColumn, conditions.value, env)
  }

  function Strs(names: seq<string>): (r: seq<Value>)
    ensures |r| == |names| && forall i :: 0 <= i < |names| ==> r[i] == VStr(names[i])
  {
    seq(|names|, i requires 0 <= i < |names| => VStr(names[i]))
  }

  /** A multihistogram over a field that is not a measurement raises with
      the first such field, once the bounds are known. */
  lemma MultihistogramNeedsMeasurements(fields: seq<string>, numBuckets: int, precision: nat, minValue: Option<real>,
                                        maxValue: Option<real>, excludeOutliers: bool, env: HistogramEnv, i: nat)
    requires |fields| > 1 && i < |fields|
    requires env.measurementName(fields[i]).None?
    requires forall j :: 0 <= j < i ==> env.measurementName(fields[j]).Some?
    requires FindHistogramMinMax(fields, minValue, ExclusiveMax(maxValue, Pow10(precision)), excludeOutliers, env).Ok?
    ensures HistogramQuerySpec(fields, numBuckets, precision, minValue, maxValue, excludeOutliers, env)
            == Fail(InvalidSearchQuery(NotAMeasurement(fields[i])))
  {
    var m := Measurements(fields, env.measurementName);
    assert m.Fail?;
    var k :| 0 <= k < |fields| && env.measurementName(fields[k]).None? &&
             (forall j :: 0 <= j < k ==> env.measurementName(fields[j]).Some?) &&
             m.error == InvalidSearchQuery(NotAMeasurement(fields[k]));
    assert k == i;
  }

  /** The bin-range query and the normalisation, once the bounds are known. */
  method QueryBins(fields: seq<string>, numBuckets: int, multiplier: int, lo: Option<real>, hi: Option<real>,
                   keyColumn: Option<string>, conditions: seq<Condition>, env: HistogramEnv)
    returns (r: Result<Histograms>)
    ensures r == BinnedHistograms(fields, numBuckets, multiplier, lo, hi, keyColumn, conditions, env)
  {
    var params := FindHistogramParams(numBuckets, lo, hi, multiplier, env.niceInt);
    if params.Fail? {
      return Fail(params.error);
    }
    var column := HistogramColumn(fields, keyColumn, params.value);
    if column.Fail? {
      return Fail(column.error);
    }
    var histogramAlias := env.functionAlias(column.value);
    if lo.None? || hi.None? {
      r := NormalizeHistogramResults(fields, keyColumn, params.value, [], env);
      return;
    }
    var binConditions := conditions;
    binConditions := binConditions + [Compare(Column(histogramAlias), ">=", VInt(params.value.startOffset))];
    binConditions := binConditions + [Compare(Column(histogramAlias), "<=",
                                              VInt(params.value.startOffset + params.value.bucketSize * numBuckets))];
    assert binConditions == conditions + BinConditions(histogramAlias, params.value, numBuckets);
    var columns: seq<string> := if keyColumn.None? then [] else [KeyColumn];
    var rows := env.runQuery(QueryCall(columns + [column.value, "count()"], binConditions, [histogramAlias],
                                       |fields| * numBuckets));
    if rows.Fail? {
      return Fail(rows.error);
    }
    r := NormalizeHistogramResults(fields, keyColumn, params.value, rows.value, env);
  }

  /** The measurement check of a multihistogram and its key condition. */
  method MultihistogramConditions(fields: seq<string>, env: HistogramEnv) returns (r: Result<seq<Condition>>)
    ensures r == KeyConditions(fields, env)
  {
    var conditions: seq<Condition> := [];
    if |fields| > 1 {
      var keyAlias := env.functionAlias(KeyColumn);
      var measurements := MeasurementNames(fields, env.measurementName);
      if measurements.Fail? {
        return Fail(measurements.error);
      }
      conditions := [Compare(Column(keyAlias), "IN", VList(Strs(measurements.value)))];
    }
    r := Ok(conditions);
  }

  /** `histogram_query`. */
  method HistogramQuery(fields: seq<string>, numBuckets: int, precision: nat, minValue: Option<real>,
                        maxValue: Option<real>, excludeOutliers: bool, env: HistogramEnv)
    returns (r: Result<Histograms>)
    ensures r == HistogramQuerySpec(fields, numBuckets, precision, minValue, maxValue, excludeOutliers, env)
  {
    var multiplier := Pow10(precision);
    var bounds := FindHistogramMinMax(fields, minValue, ExclusiveMax(maxValue, multiplier), excludeOutliers, env);
    if bounds.Fail? {
      return Fail(bounds.error);
    }
    var keyColumn: Option<string> := if |fields| > 1 then Some(KeyColumn) else None;
    var conditions := MultihistogramConditions(fields, env);
    if conditions.Fail? {
      return Fail(conditions.error);
    }
    r := QueryBins(fields, numBuckets, multiplier, bounds.value.0, bounds.value.1, keyColumn, conditions.value, env);
  }
}
