/** Gap-filling of time-bucketed rows (`zerofill`). */
module Zerofill {
  import opened Common
  import opened SnubaTypes

  /** `int(t / rollup)` for a positive rollup: true division, then
      truncation toward zero (not floor, for timestamps before the epoch). */
  function TruncDiv(t: int, rollup: int): (q: int)
    requires rollup > 0
    ensures t >= 0 ==> q * rollup <= t < q * rollup + rollup
    ensures t < 0 ==> q * rollup - rollup < t <= q * rollup
  {
    if t >= 0 then t / rollup else -((-t) / rollup)
  }

  /** The first bucket key: the start rounded to a multiple of the rollup. */
  function AlignStart(start: int, rollup: int): int
    requires rollup > 0
  {
    TruncDiv(start, rollup) * rollup
  }

  /** The exclusive end: the end rounded to a multiple of the rollup, plus one rollup. */
  function AlignEnd(end: int, rollup: int): int
    requires rollup > 0
  {
    TruncDiv(end, rollup) * rollup + rollup
  }

  /** Every row has a `time` column (the code indexes `obj["time"]`). */
  predicate Timed(rows: seq<Row>)
  {
    forall i :: 0 <= i < |rows| ==> HasKey(rows[i], "time")
  }

  /** The row's `time` column holds `t`. */
  predicate At(row: Row, t: Value)
  {
    Get(row, "time") == Some(t)
  }

  /** The integer time of a row, 0 when it has none. */
  function TimeKey(row: Row): int
  {
    var t := Get(row, "time");
    if t.Some? && t.value.VInt? then t.value.i else 0
  }

  /** The rows whose time is `t`, in their original order. */
  function RowsAt(rows: seq<Row>, t: Value): (r: seq<Row>)
    ensures |r| <= |rows|
  {
    if rows == [] then []
    else
      var last := rows[|rows| - 1];
      RowsAt(rows[..|rows| - 1], t) + (if At(last, t) then [last] else [])
  }

  /** The synthetic row `{"time": key}` of an empty bucket. */
  function TimeRow(key: int): (r: Row)
    ensures At(r, VInt(key))
  {
    [("time", VInt(key))]
  }

  /** What one bucket contributes: its rows, or the synthetic row if it has none. */
  function Bucket(rows: seq<Row>, key: int): (r: seq<Row>)
    ensures |r| > 0
  {
    var found := RowsAt(rows, VInt(key));
    if found == [] then [TimeRow(key)] else found
  }

  /** `xrange(start, end, rollup)`: start, start + rollup, ... below end. */
  function BucketKeys(start: int, end: int, rollup: int): seq<int>
    requires rollup > 0
    decreases end - start
  {
    if start >= end then [] else [start] + BucketKeys(start + rollup, end, rollup)
  }

  /** The buckets of `keys`, in the order of `keys`. */
  function Fill(rows: seq<Row>, keys: seq<int>): (r: seq<Row>)
    ensures |r| >= |keys|
  {
    if keys == [] then [] else Bucket(rows, keys[0]) + Fill(rows, keys[1..])
  }

  function Reverse<T>(s: seq<T>): (r: seq<T>)
    ensures |r| == |s|
    ensures forall i :: 0 <= i < |s| ==> r[i] == s[|s| - 1 - i]
  {
    if s == [] then [] else Reverse(s[1..]) + [s[0]]
  }

  /** What `zerofill(data, start, end, rollup, orderby)` returns. */
  function ZerofillSpec(rows: seq<Row>, start: int, end: int, rollup: int, orderby: seq<string>): seq<Row>
    requires rollup > 0
  {
    var filled := Fill(rows, BucketKeys(AlignStart(start, rollup), AlignEnd(end, rollup), rollup));
    if "-time" in orderby then Reverse(filled) else filled
  }

  lemma RowsAtExtend(rows: seq<Row>, i: int)
    requires 0 <= i < |rows|
    ensures forall t ::
      RowsAt(rows[..i + 1], t) == RowsAt(rows[..i], t) + (if At(rows[i], t) then [rows[i]] else [])
  {
    assert rows[..i + 1][..i] == rows[..i];
  }

  function Lookup(byTime: map<Value, seq<Row>>, t: Value): seq<Row>
  {
    if t in byTime then byTime[t] else []
  }

  /** `byTime` maps every time to the rows of `rows` that carry it, in order. */
  ghost predicate Grouped(byTime: map<Value, seq<Row>>, rows: seq<Row>)
  {
    forall t :: Lookup(byTime, t) == RowsAt(rows, t)
  }

  /** From `key` on, every integer time still maps to all its rows. */
  ghost predicate GroupedFrom(byTime: map<Value, seq<Row>>, rows: seq<Row>, key: int)
  {
    forall k :: key <= k ==> Lookup(byTime, VInt(k)) == RowsAt(rows, VInt(k))
  }

  /** Emptying the entry of a key that has been emitted leaves the later keys alone. */
  lemma ClearStep(byTime: map<Value, seq<Row>>, rows: seq<Row>, key: int, rollup: int)
    requires rollup > 0 && GroupedFrom(byTime, rows, key)
    ensures Lookup(byTime, VInt(key)) == RowsAt(rows, VInt(key))
    ensures GroupedFrom(byTime, rows, key + rollup)
    ensures GroupedFrom(byTime[VInt(key) := []], rows, key + rollup)
  {
  }

  /** Appending one row to its time's list keeps the grouping exact. */
  lemma GroupStep(byTime: map<Value, seq<Row>>, data: seq<Row>, i: int, t: Value)
    requires 0 <= i < |data| && Get(data[i], "time") == Some(t)
    requires Grouped(byTime, data[..i])
    ensures Grouped(byTime[t := Lookup(byTime, t) + [data[i]]], data[..i + 1])
  {
    var next := byTime[t := Lookup(byTime, t) + [data[i]]];
    forall u ensures Lookup(next, u) == RowsAt(data[..i + 1], u) {
      assert data[..i + 1][..i] == data[..i];
      assert data[..i + 1][i] == data[i];
      assert At(data[i], u) <==> u == t;
    }
  }

  /** The `data_by_time` dictionary: every time value to its rows, in order. */
  method GroupByTime(data: seq<Row>) returns (byTime: map<Value, seq<Row>>)
    requires Timed(data)
    ensures Grouped(byTime, data)
  {
    byTime := map[];
    var i := 0;
    while i < |data|
      invariant 0 <= i <= |data|
      invariant Grouped(byTime, data[..i])
    {
      var obj := data[i];
      var t := Get(obj, "time").value;
      GroupStep(byTime, data, i, t);
      if t in byTime {
        byTime := byTime[t := byTime[t] + [obj]];
      } else {
        byTime := byTime[t := [obj]];
      }
      i := i + 1;
    }
    assert data[..|data|] == data;
  }

  /** `zerofill`: group the rows by time, then walk every bucket key in order,
      emitting the bucket's rows or the synthetic row. */
  method Zerofill(data: seq<Row>, start: int, end: int, rollup: int, orderby: seq<string>)
    returns (rv: seq<Row>)
    requires rollup > 0
    requires Timed(data)
    ensures rv == ZerofillSpec(data, start, end, rollup, orderby)
  {
    var first := AlignStart(start, rollup);
    var last := AlignEnd(end, rollup);
    var byTime := GroupByTime(data);
    assert GroupedFrom(byTime, data, first);
    rv := WalkBuckets(byTime, data, first, last, rollup);
    if "-time" in orderby {
      rv := Reverse(rv);
    }
  }

  /** The `xrange` loop: every bucket from `first` up to `last`, in order. */
  method WalkBuckets(byTime0: map<Value, seq<Row>>, data: seq<Row>, first: int, last: int, rollup: int)
    returns (rv: seq<Row>)
    requires rollup > 0 && GroupedFrom(byTime0, data, first)
    ensures rv == Fill(data, BucketKeys(first, last, rollup))
  {
    rv := [];
    var byTime := byTime0;
    var key := first;
    while key < last
      invariant rv + Fill(data, BucketKeys(key, last, rollup)) == Fill(data, BucketKeys(first, last, rollup))
      invariant GroupedFrom(byTime, data, key)
      decreases last - key
    {
      var bucket;
      bucket, byTime := TakeBucket(byTime, data, key, rollup);
      WalkStep(rv, data, key, last, rollup, Fill(data, BucketKeys(first, last, rollup)));
      rv := rv + bucket;
      key := key + rollup;
    }
    assert BucketKeys(key, last, rollup) == [];
    assert rv + [] == rv;
  }

  /** Emitting one bucket moves it from the rest of the walk to the output. */
  lemma WalkStep(rv: seq<Row>, data: seq<Row>, key: int, last: int, rollup: int, total: seq<Row>)
    requires rollup > 0 && key < last
    requires rv + Fill(data, BucketKeys(key, last, rollup)) == total
    ensures (rv + Bucket(data, key)) + Fill(data, BucketKeys(key + rollup, last, rollup)) == total
  {
    FillStep(data, key, last, rollup);
    AppendAssoc(rv, Bucket(data, key), Fill(data, BucketKeys(key + rollup, last, rollup)));
  }

  /** One step of the bucket walk: the bucket's rows (emptying its entry)
      or the synthetic row. */
  method TakeBucket(byTime0: map<Value, seq<Row>>, data: seq<Row>, key: int, rollup: int)
    returns (bucket: seq<Row>, byTime: map<Value, seq<Row>>)
    requires rollup > 0 && GroupedFrom(byTime0, data, key)
    ensures bucket == Bucket(data, key)
    ensures GroupedFrom(byTime, data, key + rollup)
  {
    ClearStep(byTime0, data, key, rollup);
    byTime := byTime0;
    if VInt(key) in byTime && |byTime[VInt(key)]| > 0 {
      bucket := byTime[VInt(key)];
      byTime := byTime[VInt(key) := []];
    } else {
      bucket := [TimeRow(key)];
    }
  }

  /** A call of `zerofill` on bounds that may be missing: converting a
      missing start (first) or end fails, and so does a row without a `time`
      column. */
  function ZerofillOrFail(rows: seq<Row>, start: Option<int>, end: Option<int>, rollup: int,
                          orderby: seq<string>): (r: Result<seq<Row>>)
    requires rollup > 0
    ensures r.Fail? <==> start.None? || end.None? || !Timed(rows)
    ensures start.None? || end.None? ==> r == Fail(MissingTimestamp)
    ensures start.Some? && end.Some? && r.Fail? ==> r == Fail(MissingKey("time"))
  {
    if start.None? || end.None? then Fail(MissingTimestamp)
    else if !Timed(rows) then Fail(MissingKey("time"))
    else Ok(ZerofillSpec(rows, start.value, end.value, rollup, orderby))
  }

  method ZerofillChecked(rows: seq<Row>, start: Option<int>, end: Option<int>, rollup: int,
                         orderby: seq<string>) returns (r: Result<seq<Row>>)
    requires rollup > 0
    ensures r == ZerofillOrFail(rows, start, end, rollup, orderby)
  {
    if start.None? || end.None? {
      return Fail(MissingTimestamp);
    }
    if !Timed(rows) {
      return Fail(MissingKey("time"));
    }
    var filled := Zerofill(rows, start.value, end.value, rollup, orderby);
    r := Ok(filled);
  }

  lemma FillStep(rows: seq<Row>, key: int, last: int, rollup: int)
    requires rollup > 0 && key < last
    ensures Fill(rows, BucketKeys(key, last, rollup))
            == Bucket(rows, key) + Fill(rows, BucketKeys(key + rollup, last, rollup))
  {
    var keys := BucketKeys(key, last, rollup);
    assert keys[0] == key && keys[1..] == BucketKeys(key + rollup, last, rollup);
  }

  // ---------------------------------------------------------------------
  // Properties
  // ---------------------------------------------------------------------

  /** The bucket keys are start, start + rollup, ... and the last is the
      first one that still falls below the end. */
  lemma {:induction false} BucketKeysAt(start: int, end: int, rollup: int)
    requires rollup > 0
    ensures var keys := BucketKeys(start, end, rollup);
      && (forall m :: 0 <= m < |keys| ==> keys[m] == start + m * rollup)
      && (|keys| > 0 ==> keys[|keys| - 1] < end)
      && start + |keys| * rollup >= end
    decreases end - start
  {
    if start < end {
      BucketKeysAt(start + rollup, end, rollup);
      var keys := BucketKeys(start, end, rollup);
      var rest := BucketKeys(start + rollup, end, rollup);
      assert keys == [start] + rest;
      forall m | 0 < m < |keys| ensures keys[m] == start + m * rollup {
        assert keys[m] == rest[m - 1];
        assert start + rollup + (m - 1) * rollup == start + m * rollup;
      }
      assert start + rollup + |rest| * rollup == start + |keys| * rollup;
    }
  }

  /** Aligned on the rollup, the range holds exactly one key per bucket. */
  lemma {:induction false} BucketCount(qStart: int, qEnd: int, rollup: int)
    requires rollup > 0
    ensures |BucketKeys(qStart * rollup, qEnd * rollup + rollup, rollup)|
            == if qEnd >= qStart then qEnd - qStart + 1 else 0
    decreases qEnd - qStart
  {
    if qEnd >= qStart {
      assert qStart * rollup + rollup == (qStart + 1) * rollup;
      BucketCount(qStart + 1, qEnd, rollup);
    } else {
      assert qStart * rollup >= qEnd * rollup + rollup by {
        assert (qStart - qEnd - 1) * rollup >= 0;
      }
    }
  }

  /** Zerofill walks TruncDiv(end) - TruncDiv(start) + 1 buckets. */
  lemma ZerofillBucketCount(start: int, end: int, rollup: int)
    requires rollup > 0
    ensures var q1, q2 := TruncDiv(start, rollup), TruncDiv(end, rollup);
      |BucketKeys(AlignStart(start, rollup), AlignEnd(end, rollup), rollup)|
        == if q2 >= q1 then q2 - q1 + 1 else 0
  {
    BucketCount(TruncDiv(start, rollup), TruncDiv(end, rollup), rollup);
  }

  /** The keys strictly increase from the start. */
  lemma {:induction false} BucketKeysIncreasing(start: int, end: int, rollup: int)
    requires rollup > 0
    ensures forall i :: 0 <= i < |BucketKeys(start, end, rollup)| ==> BucketKeys(start, end, rollup)[i] >= start
    ensures forall i, j :: 0 <= i < j < |BucketKeys(start, end, rollup)| ==>
              BucketKeys(start, end, rollup)[i] < BucketKeys(start, end, rollup)[j]
    decreases end - start
  {
    if start < end {
      BucketKeysIncreasing(start + rollup, end, rollup);
      var keys := BucketKeys(start, end, rollup);
      var rest := BucketKeys(start + rollup, end, rollup);
      assert keys == [start] + rest;
      forall i | 0 < i < |keys| ensures keys[i] > start {
        assert keys[i] == rest[i - 1];
      }
      forall i, j | 0 <= i < j < |keys| ensures keys[i] < keys[j] {
        assert keys[j] == rest[j - 1];
        if i > 0 { assert keys[i] == rest[i - 1]; }
      }
    }
  }

  /** One step of the selection: the prefix's rows, then the last row if it matches. */
  lemma RowsAtSnoc(rows: seq<Row>, t: Value)
    requires rows != []
    ensures RowsAt(rows, t)
            == RowsAt(rows[..|rows| - 1], t) + (if At(rows[|rows| - 1], t) then [rows[|rows| - 1]] else [])
  {
  }

  /** Selection distributes over concatenation. */
  lemma {:induction false} RowsAtAppend(a: seq<Row>, b: seq<Row>, t: Value)
    ensures RowsAt(a + b, t) == RowsAt(a, t) + RowsAt(b, t)
    decreases |b|
  {
    if b == [] {
      assert a + b == a;
      assert RowsAt(a, t) + [] == RowsAt(a, t);
    } else {
      var c := a + b;
      var b' := b[..|b| - 1];
      var x := b[|b| - 1];
      var e: seq<Row> := if At(x, t) then [x] else [];
      assert c[..|c| - 1] == a + b';
      assert c[|c| - 1] == x;
      RowsAtSnoc(c, t);
      RowsAtSnoc(b, t);
      RowsAtAppend(a, b', t);
      AppendAssoc(RowsAt(a, t), RowsAt(b', t), e);
    }
  }

  /** Every selected row carries the selected time. */
  lemma {:induction false} RowsAtSelected(rows: seq<Row>, t: Value)
    ensures forall i :: 0 <= i < |RowsAt(rows, t)| ==> At(RowsAt(rows, t)[i], t)
  {
    if rows != [] {
      RowsAtSelected(rows[..|rows| - 1], t);
    }
  }

  /** Selecting a time among rows that all carry time `u`. */
  lemma RowsAtUniform(rows: seq<Row>, u: Value, t: Value)
    requires forall i :: 0 <= i < |rows| ==> At(rows[i], u)
    ensures RowsAt(rows, t) == if t == u then rows else []
  {
    if t == u {
      RowsAtAll(rows, u);
    } else {
      RowsAtNone(rows, u, t);
    }
  }

  lemma {:induction false} RowsAtAll(rows: seq<Row>, u: Value)
    requires forall i :: 0 <= i < |rows| ==> At(rows[i], u)
    ensures RowsAt(rows, u) == rows
  {
    if rows != [] {
      var p := rows[..|rows| - 1];
      var x := rows[|rows| - 1];
      forall i | 0 <= i < |p| ensures At(p[i], u) {
        assert p[i] == rows[i];
      }
      RowsAtAll(p, u);
      RowsAtSnoc(rows, t := u);
      assert At(x, u);
      assert p + [x] == rows;
    }
  }

  lemma {:induction false} RowsAtNone(rows: seq<Row>, u: Value, t: Value)
    requires t != u
    requires forall i :: 0 <= i < |rows| ==> At(rows[i], u)
    ensures RowsAt(rows, t) == []
  {
    if rows != [] {
      var p := rows[..|rows| - 1];
      forall i | 0 <= i < |p| ensures At(p[i], u) {
        assert p[i] == rows[i];
      }
      RowsAtNone(p, u, t);
      RowsAtSnoc(rows, t);
      assert At(rows[|rows| - 1], u);
    }
  }

  /** Every row of a bucket carries the bucket's key. */
  lemma BucketUniform(rows: seq<Row>, key: int)
    ensures forall i :: 0 <= i < |Bucket(rows, key)| ==> At(Bucket(rows, key)[i], VInt(key))
  {
    RowsAtSelected(rows, VInt(key));
  }

  lemma BucketAt(rows: seq<Row>, key: int, t: Value)
    ensures RowsAt(Bucket(rows, key), t) == if t == VInt(key) then Bucket(rows, key) else []
  {
    BucketUniform(rows, key);
    RowsAtUniform(Bucket(rows, key), VInt(key), t);
  }

  /** Every row of the output carries an integer time that is one of the keys. */
  lemma {:induction false} FillTimes(rows: seq<Row>, keys: seq<int>)
    ensures forall i :: 0 <= i < |Fill(rows, keys)| ==>
              At(Fill(rows, keys)[i], VInt(TimeKey(Fill(rows, keys)[i]))) && TimeKey(Fill(rows, keys)[i]) in keys
  {
    if keys != [] {
      var b := Bucket(rows, keys[0]);
      var rest := Fill(rows, keys[1..]);
      var r := Fill(rows, keys);
      assert r == b + rest;
      BucketUniform(rows, keys[0]);
      FillTimes(rows, keys[1..]);
      forall i | 0 <= i < |r| ensures At(r[i], VInt(TimeKey(r[i]))) && TimeKey(r[i]) in keys {
        if i < |b| {
          assert r[i] == b[i];
        } else {
          assert r[i] == rest[i - |b|];
        }
      }
    }
  }

  /** Selecting one time from the output of Fill: for a key, exactly that
      bucket (its rows in their original order, or the synthetic row); for
      any other time, nothing. */
  lemma {:induction false} FillAt(rows: seq<Row>, keys: seq<int>, t: Value)
    requires forall i, j :: 0 <= i < j < |keys| ==> keys[i] != keys[j]
    ensures RowsAt(Fill(rows, keys), t)
            == if t.VInt? && t.i in keys then Bucket(rows, t.i) else []
  {
    if keys != [] {
      var b := Bucket(rows, keys[0]);
      var rest := Fill(rows, keys[1..]);
      BucketAt(rows, keys[0], t);
      RowsAtAppend(b, rest, t);
      assert forall i, j :: 0 <= i < j < |keys[1..]| ==> keys[1..][i] != keys[1..][j] by {
        forall i, j | 0 <= i < j < |keys[1..]| ensures keys[1..][i] != keys[1..][j] {
          assert keys[1..][i] == keys[i + 1] && keys[1..][j] == keys[j + 1];
        }
      }
      FillAt(rows, keys[1..], t);
      if t.VInt? && t.i in keys {
        if t.i == keys[0] {
          assert t.i !in keys[1..];
        } else {
          assert t.i in keys[1..];
        }
      } else {
        assert !(t.VInt? && t.i in keys[1..]);
      }
    }
  }

  /** Each bucket key's rows appear exactly as the bucket gives them; rows
      whose time is not a bucket key are dropped. */
  lemma ZerofillContents(rows: seq<Row>, start: int, end: int, rollup: int, t: Value)
    requires rollup > 0
    ensures var keys := BucketKeys(AlignStart(start, rollup), AlignEnd(end, rollup), rollup);
      RowsAt(Fill(rows, keys), t) == if t.VInt? && t.i in keys then Bucket(rows, t.i) else []
  {
    BucketKeysIncreasing(AlignStart(start, rollup), AlignEnd(end, rollup), rollup);
    FillAt(rows, BucketKeys(AlignStart(start, rollup), AlignEnd(end, rollup), rollup), t);
  }

  /** Over increasing keys, the output is in ascending time order. */
  lemma {:induction false} FillAscending(rows: seq<Row>, keys: seq<int>)
    requires forall i, j :: 0 <= i < j < |keys| ==> keys[i] < keys[j]
    ensures forall i, j :: 0 <= i <= j < |Fill(rows, keys)| ==>
              TimeKey(Fill(rows, keys)[i]) <= TimeKey(Fill(rows, keys)[j])
  {
    if keys != [] {
      var b := Bucket(rows, keys[0]);
      var rest := Fill(rows, keys[1..]);
      var r := Fill(rows, keys);
      assert r == b + rest;
      FillAscending(rows, keys[1..]);
      BucketUniform(rows, keys[0]);
      FillTimes(rows, keys[1..]);
      forall i | 0 <= i < |rest| ensures TimeKey(rest[i]) > keys[0] {
        var k := TimeKey(rest[i]);
        var m :| 0 <= m < |keys[1..]| && keys[1..][m] == k;
        assert keys[m + 1] == k;
      }
      forall i, j | 0 <= i <= j < |r| ensures TimeKey(r[i]) <= TimeKey(r[j]) {
        if j < |b| {
          assert r[i] == b[i] && r[j] == b[j];
        } else if i < |b| {
          assert r[i] == b[i] && r[j] == rest[j - |b|];
        } else {
          assert r[i] == rest[i - |b|] && r[j] == rest[j - |b|];
        }
      }
    }
  }

  /** Without "-time", the output is in ascending time order, and every row
      carries one of the bucket keys. */
  lemma ZerofillAscending(rows: seq<Row>, start: int, end: int, rollup: int, orderby: seq<string>)
    requires rollup > 0
    requires "-time" !in orderby
    ensures var r := ZerofillSpec(rows, start, end, rollup, orderby);
      forall i, j :: 0 <= i <= j < |r| ==> TimeKey(r[i]) <= TimeKey(r[j])
  {
    BucketKeysIncreasing(AlignStart(start, rollup), AlignEnd(end, rollup), rollup);
    FillAscending(rows, BucketKeys(AlignStart(start, rollup), AlignEnd(end, rollup), rollup));
  }

  /** With no data, the output is one synthetic row per key, in key order. */
  lemma {:induction false} FillNoData(keys: seq<int>)
    ensures |Fill([], keys)| == |keys|
    ensures forall m :: 0 <= m < |keys| ==> Fill([], keys)[m] == TimeRow(keys[m])
  {
    if keys != [] {
      FillNoData(keys[1..]);
      assert Bucket([], keys[0]) == [TimeRow(keys[0])];
    }
  }

  /** The output is reversed exactly when "-time" is among the orderings. */
  lemma ZerofillOrder(rows: seq<Row>, start: int, end: int, rollup: int, orderby: seq<string>)
    requires rollup > 0
    ensures var filled := Fill(rows, BucketKeys(AlignStart(start, rollup), AlignEnd(end, rollup), rollup));
      var out := ZerofillSpec(rows, start, end, rollup, orderby);
      && |out| == |filled|
      && ("-time" in orderby ==> forall i :: 0 <= i < |out| ==> out[i] == filled[|out| - 1 - i])
      && ("-time" !in orderby ==> out == filled)
  {
  }
}
