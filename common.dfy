/** Values, ordered dictionaries, errors and string helpers shared by the
    Discover query layer model. */
module Common {

  datatype Option<+T> = None | Some(value: T)

  /** A call that either returns a value or raises one of the errors below. */
  datatype Result<+T> = Ok(value: T) | Fail(error: Error)

  /** A scalar or list value held in a result row. Python floats are exact
      reals here, with NaN as its own variant. */
  datatype Value =
    | VNone
    | VBool(b: bool)
    | VInt(i: int)
    | VFloat(r: real)
    | VNaN
    | VStr(s: string)
    | VList(items: seq<Value>)

  /** The reasons for which the layer raises InvalidSearchQuery. */
  datatype Invalid =
    | NoColumnsSelected
    | AggregatesNotSelected(aliases: seq<string>, autoAggregations: bool)
    | AggregateNotSelected(alias: string, autoAggregations: bool)
    | NoTimeRange
    | NoAggregation
    | NotAMeasurement(field: string)

  datatype Error =
    | InvalidSearchQuery(reason: Invalid)
      /** The `assert` that refuses auto aggregations without aggregate conditions. */
    | AutoAggregationsWithoutConditions
      /** A KeyError: a row lacks a column the code indexes directly. */
    | MissingKey(key: string)
      /** A missing start or end handed to the timestamp conversion. */
    | MissingTimestamp
      /** An IndexError: the first field of an empty field list. */
    | NoFields
      /** An IndexError: an index past the end of a list. */
    | IndexOutOfRange
    | ZeroDivision
      /** A count column holding something other than a number. */
    | NotANumber(key: string)
      /** A TypeError: an ordering comparison of a column value that is not a number with a number. */
    | NotComparable(key: string)
      /** An error raised by a collaborator outside this layer, passed on unchanged. */
    | Collaborator(message: string)

  // ---------------------------------------------------------------------
  // Ordered dictionaries (Python dicts keep insertion order)
  // ---------------------------------------------------------------------

  /** A dictionary with string keys, as its items in insertion order. */
  type Dict<V> = seq<(string, V)>

  function Keys<V>(d: Dict<V>): (ks: seq<string>)
    ensures |ks| == |d|
    ensures forall i :: 0 <= i < |d| ==> ks[i] == d[i].0
  {
    if d == [] then [] else [d[0].0] + Keys(d[1..])
  }

  /** The key list and the key set hold the same keys. */
  lemma KeysMembers<V>(d: Dict<V>, k: string)
    ensures k in Keys(d) <==> k in KeySet(d)
  {
    if k in KeySet(d) {
      var i :| 0 <= i < |d| && d[i].0 == k;
      assert Keys(d)[i] == k;
    }
  }

  function KeySet<V>(d: Dict<V>): (s: set<string>)
    ensures forall i :: 0 <= i < |d| ==> d[i].0 in s
    ensures forall x :: x in s ==> exists i :: 0 <= i < |d| && d[i].0 == x
  {
    if d == [] then {}
    else
      var rest := KeySet(d[1..]);
      assert forall i :: 1 <= i < |d| ==> d[i] == d[1..][i - 1];
      {d[0].0} + rest
  }

  /** No key occurs twice, as in every Python dict. */
  ghost predicate DistinctKeys<V>(d: Dict<V>)
  {
    d == [] || (d[0].0 !in KeySet(d[1..]) && DistinctKeys(d[1..]))
  }

  /** `d.get(k)`: the value stored under `k`, or None. */
  function Get<V>(d: Dict<V>, k: string): (r: Option<V>)
  {
    if d == [] then None
    else if d[0].0 == k then Some(d[0].1)
    else Get(d[1..], k)
  }

  /** A key has a value iff it is one of the dictionary's keys. */
  lemma {:induction false} GetFound<V>(d: Dict<V>, k: string)
    ensures Get(d, k).Some? <==> k in KeySet(d)
  {
    if d != [] && d[0].0 != k {
      GetFound(d[1..], k);
    }
  }

  predicate HasKey<V>(d: Dict<V>, k: string)
  {
    Get(d, k).Some?
  }

  /** `d[k] = v`: an existing key keeps its position and takes the new value,
      a new key is appended. */
  function Put<V>(d: Dict<V>, k: string, v: V): (r: Dict<V>)
    ensures Get(r, k) == Some(v)
    ensures forall k' :: k' != k ==> Get(r, k') == Get(d, k')
    ensures KeySet(r) == KeySet(d) + {k}
    ensures |r| == if k in KeySet(d) then |d| else |d| + 1
  {
    if d == [] then [(k, v)]
    else if d[0].0 == k then
      var r := [(k, v)] + d[1..];
      assert r[1..] == d[1..];
      r
    else
      var rest := Put(d[1..], k, v);
      var r := [d[0]] + rest;
      assert r[1..] == rest;
      r
  }

  /** Assignment never creates a second entry for a key. */
  lemma {:induction false} PutKeepsKeysDistinct<V>(d: Dict<V>, k: string, v: V)
    requires DistinctKeys(d)
    ensures DistinctKeys(Put(d, k, v))
  {
    if d != [] && d[0].0 != k {
      PutKeepsKeysDistinct(d[1..], k, v);
      assert Put(d, k, v)[1..] == Put(d[1..], k, v);
    } else if d != [] {
      assert Put(d, k, v)[1..] == d[1..];
    }
  }

  /** Looking a key up in a concatenation: the first part wins. */
  lemma {:induction false} GetConcat<V>(p: Dict<V>, q: Dict<V>, k: string)
    ensures Get(p + q, k) == if k in KeySet(p) then Get(p, k) else Get(q, k)
  {
    if p == [] {
      assert p + q == q;
    } else {
      assert (p + q)[0] == p[0];
      assert (p + q)[1..] == p[1..] + q;
      if p[0].0 != k {
        GetConcat(p[1..], q, k);
        assert k in KeySet(p) <==> k in KeySet(p[1..]) by {
          if k in KeySet(p) {
            var i :| 0 <= i < |p| && p[i].0 == k;
            assert p[1..][i - 1] == p[i];
          }
          if k in KeySet(p[1..]) {
            var i :| 0 <= i < |p[1..]| && p[1..][i].0 == k;
            assert p[i + 1] == p[1..][i];
          }
        }
      }
    }
  }

  // ---------------------------------------------------------------------
  // Sequences and strings
  // ---------------------------------------------------------------------

  lemma AppendAssoc<T>(a: seq<T>, b: seq<T>, c: seq<T>)
    ensures (a + b) + c == a + (b + c)
  {
  }

  /** Membership in a non-empty sequence: in its prefix, or its last element. */
  lemma InLast<T>(s: seq<T>, x: T)
    requires s != []
    ensures x in s <==> x in s[..|s| - 1] || x == s[|s| - 1]
  {
    assert s == s[..|s| - 1] + [s[|s| - 1]];
  }

  /** `sep.join(parts)`. */
  function Join(parts: seq<string>, sep: string): string
  {
    if parts == [] then ""
    else if |parts| == 1 then parts[0]
    else parts[0] + sep + Join(parts[1..], sep)
  }

  ghost predicate OccursAt(s: string, t: string, p: int)
  {
    0 <= p && p + |t| <= |s| && s[p..p + |t|] == t
  }

  ghost predicate Contains(s: string, t: string)
  {
    exists p :: OccursAt(s, t, p)
  }

  lemma ContainsAppend(a: string, b: string, t: string)
    requires Contains(a, t) || Contains(b, t)
    ensures Contains(a + b, t)
  {
    if Contains(a, t) {
      var p :| OccursAt(a, t, p);
      assert (a + b)[p..p + |t|] == a[p..p + |t|];
      assert OccursAt(a + b, t, p);
    } else {
      var p :| OccursAt(b, t, p);
      assert (a + b)[|a| + p..|a| + p + |t|] == b[p..p + |t|];
      assert OccursAt(a + b, t, |a| + p);
    }
  }

  lemma ContainsMiddle(pre: string, mid: string, post: string, t: string)
    requires Contains(mid, t)
    ensures Contains(pre + mid + post, t)
  {
    ContainsAppend(pre, mid, t);
    ContainsAppend(pre + mid, post, t);
  }

  /** Every part of a joined string occurs in it. */
  lemma {:induction false} JoinContainsParts(parts: seq<string>, sep: string, i: nat)
    requires i < |parts|
    ensures Contains(Join(parts, sep), parts[i])
  {
    if |parts| == 1 {
      assert OccursAt(Join(parts, sep), parts[0], 0);
    } else if i == 0 {
      assert OccursAt(parts[0], parts[0], 0);
      ContainsAppend(parts[0], sep + Join(parts[1..], sep), parts[0]);
      assert parts[0] + sep + Join(parts[1..], sep) == parts[0] + (sep + Join(parts[1..], sep));
    } else {
      JoinContainsParts(parts[1..], sep, i - 1);
      ContainsAppend(sep, Join(parts[1..], sep), parts[i]);
      ContainsAppend(parts[0], sep + Join(parts[1..], sep), parts[i]);
      assert parts[0] + sep + Join(parts[1..], sep) == parts[0] + (sep + Join(parts[1..], sep));
    }
  }

  /** The distinct elements of `s`, in order of first appearance. */
  function Distinct<T(==,!new)>(s: seq<T>): (r: seq<T>)
    ensures forall x :: x in r <==> x in s
    ensures forall i, j :: 0 <= i < j < |r| ==> r[i] != r[j]
  {
    if s == [] then []
    else
      var rest := Distinct(s[..|s| - 1]);
      if s[|s| - 1] in rest then rest else rest + [s[|s| - 1]]
  }

  /** The suffix added when auto aggregation was on and still could not help. */
  function AutoAggregationsExtra(autoAggregations: bool): string
  {
    if autoAggregations then ", and could not be automatically added" else ""
  }

  /** The text of an InvalidSearchQuery. */
  function Message(reason: Invalid): string
  {
    match reason
    case NoColumnsSelected => "No columns selected"
    case AggregatesNotSelected(aliases, auto) =>
      "Aggregate(s) " + Join(aliases, ", ")
        + (" used in a condition but are not in the selected columns" + AutoAggregationsExtra(auto) + ".")
    case AggregateNotSelected(alias, auto) =>
      "Aggregate " + alias + (" used in a condition but is not a selected column" + AutoAggregationsExtra(auto) + ".")
    case NoTimeRange => "Cannot get timeseries result without a start and end."
    case NoAggregation => "Cannot get timeseries result with no aggregation."
    case NotAMeasurement(field) => "multihistogram expected all measurements, received: " + field
  }

  /** `int(x)` on a real: truncation toward zero. */
  function TruncReal(x: real): (n: int)
    ensures x >= 0.0 ==> n as real <= x < n as real + 1.0
    ensures x < 0.0 ==> n as real - 1.0 < x <= n as real
  {
    if x >= 0.0 then x.Floor else -((-x).Floor)
  }

  /** Python's `int()` on the value of `column`: a bool is 0 or 1, an integer
      is itself, a float is truncated toward zero; anything else (NaN, None,
      a list) raises. */
  function PyInt(v: Value, column: string): (r: Result<int>)
    ensures r.Ok? <==> v.VBool? || v.VInt? || v.VFloat?
    ensures r.Fail? ==> r.error == NotANumber(column)
    ensures v.VBool? ==> r == Ok(if v.b then 1 else 0)
    ensures v.VInt? ==> r == Ok(v.i)
    ensures v.VFloat? && v.r >= 0.0 ==> r.value as real <= v.r < r.value as real + 1.0
    ensures v.VFloat? && v.r < 0.0 ==> r.value as real - 1.0 < v.r <= r.value as real
  {
    match v
    case VBool(b) => Ok(if b then 1 else 0)
    case VInt(i) => Ok(i)
    case VFloat(x) => Ok(TruncReal(x))
    case _ => Fail(NotANumber(column))
  }

  /** The decimal text of an integer, as Python's `str`/`{:d}` writes it. */
  function IntText(n: int): (r: string)
    ensures |r| > 0
    decreases if n < 0 then 1 - n else n
  {
    if n < 0 then "-" + IntText(-n)
    else if n < 10 then [Digit(n)]
    else IntText(n / 10) + [Digit(n % 10)]
  }

  function Digit(d: int): char
    requires 0 <= d < 10
  {
    "0123456789"[d]
  }
}
