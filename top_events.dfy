/** Top-events timeseries (`top_events_timeseries`): the conditions that
    restrict the timeseries query to the top events, the key of a row, and
    the routing of result rows into one ranked series per top event. */
module TopEvents {
  import opened Common
  import opened SnubaTypes
  import opened Zerofill
  import opened Transform
  import opened Query

  /** The helpers the code calls from outside this layer:
      `FIELD_ALIASES` as the alias each aliased field is queried under,
      `resolve_discover_column`, `six.text_type` on a row value, and the
      issue-id to short-id map `Group.issues_mapping` looks up. */
  datatype TopEventsEnv = TopEventsEnv(
    fieldAliases: map<string, string>,
    resolveColumn: string -> string,
    text: Value -> string,
    issuesMapping: map<Value, string>)

  // ---------------------------------------------------------------------
  // Result keys (`create_result_key`)
  // ---------------------------------------------------------------------

  /** The text of one field of a row within its key. `issue.id` is indexed
      directly (a KeyError when absent) and mapped to its short id, or
      "unknown"; a missing field reads as None; a list value stands for its
      last element, or for the empty string when it is empty. */
  function FieldText(row: Row, field: string, issues: map<Value, string>, text: Value -> string): (r: Result<string>)
    ensures r.Fail? <==> field == "issue.id" && !HasKey(row, "issue.id")
    ensures r.Fail? ==> r.error == MissingKey("issue.id")
    ensures field == "issue.id" && HasKey(row, "issue.id") && Get(row, "issue.id").value !in issues
            ==> r == Ok("unknown")
    ensures field == "issue.id" && HasKey(row, "issue.id") && Get(row, "issue.id").value in issues
            ==> r == Ok(issues[Get(row, "issue.id").value])
    ensures field != "issue.id" && !HasKey(row, field) ==> r == Ok(text(VNone))
    ensures field != "issue.id" && Get(row, field) == Some(VList([])) ==> r == Ok("")
    ensures field != "issue.id" && HasKey(row, field) && Get(row, field).value.VList? && Get(row, field).value.items != []
            ==> r == Ok(text(Get(row, field).value.items[|Get(row, field).value.items| - 1]))
    ensures field != "issue.id" && HasKey(row, field) && !Get(row, field).value.VList?
            ==> r == Ok(text(Get(row, field).value))
  {
    if field == "issue.id" then
      match Get(row, "issue.id")
      case None => Fail(MissingKey("issue.id"))
      case Some(id) => Ok(if id in issues then issues[id] else "unknown")
    else
      match Get(row, field)
      case None => Ok(text(VNone))
      case Some(v) =>
        if v.VList? then Ok(if v.items == [] then "" else text(v.items[|v.items| - 1]))
        else Ok(text(v))
  }

  /** The texts of the fields, in field order. */
  function KeyParts(row: Row, fields: seq<string>, issues: map<Value, string>, text: Value -> string)
    : (r: Result<seq<string>>)
    ensures r.Ok? <==> ("issue.id" in fields ==> HasKey(row, "issue.id"))
    ensures r.Fail? ==> r.error == MissingKey("issue.id")
    ensures r.Ok? ==> |r.value| == |fields|
    ensures r.Ok? ==> forall i :: 0 <= i < |fields| ==> FieldText(row, fields[i], issues, text) == Ok(r.value[i])
  {
    if fields == [] then Ok([])
    else
      var head := FieldText(row, fields[0], issues, text);
      var rest := KeyParts(row, fields[1..], issues, text);
      assert "issue.id" in fields <==> fields[0] == "issue.id" || "issue.id" in fields[1..];
      if head.Fail? then Fail(head.error)
      else if rest.Fail? then Fail(rest.error)
      else Ok([head.value] + rest.value)
  }

  /** `create_result_key`: the field texts joined with ",". */
  function CreateResultKey(row: Row, fields: seq<string>, issues: map<Value, string>, text: Value -> string)
    : (r: Result<string>)
    ensures r.Ok? <==> ("issue.id" in fields ==> HasKey(row, "issue.id"))
    ensures r.Fail? ==> r.error == MissingKey("issue.id")
    ensures r.Ok? ==> r.value == Join(seq(|fields|, i requires 0 <= i < |fields| =>
                                        FieldText(row, fields[i], issues, text).value), ",")
  {
    var parts := KeyParts(row, fields, issues, text);
    if parts.Fail? then Fail(parts.error)
    else
      assert parts.value == seq(|fields|, i requires 0 <= i < |fields| => FieldText(row, fields[i], issues, text).value);
      Ok(Join(parts.value, ","))
  }

  /** Every field's text occurs in the key. */
  lemma KeyHoldsEachField(row: Row, fields: seq<string>, issues: map<Value, string>, text: Value -> string, i: nat)
    requires i < |fields|
    requires CreateResultKey(row, fields, issues, text).Ok?
    ensures FieldText(row, fields[i], issues, text).Ok?
    ensures Contains(CreateResultKey(row, fields, issues, text).value, FieldText(row, fields[i], issues, text).value)
  {
    var parts := KeyParts(row, fields, issues, text).value;
    JoinContainsParts(parts, ",", i);
  }

  /** A key depends only on the row's values of the key fields. */
  lemma {:induction false} SameFieldsSameParts(r1: Row, r2: Row, fields: seq<string>, issues: map<Value, string>,
                                               text: Value -> string)
    requires forall f :: f in fields ==> Get(r1, f) == Get(r2, f)
    ensures KeyParts(r1, fields, issues, text) == KeyParts(r2, fields, issues, text)
  {
    if fields != [] {
      assert fields[0] in fields;
      SameFieldsSameParts(r1, r2, fields[1..], issues, text);
    }
  }

  /** Rows with equal field values get equal keys. */
  lemma SameFieldsSameKey(r1: Row, r2: Row, fields: seq<string>, issues: map<Value, string>, text: Value -> string)
    requires forall f :: f in fields ==> Get(r1, f) == Get(r2, f)
    ensures CreateResultKey(r1, fields, issues, text) == CreateResultKey(r2, fields, issues, text)
  {
    SameFieldsSameParts(r1, r2, fields, issues, text);
  }

  // ---------------------------------------------------------------------
  // Sorting the key fields (`list.sort` on strings)
  // ---------------------------------------------------------------------

  /** Python's string order: lexicographic by code point. */
  predicate StrLe(a: string, b: string)
  {
    a == [] || (b != [] && (a[0] < b[0] || (a[0] == b[0] && StrLe(a[1..], b[1..]))))
  }

  lemma {:induction false} StrLeTotal(a: string, b: string)
    ensures StrLe(a, b) || StrLe(b, a)
  {
    if a != [] && b != [] && a[0] == b[0] {
      StrLeTotal(a[1..], b[1..]);
    }
  }

  lemma {:induction false} StrLeTrans(a: string, b: string, c: string)
    requires StrLe(a, b) && StrLe(b, c)
    ensures StrLe(a, c)
  {
    if a != [] && a[0] == b[0] && b[0] == c[0] {
      StrLeTrans(a[1..], b[1..], c[1..]);
    }
  }

  predicate Sorted(s: seq<string>)
  {
    forall i, j :: 0 <= i < j < |s| ==> StrLe(s[i], s[j])
  }

  function Insert(x: string, s: seq<string>): seq<string>
  {
    if s == [] then [x]
    else if StrLe(x, s[0]) then [x] + s
    else [s[0]] + Insert(x, s[1..])
  }

  /** Inserting adds exactly one occurrence of `x`. */
  lemma {:induction false} InsertPerm(x: string, s: seq<string>)
    ensures multiset(Insert(x, s)) == multiset(s) + multiset{x}
  {
    if s != [] && !StrLe(x, s[0]) {
      InsertPerm(x, s[1..]);
      assert s == [s[0]] + s[1..];
    }
  }

  /** A lower bound of `x` and of every element is a lower bound after inserting. */
  lemma {:induction false} InsertBound(h: string, x: string, s: seq<string>)
    requires StrLe(h, x)
    requires forall k :: 0 <= k < |s| ==> StrLe(h, s[k])
    ensures forall j :: 0 <= j < |Insert(x, s)| ==> StrLe(h, Insert(x, s)[j])
  {
    if s == [] {
    } else if StrLe(x, s[0]) {
      var r := [x] + s;
      forall j | 0 <= j < |r| ensures StrLe(h, r[j]) {
        if j > 0 { assert r[j] == s[j - 1]; }
      }
    } else {
      var rest := s[1..];
      forall k | 0 <= k < |rest| ensures StrLe(h, rest[k]) {
        assert rest[k] == s[k + 1];
      }
      InsertBound(h, x, rest);
      var t := Insert(x, rest);
      var r := [s[0]] + t;
      forall j | 0 <= j < |r| ensures StrLe(h, r[j]) {
        if j > 0 { assert r[j] == t[j - 1]; }
      }
    }
  }

  /** Putting a lower bound in front of a sorted sequence keeps it sorted. */
  lemma SortedCons(h: string, t: seq<string>)
    requires Sorted(t)
    requires forall j :: 0 <= j < |t| ==> StrLe(h, t[j])
    ensures Sorted([h] + t)
  {
    var r := [h] + t;
    forall i, j | 0 <= i < j < |r| ensures StrLe(r[i], r[j]) {
      assert r[j] == t[j - 1];
      if i > 0 { assert r[i] == t[i - 1]; }
    }
  }

  lemma SortedTail(s: seq<string>)
    requires Sorted(s) && s != []
    ensures Sorted(s[1..])
  {
    var rest := s[1..];
    forall i, j | 0 <= i < j < |rest| ensures StrLe(rest[i], rest[j]) {
      assert rest[i] == s[i + 1] && rest[j] == s[j + 1];
    }
  }

  lemma {:induction false} InsertSorted(x: string, s: seq<string>)
    requires Sorted(s)
    ensures Sorted(Insert(x, s))
  {
    if s == [] {
    } else if StrLe(x, s[0]) {
      forall j | 0 <= j < |s| ensures StrLe(x, s[j]) {
        if j > 0 { StrLeTrans(x, s[0], s[j]); }
      }
      SortedCons(x, s);
    } else {
      StrLeTotal(x, s[0]);
      var rest := s[1..];
      SortedTail(s);
      InsertSorted(x, rest);
      forall k | 0 <= k < |rest| ensures StrLe(s[0], rest[k]) {
        assert rest[k] == s[k + 1];
      }
      InsertBound(s[0], x, rest);
      SortedCons(s[0], Insert(x, rest));
    }
  }

  /** The fields in sorted order, a permutation of the input. */
  function SortStrings(s: seq<string>): (r: seq<string>)
    ensures Sorted(r)
    ensures multiset(r) == multiset(s)
  {
    if s == [] then []
    else
      var rest := SortStrings(s[1..]);
      InsertSorted(s[0], rest);
      InsertPerm(s[0], rest);
      assert s == [s[0]] + s[1..];
      Insert(s[0], rest)
  }

  // ---------------------------------------------------------------------
  // Restriction conditions (lines 466-493)
  // ---------------------------------------------------------------------

  /** The top events hold `v` in `field`: some row has the field with that
      value, and the value is not a list. */
  ghost predicate Seen(rows: seq<Row>, field: string, v: Value)
  {
    exists i :: 0 <= i < |rows| && Get(rows[i], field) == Some(v) && !v.VList?
  }

  /** The non-list values of `field` among the rows that have it, in row order. */
  function FieldValues(rows: seq<Row>, field: string): (r: seq<Value>)
    ensures forall v :: v in r <==> Seen(rows, field, v)
  {
    if rows == [] then []
    else
      var pre := FieldValues(rows[..|rows| - 1], field);
      var g := Get(rows[|rows| - 1], field);
      assert forall i :: 0 <= i < |rows| - 1 ==> rows[..|rows| - 1][i] == rows[i];
      if g.Some? && !g.value.VList? then pre + [g.value] else pre
  }

  /** The values other than None, in order. */
  function NonNone(values: seq<Value>): (r: seq<Value>)
    ensures forall v :: v in r <==> v in values && v != VNone
  {
    if values == [] then []
    else
      var pre := NonNone(values[..|values| - 1]);
      var last := values[|values| - 1];
      assert values == values[..|values| - 1] + [last];
      if last == VNone then pre else pre + [last]
  }

  /** The condition for one field over its non-empty list of values:
      a disjunction of equalities for `timestamp`; when None is among the
      values, `isNull(column) = 1` or-ed with an IN over the other values if
      there are any; an IN on the field itself when it is an alias;
      otherwise an IN on the resolved column. */
  function RangeCondition(field: string, values: seq<Value>, env: TopEventsEnv): Condition
  {
    if field == "timestamp" then
      AnyOf(seq(|values|, i requires 0 <= i < |values| => Compare(Column("timestamp"), "=", values[i])))
    else if VNone in values then
      var column := env.resolveColumn(field);
      var others := NonNone(values);
      var isNull := Compare(Apply("isNull", [Column(column)]), "=", VInt(1));
      AnyOf([isNull] + (if others == [] then [] else [Compare(Column(column), "IN", VList(others))]))
    else if field in env.fieldAliases then Compare(Column(field), "IN", VList(values))
    else Compare(Column(env.resolveColumn(field)), "IN", VList(values))
  }

  /** The value a condition lets through on the column it restricts:
      `=` is equality, IN is membership in the list, `isNull(c) = 1` holds
      of None only, and a disjunction holds when one of its parts does. */
  predicate Admits(c: Condition, v: Value)
  {
    match c
    case Compare(lhs, op, rhs) =>
      if lhs.Apply? then lhs.fn == "isNull" && op == "=" && rhs == VInt(1) && v == VNone
      else if op == "IN" then rhs.VList? && v in rhs.items
      else op == "=" && v == rhs
    case AnyOf(ds) => exists i :: 0 <= i < |ds| && Admits(ds[i], v)
  }

  /** A range condition lets through exactly the values it was built from. */
  lemma RangeConditionAdmits(field: string, values: seq<Value>, env: TopEventsEnv, v: Value)
    requires values != []
    ensures Admits(RangeCondition(field, values, env), v) <==> v in values
  {
    var c := RangeCondition(field, values, env);
    if field == "timestamp" {
      if v in values {
        var i :| 0 <= i < |values| && values[i] == v;
        assert Admits(c.disjuncts[i], v);
      }
    } else if VNone in values {
      var others := NonNone(values);
      if v in values && v != VNone {
        assert Admits(c.disjuncts[1], v);
      }
      if v == VNone {
        assert Admits(c.disjuncts[0], v);
      }
    }
  }

  /** The condition appended for one selected field, if any: none for
      `project` and `project.id` (restricted by the filter keys already),
      and none when no top event carries a non-list value of the field.
      An aliased field is looked up under its alias. */
  function FieldCondition(field: string, rows: seq<Row>, env: TopEventsEnv): Option<Condition>
  {
    if field == "project" || field == "project.id" then None
    else
      var f := Translate(env.fieldAliases, field);
      var values := Distinct(FieldValues(rows, f));
      if values == [] then None else Some(RangeCondition(f, values, env))
  }

  /** A field's condition exists iff some top event carries a value of it,
      and it lets through exactly the values the top events carry. */
  lemma FieldConditionMeaning(field: string, rows: seq<Row>, env: TopEventsEnv, v: Value)
    requires field != "project" && field != "project.id"
    ensures var f := Translate(env.fieldAliases, field);
            && (FieldCondition(field, rows, env).Some? <==> exists u :: Seen(rows, f, u))
            && (FieldCondition(field, rows, env).Some? ==>
                  (Admits(FieldCondition(field, rows, env).value, v) <==> Seen(rows, f, v)))
  {
    var f := Translate(env.fieldAliases, field);
    var values := Distinct(FieldValues(rows, f));
    if exists u :: Seen(rows, f, u) {
      var u :| Seen(rows, f, u);
      assert u in values;
    }
    if values != [] {
      assert values[0] in values;
      RangeConditionAdmits(f, values, env, v);
    }
  }

  /** The present results of `f` over `xs`, in order. */
  function Gather<T, U>(xs: seq<T>, f: T -> Option<U>): (r: seq<U>)
    ensures |r| <= |xs|
  {
    if xs == [] then []
    else
      var pre := Gather(xs[..|xs| - 1], f);
      match f(xs[|xs| - 1])
      case None => pre
      case Some(c) => pre + [c]
  }

  /** Every present result is gathered, and only those. */
  lemma {:induction false} GatherMembers<T, U>(xs: seq<T>, f: T -> Option<U>)
    ensures forall i :: 0 <= i < |xs| && f(xs[i]).Some? ==> f(xs[i]).value in Gather(xs, f)
    ensures forall c :: c in Gather(xs, f) ==> exists i :: 0 <= i < |xs| && f(xs[i]) == Some(c)
  {
    if xs != [] {
      var n := |xs| - 1;
      var pre := xs[..n];
      GatherMembers(pre, f);
      forall i | 0 <= i < n ensures xs[i] == pre[i] { }
    }
  }

  /** `FieldCondition` for fixed top events. */
  function FieldConditionOf(rows: seq<Row>, env: TopEventsEnv): string -> Option<Condition>
  {
    field => FieldCondition(field, rows, env)
  }

  /** The conditions appended for the selected fields, in field order. */
  function TopEventConditions(selected: seq<string>, rows: seq<Row>, env: TopEventsEnv): (r: seq<Condition>)
    ensures |r| <= |selected|
  {
    Gather(selected, FieldConditionOf(rows, env))
  }

  /** Each selected field's condition is among those appended, and every
      appended condition is some selected field's. */
  lemma TopEventConditionsFromFields(selected: seq<string>, rows: seq<Row>, env: TopEventsEnv)
    ensures forall i :: 0 <= i < |selected| && FieldCondition(selected[i], rows, env).Some? ==>
              FieldCondition(selected[i], rows, env).value in TopEventConditions(selected, rows, env)
    ensures forall c :: c in TopEventConditions(selected, rows, env) ==>
              exists i :: 0 <= i < |selected| && FieldCondition(selected[i], rows, env) == Some(c)
  {
    GatherMembers(selected, FieldConditionOf(rows, env));
  }

  /** The distinct non-list values of `field`, as the set comprehension
      collects them. */
  method CollectValues(rows: seq<Row>, field: string) returns (values: seq<Value>)
    ensures values == Distinct(FieldValues(rows, field))
  {
    values := [];
    for j := 0 to |rows|
      invariant values == Distinct(FieldValues(rows[..j], field))
    {
      assert rows[..j + 1][..j] == rows[..j];
      var g := Get(rows[j], field);
      if g.Some? && !g.value.VList? {
        if g.value !in values {
          values := values + [g.value];
        }
      }
    }
    assert rows[..|rows|] == rows;
  }

  /** The loop over the selected fields, appending to the filter's conditions. */
  method AddTopEventConditions(conditions: seq<Condition>, selected: seq<string>, rows: seq<Row>, env: TopEventsEnv)
    returns (r: seq<Condition>)
    ensures r == conditions + TopEventConditions(selected, rows, env)
  {
    r := conditions;
    for i := 0 to |selected|
      invariant r == conditions + TopEventConditions(selected[..i], rows, env)
    {
      assert selected[..i + 1][..i] == selected[..i];
      var field := selected[i];
      if field == "project" || field == "project.id" {
        continue;
      }
      field := Translate(env.fieldAliases, field);
      var values := CollectValues(rows, field);
      if values != [] {
        var c := RangeCondition(field, values, env);
        r := r + [c];
      }
    }
    assert selected[..|selected|] == selected;
  }

  // ---------------------------------------------------------------------
  // Routing rows into ranked buckets (lines 541-554)
  // ---------------------------------------------------------------------

  /** A bucket before zerofill: the rank of its top event and its rows. */
  datatype Pending = Pending(order: int, data: seq<Row>)

  /** The keys of all rows; the first row whose key cannot be built raises. */
  function ResultKeys(rows: seq<Row>, fields: seq<string>, issues: map<Value, string>, text: Value -> string)
    : (r: Result<seq<string>>)
    ensures r.Fail? <==> exists i :: 0 <= i < |rows| && CreateResultKey(rows[i], fields, issues, text).Fail?
    ensures r.Fail? ==> r.error == MissingKey("issue.id")
    ensures r.Ok? ==> |r.value| == |rows|
    ensures r.Ok? ==> forall i :: 0 <= i < |rows| ==> CreateResultKey(rows[i], fields, issues, text) == Ok(r.value[i])
  {
    if rows == [] then Ok([])
    else
      var pre := ResultKeys(rows[..|rows| - 1], fields, issues, text);
      var last := CreateResultKey(rows[|rows| - 1], fields, issues, text);
      assert forall i :: 0 <= i < |rows| - 1 ==> rows[..|rows| - 1][i] == rows[i];
      if pre.Fail? then pre
      else if last.Fail? then Fail(last.error)
      else Ok(pre.value + [last.value])
  }

  /** The bucket dictionary of the top events: `results[key] = {order: index}`
      for each in turn, so a repeated key keeps its position and takes the
      later index. */
  function Ranks(keys: seq<string>): (d: Dict<Pending>)
  {
    if keys == [] then []
    else Put(Ranks(keys[..|keys| - 1]), keys[|keys| - 1], Pending(|keys| - 1, []))
  }

  /** The buckets are keyed by exactly the top events' keys. */
  lemma {:induction false} RanksKeys(keys: seq<string>, k: string)
    ensures k in KeySet(Ranks(keys)) <==> k in keys
  {
    if keys != [] {
      var p := keys[..|keys| - 1];
      var last := keys[|keys| - 1];
      RanksKeys(p, k);
      InLast(keys, k);
    }
  }

  /** A bucket's order is the last index with its key. */
  lemma {:induction false} RanksOrder(keys: seq<string>, k: string, i: nat)
    requires i < |keys| && keys[i] == k
    requires forall j :: i < j < |keys| ==> keys[j] != k
    ensures Get(Ranks(keys), k) == Some(Pending(i, []))
  {
    var n := |keys| - 1;
    if i < n {
      var pre := keys[..n];
      assert keys[n] != k;
      RanksOrder(pre, k, i);
    }
  }

  /** The rows whose key is `k`, in input order. */
  function RowsWithKey(rows: seq<Row>, keys: seq<string>, k: string): (r: seq<Row>)
    requires |keys| == |rows|
    ensures |r| <= |rows|
  {
    if rows == [] then []
    else
      var pre := RowsWithKey(rows[..|rows| - 1], keys[..|keys| - 1], k);
      if keys[|keys| - 1] == k then pre + [rows[|rows| - 1]] else pre
  }

  /** Routing: each row is appended to the bucket with its key, if there is
      one, and dropped otherwise. */
  function RouteAll(buckets: Dict<Pending>, rows: seq<Row>, keys: seq<string>): Dict<Pending>
    requires |keys| == |rows|
  {
    if rows == [] then buckets
    else
      RouteOne(RouteAll(buckets, rows[..|rows| - 1], keys[..|keys| - 1]), rows[|rows| - 1], keys[|keys| - 1])
  }

  /** One row routed: appended to the bucket of key `k` if there is one. */
  function RouteOne(buckets: Dict<Pending>, row: Row, k: string): Dict<Pending>
  {
    match Get(buckets, k)
    case None => buckets
    case Some(p) => Put(buckets, k, Pending(p.order, p.data + [row]))
  }

  lemma RouteAllSnoc(buckets: Dict<Pending>, rows: seq<Row>, keys: seq<string>, j: nat, k: string)
    requires j < |rows| && |keys| == j
    ensures RouteAll(buckets, rows[..j + 1], keys + [k]) == RouteOne(RouteAll(buckets, rows[..j], keys), rows[j], k)
  {
    assert rows[..j + 1][..j] == rows[..j];
    assert (keys + [k])[..j] == keys;
  }

  /** Routing adds no bucket and changes no order; each bucket gains
      exactly the rows with its key, in input order. */
  lemma {:induction false} RouteAllKeys(buckets: Dict<Pending>, rows: seq<Row>, keys: seq<string>)
    requires |keys| == |rows|
    ensures KeySet(RouteAll(buckets, rows, keys)) == KeySet(buckets)
  {
    if rows != [] {
      var n := |rows| - 1;
      RouteAllKeys(buckets, rows[..n], keys[..n]);
      GetFound(RouteAll(buckets, rows[..n], keys[..n]), keys[n]);
    }
  }

  /** Routing adds no bucket and changes no order; each bucket gains
      exactly the rows with its key, in input order. */
  lemma {:induction false} RouteAllBucket(buckets: Dict<Pending>, rows: seq<Row>, keys: seq<string>, k: string)
    requires |keys| == |rows|
    requires Get(buckets, k).Some?
    ensures Get(RouteAll(buckets, rows, keys), k) ==
            Some(Pending(Get(buckets, k).value.order, Get(buckets, k).value.data + RowsWithKey(rows, keys, k)))
  {
    var b := Get(buckets, k).value;
    if rows == [] {
      assert b.data + [] == b.data;
    } else {
      var n := |rows| - 1;
      RouteAllBucket(buckets, rows[..n], keys[..n], k);
      var pre := RouteAll(buckets, rows[..n], keys[..n]);
      var sel := RowsWithKey(rows[..n], keys[..n], k);
      assert Get(pre, k) == Some(Pending(b.order, b.data + sel));
      if keys[n] == k {
        assert RowsWithKey(rows, keys, k) == sel + [rows[n]];
        AppendAssoc(b.data, sel, [rows[n]]);
        assert RouteAll(buckets, rows, keys) == Put(pre, k, Pending(b.order, b.data + sel + [rows[n]]));
      } else {
        assert RowsWithKey(rows, keys, k) == sel;
      }
    }
  }

  /** What the two loops build, or the KeyError they raise. */
  function RouteSpec(topRows: seq<Row>, rows: seq<Row>, fields: seq<string>, issues: map<Value, string>,
                     text: Value -> string): Result<Dict<Pending>>
  {
    var topKeys := ResultKeys(topRows, fields, issues, text);
    if topKeys.Fail? then Fail(topKeys.error)
    else
      var keys := ResultKeys(rows, fields, issues, text);
      if keys.Fail? then Fail(keys.error)
      else Ok(RouteAll(Ranks(topKeys.value), rows, keys.value))
  }

  lemma {:induction false} LastIndexWithKey(keys: seq<string>, i: nat)
    requires i < |keys|
    decreases |keys| - i
    ensures exists last :: i <= last < |keys| && keys[last] == keys[i] &&
                           forall j :: last < j < |keys| ==> keys[j] != keys[i]
  {
    if exists j :: i < j < |keys| && keys[j] == keys[i] {
      var j :| i < j < |keys| && keys[j] == keys[i];
      LastIndexWithKey(keys, j);
    } else {
      assert forall j :: i < j < |keys| ==> keys[j] != keys[i];
    }
  }

  /** A top event's bucket holds exactly the result rows with its key. */
  lemma RouteSpecBucket(topRows: seq<Row>, rows: seq<Row>, fields: seq<string>, issues: map<Value, string>,
                        text: Value -> string, i: nat)
    requires i < |topRows|
    requires RouteSpec(topRows, rows, fields, issues, text).Ok?
    ensures var k := CreateResultKey(topRows[i], fields, issues, text).value;
            var keys := ResultKeys(rows, fields, issues, text).value;
            var b := Get(RouteSpec(topRows, rows, fields, issues, text).value, k);
            && b.Some?
            && b.value.order >= i
            && b.value.data == RowsWithKey(rows, keys, k)
  {
    var topKeys := ResultKeys(topRows, fields, issues, text).value;
    var keys := ResultKeys(rows, fields, issues, text).value;
    var k := topKeys[i];
    LastIndexWithKey(topKeys, i);
    var last :| i <= last < |topKeys| && topKeys[last] == k && forall j :: last < j < |topKeys| ==> topKeys[j] != k;
    RanksOrder(topKeys, k, last);
    RouteAllBucket(Ranks(topKeys), rows, keys, k);
  }

  /** `keys` are the keys of the first rows. */
  ghost predicate KeysOf(rows: seq<Row>, keys: seq<string>, fields: seq<string>, issues: map<Value, string>,
                         text: Value -> string)
  {
    |keys| <= |rows| && forall i :: 0 <= i < |keys| ==> CreateResultKey(rows[i], fields, issues, text) == Ok(keys[i])
  }

  lemma KeysOfSnoc(rows: seq<Row>, keys: seq<string>, fields: seq<string>, issues: map<Value, string>,
                   text: Value -> string, k: string)
    requires KeysOf(rows, keys, fields, issues, text) && |keys| < |rows|
    requires CreateResultKey(rows[|keys|], fields, issues, text) == Ok(k)
    ensures KeysOf(rows, keys + [k], fields, issues, text)
  {
  }

  /** Keys built one by one for every row are the keys of all rows. */
  lemma ResultKeysOk(rows: seq<Row>, fields: seq<string>, issues: map<Value, string>, text: Value -> string,
                     keys: seq<string>)
    requires |keys| == |rows|
    requires KeysOf(rows, keys, fields, issues, text)
    ensures ResultKeys(rows, fields, issues, text) == Ok(keys)
  {
    var r := ResultKeys(rows, fields, issues, text);
    forall i | 0 <= i < |rows|
      ensures CreateResultKey(rows[i], fields, issues, text).Ok?
    {
    }
    assert r.Ok?;
    assert r.value == keys;
  }

  /** One row whose key cannot be built makes the keys of all rows fail. */
  lemma ResultKeysFail(rows: seq<Row>, fields: seq<string>, issues: map<Value, string>, text: Value -> string, i: nat)
    requires i < |rows| && CreateResultKey(rows[i], fields, issues, text).Fail?
    ensures ResultKeys(rows, fields, issues, text) == Fail(MissingKey("issue.id"))
  {
  }

  /** The first loop: one empty bucket per top event, ranked by index. */
  method RankTopEvents(topRows: seq<Row>, fields: seq<string>, issues: map<Value, string>, text: Value -> string)
    returns (r: Result<Dict<Pending>>)
    ensures ResultKeys(topRows, fields, issues, text).Fail? ==> r == Fail(ResultKeys(topRows, fields, issues, text).error)
    ensures ResultKeys(topRows, fields, issues, text).Ok? ==> r == Ok(Ranks(ResultKeys(topRows, fields, issues, text).value))
  {
    var results: Dict<Pending> := [];
    ghost var topKeys: seq<string> := [];
    for index := 0 to |topRows|
      invariant |topKeys| == index
      invariant KeysOf(topRows, topKeys, fields, issues, text)
      invariant results == Ranks(topKeys)
    {
      var key := CreateResultKey(topRows[index], fields, issues, text);
      if key.Fail? {
        ResultKeysFail(topRows, fields, issues, text, index);
        return Fail(key.error);
      }
      assert (topKeys + [key.value])[..index] == topKeys;
      KeysOfSnoc(topRows, topKeys, fields, issues, text, key.value);
      topKeys := topKeys + [key.value];
      results := Put(results, key.value, Pending(index, []));
    }
    ResultKeysOk(topRows, fields, issues, text, topKeys);
    r := Ok(results);
  }

  /** The second loop: each result row is appended to the bucket with its
      key; a row with no bucket is dropped. */
  method RouteResultRows(buckets: Dict<Pending>, rows: seq<Row>, fields: seq<string>, issues: map<Value, string>,
                         text: Value -> string) returns (r: Result<Dict<Pending>>)
    ensures ResultKeys(rows, fields, issues, text).Fail? ==> r == Fail(ResultKeys(rows, fields, issues, text).error)
    ensures ResultKeys(rows, fields, issues, text).Ok? ==>
              r == Ok(RouteAll(buckets, rows, ResultKeys(rows, fields, issues, text).value))
  {
    var results := buckets;
    ghost var keys: seq<string> := [];
    for j := 0 to |rows|
      invariant |keys| == j
      invariant KeysOf(rows, keys, fields, issues, text)
      invariant results == RouteAll(buckets, rows[..j], keys)
    {
      var key := CreateResultKey(rows[j], fields, issues, text);
      if key.Fail? {
        ResultKeysFail(rows, fields, issues, text, j);
        return Fail(key.error);
      }
      RouteAllSnoc(buckets, rows, keys, j, key.value);
      KeysOfSnoc(rows, keys, fields, issues, text, key.value);
      keys := keys + [key.value];
      match Get(results, key.value) {
        case None =>
        case Some(p) =>
          results := Put(results, key.value, Pending(p.order, p.data + [rows[j]]));
      }
    }
    assert rows[..|rows|] == rows;
    ResultKeysOk(rows, fields, issues, text, keys);
    r := Ok(results);
  }

  /** The two loops of `top_events_timeseries` that build the buckets. */
  method RouteRows(topRows: seq<Row>, rows: seq<Row>, fields: seq<string>, issues: map<Value, string>,
                   text: Value -> string) returns (r: Result<Dict<Pending>>)
    ensures r == RouteSpec(topRows, rows, fields, issues, text)
  {
    var ranked := RankTopEvents(topRows, fields, issues, text);
    if ranked.Fail? {
      return ranked;
    }
    r := RouteResultRows(ranked.value, rows, fields, issues, text);
  }

  // ---------------------------------------------------------------------
  // Per-bucket zerofill and the whole query
  // ---------------------------------------------------------------------

  /** A top event's series and its rank. */
  datatype RankedSeries = RankedSeries(order: int, series: TSResult)

  /** A single zerofilled series when empty results are refused, otherwise
      one ranked series per top-event key. */
  datatype TopSeries = EmptySeries(single: TSResult) | Ranked(series: Dict<RankedSeries>)

  /** The entry of one bucket once zerofilled. */
  function FillEntry(entry: (string, Pending), filled: seq<Row>, start: Option<int>, end: Option<int>, rollup: int)
    : (string, RankedSeries)
  {
    (entry.0, RankedSeries(entry.1.order, TSResult(filled, start, end, rollup)))
  }

  /** Zerofill of every bucket, in dictionary order. */
  function FillSeries(pending: Dict<Pending>, start: Option<int>, end: Option<int>, rollup: int)
    : (r: Result<Dict<RankedSeries>>)
    requires rollup > 0
    ensures r.Ok? ==> |r.value| == |pending|
    ensures r.Ok? ==> forall i :: 0 <= i < |pending| ==>
              && r.value[i].0 == pending[i].0
              && r.value[i].1.order == pending[i].1.order
              && ZerofillOrFail(pending[i].1.data, start, end, rollup, ["time"]) == Ok(r.value[i].1.series.data)
    ensures r.Fail? <==>
              exists i :: 0 <= i < |pending| && ZerofillOrFail(pending[i].1.data, start, end, rollup, ["time"]).Fail?
    ensures r.Fail? ==> r.error == if start.None? || end.None? then MissingTimestamp else MissingKey("time")
  {
    if pending == [] then Ok([])
    else
      var n := |pending| - 1;
      var pre := FillSeries(pending[..n], start, end, rollup);
      var filled := ZerofillOrFail(pending[n].1.data, start, end, rollup, ["time"]);
      assert forall i :: 0 <= i < n ==> pending[..n][i] == pending[i];
      if pre.Fail? then pre
      else if filled.Fail? then Fail(filled.error)
      else Ok(pre.value + [FillEntry(pending[n], filled.value, start, end, rollup)])
  }

  lemma FillSeriesSnoc(pending: Dict<Pending>, i: nat, start: Option<int>, end: Option<int>, rollup: int,
                       done: Dict<RankedSeries>, filled: seq<Row>)
    requires rollup > 0
    requires i < |pending|
    requires FillSeries(pending[..i], start, end, rollup) == Ok(done)
    requires ZerofillOrFail(pending[i].1.data, start, end, rollup, ["time"]) == Ok(filled)
    ensures FillSeries(pending[..i + 1], start, end, rollup) == Ok(done + [FillEntry(pending[i], filled, start, end, rollup)])
  {
    assert pending[..i + 1][..i] == pending[..i];
  }

  /** The loop that replaces every bucket by its zerofilled series. */
  method FillBuckets(pending: Dict<Pending>, start: Option<int>, end: Option<int>, rollup: int)
    returns (r: Result<Dict<RankedSeries>>)
    requires rollup > 0
    ensures r == FillSeries(pending, start, end, rollup)
  {
    var results: Dict<RankedSeries> := [];
    for i := 0 to |pending|
      invariant FillSeries(pending[..i], start, end, rollup) == Ok(results)
    {
      var filled := ZerofillChecked(pending[i].1.data, start, end, rollup, ["time"]);
      if filled.Fail? {
        return Fail(filled.error);
      }
      FillSeriesSnoc(pending, i, start, end, rollup, results, filled.value);
      results := results + [FillEntry(pending[i], filled.value, start, end, rollup)];
    }
    assert pending[..|pending|] == pending;
    r := Ok(results);
  }

  /** The backend request: grouped by time and the filter's groupby, ordered
      by time, capped at 10000 rows. */
  function TopEventsRequest(f: Filter, rollup: int): SnubaRequest
  {
    SnubaRequest(f.start, f.end, ["time"] + f.groupby, f.conditions, f.aggregations, f.selectedColumns,
                 f.filterKeys, [], ["time"], Some(10000), None, Some(rollup), None, false, None)
  }

  /** The key fields: the groupby columns translated back to public names
      (`project_id` to `project` when `project` is selected), sorted. */
  function KeyFields(groupby: seq<string>, tm: map<string, string>, selected: seq<string>): (r: seq<string>)
    ensures Sorted(r)
    ensures |r| == |groupby|
    ensures var tm' := if "project" in selected then tm["project_id" := "project"] else tm;
            multiset(r) == multiset(seq(|groupby|, i requires 0 <= i < |groupby| => Translate(tm', groupby[i])))
  {
    var tm' := if "project" in selected then tm["project_id" := "project"] else tm;
    var translated := seq(|groupby|, i requires 0 <= i < |groupby| => Translate(tm', groupby[i]));
    var r := SortStrings(translated);
    assert |r| == |multiset(r)| == |multiset(translated)| == |translated|;
    r
  }

  /** The issue short ids: none unless `issue` is selected; then every top
      event must have an `issue.id`. */
  function Issues(selected: seq<string>, topRows: seq<Row>, env: TopEventsEnv): (r: Result<map<Value, string>>)
    ensures r.Fail? <==> "issue" in selected && exists i :: 0 <= i < |topRows| && !HasKey(topRows[i], "issue.id")
  {
    if "issue" !in selected then Ok(map[])
    else if exists i :: 0 <= i < |topRows| && !HasKey(topRows[i], "issue.id") then Fail(MissingKey("issue.id"))
    else Ok(env.issuesMapping)
  }

  /** What `top_events_timeseries` returns or raises, given the top events. */
  function TopEventsSpec<F>(columns: seq<string>, selected: seq<string>, parsed: Result<Filter>, rollup: int,
                            topRows: seq<Row>, allowEmpty: bool, c: Collaborators<F>, env: TopEventsEnv,
                            backend: Backend): (r: Result<TopSeries>)
    requires rollup > 0
    ensures r.Ok? && r.value.EmptySeries? ==> !allowEmpty
    ensures r.Ok? && r.value.EmptySeries? ==>
              r.value.single.start.Some? && r.value.single.end.Some? &&
              r.value.single.data == ZerofillSpec([], r.value.single.start.value, r.value.single.end.value, rollup, ["time"])
  {
    var tf := TimeseriesFilter(columns, parsed, c, false);
    if tf.Fail? then Fail(tf.error)
    else
      var tm := tf.value.1;
      var f := tf.value.0.(conditions := tf.value.0.conditions + TopEventConditions(selected, topRows, env));
      var result := backend(TopEventsRequest(f, rollup));
      if result.Fail? then Fail(result.error)
      else if !allowEmpty && result.value.data == [] then
        var filled := ZerofillOrFail([], f.start, f.end, rollup, ["time"]);
        if filled.Fail? then Fail(filled.error)
        else Ok(EmptySeries(TSResult(filled.value, f.start, f.end, rollup)))
      else
        var transformed := TransformDataSpec(result.value, tm, f);
        if transformed.Fail? then Fail(transformed.error)
        else
          var issues := Issues(selected, topRows, env);
          if issues.Fail? then Fail(issues.error)
          else
            var routed := RouteSpec(topRows, transformed.value.data, KeyFields(f.groupby, tm, selected),
                                    issues.value, env.text);
            if routed.Fail? then Fail(routed.error)
            else
              var series := FillSeries(routed.value, f.start, f.end, rollup);
              if series.Fail? then Fail(series.error) else Ok(Ranked(series.value))
  }

  /** With empty results not allowed and no rows back, the answer is the
      zero-filled empty series over the query's range, in ascending time, or
      the missing-bound failure. */
  lemma TopEventsEmptyData<F>(columns: seq<string>, selected: seq<string>, parsed: Result<Filter>, rollup: int,
                              topRows: seq<Row>, c: Collaborators<F>, env: TopEventsEnv, backend: Backend)
    requires rollup > 0
    requires TimeseriesFilter(columns, parsed, c, false).Ok?
    requires var f0 := TimeseriesFilter(columns, parsed, c, false).value.0;
             var f := f0.(conditions := f0.conditions + TopEventConditions(selected, topRows, env));
             backend(TopEventsRequest(f, rollup)).Ok? && backend(TopEventsRequest(f, rollup)).value.data == []
    ensures var f := TimeseriesFilter(columns, parsed, c, false).value.0;
            var r := TopEventsSpec(columns, selected, parsed, rollup, topRows, false, c, env, backend);
            && (r.Fail? <==> f.start.None? || f.end.None?)
            && (r.Ok? ==> r == Ok(EmptySeries(TSResult(ZerofillSpec([], f.start.value, f.end.value, rollup, ["time"]),
                                                        f.start, f.end, rollup))))
  {
    assert Timed([]);
  }

  /** `top_events_timeseries` with the top events given; `columns` are the
      timeseries and selected columns without duplicates. */
  method TopEventsTimeseries<F>(columns: seq<string>, selected: seq<string>, parsed: Result<Filter>, rollup: int,
                                topRows: seq<Row>, allowEmpty: bool, c: Collaborators<F>, env: TopEventsEnv,
                                backend: Backend) returns (r: Result<TopSeries>)
    requires rollup > 0
    ensures r == TopEventsSpec(columns, selected, parsed, rollup, topRows, allowEmpty, c, env, backend)
  {
    var tf := TimeseriesFilter(columns, parsed, c, false);
    if tf.Fail? {
      return Fail(tf.error);
    }
    var snubaFilter := tf.value.0;
    var translated := tf.value.1;
    var conditions := AddTopEventConditions(snubaFilter.conditions, selected, topRows, env);
    snubaFilter := snubaFilter.(conditions := conditions);
    var result := backend(TopEventsRequest(snubaFilter, rollup));
    if result.Fail? {
      return Fail(result.error);
    }
    if !allowEmpty && |result.value.data| == 0 {
      var filled := ZerofillChecked([], snubaFilter.start, snubaFilter.end, rollup, ["time"]);
      if filled.Fail? {
        return Fail(filled.error);
      }
      return Ok(EmptySeries(TSResult(filled.value, snubaFilter.start, snubaFilter.end, rollup)));
    }
    var transformed := TransformData(result.value, translated, snubaFilter);
    if transformed.Fail? {
      return Fail(transformed.error);
    }
    var issues := Issues(selected, topRows, env);
    if issues.Fail? {
      return Fail(issues.error);
    }
    var fields := KeyFields(snubaFilter.groupby, translated, selected);
    var routed := RouteRows(topRows, transformed.value.data, fields, issues.value, env.text);
    if routed.Fail? {
      return Fail(routed.error);
    }
    var series := FillBuckets(routed.value, snubaFilter.start, snubaFilter.end, rollup);
    if series.Fail? {
      return Fail(series.error);
    }
    r := Ok(Ranked(series.value));
  }
}
