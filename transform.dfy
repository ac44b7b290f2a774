/** Renaming backend columns back to their public names, NaN coercion,
    optional gap-filling, and the `meta` type dictionary
    (`transform_data`, `transform_meta`, `transform_results`). */
module Transform {
  import opened Common
  import opened SnubaTypes
  import opened Zerofill

  /** A NaN float becomes the integer 0; every other value is kept. */
  function Coerce(v: Value): (r: Value)
    ensures r != VNaN
    ensures v != VNaN ==> r == v
  {
    if v == VNaN then VInt(0) else v
  }

  function CoerceOpt(v: Option<Value>): Option<Value>
  {
    if v.Some? then Some(Coerce(v.value)) else None
  }

  // ---------------------------------------------------------------------
  // One row (`get_row`)
  // ---------------------------------------------------------------------

  /** The dictionary `get_row` builds: each pair in turn, NaN coerced, stored
      under its translated key (a later pair overwrites an earlier one that
      translates to the same key). */
  function TranslatedRow(row: Row, tm: map<string, string>): (r: Row)
    ensures |r| <= |row|
  {
    if row == [] then []
    else
      var last := row[|row| - 1];
      Put(TranslatedRow(row[..|row| - 1], tm), Translate(tm, last.0), Coerce(last.1))
  }

  /** `get_row`. */
  method GetRow(row: Row, tm: map<string, string>) returns (transformed: Row)
    ensures transformed == TranslatedRow(row, tm)
  {
    transformed := [];
    var i := 0;
    while i < |row|
      invariant 0 <= i <= |row|
      invariant transformed == TranslatedRow(row[..i], tm)
    {
      var (key, value) := row[i];
      if value == VNaN {
        value := VInt(0);
      }
      TranslatedRowStep(row, tm, i);
      transformed := Put(transformed, Translate(tm, key), value);
      i := i + 1;
    }
    assert row[..|row|] == row;
  }

  lemma TranslatedRowStep(row: Row, tm: map<string, string>, i: int)
    requires 0 <= i < |row|
    ensures TranslatedRow(row[..i + 1], tm) == Put(TranslatedRow(row[..i], tm), Translate(tm, row[i].0), Coerce(row[i].1))
  {
    assert row[..i + 1][..i] == row[..i];
  }

  /** The translations of the row's keys. */
  function TranslatedKeys(row: Row, tm: map<string, string>): (s: set<string>)
    ensures forall i :: 0 <= i < |row| ==> Translate(tm, row[i].0) in s
    ensures forall k :: k in s ==> exists i :: 0 <= i < |row| && Translate(tm, row[i].0) == k
  {
    set i | 0 <= i < |row| :: Translate(tm, row[i].0)
  }

  lemma TranslatedKeysSnoc(row: Row, tm: map<string, string>)
    requires row != []
    ensures TranslatedKeys(row, tm)
            == TranslatedKeys(row[..|row| - 1], tm) + {Translate(tm, row[|row| - 1].0)}
  {
    var p := row[..|row| - 1];
    forall k | k in TranslatedKeys(row, tm)
      ensures k in TranslatedKeys(p, tm) + {Translate(tm, row[|row| - 1].0)}
    {
      var i :| 0 <= i < |row| && Translate(tm, row[i].0) == k;
      if i < |p| { assert p[i] == row[i]; }
    }
    forall k | k in TranslatedKeys(p, tm) ensures k in TranslatedKeys(row, tm) {
      var i :| 0 <= i < |p| && Translate(tm, p[i].0) == k;
      assert row[i] == p[i];
    }
  }

  /** The keys of the rebuilt row are exactly the translations of the row's keys. */
  lemma {:induction false} TranslatedRowKeys(row: Row, tm: map<string, string>)
    ensures KeySet(TranslatedRow(row, tm)) == TranslatedKeys(row, tm)
  {
    if row != [] {
      TranslatedRowKeys(row[..|row| - 1], tm);
      TranslatedKeysSnoc(row, tm);
    }
  }

  /** No NaN survives in a rebuilt row. */
  lemma {:induction false} TranslatedRowNoNaN(row: Row, tm: map<string, string>, k: string)
    ensures Get(TranslatedRow(row, tm), k) != Some(VNaN)
  {
    if row != [] {
      TranslatedRowNoNaN(row[..|row| - 1], tm, k);
    }
  }

  /** No two keys of the row share a translation. */
  ghost predicate NoClash(row: Row, tm: map<string, string>)
  {
    forall i, j :: 0 <= i < j < |row| ==> Translate(tm, row[i].0) != Translate(tm, row[j].0)
  }

  lemma NoClashPrefix(row: Row, tm: map<string, string>)
    requires row != [] && NoClash(row, tm)
    ensures NoClash(row[..|row| - 1], tm)
    ensures Translate(tm, row[|row| - 1].0) !in TranslatedKeys(row[..|row| - 1], tm)
  {
    var p := row[..|row| - 1];
    forall i, j | 0 <= i < j < |p| ensures Translate(tm, p[i].0) != Translate(tm, p[j].0) {
      assert p[i] == row[i] && p[j] == row[j];
    }
    forall i | 0 <= i < |p| ensures Translate(tm, p[i].0) != Translate(tm, row[|row| - 1].0) {
      assert p[i] == row[i];
    }
  }

  /** Without clashes, the rebuilt row keeps every entry. */
  lemma {:induction false} TranslatedRowLength(row: Row, tm: map<string, string>)
    requires NoClash(row, tm)
    ensures |TranslatedRow(row, tm)| == |row|
  {
    if row != [] {
      var p := row[..|row| - 1];
      NoClashPrefix(row, tm);
      TranslatedRowLength(p, tm);
      TranslatedRowKeys(p, tm);
    }
  }

  /** When no two keys share a translation, each key's value is found under
      its translation, NaN coerced to 0. */
  lemma {:induction false} TranslatedRowGet(row: Row, tm: map<string, string>, k: string)
    requires NoClash(row, tm)
    requires k in KeySet(row)
    ensures Get(TranslatedRow(row, tm), Translate(tm, k)) == CoerceOpt(Get(row, k))
  {
    var p := row[..|row| - 1];
    NoClashPrefix(row, tm);
    if k in KeySet(p) {
      TranslatedRowGet(p, tm, k);
      TranslatedRowGetEarlier(row, tm, k);
    } else {
      TranslatedRowGetLast(row, tm, k);
    }
  }

  /** The step for a key met before the last entry: the last entry's
      translation is another key, so the earlier value stands. */
  lemma TranslatedRowGetEarlier(row: Row, tm: map<string, string>, k: string)
    requires row != [] && NoClash(row, tm)
    requires k in KeySet(row[..|row| - 1])
    ensures Get(row, k) == Get(row[..|row| - 1], k)
    ensures Get(TranslatedRow(row, tm), Translate(tm, k))
            == Get(TranslatedRow(row[..|row| - 1], tm), Translate(tm, k))
  {
    var p := row[..|row| - 1];
    var last := row[|row| - 1];
    assert row == p + [last];
    GetConcat(p, [last], k);
    NoClashPrefix(row, tm);
    var i :| 0 <= i < |p| && p[i].0 == k;
    assert Translate(tm, k) in TranslatedKeys(p, tm);
  }

  /** The step for the last entry's key. */
  lemma TranslatedRowGetLast(row: Row, tm: map<string, string>, k: string)
    requires row != []
    requires k in KeySet(row) && k !in KeySet(row[..|row| - 1])
    ensures k == row[|row| - 1].0
    ensures Get(TranslatedRow(row, tm), Translate(tm, k)) == CoerceOpt(Get(row, k))
  {
    var p := row[..|row| - 1];
    var last := row[|row| - 1];
    assert row == p + [last];
    GetConcat(p, [last], k);
    forall i | 0 <= i < |p| ensures row[i].0 != k {
      assert row[i] == p[i];
    }
  }

  // ---------------------------------------------------------------------
  // `transform_data`
  // ---------------------------------------------------------------------

  /** The meta list with every column name translated back. */
  function TranslateMeta(meta: seq<ColumnMeta>, tm: map<string, string>): (r: seq<ColumnMeta>)
    ensures |r| == |meta|
    ensures forall i :: 0 <= i < |meta| ==>
              r[i].name == Translate(tm, meta[i].name) && r[i].typ == meta[i].typ
  {
    seq(|meta|, i requires 0 <= i < |meta| => ColumnMeta(Translate(tm, meta[i].name), meta[i].typ))
  }

  function TranslateRows(rows: seq<Row>, tm: map<string, string>): (r: seq<Row>)
    ensures |r| == |rows|
    ensures forall i :: 0 <= i < |rows| ==> r[i] == TranslatedRow(rows[i], tm)
  {
    seq(|rows|, i requires 0 <= i < |rows| => TranslatedRow(rows[i], tm))
  }

  /** The rows after renaming: rebuilt only when the translation map is
      non-empty, so NaN is coerced only then. */
  function RenamedRows(rows: seq<Row>, tm: map<string, string>): seq<Row>
  {
    if |tm| > 0 then TranslateRows(rows, tm) else rows
  }

  /** What `transform_data` leaves in the result, or the error it raises.
      Zerofill runs when the rollup is set and positive; it fails on a
      missing start or end (converted first) and then on a row without a
      `time` column. */
  function TransformDataSpec(result: RawResult, tm: map<string, string>, f: Filter): (r: Result<RawResult>)
    ensures r.Ok? ==> r.value.meta == TranslateMeta(result.meta, tm)
    ensures r.Fail? <==>
              (f.rollup.Some? && f.rollup.value > 0 &&
               (f.start.None? || f.end.None? || !Timed(RenamedRows(result.data, tm))))
  {
    var meta := TranslateMeta(result.meta, tm);
    var data := RenamedRows(result.data, tm);
    if f.rollup.Some? && f.rollup.value > 0 then
      var filled := ZerofillOrFail(data, f.start, f.end, f.rollup.value, f.orderby);
      if filled.Fail? then Fail(filled.error) else Ok(RawResult(filled.value, meta))
    else Ok(RawResult(data, meta))
  }

  /** The loop that renames each meta entry in place. */
  method RenameMeta(meta0: seq<ColumnMeta>, tm: map<string, string>) returns (meta: seq<ColumnMeta>)
    ensures meta == TranslateMeta(meta0, tm)
  {
    meta := meta0;
    var i := 0;
    while i < |meta|
      invariant 0 <= i <= |meta| == |meta0|
      invariant meta[..i] == TranslateMeta(meta0[..i], tm)
      invariant meta[i..] == meta0[i..]
    {
      assert meta[i] == meta0[i];
      meta := meta[i := ColumnMeta(Translate(tm, meta[i].name), meta[i].typ)];
      i := i + 1;
    }
  }

  /** `[get_row(row) for row in result["data"]]`. */
  method RebuildRows(data: seq<Row>, tm: map<string, string>) returns (rebuilt: seq<Row>)
    ensures rebuilt == TranslateRows(data, tm)
  {
    rebuilt := [];
    var j := 0;
    while j < |data|
      invariant 0 <= j <= |data|
      invariant rebuilt == TranslateRows(data[..j], tm)
    {
      var row := GetRow(data[j], tm);
      TranslateRowsSnoc(data, tm, j, rebuilt, row);
      rebuilt := rebuilt + [row];
      j := j + 1;
    }
    assert data[..j] == data;
  }

  lemma TranslateRowsSnoc(data: seq<Row>, tm: map<string, string>, j: int, prefix: seq<Row>, row: Row)
    requires 0 <= j < |data|
    requires prefix == TranslateRows(data[..j], tm) && row == TranslatedRow(data[j], tm)
    ensures prefix + [row] == TranslateRows(data[..j + 1], tm)
  {
    var r := TranslateRows(data[..j + 1], tm);
    forall i | 0 <= i < |r| ensures r[i] == (prefix + [row])[i] {
      if i < j { assert data[..j + 1][i] == data[..j][i]; }
    }
  }

  /** The rows after renaming, rebuilt with `get_row` only when the
      translation map is non-empty. */
  method RenameRows(data: seq<Row>, tm: map<string, string>) returns (rows: seq<Row>)
    ensures rows == RenamedRows(data, tm)
  {
    rows := data;
    if |tm| > 0 {
      rows := RebuildRows(data, tm);
    }
  }

  method TransformData(result: RawResult, tm: map<string, string>, f: Filter) returns (r: Result<RawResult>)
    ensures r == TransformDataSpec(result, tm, f)
  {
    var meta := RenameMeta(result.meta, tm);
    var data := RenameRows(result.data, tm);
    if f.rollup.Some? && f.rollup.value > 0 {
      var filled := ZerofillChecked(data, f.start, f.end, f.rollup.value, f.orderby);
      if filled.Fail? {
        return Fail(filled.error);
      }
      data := filled.value;
    }
    r := Ok(RawResult(data, meta));
  }

  /** Without a positive rollup the row count is unchanged, and so is every
      row when there is nothing to translate. */
  lemma TransformKeepsRows(result: RawResult, tm: map<string, string>, f: Filter)
    requires !(f.rollup.Some? && f.rollup.value > 0)
    ensures TransformDataSpec(result, tm, f).Ok?
    ensures |TransformDataSpec(result, tm, f).value.data| == |result.data|
    ensures |tm| == 0 ==> TransformDataSpec(result, tm, f).value.data == result.data
  {
  }

  /** With translations, every row is the rebuilt row and holds no NaN;
      without them, NaN values stay. */
  lemma TransformRowsCoerced(result: RawResult, tm: map<string, string>, f: Filter, i: int, k: string)
    requires |tm| > 0
    requires !(f.rollup.Some? && f.rollup.value > 0)
    requires 0 <= i < |result.data|
    ensures TransformDataSpec(result, tm, f).value.data[i] == TranslatedRow(result.data[i], tm)
    ensures Get(TransformDataSpec(result, tm, f).value.data[i], k) != Some(VNaN)
  {
    TranslatedRowNoNaN(result.data[i], tm, k);
  }

  /** With a positive rollup and both bounds, the data is the zerofill of the
      renamed rows. */
  lemma TransformZerofills(result: RawResult, tm: map<string, string>, f: Filter)
    requires f.rollup.Some? && f.rollup.value > 0
    requires f.start.Some? && f.end.Some?
    requires Timed(RenamedRows(result.data, tm))
    ensures TransformDataSpec(result, tm, f)
            == Ok(RawResult(ZerofillSpec(RenamedRows(result.data, tm), f.start.value, f.end.value, f.rollup.value, f.orderby),
                            TranslateMeta(result.meta, tm)))
  {
  }

  // ---------------------------------------------------------------------
  // `transform_meta`
  // ---------------------------------------------------------------------

  /** `function_alias_map.get(name)`. */
  function AliasDetails<F>(fam: map<string, F>, name: string): Option<F>
  {
    if name in fam then Some(fam[name]) else None
  }

  /** The dictionary comprehension over the meta list: each column's name to
      the JSON type the type function gives it (a later duplicate name wins). */
  function MetaTypes<F>(meta: seq<ColumnMeta>, fam: map<string, F>,
                        metaType: (string, Option<string>, Option<F>) -> string): (r: Dict<string>)
    ensures |r| <= |meta|
  {
    if meta == [] then []
    else
      var c := meta[|meta| - 1];
      Put(MetaTypes(meta[..|meta| - 1], fam, metaType), c.name, metaType(c.name, c.typ, AliasDetails(fam, c.name)))
  }

  /** The fill-in loop: each key not yet typed gets "string". */
  function DefaultTypes(types: Dict<string>, keys: seq<string>): Dict<string>
  {
    if keys == [] then types
    else
      var prev := DefaultTypes(types, keys[..|keys| - 1]);
      var k := keys[|keys| - 1];
      if k in KeySet(prev) then prev else Put(prev, k, "string")
  }

  /** What `transform_meta` returns: typed meta names, then "string" for the
      first row's untyped keys. */
  function TransformMetaSpec<F>(result: RawResult, fam: map<string, F>,
                                metaType: (string, Option<string>, Option<F>) -> string): Dict<string>
  {
    var types := MetaTypes(result.meta, fam, metaType);
    if result.data != [] then DefaultTypes(types, Keys(result.data[0])) else types
  }

  method TransformMeta<F>(result: RawResult, fam: map<string, F>,
                          metaType: (string, Option<string>, Option<F>) -> string) returns (meta: Dict<string>)
    ensures meta == TransformMetaSpec(result, fam, metaType)
  {
    meta := MetaTypes(result.meta, fam, metaType);
    if result.data != [] {
      var keys := Keys(result.data[0]);
      ghost var types := meta;
      var i := 0;
      while i < |keys|
        invariant 0 <= i <= |keys|
        invariant meta == DefaultTypes(types, keys[..i])
      {
        assert keys[..i + 1][..i] == keys[..i];
        if keys[i] !in KeySet(meta) {
          meta := Put(meta, keys[i], "string");
        }
        i := i + 1;
      }
      assert keys[..|keys|] == keys;
    }
  }

  function MetaNames(meta: seq<ColumnMeta>): (s: set<string>)
    ensures forall i :: 0 <= i < |meta| ==> meta[i].name in s
    ensures forall n :: n in s ==> exists i :: 0 <= i < |meta| && meta[i].name == n
  {
    set i | 0 <= i < |meta| :: meta[i].name
  }

  /** The typed names are exactly the meta names. */
  lemma {:induction false} MetaTypesKeys<F>(meta: seq<ColumnMeta>, fam: map<string, F>,
                                           metaType: (string, Option<string>, Option<F>) -> string)
    ensures KeySet(MetaTypes(meta, fam, metaType)) == MetaNames(meta)
  {
    if meta != [] {
      var p := meta[..|meta| - 1];
      MetaTypesKeys(p, fam, metaType);
      MetaNamesSnoc(meta);
    }
  }

  lemma MetaNamesSnoc(meta: seq<ColumnMeta>)
    requires meta != []
    ensures MetaNames(meta) == MetaNames(meta[..|meta| - 1]) + {meta[|meta| - 1].name}
  {
    var p := meta[..|meta| - 1];
    forall n | n in MetaNames(meta) ensures n in MetaNames(p) + {meta[|meta| - 1].name} {
      var i :| 0 <= i < |meta| && meta[i].name == n;
      if i < |p| { assert p[i] == meta[i]; }
    }
    forall n | n in MetaNames(p) ensures n in MetaNames(meta) {
      var i :| 0 <= i < |p| && p[i].name == n;
      assert meta[i] == p[i];
    }
  }

  /** Each name gets the type computed from the LAST meta entry carrying it. */
  lemma {:induction false} MetaTypesGet<F>(meta: seq<ColumnMeta>, fam: map<string, F>,
                                          metaType: (string, Option<string>, Option<F>) -> string, i: int)
    requires 0 <= i < |meta|
    requires forall j :: i < j < |meta| ==> meta[j].name != meta[i].name
    ensures Get(MetaTypes(meta, fam, metaType), meta[i].name)
            == Some(metaType(meta[i].name, meta[i].typ, AliasDetails(fam, meta[i].name)))
  {
    if i < |meta| - 1 {
      var p := meta[..|meta| - 1];
      assert p[i] == meta[i];
      forall j | i < j < |p| ensures p[j].name != p[i].name {
        assert p[j] == meta[j];
      }
      MetaTypesGet(p, fam, metaType, i);
    }
  }

  /** The fill-in adds exactly the listed keys. */
  lemma {:induction false} DefaultTypesKeys(types: Dict<string>, keys: seq<string>, k: string)
    ensures k in KeySet(DefaultTypes(types, keys)) <==> k in KeySet(types) || k in keys
  {
    if keys != [] {
      var p := keys[..|keys| - 1];
      var last := keys[|keys| - 1];
      DefaultTypesKeys(types, p, k);
      InLast(keys, k);
    }
  }

  /** The fill-in never changes a type already present. */
  lemma {:induction false} DefaultTypesKeep(types: Dict<string>, keys: seq<string>, k: string)
    requires k in KeySet(types)
    ensures Get(DefaultTypes(types, keys), k) == Get(types, k)
  {
    if keys != [] {
      var p := keys[..|keys| - 1];
      DefaultTypesKeep(types, p, k);
      DefaultTypesKeys(types, p, k);
    }
  }

  /** A listed key that was not typed gets "string". */
  lemma {:induction false} DefaultTypesNew(types: Dict<string>, keys: seq<string>, k: string)
    requires k !in KeySet(types) && k in keys
    ensures Get(DefaultTypes(types, keys), k) == Some("string")
  {
    var p := keys[..|keys| - 1];
    var last := keys[|keys| - 1];
    assert keys == p + [last];
    DefaultTypesKeys(types, p, k);
    if k in p {
      DefaultTypesNew(types, p, k);
    }
  }

  /** The fill-in never changes a type already present, gives "string" to a
      new key, and adds exactly the listed keys. */
  lemma DefaultTypesGet(types: Dict<string>, keys: seq<string>, k: string)
    ensures k in KeySet(types) ==> Get(DefaultTypes(types, keys), k) == Get(types, k)
    ensures k !in KeySet(types) && k in keys ==> Get(DefaultTypes(types, keys), k) == Some("string")
    ensures k in KeySet(DefaultTypes(types, keys)) <==> k in KeySet(types) || k in keys
  {
    DefaultTypesKeys(types, keys, k);
    if k in KeySet(types) {
      DefaultTypesKeep(types, keys, k);
    } else if k in keys {
      DefaultTypesNew(types, keys, k);
    }
  }

  /** `transform_meta`: every meta name is typed from its entry, every first-row
      key missing from meta is "string", and no other name appears. */
  lemma TransformMetaTypes<F>(result: RawResult, fam: map<string, F>,
                              metaType: (string, Option<string>, Option<F>) -> string, k: string)
    requires forall i, j :: 0 <= i < j < |result.meta| ==> result.meta[i].name != result.meta[j].name
    ensures forall i :: 0 <= i < |result.meta| ==>
              Get(TransformMetaSpec(result, fam, metaType), result.meta[i].name)
              == Some(metaType(result.meta[i].name, result.meta[i].typ, AliasDetails(fam, result.meta[i].name)))
    ensures result.data != [] && k in KeySet(result.data[0]) &&
            (forall i :: 0 <= i < |result.meta| ==> result.meta[i].name != k)
            ==> Get(TransformMetaSpec(result, fam, metaType), k) == Some("string")
    ensures k in KeySet(TransformMetaSpec(result, fam, metaType)) <==>
            (exists i :: 0 <= i < |result.meta| && result.meta[i].name == k) ||
            (result.data != [] && k in KeySet(result.data[0]))
  {
    forall i | 0 <= i < |result.meta|
      ensures Get(TransformMetaSpec(result, fam, metaType), result.meta[i].name)
              == Some(metaType(result.meta[i].name, result.meta[i].typ, AliasDetails(fam, result.meta[i].name)))
    {
      TransformMetaTyped(result, fam, metaType, i);
    }
    TransformMetaOthers(result, fam, metaType, k);
  }

  /** A meta name keeps the type computed from its (only) entry. */
  lemma TransformMetaTyped<F>(result: RawResult, fam: map<string, F>,
                              metaType: (string, Option<string>, Option<F>) -> string, i: int)
    requires 0 <= i < |result.meta|
    requires forall j :: i < j < |result.meta| ==> result.meta[j].name != result.meta[i].name
    ensures Get(TransformMetaSpec(result, fam, metaType), result.meta[i].name)
            == Some(metaType(result.meta[i].name, result.meta[i].typ, AliasDetails(fam, result.meta[i].name)))
  {
    var types := MetaTypes(result.meta, fam, metaType);
    MetaTypesGet(result.meta, fam, metaType, i);
    MetaTypesKeys(result.meta, fam, metaType);
    if result.data != [] {
      DefaultTypesKeep(types, Keys(result.data[0]), result.meta[i].name);
    }
  }

  /** Any other name: "string" when it is a first-row key, absent otherwise. */
  lemma TransformMetaOthers<F>(result: RawResult, fam: map<string, F>,
                               metaType: (string, Option<string>, Option<F>) -> string, k: string)
    ensures result.data != [] && k in KeySet(result.data[0]) &&
            (forall i :: 0 <= i < |result.meta| ==> result.meta[i].name != k)
            ==> Get(TransformMetaSpec(result, fam, metaType), k) == Some("string")
    ensures k in KeySet(TransformMetaSpec(result, fam, metaType)) <==>
            (exists i :: 0 <= i < |result.meta| && result.meta[i].name == k) ||
            (result.data != [] && k in KeySet(result.data[0]))
  {
    var types := MetaTypes(result.meta, fam, metaType);
    MetaTypesKeys(result.meta, fam, metaType);
    if result.data != [] {
      var keys := Keys(result.data[0]);
      KeysMembers(result.data[0], k);
      DefaultTypesKeys(types, keys, k);
      if k !in KeySet(types) && k in keys {
        DefaultTypesNew(types, keys, k);
      }
    }
  }

  // ---------------------------------------------------------------------
  // `transform_results`
  // ---------------------------------------------------------------------

  /** The transformed data with `meta` replaced by the type dictionary. */
  datatype Transformed = Transformed(data: seq<Row>, meta: Dict<string>)

  function TransformResultsSpec<F>(result: RawResult, fam: map<string, F>, tm: map<string, string>, f: Filter,
                                   metaType: (string, Option<string>, Option<F>) -> string): (r: Result<Transformed>)
    ensures r.Ok? <==> TransformDataSpec(result, tm, f).Ok?
  {
    var d := TransformDataSpec(result, tm, f);
    if d.Fail? then Fail(d.error)
    else Ok(Transformed(d.value.data, TransformMetaSpec(d.value, fam, metaType)))
  }

  method TransformResults<F>(result: RawResult, fam: map<string, F>, tm: map<string, string>, f: Filter,
                             metaType: (string, Option<string>, Option<F>) -> string) returns (r: Result<Transformed>)
    ensures r == TransformResultsSpec(result, fam, tm, f, metaType)
  {
    var d := TransformData(result, tm, f);
    if d.Fail? {
      return Fail(d.error);
    }
    var meta := TransformMeta(d.value, fam, metaType);
    r := Ok(Transformed(d.value.data, meta));
  }
}
