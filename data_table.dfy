/**
 * The data table: a column key with dots is followed one field per
 * segment, every other key reads the row's field; a cell is the column's
 * renderer applied to the value or the value as text; an empty table shows
 * one row with the empty message.
 */
module DataTable {
  import opened Js

  /** `result?.[key]`: undefined once the value is null or undefined. */
  function Step(v: Value, key: string): Value {
    if Nullish(v) then Undefined else Field(v, key)
  }

  /** The value reached by following `keys` from `v`. */
  function PathValue(v: Value, keys: seq<string>): Value
    decreases |keys|
  {
    if keys == [] then v else PathValue(Step(v, keys[0]), keys[1..])
  }

  /** Lines 69-74: the `for` loop over the key's segments. */
  method ResolvePath(row: Value, keys: seq<string>) returns (result: Value)
    ensures result == PathValue(row, keys)
  {
    result := row;
    var i := 0;
    while i < |keys|
      invariant 0 <= i <= |keys|
      invariant PathValue(result, keys[i..]) == PathValue(row, keys)
    {
      assert keys[i..][1..] == keys[i + 1..];
      result := Step(result, keys[i]);
      i := i + 1;
    }
  }

  /** Following a path in two pieces is following the whole path. */
  lemma {:induction false} PathConcat(v: Value, a: seq<string>, b: seq<string>)
    ensures PathValue(v, a + b) == PathValue(PathValue(v, a), b)
    decreases |a|
  {
    if a == [] {
      assert a + b == b;
    } else {
      assert (a + b)[0] == a[0];
      assert (a + b)[1..] == a[1..] + b;
      PathConcat(Step(v, a[0]), a[1..], b);
    }
  }

  /** Once a segment is missing, the rest of the path stays undefined instead of failing. */
  lemma {:induction false} UndefinedStays(keys: seq<string>)
    ensures PathValue(Undefined, keys) == Undefined
    decreases |keys|
  {
    if keys != [] {
      UndefinedStays(keys[1..]);
    }
  }

  /** A path whose first `i` segments lead to a value without the next segment's field is undefined. */
  lemma MissingSegment(v: Value, keys: seq<string>, i: nat)
    requires i < |keys|
    requires var u := PathValue(v, keys[..i]); !(u.Obj? && keys[i] in u.props)
    ensures PathValue(v, keys) == Undefined
  {
    assert keys == keys[..i] + keys[i..];
    PathConcat(v, keys[..i], keys[i..]);
    assert keys[i..][1..] == keys[i + 1..];
    UndefinedStays(keys[i + 1..]);
  }

  /** Lines 67-76: the value a column's key selects from a row. */
  function CellValue(row: Value, key: string): Value {
    if '.' in key then PathValue(row, Split(key, '.')) else Field(row, key)
  }

  /** For a row object the dot test changes nothing: a key without dots is a one-segment path. */
  lemma DotTestAgrees(row: Value, key: string)
    requires !Nullish(row)
    ensures CellValue(row, key) == PathValue(row, Split(key, '.'))
  {
    if '.' !in key {
      SplitNoSeparator(key, '.');
      assert Split(key, '.')[1..] == [];
    }
  }

  /** A field of a nested object is reached by its two-segment key. */
  lemma NestedField(inner: map<string, Value>, name: string)
    requires name in inner && '.' !in name
    ensures CellValue(Obj(map["inventoryItem" := Obj(inner)]), "inventoryItem." + name) == inner[name]
  {
    var key := "inventoryItem." + name;
    var seg := "inventoryItem";
    assert key == seg + ['.'] + name;
    assert key[|seg|] == '.';
    SplitPrefix(seg, name);
    SplitNoSeparator(name, '.');
    assert Split(key, '.') == [seg, name];
    assert '.' in key;
    var row := Obj(map["inventoryItem" := Obj(inner)]);
    assert Step(row, seg) == Obj(inner);
    assert [seg, name][1..] == [name] && [name][1..] == [];
    assert PathValue(row, [seg, name]) == PathValue(Obj(inner), [name]) == PathValue(inner[name], []);
  }

  /** Splitting `seg.rest` where `seg` has no dot gives `seg` and the pieces of `rest`. */
  lemma {:induction false} SplitPrefix(seg: string, rest: string)
    requires '.' !in seg
    ensures Split(seg + ['.'] + rest, '.') == [seg] + Split(rest, '.')
    decreases |seg|
  {
    var s := seg + ['.'] + rest;
    if seg == [] {
      assert s[0] == '.' && s[1..] == rest;
    } else {
      assert s[1..] == seg[1..] + ['.'] + rest;
      assert '.' !in seg[1..] by {
        forall k | 0 <= k < |seg[1..]| ensures seg[1..][k] != '.' {
          assert seg[1..][k] == seg[k + 1];
        }
      }
      SplitPrefix(seg[1..], rest);
      assert s[0] == seg[0] && s[0] != '.';
      assert [seg[0]] + seg[1..] == seg;
    }
  }

  datatype Column = Column(key: string, header: string, hasRender: bool)

  /** A cell: the column's renderer applied to the value and the row, or `String(value ?? '')`, kept here as the value converted. */
  datatype Cell = RenderedCell(value: Value, row: Value) | TextCell(text: Value)

  /** `value ?? ''`. */
  function OrEmpty(v: Value): Value {
    if Nullish(v) then Str("") else v
  }

  /** Line 86. */
  function CellOf(row: Value, column: Column): (c: Cell)
    ensures column.hasRender ==> c == RenderedCell(CellValue(row, column.key), row)
    ensures !column.hasRender && Nullish(CellValue(row, column.key)) ==> c == TextCell(Str(""))
    ensures !column.hasRender && !Nullish(CellValue(row, column.key)) ==> c == TextCell(CellValue(row, column.key))
  {
    var v := CellValue(row, column.key);
    if column.hasRender then RenderedCell(v, row) else TextCell(OrEmpty(v))
  }

  /** The body of the table. */
  datatype Body = EmptyRow(colSpan: nat, message: string) | Rows(rows: seq<seq<Cell>>)

  /** Line 24. */
  function MessageOrDefault(emptyMessage: Option<string>): string {
    if emptyMessage.Some? then emptyMessage.value else "No data available"
  }

  /** Lines 47-91. */
  function TableBody(data: seq<Value>, columns: seq<Column>, emptyMessage: Option<string>): (b: Body)
    ensures data == [] ==> b == EmptyRow(|columns|, MessageOrDefault(emptyMessage))
    ensures data != [] ==> b.Rows? && |b.rows| == |data|
    ensures data != [] ==> forall i :: 0 <= i < |data| ==> |b.rows[i]| == |columns|
    ensures data != [] ==> forall i, j :: 0 <= i < |data| && 0 <= j < |columns| ==> b.rows[i][j] == CellOf(data[i], columns[j])
  {
    if data == [] then EmptyRow(|columns|, MessageOrDefault(emptyMessage))
    else Rows(seq(|data|, i requires 0 <= i < |data| => seq(|columns|, j requires 0 <= j < |columns| => CellOf(data[i], columns[j]))))
  }

  /** Lines 33-43: one header per column, in order. */
  function Headers(columns: seq<Column>): (h: seq<string>)
    ensures |h| == |columns| && forall j :: 0 <= j < |columns| ==> h[j] == columns[j].header
  {
    seq(|columns|, j requires 0 <= j < |columns| => columns[j].header)
  }

  /** Appending data appends rows: the table keeps the input order. */
  lemma RowsInOrder(a: seq<Value>, b: seq<Value>, columns: seq<Column>, m: Option<string>)
    requires a != [] && b != []
    ensures TableBody(a + b, columns, m).rows == TableBody(a, columns, m).rows + TableBody(b, columns, m).rows
  {
    var r := TableBody(a + b, columns, m).rows;
    var ra := TableBody(a, columns, m).rows;
    var rb := TableBody(b, columns, m).rows;
    assert |r| == |ra + rb|;
    forall i | 0 <= i < |r| ensures r[i] == (ra + rb)[i] {
      if i < |a| {
        assert (a + b)[i] == a[i];
      } else {
        assert (a + b)[i] == b[i - |a|];
      }
    }
  }
}
