/** `format_data_for_output` (pyzotero_cli/utils.py): the shared formatter that
    turns a record or a list of records into the header list and row matrix of
    a table, or into newline-separated key values. Serialisation to JSON/YAML and
    the `tabulate` grid renderer are foreign code: the model stops at the data
    handed to them, and includes the plain tab-separated fallback renderer. */
module Formatter {
  import opened Wrappers
  import opened Text
  import opened Json

  /** How a column of a headers map reads its cell from a raw record. */
  datatype Accessor =
    | DotPath(path: string)                       // a dot-path string such as "library.id"
    | Getter(steps: seq<string>, fallback: Value) // `lambda g: g.get(s1, {})...get(sn, fallback)`
    | Unusable                                    // neither callable nor a string

  /** One entry `(display_header_name, accessor)` of a headers map. */
  type Column = (string, Accessor)

  /** The `requested_fields_or_key` argument: absent, a list of header names, or a key name. */
  datatype Request = NoRequest | Fields(names: seq<string>) | KeyName(key: string)

  datatype OutputFormat = JsonFormat | YamlFormat | TableFormat | KeysFormat | OtherFormat(name: string)

  datatype Rendered =
    | Serialized(format: OutputFormat, data: Value)      // json.dumps / yaml.dump of the data
    | Message(text: string)                        // a string returned as it is
    | Grid(headers: seq<string>, rows: seq<Value>) // what is handed to the table renderer

  const NoDataMessage := "No data to display."

  /** `data if isinstance(data, list) else [data]`. */
  function SourceList(data: Value): seq<Value>
  {
    if data.Arr? then data.items else [data]
  }

  // ---------------------------------------------------------------- cell lookup

  /** Walking a split dot path: each step reads a key of a dict; a non-dict, a
      missing key or a null stops the walk with None (`Null`). */
  function PathLookup(v: Value, parts: seq<string>): Value
    decreases |parts|
  {
    if |parts| == 0 then v
    else if !v.Obj? then Null
    else PathLookup(Get(v.fields, parts[0], Null), parts[1..])
  }

  /** The cell of a dot-path column: the value found, or `''` for None. */
  function DotPathCell(item: Value, path: string): Value
  {
    var found := PathLookup(item, Split(path, '.'));
    if found == Null then Str("") else found
  }

  /** Where a chain of `.get(k, {})` calls leads: a missing key goes on with `{}`,
      and the walk stays at the first non-dict it meets, where the next `.get`
      would raise. */
  function Descend(v: Value, path: seq<string>): Value
    decreases |path|
  {
    if |path| == 0 || !v.Obj? then v
    else Descend(Get(v.fields, path[0], Obj([])), path[1..])
  }

  /** Evaluating a getter chain `v.get(k1, {}).get(k2, {}) ... .get(kn, fallback)`;
      None means the lambda raised. It raises exactly when the walk over the first
      n-1 keys ends at a non-dict; otherwise it is that dict's `.get(kn, fallback)`,
      so a key missing at any step, intermediate or last, gives the fallback. */
  function GetterEval(v: Value, steps: seq<string>, fallback: Value): (r: Option<Value>)
    ensures |steps| == 0 ==> r == Some(v)
    ensures |steps| > 0 ==> (r.None? <==> !Descend(v, steps[..|steps| - 1]).Obj?)
    ensures |steps| > 0 ==> var w := Descend(v, steps[..|steps| - 1]);
      w.Obj? ==> r == Some(Get(w.fields, steps[|steps| - 1], fallback))
    ensures |steps| > 0 ==> var w := Descend(v, steps[..|steps| - 1]);
      w.Obj? && !Has(w.fields, steps[|steps| - 1]) ==> r == Some(fallback)
    ensures |steps| > 0 && !v.Obj? ==> r.None?
    ensures |steps| > 0 && v.Obj? && !Has(v.fields, steps[0]) ==> r == Some(fallback)
    decreases |steps|
  {
    if |steps| == 0 then Some(v)
    else if !v.Obj? then None
    else if |steps| == 1 then
      assert steps[..0] == [];
      assert !Has(v.fields, steps[0]) ==> Get(v.fields, steps[0], fallback) == fallback by {
        if !Has(v.fields, steps[0]) { GetAbsent(v.fields, steps[0], fallback); }
      }
      Some(Get(v.fields, steps[0], fallback))
    else
      var next := Get(v.fields, steps[0], Obj([]));
      assert !Has(v.fields, steps[0]) ==> next == Obj([]) by {
        if !Has(v.fields, steps[0]) { GetAbsent(v.fields, steps[0], Obj([])); }
      }
      var r := GetterEval(next, steps[1..], fallback);
      assert steps[..|steps| - 1][1..] == steps[1..][..|steps| - 2];
      assert Descend(v, steps[..|steps| - 1]) == Descend(next, steps[1..][..|steps| - 2]);
      r
  }

  /** Once the walk meets a non-dict it stays there. */
  lemma {:induction false} DescendStays(v: Value, path: seq<string>, i: nat)
    requires i <= |path| && !Descend(v, path[..i]).Obj?
    ensures Descend(v, path) == Descend(v, path[..i])
    decreases |path|
  {
    if |path| > 0 && v.Obj? && i > 0 {
      assert path[..i][1..] == path[1..][..i - 1];
      DescendStays(Get(v.fields, path[0], Obj([])), path[1..], i - 1);
    }
  }

  /** A getter chain raises exactly when one of its `.get` calls is made on a
      non-dict, whichever step that is. */
  lemma GetterRaisesAtNonDict(v: Value, steps: seq<string>, fallback: Value)
    requires |steps| > 0
    ensures GetterEval(v, steps, fallback).None? <==>
      exists i :: 0 <= i < |steps| && !Descend(v, steps[..i]).Obj?
  {
    var n := |steps| - 1;
    forall i | 0 <= i < |steps| && !Descend(v, steps[..i]).Obj?
      ensures !Descend(v, steps[..n]).Obj?
    {
      assert steps[..n][..i] == steps[..i];
      DescendStays(v, steps[..n], i);
    }
  }

  /** `lambda g: g.get('data', {}).get('name')` on `{"data": None}`: the key is
      present, so the second `.get` is made on None and raises. */
  lemma GetterRaisesOnNullData()
    ensures GetterEval(Obj([("data", Null)]), ["data", "name"], Null).None?
  {
    assert ["data", "name"][..1] == ["data"];
  }

  /** The cell a column stores for one raw record. A getter that raises gives `''`;
      a getter that returns None stores None, while a dot path never stores None. */
  function Cell(item: Value, acc: Accessor): (r: Value)
    ensures acc.DotPath? ==> r != Null
    ensures acc.Getter? && |acc.steps| > 0 && !item.Obj? ==> r == Str("")
    ensures acc.Getter? && |acc.steps| > 0 && item.Obj? && !Has(item.fields, acc.steps[0]) ==> r == acc.fallback
    ensures acc.Getter? && |acc.steps| > 0 ==>
      var w := Descend(item, acc.steps[..|acc.steps| - 1]);
      r == if w.Obj? then Get(w.fields, acc.steps[|acc.steps| - 1], acc.fallback) else Str("")
    ensures acc.Unusable? ==> r == Str("")
  {
    match acc
    case DotPath(path) => DotPathCell(item, path)
    case Getter(steps, fallback) =>
      (match GetterEval(item, steps, fallback) case Some(x) => x case None => Str(""))
    case Unusable => Str("")
  }

  /** `item_dict` after assigning every column in order (a repeated name is overwritten). */
  function ItemDict(item: Value, cols: seq<Column>): seq<(string, Value)>
    decreases |cols|
  {
    if |cols| == 0 then []
    else
      var last := cols[|cols| - 1];
      Put(ItemDict(item, cols[..|cols| - 1]), last.0, Cell(item, last.1))
  }

  function Names(cols: seq<Column>): seq<string>
  {
    seq(|cols|, i requires 0 <= i < |cols| => cols[i].0)
  }

  /** One row for the renderer: a dict gives its `.get(h, '')` per header, anything
      else is passed on as it is. */
  function RowFor(d: Value, headers: seq<string>): Value
  {
    if d.Obj? then Arr(seq(|headers|, i requires 0 <= i < |headers| => Get(d.fields, headers[i], Str(""))))
    else d
  }

  // ---------------------------------------------------------------- table mode

  /** `display_headers` for a non-empty source list. */
  function TableHeaders(src: seq<Value>, req: Request, cols: seq<Column>): seq<string>
    requires |src| > 0
  {
    if |cols| > 0 then Names(cols)
    else if !src[0].Obj? then ["Value"]
    else if req.Fields? && |req.names| > 0 then req.names
    else Keys(src[0].fields)
  }

  /** `items_for_tabulation` for a non-empty source list. */
  function TableItems(src: seq<Value>, cols: seq<Column>): seq<Value>
    requires |src| > 0
  {
    if |cols| > 0 then seq(|src|, i requires 0 <= i < |src| => Obj(ItemDict(src[i], cols)))
    else if !src[0].Obj? then seq(|src|, i requires 0 <= i < |src| => Arr([src[i]]))
    else src
  }

  /** The table branch: the no-data message, or the headers and rows handed to the renderer.
      An empty headers map counts as no map, as `if table_headers_map:` does.
      Falsy data (None, `[]`, `{}`, `''`, 0, False) is exactly the no-data message;
      anything else is a grid with one row per record. */
  function Table(data: Value, req: Request, cols: seq<Column>): (r: Rendered)
    ensures r == Message(NoDataMessage) <==> !Truthy(data)
    ensures Truthy(data) ==> r.Grid? && |r.rows| == |SourceList(data)|
    ensures Truthy(data) && |cols| > 0 ==> r.headers == Names(cols)
  {
    if !Truthy(data) then Message(NoDataMessage)
    else
      var src := SourceList(data);
      if |src| == 0 then Message(NoDataMessage)
      else
        var headers := TableHeaders(src, req, cols);
        var items := TableItems(src, cols);
        Grid(headers, seq(|items|, i requires 0 <= i < |items| => RowFor(items[i], headers)))
  }

  // ---------------------------------------------------------------- keys mode

  /** `requested_fields_or_key` if it is a string, else `'key'`. */
  function KeyField(req: Request): string
  {
    if req.KeyName? then req.key else "key"
  }

  /** The value keys mode takes from one item: the top-level field, else `data.<field>`;
      `Null` when the item is not a dict or neither is present. */
  function ExtractKey(item: Value, key: string): Value
  {
    if !item.Obj? then Null
    else if Has(item.fields, key) then Get(item.fields, key, Null)
    else
      var d := Get(item.fields, "data", Null);
      if Has(item.fields, "data") && d.Obj? && Has(d.fields, key) then Get(d.fields, key, Null)
      else Null
  }

  /** `keys_list`: the stringified non-null extracted values, in input order. */
  function KeysList(items: seq<Value>, key: string): seq<string>
    decreases |items|
  {
    if |items| == 0 then []
    else
      var v := ExtractKey(items[|items| - 1], key);
      KeysList(items[..|items| - 1], key) + (if v != Null then [ToStr(v)] else [])
  }

  /** The keys branch: nothing for falsy data; otherwise the collected keys one
      per line, so that reading the output line by line gives them back, provided
      there is one and none prints with a newline. */
  function KeysOutput(data: Value, req: Request): (out: string)
    ensures !Truthy(data) ==> out == ""
    ensures var ks := KeysList(SourceList(data), KeyField(req));
      Truthy(data) && |ks| > 0 && (forall i :: 0 <= i < |ks| ==> '\n' !in ks[i]) ==> Split(out, '\n') == ks
  {
    if !Truthy(data) then ""
    else
      var ks := KeysList(SourceList(data), KeyField(req));
      if |ks| > 0 && forall i :: 0 <= i < |ks| ==> '\n' !in ks[i] then
        SplitJoin(ks, '\n');
        Join(ks, "\n")
      else Join(ks, "\n")
  }

  /** `format_data_for_output(data, output_format, requested_fields_or_key, table_headers_map)`. */
  function Format(data: Value, format: OutputFormat, req: Request, cols: seq<Column>): Rendered
  {
    match format
    case TableFormat => Table(data, req, cols)
    case KeysFormat => Message(KeysOutput(data, req))
    case _ => Serialized(format, data)
  }

  // ---------------------------------------------------------------- plain renderer

  /** `map(str, row)`: a list gives its elements, a string its characters, a dict its
      keys; anything else is not iterable and raises (None). */
  function RowCells(row: Value): Option<seq<string>>
  {
    match row
    case Arr(items) => Some(seq(|items|, i requires 0 <= i < |items| => ToStr(items[i])))
    case Str(s) => Some(seq(|s|, i requires 0 <= i < |s| => [s[i]]))
    case Obj(fields) => Some(Keys(fields))
    case _ => None
  }

  function Dashes(n: nat): seq<string>
  {
    seq(n, i => "---")
  }

  /** The header line and the `---` line, present only when there are headers. */
  function HeaderLines(headers: seq<string>): seq<string>
  {
    if |headers| > 0 then [Join(headers, "\t"), Join(Dashes(|headers|), "\t")] else []
  }

  /** One tab-joined line per row; None when some row cannot be iterated. */
  function RowLines(rows: seq<Value>): Option<seq<string>>
    decreases |rows|
  {
    if |rows| == 0 then Some([])
    else
      match RowLines(rows[..|rows| - 1])
      case None => None
      case Some(lines) =>
        match RowCells(rows[|rows| - 1])
        case None => None
        case Some(cells) => Some(lines + [Join(cells, "\t")])
  }

  /** Lines each followed by a newline. */
  function Terminated(lines: seq<string>): string
    decreases |lines|
  {
    if |lines| == 0 then "" else Terminated(lines[..|lines| - 1]) + lines[|lines| - 1] + "\n"
  }

  /** The basic text table used when `tabulate` is not installed, stripped as a whole. */
  function PlainText(headers: seq<string>, rows: seq<Value>): Option<string>
  {
    match RowLines(rows)
    case None => None
    case Some(lines) => Some(Strip(Terminated(HeaderLines(headers) + lines)))
  }

  // ---------------------------------------------------------------- the loops

  /** The dot-path walk of lines 82-87: reassign `current_value`, stop at the first None. */
  method WalkDotPath(item: Value, path: string) returns (cell: Value)
    ensures cell == DotPathCell(item, path)
  {
    var parts := Split(path, '.');
    var current := item;
    var i := 0;
    while i < |parts|
      invariant 0 <= i <= |parts|
      invariant PathLookup(current, parts[i..]) == PathLookup(item, parts)
    {
      current := if current.Obj? then Get(current.fields, parts[i], Null) else Null;
      assert parts[i..][1..] == parts[i + 1..];
      i := i + 1;
      if current == Null {
        PathLookupNull(parts[i..]);
        break;
      }
    }
    cell := if current == Null then Str("") else current;
  }

  /** The inner loop of lines 74-91: one `item_dict` per raw record. */
  method BuildItemDict(item: Value, cols: seq<Column>) returns (d: seq<(string, Value)>)
    ensures d == ItemDict(item, cols)
  {
    d := [];
    var j := 0;
    while j < |cols|
      invariant 0 <= j <= |cols|
      invariant d == ItemDict(item, cols[..j])
    {
      var (name, acc) := cols[j];
      var cell: Value;
      match acc {
        case Getter(steps, fallback) =>
          var got := GetterEval(item, steps, fallback);
          cell := if got.Some? then got.value else Str("");
        case DotPath(path) =>
          cell := WalkDotPath(item, path);
        case Unusable =>
          cell := Str("");
      }
      d := Put(d, name, cell);
      assert cols[..j + 1][..j] == cols[..j];
      j := j + 1;
    }
    assert cols[..|cols|] == cols;
  }

  /** The headers-map loop of lines 73-92: one `item_dict` per raw record, appended
      to `items_for_tabulation`. */
  method BuildMappedItems(src: seq<Value>, cols: seq<Column>) returns (items: seq<Value>)
    ensures |items| == |src|
    ensures forall k :: 0 <= k < |src| ==> items[k] == Obj(ItemDict(src[k], cols))
  {
    items := [];
    var i := 0;
    while i < |src|
      invariant 0 <= i <= |src|
      invariant |items| == i
      invariant forall k :: 0 <= k < i ==> items[k] == Obj(ItemDict(src[k], cols))
    {
      var d := BuildItemDict(src[i], cols);
      items := items + [Obj(d)];
      i := i + 1;
    }
  }

  /** The row loop of lines 109-114, appending to `tabulate_rows`. */
  method BuildRows(items: seq<Value>, headers: seq<string>) returns (rows: seq<Value>)
    ensures |rows| == |items|
    ensures forall k :: 0 <= k < |items| ==> rows[k] == RowFor(items[k], headers)
  {
    rows := [];
    var j := 0;
    while j < |items|
      invariant 0 <= j <= |items|
      invariant |rows| == j
      invariant forall k :: 0 <= k < j ==> rows[k] == RowFor(items[k], headers)
    {
      rows := rows + [RowFor(items[j], headers)];
      j := j + 1;
    }
  }

  /** The table branch of lines 59-115, up to the call of the renderer. */
  method FormatTable(data: Value, req: Request, cols: seq<Column>) returns (r: Rendered)
    ensures r == Table(data, req, cols)
  {
    if !Truthy(data) {
      return Message(NoDataMessage);
    }
    var src := SourceList(data);
    if |src| == 0 {
      return Message(NoDataMessage);
    }
    var items: seq<Value> := [];
    var headers: seq<string> := [];
    if |cols| > 0 {
      headers := Names(cols);
      items := BuildMappedItems(src, cols);
    } else if !src[0].Obj? {
      items := seq(|src|, k requires 0 <= k < |src| => Arr([src[k]]));
      headers := ["Value"];
    } else {
      items := src;
      if req.Fields? && |req.names| > 0 {
        headers := req.names;
      } else if |items| > 0 {
        headers := Keys(items[0].fields);
      }
    }
    assert items == TableItems(src, cols);
    assert headers == TableHeaders(src, req, cols);
    var rows := BuildRows(items, headers);
    return Grid(headers, rows);
  }

  /** The keys branch of lines 129-148, appending to `keys_list`. */
  method FormatKeys(data: Value, req: Request) returns (out: string)
    ensures out == KeysOutput(data, req)
  {
    if !Truthy(data) {
      return "";
    }
    var src := SourceList(data);
    var key := KeyField(req);
    var keys: seq<string> := [];
    var i := 0;
    while i < |src|
      invariant 0 <= i <= |src|
      invariant keys == KeysList(src[..i], key)
    {
      var item := src[i];
      if item.Obj? {
        var value := Null;
        if Has(item.fields, key) {
          value := Get(item.fields, key, Null);
        } else if Has(item.fields, "data") && Get(item.fields, "data", Null).Obj?
                  && Has(Get(item.fields, "data", Null).fields, key) {
          value := Get(Get(item.fields, "data", Null).fields, key, Null);
        }
        if value != Null {
          keys := keys + [ToStr(value)];
        }
      }
      assert src[..i + 1][..i] == src[..i];
      i := i + 1;
    }
    assert src[..|src|] == src;
    out := Join(keys, "\n");
  }

  /** The fallback renderer of lines 121-127, accumulating `output_str` line by line.
      None stands for the TypeError of a row that cannot be iterated. */
  method RenderPlain(headers: seq<string>, rows: seq<Value>) returns (r: Option<string>)
    ensures r == PlainText(headers, rows)
  {
    var out := "";
    if |headers| > 0 {
      out := out + Join(headers, "\t") + "\n";
      out := out + Join(Dashes(|headers|), "\t") + "\n";
    }
    assert out == Terminated(HeaderLines(headers)) by {
      HeaderLinesTerminated(headers);
    }
    var i := 0;
    ghost var lines: seq<string> := [];
    while i < |rows|
      invariant 0 <= i <= |rows|
      invariant RowLines(rows[..i]) == Some(lines)
      invariant out == Terminated(HeaderLines(headers) + lines)
    {
      var cells := RowCells(rows[i]);
      if cells.None? {
        PlainTextFails(headers, rows, i);
        return None;
      }
      var line := Join(cells.value, "\t");
      PlainTextStep(headers, rows, i, lines);
      out := out + line + "\n";
      lines := lines + [line];
      i := i + 1;
    }
    PlainTextDone(headers, rows, lines);
    r := Some(Strip(out));
  }

  // ---------------------------------------------------------------- lemmas

  lemma {:induction false} PathLookupNull(parts: seq<string>)
    ensures PathLookup(Null, parts) == Null
  {
  }

  /** Walking `p + q` is walking `p` and then `q` from where it ended. */
  lemma {:induction false} PathLookupConcat(v: Value, p: seq<string>, q: seq<string>)
    ensures PathLookup(v, p + q) == PathLookup(PathLookup(v, p), q)
    decreases |p|
  {
    if |p| == 0 {
      assert p + q == q;
    } else if !v.Obj? {
      PathLookupNull(q);
    } else {
      assert (p + q)[1..] == p[1..] + q;
      PathLookupConcat(Get(v.fields, p[0], Null), p[1..], q);
    }
  }

  /** A dot-path cell is `''` as soon as the walk reaches a non-dict, or a dict without
      the next segment: neither a missing segment nor a non-map intermediate raises. */
  lemma DotPathMissingSegment(item: Value, path: string, i: nat)
    requires i < |Split(path, '.')|
    requires var at := PathLookup(item, Split(path, '.')[..i]);
             !at.Obj? || !Has(at.fields, Split(path, '.')[i])
    ensures DotPathCell(item, path) == Str("")
  {
    var parts := Split(path, '.');
    PathLookupConcat(item, parts[..i], parts[i..]);
    assert parts[..i] + parts[i..] == parts;
    var at := PathLookup(item, parts[..i]);
    if at.Obj? {
      GetAbsent(at.fields, parts[i], Null);
    }
    PathLookupNull(parts[i + 1..]);
    assert parts[i..][1..] == parts[i + 1..];
  }

  /** A dot path `a.b` is the path `a` followed by the path `b`. */
  lemma DotPathCompose(item: Value, a: string, b: string)
    ensures PathLookup(item, Split(a + "." + b, '.'))
         == PathLookup(PathLookup(item, Split(a, '.')), Split(b, '.'))
  {
    SplitConcat(a, b, '.');
    PathLookupConcat(item, Split(a, '.'), Split(b, '.'));
  }

  /** With distinct display names, the dict built for a record holds, under each
      column's name, that column's cell. */
  lemma {:induction false} ItemDictGet(item: Value, cols: seq<Column>, j: nat)
    requires j < |cols|
    requires forall a, b :: 0 <= a < b < |cols| ==> cols[a].0 != cols[b].0
    ensures Get(ItemDict(item, cols), cols[j].0, Str("")) == Cell(item, cols[j].1)
    decreases |cols|
  {
    var n := |cols| - 1;
    var init := cols[..n];
    PutGet(ItemDict(item, init), cols[n].0, Cell(item, cols[n].1), cols[j].0, Str(""));
    if j < n {
      ItemDictGet(item, init, j);
    }
  }

  /** With a headers map whose names are distinct: the headers are the names in map
      order, there is one row per record, and each row holds exactly one cell per
      header, in header order, that column's cell of that record. */
  lemma TableWithColumns(data: Value, req: Request, cols: seq<Column>)
    requires Truthy(data) && |cols| > 0
    requires forall a, b :: 0 <= a < b < |cols| ==> cols[a].0 != cols[b].0
    ensures var t := Table(data, req, cols);
      && t.Grid?
      && |t.headers| == |cols|
      && (forall j :: 0 <= j < |cols| ==> t.headers[j] == cols[j].0)
      && |t.rows| == |SourceList(data)|
      && forall i :: 0 <= i < |t.rows| ==>
           t.rows[i].Arr? && |t.rows[i].items| == |cols|
           && forall j :: 0 <= j < |cols| ==> t.rows[i].items[j] == Cell(SourceList(data)[i], cols[j].1)
  {
    var src := SourceList(data);
    var t := Table(data, req, cols);
    forall i, j | 0 <= i < |src| && 0 <= j < |cols|
      ensures t.rows[i].items[j] == Cell(src[i], cols[j].1)
    {
      ItemDictGet(src[i], cols, j);
    }
  }

  /** The same, one row at a time. */
  lemma TableRow(data: Value, req: Request, cols: seq<Column>, i: nat)
    requires Truthy(data) && |cols| > 0 && i < |SourceList(data)|
    requires forall a, b :: 0 <= a < b < |cols| ==> cols[a].0 != cols[b].0
    ensures var t := Table(data, req, cols);
      && t.Grid? && t.headers == Names(cols) && |t.rows| == |SourceList(data)|
      && t.rows[i] == Arr(seq(|cols|, j requires 0 <= j < |cols| => Cell(SourceList(data)[i], cols[j].1)))
  {
    var src := SourceList(data);
    var t := Table(data, req, cols);
    forall j | 0 <= j < |cols|
      ensures t.rows[i].items[j] == Cell(src[i], cols[j].1)
    {
      ItemDictGet(src[i], cols, j);
    }
  }

  /** Without a map, a list whose first element is not a dict gives the header
      `Value` and one single-cell row per element. */
  lemma TableOfScalars(data: Value, req: Request)
    requires Truthy(data) && !SourceList(data)[0].Obj?
    ensures Table(data, req, []) == Grid(["Value"], seq(|SourceList(data)|, i requires 0 <= i < |SourceList(data)| => Arr([SourceList(data)[i]])))
  {
  }

  /** Without a map, a list of dicts uses the requested header list when one is given,
      the first record's keys otherwise; a cell is the record's value for the header,
      `''` when absent; a later non-dict element is passed on unchanged. */
  lemma TableOfRecords(data: Value, req: Request)
    requires Truthy(data) && SourceList(data)[0].Obj?
    ensures var src := SourceList(data);
      var t := Table(data, req, []);
      && t.Grid?
      && t.headers == (if req.Fields? && |req.names| > 0 then req.names else Keys(src[0].fields))
      && |t.rows| == |src|
      && forall i :: 0 <= i < |src| ==>
           (src[i].Obj? ==>
              (t.rows[i].Arr? && |t.rows[i].items| == |t.headers|
               && forall j :: 0 <= j < |t.headers| ==>
                    (!Has(src[i].fields, t.headers[j]) ==> t.rows[i].items[j] == Str(""))
                    && t.rows[i].items[j] == Get(src[i].fields, t.headers[j], Str(""))))
           && (!src[i].Obj? ==> t.rows[i] == src[i])
  {
    var src := SourceList(data);
    var t := Table(data, req, []);
    forall i, j | 0 <= i < |src| && src[i].Obj? && 0 <= j < |t.headers| && !Has(src[i].fields, t.headers[j])
      ensures t.rows[i].items[j] == Str("")
    {
      GetAbsent(src[i].fields, t.headers[j], Str(""));
    }
  }

  /** A single record is tabulated, and its keys extracted, as a one-element list. */
  lemma SingleRecordAsList(record: Value, req: Request, cols: seq<Column>)
    requires record.Obj? && Truthy(record)
    ensures Table(record, req, cols) == Table(Arr([record]), req, cols)
    ensures KeysOutput(record, req) == KeysOutput(Arr([record]), req)
  {
  }

  /** A top-level field wins over `data.<field>`, which is used only when the top
      level lacks it; non-dicts and nulls give nothing. */
  lemma ExtractKeyPrecedence(top: seq<(string, Value)>, inner: seq<(string, Value)>, key: string)
    requires Has(top, "data") && Get(top, "data", Null) == Obj(inner)
    ensures Has(top, key) ==> ExtractKey(Obj(top), key) == Get(top, key, Null)
    ensures !Has(top, key) && Has(inner, key) ==> ExtractKey(Obj(top), key) == Get(inner, key, Null)
    ensures !Has(top, key) && !Has(inner, key) ==> ExtractKey(Obj(top), key) == Null
  {
  }

  /** keys_list of a concatenation is the concatenation: order is kept. */
  lemma {:induction false} KeysListConcat(a: seq<Value>, b: seq<Value>, key: string)
    ensures KeysList(a + b, key) == KeysList(a, key) + KeysList(b, key)
    decreases |b|
  {
    if |b| == 0 {
      assert a + b == a;
    } else {
      var n := |b| - 1;
      assert (a + b)[..|a + b| - 1] == a + b[..n];
      KeysListConcat(a, b[..n], key);
    }
  }

  /** An item contributes its stringified value when one is extracted, and nothing
      otherwise: non-dicts and null values are dropped. */
  lemma KeysListSingle(x: Value, key: string)
    ensures KeysList([x], key) == if ExtractKey(x, key) != Null then [ToStr(ExtractKey(x, key))] else []
  {
    assert [x][..0] == [];
  }

  /** Items that are not dicts contribute nothing. */
  lemma {:induction false} KeysListOfNonRecords(items: seq<Value>, key: string)
    requires forall i :: 0 <= i < |items| ==> !items[i].Obj?
    ensures KeysList(items, key) == []
    decreases |items|
  {
    if |items| > 0 {
      KeysListOfNonRecords(items[..|items| - 1], key);
    }
  }

  /** A row that cannot be iterated makes the whole fallback text fail. */
  lemma PlainTextFails(headers: seq<string>, rows: seq<Value>, i: nat)
    requires i < |rows| && RowCells(rows[i]).None?
    ensures PlainText(headers, rows) == None
  {
    RowLinesFailurePersists(rows, i + 1);
    RowLinesPrefixFailure(rows, i + 1);
  }

  /** One more row read: one more line, and the text so far gains it. */
  lemma PlainTextStep(headers: seq<string>, rows: seq<Value>, i: nat, lines: seq<string>)
    requires i < |rows| && RowLines(rows[..i]) == Some(lines) && RowCells(rows[i]).Some?
    ensures var line := Join(RowCells(rows[i]).value, "\t");
      && RowLines(rows[..i + 1]) == Some(lines + [line])
      && Terminated(HeaderLines(headers) + (lines + [line])) == Terminated(HeaderLines(headers) + lines) + line + "\n"
  {
    var line := Join(RowCells(rows[i]).value, "\t");
    RowLinesSnoc(rows, i, lines);
    TerminatedSnoc(HeaderLines(headers) + lines, line);
    assert HeaderLines(headers) + lines + [line] == HeaderLines(headers) + (lines + [line]);
  }

  /** Every row read: the fallback text is the stripped lines. */
  lemma PlainTextDone(headers: seq<string>, rows: seq<Value>, lines: seq<string>)
    requires RowLines(rows[..|rows|]) == Some(lines)
    ensures PlainText(headers, rows) == Some(Strip(Terminated(HeaderLines(headers) + lines)))
  {
    assert rows[..|rows|] == rows;
  }

  /** One more newline-terminated line. */
  lemma TerminatedSnoc(lines: seq<string>, line: string)
    ensures Terminated(lines + [line]) == Terminated(lines) + line + "\n"
  {
    assert (lines + [line])[..|lines|] == lines;
  }

  /** One more row that can be iterated gives one more line. */
  lemma RowLinesSnoc(rows: seq<Value>, i: nat, lines: seq<string>)
    requires i < |rows| && RowLines(rows[..i]) == Some(lines) && RowCells(rows[i]).Some?
    ensures RowLines(rows[..i + 1]) == Some(lines + [Join(RowCells(rows[i]).value, "\t")])
  {
    assert rows[..i + 1][..i] == rows[..i];
  }

  /** Two lines, each followed by a newline. */
  lemma TerminatedPair(a: string, b: string)
    ensures Terminated([a, b]) == a + "\n" + b + "\n"
  {
    assert Terminated([a]) == a + "\n" by {
      assert [a][..0] == [];
      assert "" + a + "\n" == a + "\n";
    }
    assert [a, b][..1] == [a];
    assert Terminated([a, b]) == Terminated([a]) + b + "\n";
  }

  /** The header part of the fallback text, written out. */
  lemma HeaderLinesTerminated(headers: seq<string>)
    ensures Terminated(HeaderLines(headers))
         == if |headers| > 0 then Join(headers, "\t") + "\n" + Join(Dashes(|headers|), "\t") + "\n" else ""
  {
    if |headers| > 0 {
      TerminatedPair(Join(headers, "\t"), Join(Dashes(|headers|), "\t"));
    }
  }

  lemma {:induction false} RowLinesFailurePersists(rows: seq<Value>, n: nat)
    requires 0 < n <= |rows|
    requires RowCells(rows[n - 1]).None?
    ensures RowLines(rows[..n]).None?
  {
    assert rows[..n][..n - 1] == rows[..n - 1];
  }

  lemma {:induction false} RowLinesPrefixFailure(rows: seq<Value>, n: nat)
    requires n <= |rows| && RowLines(rows[..n]).None?
    ensures RowLines(rows).None?
    decreases |rows| - n
  {
    if n < |rows| {
      assert rows[..n + 1][..n] == rows[..n];
      RowLinesPrefixFailure(rows, n + 1);
    } else {
      assert rows[..n] == rows;
    }
  }

  /** Newline-terminated lines are the lines joined by newlines, plus a final newline. */
  lemma {:induction false} TerminatedIsJoin(lines: seq<string>)
    ensures Terminated(lines) == Join(lines + [""], "\n")
    decreases |lines|
  {
    if |lines| > 0 {
      var n := |lines| - 1;
      var init := lines[..n];
      TerminatedIsJoin(init);
      assert lines == init + [lines[n]];
      if n == 0 {
        assert lines + [""] == [lines[0], ""];
      } else {
        JoinConcat(init, [lines[n]], "\n");
        JoinConcat(init, [""], "\n");
        JoinConcat(lines, [""], "\n");
      }
    }
  }

  /** The unstripped fallback text reads back, line by line, as the header line, the
      `---` line (both only when there are headers) and one line per row, provided no
      header or cell holds a newline. */
  lemma PlainTextLayout(headers: seq<string>, rows: seq<Value>)
    requires RowLines(rows).Some?
    requires forall i :: 0 <= i < |HeaderLines(headers) + RowLines(rows).value| ==>
               '\n' !in (HeaderLines(headers) + RowLines(rows).value)[i]
    ensures PlainText(headers, rows) == Some(Strip(Terminated(HeaderLines(headers) + RowLines(rows).value)))
    ensures Split(Terminated(HeaderLines(headers) + RowLines(rows).value), '\n')
         == HeaderLines(headers) + RowLines(rows).value + [""]
  {
    var lines := HeaderLines(headers) + RowLines(rows).value;
    TerminatedIsJoin(lines);
    SplitJoin(lines + [""], '\n');
  }

  /** The header line splits on tabs back into the headers when none holds a tab. */
  lemma HeaderLineCells(headers: seq<string>)
    requires |headers| > 0 && forall i :: 0 <= i < |headers| ==> '\t' !in headers[i]
    ensures Split(HeaderLines(headers)[0], '\t') == headers
    ensures Split(HeaderLines(headers)[1], '\t') == Dashes(|headers|)
  {
    SplitJoin(headers, '\t');
    SplitJoin(Dashes(|headers|), '\t');
  }
}
