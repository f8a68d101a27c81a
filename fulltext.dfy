/** The `fulltext` command group of pyzotero_cli/fulltext_cmds.py, after the client
    call: `data` is what `fulltext_item` or `new_fulltext` returned, `payload` is
    the already parsed JSON given to `set`, and `setOk` is what `set_fulltext`
    answered. */
module Fulltext {
  import opened Text
  import opened Json
  import opened Formatter
  import opened Cli

  // ---------------------------------------------------------------- get

  datatype GetOutput = GetJson | GetYaml | RawContent

  const NotStringWarning := "Warning: 'content' field is not a string."

  /** `get` once `data` is fetched: raw content prints `data.get('content', '')`,
      falling back to `str` with a warning; the other formats hand `data` to the
      formatter. `.get` on a non-dict raises. */
  function GetFulltext(data: Value, output: GetOutput): (r: Run)
    ensures output != RawContent ==>
      r == Done([Show(Serialized(if output == GetJson then JsonFormat else YamlFormat, data))])
  {
    match output
    case RawContent =>
      if !data.Obj? then Raise([], PythonError("AttributeError"))
      else
        var content := Get(data.fields, "content", Str(""));
        if content.Str? then Done([Out(content.s)])
        else Done([ErrOut(NotStringWarning), Out(ToStr(content))])
    case GetJson => Done([Show(Format(data, JsonFormat, NoRequest, []))])
    case GetYaml => Done([Show(Format(data, YamlFormat, NoRequest, []))])
  }

  /** The standard-output lines of a line list. */
  function Stdout(lines: seq<Line>): seq<string>
  {
    if |lines| == 0 then []
    else Stdout(lines[..|lines| - 1]) + (if lines[|lines| - 1].Out? then [lines[|lines| - 1].text] else [])
  }

  /** Raw content on a dict prints exactly one line on standard output, the `str` of
      its content, `''` when there is none; a warning goes to standard error exactly
      when the content is not a string. */
  lemma GetRawContent(fields: seq<(string, Value)>)
    ensures var r := GetFulltext(Obj(fields), RawContent);
      && r.Done?
      && Stdout(r.lines) == [ToStr(Get(fields, "content", Str("")))]
      && (r.lines[0].ErrOut? <==> !Get(fields, "content", Str("")).Str?)
    ensures !Has(fields, "content") ==> GetFulltext(Obj(fields), RawContent) == Done([Out("")])
  {
    var c := Get(fields, "content", Str(""));
    var r := GetFulltext(Obj(fields), RawContent);
    if c.Str? {
      assert r.lines == [Out(c.s)];
      assert r.lines[..0] == [];
      assert Stdout(r.lines) == Stdout([]) + [c.s];
    } else {
      assert r.lines == [ErrOut(NotStringWarning), Out(ToStr(c))];
      assert r.lines[..1] == [ErrOut(NotStringWarning)];
      assert r.lines[..1][..0] == [];
      assert Stdout(r.lines[..1]) == Stdout([]);
      assert Stdout(r.lines) == Stdout(r.lines[..1]) + [ToStr(c)];
    }
    if !Has(fields, "content") {
      GetAbsent(fields, "content", Str(""));
    }
  }

  // ---------------------------------------------------------------- list-new

  const NoNewMessage := "No new full-text content found since the specified version."

  const ListNewColumns: seq<Column> :=
    [("Item Key", DotPath("itemKey")), ("Library Version", DotPath("libraryVersion"))]

  /** `[{"itemKey": k, "libraryVersion": v} for k, v in data.items()]`. */
  function ListNewRecords(fields: seq<(string, Value)>): (recs: seq<Value>)
    ensures |recs| == |fields|
  {
    seq(|fields|, i requires 0 <= i < |fields| =>
      Obj([("itemKey", Str(fields[i].0)), ("libraryVersion", fields[i].1)]))
  }

  /** The keys branch AS WRITTEN: the list of key strings goes to keys mode. */
  function ListNewKeysAsWritten(fields: seq<(string, Value)>): Rendered
  {
    var ks := Keys(fields);
    Format(Arr(seq(|ks|, i requires 0 <= i < |ks| => Str(ks[i]))), KeysFormat, NoRequest, [])
  }

  /** Keys mode expects records, so the keys branch as written always prints the
      empty string, whatever the map holds. */
  lemma ListNewKeysAlwaysEmpty(fields: seq<(string, Value)>)
    ensures ListNewKeysAsWritten(fields) == Message("")
    ensures |fields| > 0 ==> ListNew(Obj(fields), KeysFormat) == Done([Show(Message(""))])
  {
    var ks := Keys(fields);
    var items := seq(|ks|, i requires 0 <= i < |ks| => Str(ks[i]));
    KeysListOfNonRecords(items, "key");
  }

  /** One map entry is enough to see the keys go missing. */
  lemma ListNewKeysLost()
    ensures Keys([("ABCD2345", Num(7))]) == ["ABCD2345"]
    ensures ListNewKeysAsWritten([("ABCD2345", Num(7))]) == Message("")
  {
    ListNewKeysAlwaysEmpty([("ABCD2345", Num(7))]);
  }

  /** The keys branch as intended: the map keys, one per line. */
  function ListNewKeys(fields: seq<(string, Value)>): Rendered
  {
    Message(Join(Keys(fields), "\n"))
  }

  /** Read line by line, the intended keys output is the list of map keys, in map
      order, provided no key holds a newline. */
  lemma ListNewKeysLines(fields: seq<(string, Value)>)
    requires |fields| > 0
    requires forall i :: 0 <= i < |fields| ==> '\n' !in fields[i].0
    ensures ListNewKeys(fields).Message?
    ensures Split(ListNewKeys(fields).text, '\n') == Keys(fields)
  {
    SplitJoin(Keys(fields), '\n');
  }

  /** `list-new` once `data` is fetched, as written. Empty data is the no-new
      message and nothing else, in every format, and non-empty data never prints
      it; table and keys read the dict's items and so raise on a non-dict; JSON,
      YAML and the other formats serialise the data. */
  function ListNew(data: Value, format: OutputFormat): (r: Run)
    ensures r == Done([Out(NoNewMessage)]) <==> !Truthy(data)
    ensures Truthy(data) && !data.Obj? && (format == TableFormat || format == KeysFormat) ==>
      r == Raise([], PythonError("AttributeError"))
    ensures Truthy(data) && format != TableFormat && format != KeysFormat ==>
      r == Done([Show(Serialized(format, data))])
  {
    if !Truthy(data) then Done([Out(NoNewMessage)])
    else
      match format
      case TableFormat =>
        if !data.Obj? then Raise([], PythonError("AttributeError"))
        else Done([Show(Format(Arr(ListNewRecords(data.fields)), TableFormat, NoRequest, ListNewColumns))])
      case KeysFormat =>
        if !data.Obj? then Raise([], PythonError("AttributeError"))
        else Done([Show(ListNewKeysAsWritten(data.fields))])
      case _ => Done([Show(Format(data, format, NoRequest, []))])
  }

  /** `list-new` with the keys branch corrected; every other branch is as written. */
  function ListNewCorrected(data: Value, format: OutputFormat): (r: Run)
    ensures format != KeysFormat || !Truthy(data) || !data.Obj? ==> r == ListNew(data, format)
    ensures format == KeysFormat && Truthy(data) && data.Obj? ==> r == Done([Show(ListNewKeys(data.fields))])
  {
    if format == KeysFormat && Truthy(data) && data.Obj? then Done([Show(ListNewKeys(data.fields))])
    else ListNew(data, format)
  }

  /** The two cells of one list-new record. */
  lemma ListNewCells(k: string, v: Value)
    ensures var rec := Obj([("itemKey", Str(k)), ("libraryVersion", v)]);
      && Cell(rec, DotPath("itemKey")) == Str(k)
      && Cell(rec, DotPath("libraryVersion")) == if v == Null then Str("") else v
  {
    var rec := Obj([("itemKey", Str(k)), ("libraryVersion", v)]);
    SplitNoSeparator("itemKey", '.');
    SplitNoSeparator("libraryVersion", '.');
    assert PathLookup(rec, ["itemKey"]) == PathLookup(Str(k), []);
    assert rec.fields[1..] == [("libraryVersion", v)];
    assert Get(rec.fields, "libraryVersion", Null) == v;
    assert PathLookup(rec, ["libraryVersion"]) == PathLookup(v, []);
  }

  /** The rows of the list-new table, spelled out entry by entry. */
  function ListNewRows(fields: seq<(string, Value)>): (rows: seq<Value>)
    ensures |rows| == |fields|
  {
    seq(|fields|, i requires 0 <= i < |fields| =>
      Arr([Str(fields[i].0), if fields[i].1 == Null then Str("") else fields[i].1]))
  }

  /** Row i of a table with a two-column map holds the two column cells of record i. */
  lemma TwoColumnRow(recs: seq<Value>, cols: seq<Column>, i: nat)
    requires i < |recs| && |cols| == 2 && cols[0].0 != cols[1].0
    ensures var t := Table(Arr(recs), NoRequest, cols);
      t.Grid? && |t.rows| == |recs|
      && t.rows[i] == Arr([Cell(recs[i], cols[0].1), Cell(recs[i], cols[1].1)])
  {
    TableRow(Arr(recs), NoRequest, cols, i);
    var cells := seq(|cols|, j requires 0 <= j < |cols| => Cell(recs[i], cols[j].1));
    assert cells == [Cell(recs[i], cols[0].1), Cell(recs[i], cols[1].1)];
  }

  /** Row i of the list-new table is entry i's key and version. */
  lemma ListNewRow(fields: seq<(string, Value)>, i: nat)
    requires i < |fields|
    ensures var t := Table(Arr(ListNewRecords(fields)), NoRequest, ListNewColumns);
      t.Grid? && |t.rows| == |fields| && t.rows[i] == ListNewRows(fields)[i]
  {
    TwoColumnRow(ListNewRecords(fields), ListNewColumns, i);
    ListNewCells(fields[i].0, fields[i].1);
  }

  lemma ListNewGrid(fields: seq<(string, Value)>)
    requires |fields| > 0
    ensures Table(Arr(ListNewRecords(fields)), NoRequest, ListNewColumns)
      == Grid(["Item Key", "Library Version"], ListNewRows(fields))
  {
    var recs := ListNewRecords(fields);
    var t := Table(Arr(recs), NoRequest, ListNewColumns);
    TableWithColumns(Arr(recs), NoRequest, ListNewColumns);
    forall i | 0 <= i < |fields|
      ensures t.rows[i] == ListNewRows(fields)[i]
    {
      ListNewRow(fields, i);
    }
    assert t.headers == ["Item Key", "Library Version"];
    assert t.rows == ListNewRows(fields);
  }

  /** The table has the two headers and exactly one row per map entry, in map order:
      the entry's key and its version, `''` for a null version. */
  lemma ListNewTable(fields: seq<(string, Value)>)
    requires |fields| > 0
    ensures ListNew(Obj(fields), TableFormat) == Done([Show(Grid(["Item Key", "Library Version"], ListNewRows(fields)))])
  {
    var recs := ListNewRecords(fields);
    assert Truthy(Obj(fields));
    assert ListNew(Obj(fields), TableFormat) == Done([Show(Format(Arr(recs), TableFormat, NoRequest, ListNewColumns))]);
    ListNewGrid(fields);
  }

  /** The corrected keys output is the map keys joined by newlines, where the
      command as written prints the empty string. */
  lemma ListNewKeysOutput(fields: seq<(string, Value)>)
    requires |fields| > 0
    ensures ListNewCorrected(Obj(fields), KeysFormat) == Done([Show(Message(Join(Keys(fields), "\n")))])
    ensures ListNewCorrected(Obj(fields), KeysFormat) != ListNew(Obj(fields), KeysFormat)
      <==> Join(Keys(fields), "\n") != ""
  {
    ListNewKeysAlwaysEmpty(fields);
  }

  // ---------------------------------------------------------------- set

  predicate HasPages(fields: seq<(string, Value)>)
  {
    Has(fields, "indexedPages") && Has(fields, "totalPages")
  }

  predicate HasChars(fields: seq<(string, Value)>)
  {
    Has(fields, "indexedChars") && Has(fields, "totalChars")
  }

  /** What both copies of `set` accept: a dict with `content` and a complete pair of
      counts. */
  predicate Acceptable(payload: Value)
  {
    payload.Obj? && Has(payload.fields, "content") && (HasPages(payload.fields) || HasChars(payload.fields))
  }

  const BothCountsWarning := "Warning: Payload has both page and char counts. Behavior may vary."

  /** What a `set` invocation did: whether it called `set_fulltext`, and how it ended. */
  datatype SetOutcome = SetOutcome(called: bool, run: Run)

  /** The checks of `set`, in source order: the first that fails, or acceptance
      together with whether both pairs of counts are present. */
  datatype PayloadCheck = NotADict | NoContent | NoCompletePair | Accepted(bothPairs: bool)

  function CheckPayload(payload: Value): (c: PayloadCheck)
    ensures c.Accepted? <==> Acceptable(payload)
    ensures c == NotADict <==> !payload.Obj?
    ensures c == NoContent <==> payload.Obj? && !Has(payload.fields, "content")
    ensures c.Accepted? ==> (c.bothPairs <==> HasPages(payload.fields) && HasChars(payload.fields))
  {
    if !payload.Obj? then NotADict
    else if !Has(payload.fields, "content") then NoContent
    else if !(HasPages(payload.fields) || HasChars(payload.fields)) then NoCompletePair
    else Accepted(HasPages(payload.fields) && HasChars(payload.fields))
  }

  /** `set` once the payload is parsed. The client is called exactly for an
      acceptable payload, and a rejected payload raises before anything is printed;
      an accepted one ends normally exactly when the client reports success. */
  function SetFulltext(itemKey: string, payload: Value, setOk: bool): (o: SetOutcome)
    ensures o.called <==> Acceptable(payload)
    ensures !o.called ==> o.run.Raise? && o.run.lines == []
    ensures o.called ==> (o.run.Done? <==> setOk)
  {
    match CheckPayload(payload)
    case NotADict =>
      SetOutcome(false, Raise([], ClickError("Invalid payload format", "", "Parsed payload is not a JSON object (dictionary)")))
    case NoContent =>
      SetOutcome(false, Raise([], ClickError("Invalid payload format", "", "Payload must have a 'content' key")))
    case NoCompletePair =>
      SetOutcome(false, Raise([], ClickError("Incomplete payload format", "",
        "Payload needs ('indexedPages' & 'totalPages') OR ('indexedChars' & 'totalChars')")))
    case Accepted(both) =>
      var warning := if both then [ErrOut(BothCountsWarning)] else [];
      if setOk then SetOutcome(true, Done(warning + [Out("Successfully set full-text for item '" + itemKey + "'.")]))
      else SetOutcome(true, Raise(warning, ClickError("Failed to set full-text content",
        "Item key: '" + itemKey + "'", "API reported no success/error")))
  }

  /** A rejected payload is rejected whatever the client would have answered. */
  lemma SetRejectionIgnoresClient(itemKey: string, payload: Value)
    requires !Acceptable(payload)
    ensures SetFulltext(itemKey, payload, true) == SetFulltext(itemKey, payload, false)
  {
  }

  /** A payload that is not a dict is rejected as such. */
  lemma SetRejectsNonDict(itemKey: string, payload: Value, setOk: bool)
    requires !payload.Obj?
    ensures SetFulltext(itemKey, payload, setOk).run
      == Raise([], ClickError("Invalid payload format", "", "Parsed payload is not a JSON object (dictionary)"))
  {
  }

  /** A dict without `content` is rejected as such, whatever counts it carries. */
  lemma SetRejectsMissingContent(itemKey: string, payload: Value, setOk: bool)
    requires payload.Obj? && !Has(payload.fields, "content")
    ensures SetFulltext(itemKey, payload, setOk).run
      == Raise([], ClickError("Invalid payload format", "", "Payload must have a 'content' key"))
  {
  }

  /** A dict with `content` but neither complete pair is rejected as incomplete. */
  lemma SetRejectsIncomplete(itemKey: string, payload: Value, setOk: bool)
    requires payload.Obj? && Has(payload.fields, "content")
    requires !HasPages(payload.fields) && !HasChars(payload.fields)
    ensures SetFulltext(itemKey, payload, setOk).run
      == Raise([], ClickError("Incomplete payload format", "",
           "Payload needs ('indexedPages' & 'totalPages') OR ('indexedChars' & 'totalChars')"))
  {
  }

  /** Half of each pair is not a complete pair: a payload whose counts are at most
      `indexedPages` and `totalChars` is refused ... */
  lemma SetRejectsCrossedHalves(itemKey: string, payload: Value, setOk: bool)
    requires payload.Obj? && !Has(payload.fields, "totalPages") && !Has(payload.fields, "indexedChars")
    ensures !SetFulltext(itemKey, payload, setOk).called
  {
  }

  /** ... and so is one whose counts are at most `indexedChars` and `totalPages`. */
  lemma SetRejectsOtherCrossedHalves(itemKey: string, payload: Value, setOk: bool)
    requires payload.Obj? && !Has(payload.fields, "indexedPages") && !Has(payload.fields, "totalChars")
    ensures !SetFulltext(itemKey, payload, setOk).called
  {
  }

  /** An accepted payload warns exactly when it carries both pairs; after the
      warning comes the confirmation line when the client reports success, and
      otherwise the failure naming the item. */
  lemma SetWarning(itemKey: string, payload: Value, setOk: bool)
    requires Acceptable(payload)
    ensures var warning := if HasPages(payload.fields) && HasChars(payload.fields) then [ErrOut(BothCountsWarning)] else [];
      var r := SetFulltext(itemKey, payload, setOk).run;
      && (setOk ==> r == Done(warning + [Out("Successfully set full-text for item '" + itemKey + "'.")]))
      && (!setOk ==> r == Raise(warning, ClickError("Failed to set full-text content",
           "Item key: '" + itemKey + "'", "API reported no success/error")))
  {
  }
}
