/** `group list` of pyzotero_cli/group_cmds.py: the query parameters it passes on and
    how it presents the groups the client returns. */
module Groups {
  import opened Wrappers
  import opened Text
  import opened Json
  import opened Formatter
  import opened Cli

  /** A query parameter value: `--limit`/`--start` are ints, `--sort`/`--direction` strings. */
  datatype Param = IntParam(n: int) | TextParam(s: string)

  function IntOpt(o: Option<int>): Option<Param>
  {
    if o.Some? then Some(IntParam(o.value)) else None
  }

  function TextOpt(o: Option<string>): Option<Param>
  {
    if o.Some? then Some(TextParam(o.value)) else None
  }

  /** Line 38: the options that are not None, by name. */
  function GroupParams(limit: Option<int>, start: Option<int>, sort: Option<string>, direction: Option<string>): (params: map<string, Param>)
    ensures params.Keys <= {"limit", "start", "sort", "direction"}
    ensures "limit" in params <==> limit.Some?
    ensures "start" in params <==> start.Some?
    ensures "sort" in params <==> sort.Some?
    ensures "direction" in params <==> direction.Some?
    ensures limit.Some? ==> params["limit"] == IntParam(limit.value)
    ensures start.Some? ==> params["start"] == IntParam(start.value)
    ensures sort.Some? ==> params["sort"] == TextParam(sort.value)
    ensures direction.Some? ==> params["direction"] == TextParam(direction.value)
  {
    var all := map["limit" := IntOpt(limit), "start" := IntOpt(start), "sort" := TextOpt(sort), "direction" := TextOpt(direction)];
    map k | k in all && all[k].Some? :: all[k].value
  }

  const NoClientMessage := "Error: Zotero client not initialized. Please check configuration."
  const NoGroupsMessage := "No groups found or accessible with the current API key and permissions."

  /** The fixed headers map of lines 51-60, each lambda a getter chain. */
  const GroupColumns: seq<Column> := [
    ("ID", Getter(["id"], Null)),
    ("Name", Getter(["data", "name"], Null)),
    ("Description", Getter(["data", "description"], Str(""))),
    ("Type", Getter(["data", "type"], Null)),
    ("Owner ID", Getter(["data", "owner"], Null)),
    ("Num Items", Getter(["meta", "numItems"], Null)),
    ("Version", Getter(["version"], Null)),
    ("URL", Getter(["links", "alternate", "href"], Null))
  ]

  /** What `list` did: stopped before querying, or queried with these parameters. */
  datatype ListOutcome = NoClient(run: Run) | Queried(params: map<string, Param>, run: Run)

  /** `list`: `hasClient` is the truthiness of the context's client; `groups` is what
      `groups(**params)` returned. Without a client nothing is queried and the
      command exits with status 1; an empty answer prints only the no-groups
      message, in every format. */
  function ListGroups(hasClient: bool, limit: Option<int>, start: Option<int>, sort: Option<string>,
                      direction: Option<string>, format: OutputFormat, groups: Value): (o: ListOutcome)
    ensures o.NoClient? <==> !hasClient
    ensures o.NoClient? ==> o.run == Exit([ErrOut(NoClientMessage)], 1)
    ensures o.Queried? ==> o.params == GroupParams(limit, start, sort, direction) && o.run.Done?
    ensures hasClient ==> (o.run == Done([Out(NoGroupsMessage)]) <==> !Truthy(groups))
  {
    if !hasClient then NoClient(Exit([ErrOut(NoClientMessage)], 1))
    else
      var params := GroupParams(limit, start, sort, direction);
      if !Truthy(groups) then Queried(params, Done([Out(NoGroupsMessage)]))
      else if format == KeysFormat then Queried(params, Done([Show(Format(groups, KeysFormat, KeyName("id"), []))]))
      else if format == JsonFormat || format == YamlFormat then Queried(params, Done([Show(Format(groups, format, NoRequest, []))]))
      else Queried(params, Done([Show(Format(groups, format, NoRequest, GroupColumns))]))
  }

  /** json and yaml hand the raw answer over unchanged; keys lists each group's `id`. */
  lemma ListGroupsRaw(limit: Option<int>, start: Option<int>, sort: Option<string>,
                      direction: Option<string>, format: OutputFormat, groups: Value)
    requires Truthy(groups)
    ensures format == JsonFormat || format == YamlFormat ==>
      ListGroups(true, limit, start, sort, direction, format, groups).run == Done([Show(Serialized(format, groups))])
    ensures format == KeysFormat ==>
      ListGroups(true, limit, start, sort, direction, format, groups).run
        == Done([Show(Message(Join(KeysList(SourceList(groups), "id"), "\n")))])
  {
  }

  /** The table has the eight headers in order and one row per group, each row the
      eight cells of its group, column by column. */
  lemma ListGroupsTable(groups: Value, i: nat)
    requires Truthy(groups) && i < |SourceList(groups)|
    ensures var t := Table(groups, NoRequest, GroupColumns);
      && t.Grid?
      && t.headers == ["ID", "Name", "Description", "Type", "Owner ID", "Num Items", "Version", "URL"]
      && |t.rows| == |SourceList(groups)|
      && t.rows[i] == Arr(seq(8, j requires 0 <= j < 8 => Cell(SourceList(groups)[i], GroupColumns[j].1)))
  {
    TableRow(groups, NoRequest, GroupColumns, i);
  }

  /** The table format is that table, whatever the query parameters. */
  lemma ListGroupsTableFormat(limit: Option<int>, start: Option<int>, sort: Option<string>,
                              direction: Option<string>, groups: Value)
    requires Truthy(groups)
    ensures ListGroups(true, limit, start, sort, direction, TableFormat, groups).run
      == Done([Show(Table(groups, NoRequest, GroupColumns))])
  {
  }

  /** A group whose `data` lacks a description shows `''`. */
  lemma DescriptionDefault(g: seq<(string, Value)>, d: seq<(string, Value)>)
    requires Has(g, "data") && Get(g, "data", Obj([])) == Obj(d) && !Has(d, "description")
    ensures Cell(Obj(g), GroupColumns[2].1) == Str("")
  {
    GetAbsent(d, "description", Str(""));
  }

  /** A group with no `data` entry shows `''` for the description and None for the
      other `data` fields. */
  lemma MissingData(g: seq<(string, Value)>)
    requires !Has(g, "data")
    ensures Cell(Obj(g), GroupColumns[2].1) == Str("")
    ensures Cell(Obj(g), GroupColumns[1].1) == Null
    ensures Cell(Obj(g), GroupColumns[4].1) == Null
  {
    GetAbsent(g, "data", Obj([]));
  }
}
