/** The `search` command group of pyzotero_cli/search_cmds.py: the group callback's
    choice between reusing and constructing a client, the validation and the
    confirmation output of `create`, and the messages of `delete`. */
module Search {
  import opened Wrappers
  import opened Text
  import opened Json
  import opened Formatter
  import opened Cli

  // ---------------------------------------------------------------- client

  /** What the group callback does about the client: keep the one in the context, or
      construct one from these arguments. */
  datatype ClientSetup =
    | Reuse
    | Construct(libraryId: Value, libraryType: Value, apiKey: Value, locale: Value, local: Value)

  /** `hasClient` is `'zot' in ctx.obj`; `ctx` holds the other entries. A client
      is constructed exactly when the context has none, each argument being the
      context's setting when present, None when absent, and False for a missing
      local flag. */
  function SearchClient(hasClient: bool, ctx: map<string, Value>): (r: ClientSetup)
    ensures r.Construct? <==> !hasClient
    ensures r.Construct? ==>
      && r.libraryId == (if "LIBRARY_ID" in ctx then ctx["LIBRARY_ID"] else Null)
      && r.libraryType == (if "LIBRARY_TYPE" in ctx then ctx["LIBRARY_TYPE"] else Null)
      && r.apiKey == (if "API_KEY" in ctx then ctx["API_KEY"] else Null)
      && r.locale == (if "LOCALE" in ctx then ctx["LOCALE"] else Null)
      && r.local == (if "LOCAL" in ctx then ctx["LOCAL"] else Bool(false))
  {
    if hasClient then Reuse
    else
      Construct(if "LIBRARY_ID" in ctx then ctx["LIBRARY_ID"] else Null,
                if "LIBRARY_TYPE" in ctx then ctx["LIBRARY_TYPE"] else Null,
                if "API_KEY" in ctx then ctx["API_KEY"] else Null,
                if "LOCALE" in ctx then ctx["LOCALE"] else Null,
                if "LOCAL" in ctx then ctx["LOCAL"] else Bool(false))
  }

  /** The client depends on the five settings only, whatever else the context
      holds; an empty context gives None for each and False for the local flag. */
  lemma SearchClientChoice(hasClient: bool, ctx: map<string, Value>, key: string, v: Value)
    ensures key !in {"LIBRARY_ID", "LIBRARY_TYPE", "API_KEY", "LOCALE", "LOCAL"} ==>
      SearchClient(hasClient, ctx[key := v]) == SearchClient(hasClient, ctx)
    ensures !hasClient && ctx == map[] ==> SearchClient(hasClient, ctx) == Construct(Null, Null, Null, Null, Bool(false))
  {
  }

  // ---------------------------------------------------------------- create

  const NotAListMessage := "Error: Conditions JSON must be a list of condition objects."
  const MissingKeysPrefix := "Error: Each condition object must contain 'condition', 'operator', and 'value' keys. Problematic condition: "

  /** A condition object with the three keys a search condition needs. */
  predicate Complete(c: Value)
  {
    c.Obj? && Has(c.fields, "condition") && Has(c.fields, "operator") && Has(c.fields, "value")
  }

  /** What `create_saved_search` is given: a list of dicts, each complete. */
  predicate ValidConditions(conditions: Value)
  {
    conditions.Arr? && forall i :: 0 <= i < |conditions.items| ==> Complete(conditions.items[i])
  }

  /** The position of the first incomplete condition, as the loop of lines 78-81
      meets it. */
  function FirstIncomplete(conds: seq<Value>): (r: Option<nat>)
    ensures r.None? <==> forall j :: 0 <= j < |conds| ==> Complete(conds[j])
    ensures r.Some? ==>
      (r.value < |conds| && !Complete(conds[r.value]) && forall j :: 0 <= j < r.value ==> Complete(conds[j]))
  {
    if |conds| == 0 then None
    else if !Complete(conds[0]) then Some(0)
    else
      match FirstIncomplete(conds[1..])
      case None => None
      case Some(i) => Some(i + 1)
  }

  /** The outcome of a `create` invocation: whether `create_saved_search` was called,
      and how the command ended. */
  datatype CreateOutcome = CreateOutcome(called: bool, run: Run)

  /** `create` once the conditions are parsed; `saved` is what `create_saved_search`
      answered. */
  function CreateSearch(name: string, conditions: Value, format: OutputFormat, saved: bool): (o: CreateOutcome)
    ensures o.called <==> ValidConditions(conditions)
    ensures !o.called ==> o.run.Exit? && o.run.code == 1 && |o.run.lines| == 1 && o.run.lines[0].ErrOut?
    ensures o.called ==> o.run.Done? && |o.run.lines| == 1 && (o.run.lines[0].ErrOut? <==> !saved)
  {
    if !conditions.Arr? || exists i :: 0 <= i < |conditions.items| && !conditions.items[i].Obj? then
      CreateOutcome(false, Exit([ErrOut(NotAListMessage)], 1))
    else
      match FirstIncomplete(conditions.items)
      case Some(i) => CreateOutcome(false, Exit([ErrOut(MissingKeysPrefix + ToStr(conditions.items[i]))], 1))
      case None =>
        if !saved then CreateOutcome(true, Done([ErrOut("Failed to create saved search '" + name + "'.")]))
        else if format == TableFormat then CreateOutcome(true, Done([Out("Saved search '" + name + "' created successfully.")]))
        else if format == KeysFormat then CreateOutcome(true, Done([Out(name)]))
        else CreateOutcome(true, Done([Show(Format(Obj([("name", Str(name)), ("status", Str("created successfully"))]), format, NoRequest, []))]))
  }

  /** Invalid conditions are rejected whatever the client would have answered. */
  lemma CreateRejectionIgnoresClient(name: string, conditions: Value, format: OutputFormat)
    requires !ValidConditions(conditions)
    ensures CreateSearch(name, conditions, format, true) == CreateSearch(name, conditions, format, false)
  {
  }

  /** A list of dicts with an incomplete one is reported by its first incomplete
      condition, printed with `str`. */
  lemma CreateReportsFirstIncomplete(name: string, conds: seq<Value>, format: OutputFormat, saved: bool, i: nat)
    requires forall j :: 0 <= j < |conds| ==> conds[j].Obj?
    requires i < |conds| && !Complete(conds[i]) && forall j :: 0 <= j < i ==> Complete(conds[j])
    ensures CreateSearch(name, Arr(conds), format, saved).run == Exit([ErrOut(MissingKeysPrefix + ToStr(conds[i]))], 1)
  {
    var r := FirstIncomplete(conds);
    assert r == Some(i);
  }

  /** Anything that is not a list, and a list with an element that is not a dict, is
      rejected as not a list of objects, even when an earlier condition lacks keys. */
  lemma CreateRejectsNonObjects(name: string, conditions: Value, format: OutputFormat, saved: bool)
    requires !conditions.Arr? || exists i :: 0 <= i < |conditions.items| && !conditions.items[i].Obj?
    ensures CreateSearch(name, conditions, format, saved).run == Exit([ErrOut(NotAListMessage)], 1)
  {
  }

  /** After a successful call the confirmation follows the format: a sentence for
      table, the bare name for keys, and the formatted name and status otherwise. */
  lemma CreateConfirmation(name: string, conditions: Value, format: OutputFormat)
    requires ValidConditions(conditions)
    ensures var lines := CreateSearch(name, conditions, format, true).run.lines;
      && |lines| == 1
      && (format == TableFormat ==> lines[0] == Out("Saved search '" + name + "' created successfully."))
      && (format == KeysFormat ==> lines[0] == Out(name))
      && (format.JsonFormat? || format.YamlFormat? ==>
            lines[0] == Show(Serialized(format, Obj([("name", Str(name)), ("status", Str("created successfully"))]))))
  {
  }

  // ---------------------------------------------------------------- delete

  const BatchNote := "Note: Pyzotero's batch delete might not specify which exact key(s) failed."

  /** The messages of `delete` once `delete_saved_search` answered `deleted`: one
      line on standard output on success; otherwise two on standard error, the
      second the note about batch deletes. */
  function DeleteMessages(keys: seq<string>, deleted: bool): (r: seq<Line>)
    ensures |r| == if deleted then 1 else 2
    ensures r[0].Out? <==> deleted
    ensures !deleted ==> r[1] == ErrOut(BatchNote)
  {
    if deleted then [Out("Successfully deleted saved search(es): " + Join(keys, ", ") + ".")]
    else [ErrOut("Failed to delete one or more saved searches. Keys provided: " + Join(keys, ", ")), ErrOut(BatchNote)]
  }

  /** The keys appear in the given order: splitting the list anywhere, the message
      shows the first part, a comma, then the rest. */
  lemma DeleteMessageOrder(keys: seq<string>, deleted: bool, k: nat)
    requires 0 < k < |keys|
    ensures DeleteMessages(keys, deleted)[0].text ==
      (if deleted then "Successfully deleted saved search(es): " else "Failed to delete one or more saved searches. Keys provided: ")
      + Join(keys[..k], ", ") + ", " + Join(keys[k..], ", ") + (if deleted then "." else "")
  {
    JoinConcat(keys[..k], keys[k..], ", ");
    assert keys[..k] + keys[k..] == keys;
  }
}
