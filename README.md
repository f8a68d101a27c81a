# pyzotero-cli core, modelled in Dafny

pyzotero-cli is a command-line front end to the Zotero API. This project models
what the commands do around their client calls: which arguments they pass, which
inputs they reject, and what they print. The model covers four parts:

- `format_data_for_output`, the shared formatter. Its table mode builds the header
  list and the rows handed to the grid renderer; its keys mode lists key values one
  per line. The plain tab-separated fallback renderer is modelled as well.
- Both copies of the `fulltext` command group. This covers `get`, `list-new` and the
  payload validation of `set`, plus the zotcli group callback that resolves the
  connection settings into the client's keyword arguments.
- The `search` commands `create` and `delete`, the search group's choice between
  reusing and constructing a client, and `group list`.
- The `file` commands of zotcli. This covers where `download` writes, which
  attachment call `upload` makes, the upload list `upload-batch` builds from its
  manifest, and how the batch results are reported.

Every client answer is a parameter: what `fulltext_item`, `new_fulltext`,
`set_fulltext`, `create_saved_search`, `delete_saved_search`, `groups`,
`create_items` and `upload_attachments` returned. So are the filesystem's answers
(`os.path.abspath`, `isdir`, `exists`) and the working directory. JSON values are
the datatype `Json.Value`; a dict is a sequence of entries in insertion order. A
command's terminal effect is a `Cli.Run`, which is one of three things: the lines
it printed (standard output, standard error, or formatter output), those lines
followed by an exit status, or those lines followed by the exception that
escaped.

Files:

- `text.dfy`: `str.split`, `str.join`, `str.strip` and integer printing.
- `json.dfy`: `Option`/`Result` and the JSON value model, with Python's `dict.get`,
  item assignment, truthiness, `str` and `repr`.
- `formatter.dfy`: module `Formatter`, for pyzotero_cli/utils.py.
- `cli.dfy`: the shape of a command's outcome.
- `fulltext.dfy`: module `Fulltext`, for pyzotero_cli/fulltext_cmds.py.
- `zotfulltext.dfy`: module `ZotFulltext`, for zotcli_commands/fulltext_cmds.py.
- `search.dfy`: module `Search`, for pyzotero_cli/search_cmds.py.
- `groups.dfy`: module `Groups`, for pyzotero_cli/group_cmds.py.
- `files.dfy`: modules `Paths` (POSIX `dirname`/`basename`) and `Files`, for
  zotcli_commands/file_cmds.py.

The loops of the source are methods proved equal to specification functions:

- the formatter's dot-path walk, item-dict, row and keys loops, and the fallback
  renderer;
- the keyword-argument construction of the zotcli group callback;
- the two loops of `upload-batch`.

The lemmas then state what the source promises about those functions.

The zotcli `list-new` (zotcli_commands/fulltext_cmds.py:82-100) has the same body
as the pyzotero_cli one; only its click default output differs. So it is modelled
once: `Fulltext.ListNew` is the command as written, and `Fulltext.ListNewCorrected`
is the same command with the keys branch of the first finding below corrected.
Likewise `ZotFulltext.ConnectionArgs` is the zotcli group callback as written, and
`ZotFulltext.ConnectionArgsCorrected` is the callback with the third finding
corrected.

## Model

| member | source | states |
|---|---|---|
| Text.Split | pyzotero_cli/utils.py:84 | `accessor.split('.')` always yields at least one piece |
| Text.SplitPiecesFree | pyzotero_cli/utils.py:84 | no piece of a split holds the separator |
| Text.JoinSplit | pyzotero_cli/utils.py:84 | rejoining the pieces of a split with the separator gives back the path |
| Text.SplitNoSeparator | pyzotero_cli/utils.py:84 | a path without a dot is a single segment |
| Text.SplitAtSeparator | pyzotero_cli/utils.py:84 | a leading segment followed by a dot is split off as the first piece |
| Text.SplitConcat | pyzotero_cli/utils.py:84 | splitting `a.b` is splitting `a` and then `b` |
| Text.SplitJoin | pyzotero_cli/utils.py:148 | newline-joined values split back into the values when none holds a newline |
| Text.JoinConcat | pyzotero_cli/search_cmds.py:130 | joining two non-empty lists puts exactly one separator between their joins |
| Text.StripLeft | pyzotero_cli/utils.py:127 | removes exactly the leading whitespace: a suffix, all removed characters whitespace, first kept one not |
| Text.StripRight | pyzotero_cli/utils.py:127 | removes exactly the trailing whitespace: a prefix, all removed characters whitespace, last kept one not |
| Text.Strip | pyzotero_cli/utils.py:127 | `output_str.strip()` is a slice of the text with no whitespace at either end |
| Text.NatToString | pyzotero_cli/utils.py:147 | `str(n)` of a natural number is a non-empty string of decimal digits, starting with `0` only for zero |
| Text.NatToStringRoundTrip | pyzotero_cli/utils.py:147 | reading the printed digits back gives the number |
| Json.Keys | pyzotero_cli/utils.py:104 | `list(d.keys())` has one element per entry and holds exactly the keys the dict has |
| Json.KeysOrder | pyzotero_cli/utils.py:104 | the keys come in insertion order, and a dict without repeated keys lists none twice |
| Json.GetAbsent | pyzotero_cli/utils.py:112 | `d.get(key, default)` of an absent key is the default |
| Json.GetFirst | pyzotero_cli/utils.py:112 | `d.get` of a present key is the value of its (first) entry |
| Json.GetAt | pyzotero_cli/utils.py:112 | in a dict without repeated keys, `d.get` finds the entry at each position |
| Json.PutGet | pyzotero_cli/utils.py:78 | after `item_dict[name] = v`, the name reads v and every other name reads as before |
| Json.PutPresentKeys | pyzotero_cli/utils.py:78 | assigning a present key keeps the key order |
| Json.PutAbsentKeys | pyzotero_cli/utils.py:87 | assigning a new key appends it at the end |
| Json.QuoteFor | pyzotero_cli/search_cmds.py:80 | `repr` quotes a string with a single quote, or with a double quote only when the string holds no double quote |
| Json.EscapedPlain | pyzotero_cli/search_cmds.py:80 | characters `repr` need not escape are copied unchanged |
| Json.StrReprQuotes | pyzotero_cli/search_cmds.py:80 | a string without backslashes or control characters prints between single quotes, or between double quotes when it holds a single quote and no double quote; with both quotes it keeps single quotes and escapes them |
| Json.ToStr | pyzotero_cli/search_cmds.py:80 | `str` of a string is the string itself; a list prints in brackets and a dict in braces |
| Json.ReprOfApostrophe | pyzotero_cli/search_cmds.py:80 | the list `["it's"]` prints with double quotes around the string, as Python does |
| Formatter.WalkDotPath | pyzotero_cli/utils.py:81-89 | the loop over the path's segments, stopping at the first None, yields the dot-path cell (`''` for None) |
| Formatter.BuildItemDict | pyzotero_cli/utils.py:74-91 | the per-record loop over the headers map yields the item dict of all column cells in order; a raising getter or an unusable accessor gives `''` |
| Formatter.BuildMappedItems | pyzotero_cli/utils.py:73-92 | one item dict per raw record, in record order |
| Formatter.BuildRows | pyzotero_cli/utils.py:109-114 | one row per item: a dict gives `.get(h, '')` per header, anything else is passed on unchanged |
| Formatter.GetterEval | pyzotero_cli/group_cmds.py:52-59 | a getter chain raises exactly when the `.get(k, {})` walk over all but the last key ends at a non-dict; otherwise it is that dict's `.get` of the last key with the fallback, so a key missing at any step gives the fallback |
| Formatter.DescendStays | pyzotero_cli/group_cmds.py:52-59 | the `.get(k, {})` walk stays at the first non-dict it meets |
| Formatter.GetterRaisesAtNonDict | pyzotero_cli/group_cmds.py:52-59 | a getter chain raises exactly when some one of its `.get` calls is made on a non-dict, at whichever step |
| Formatter.GetterRaisesOnNullData | pyzotero_cli/group_cmds.py:53 | the Name getter raises on a group whose `data` is None |
| Formatter.Cell | pyzotero_cli/utils.py:74-91 | a dot-path cell is never None; a getter cell is the getter's value, or `''` when the walk reaches a non-dict (so in particular on a non-dict record), and its fallback when the first key is missing; an unusable accessor gives `''` |
| Formatter.Table | pyzotero_cli/utils.py:59-115 | the table is the no-data message exactly when the data is falsy; otherwise a grid with one row per record, headed by the map's names when there is a map |
| Formatter.KeysOutput | pyzotero_cli/utils.py:129-148 | falsy data prints nothing; otherwise reading the output line by line gives back the collected keys, when there is one and none holds a newline |
| Formatter.FormatTable | pyzotero_cli/utils.py:59-115 | the table branch with its loops computes exactly the table specification `Table` |
| Formatter.FormatKeys | pyzotero_cli/utils.py:129-148 | the keys loop computes exactly `KeysOutput`: non-null values found at the top level or under `data`, stringified, newline-joined |
| Formatter.RenderPlain | pyzotero_cli/utils.py:121-127 | the fallback renderer's accumulation equals `PlainText`; a row that cannot be iterated makes it fail |
| Formatter.PathLookupNull | pyzotero_cli/utils.py:86 | once the walk holds None it stays None |
| Formatter.PathLookupConcat | pyzotero_cli/utils.py:84-86 | walking `p + q` is walking p and then q from where it ended |
| Formatter.DotPathMissingSegment | pyzotero_cli/utils.py:85-87 | a non-dict or a missing segment anywhere along the path gives `''` and never raises |
| Formatter.DotPathCompose | pyzotero_cli/utils.py:84-86 | the dot path `a.b` is path a followed by path b |
| Formatter.ItemDictGet | pyzotero_cli/utils.py:74-92 | with distinct display names, the item dict holds each column's own cell under its name |
| Formatter.TableWithColumns | pyzotero_cli/utils.py:70-115 | with a headers map: the headers are the names in map order, one row per record, each row the record's cells column by column |
| Formatter.TableRow | pyzotero_cli/utils.py:70-115 | the same for a single row i |
| Formatter.TableOfScalars | pyzotero_cli/utils.py:96-98 | without a map, a list starting with a non-dict gives header `Value` and one single-cell row per element |
| Formatter.TableOfRecords | pyzotero_cli/utils.py:99-114 | without a map, a list of dicts uses the requested fields or else the first record's keys; missing cells are `''`; later non-dicts pass unchanged |
| Formatter.SingleRecordAsList | pyzotero_cli/utils.py:63 | a single record is tabulated, and its keys extracted, as a one-element list |
| Formatter.ExtractKeyPrecedence | pyzotero_cli/utils.py:139-144 | a top-level field wins; `data.<field>` is used only when the top level lacks it; otherwise nothing |
| Formatter.KeysListConcat | pyzotero_cli/utils.py:137-147 | keys are collected in input order: the list of a concatenation is the concatenation |
| Formatter.KeysListSingle | pyzotero_cli/utils.py:138-147 | an item contributes `str(value)` when a non-null value is found, nothing otherwise |
| Formatter.KeysListOfNonRecords | pyzotero_cli/utils.py:138 | items that are not dicts contribute nothing |
| Formatter.RowLinesFailurePersists | pyzotero_cli/utils.py:126 | a row that cannot be iterated makes the rendering of the rows up to it fail |
| Formatter.RowLinesPrefixFailure | pyzotero_cli/utils.py:125-126 | a failure in a prefix of the rows makes the whole rendering fail |
| Formatter.PlainTextFails | pyzotero_cli/utils.py:125-126 | one row that cannot be iterated makes the whole fallback text fail |
| Formatter.TerminatedIsJoin | pyzotero_cli/utils.py:123-126 | newline-terminated lines are the newline join with a final newline |
| Formatter.PlainTextLayout | pyzotero_cli/utils.py:122-127 | the unstripped text reads back as the header line and `---` line (only with headers), then one line per row |
| Formatter.HeaderLineCells | pyzotero_cli/utils.py:123-124 | the header line splits on tabs back into the headers, the second line into one `---` per header |
| Fulltext.GetFulltext | pyzotero_cli/fulltext_cmds.py:38-40 | json and yaml hand the fetched data to the formatter unchanged |
| Fulltext.GetRawContent | pyzotero_cli/fulltext_cmds.py:31-37 | raw content prints exactly `str(content)` on standard output (`''` when absent) and warns exactly when the content is not a string |
| Fulltext.ListNewRecords | pyzotero_cli/fulltext_cmds.py:59 | one record per map entry |
| Fulltext.ListNewRows | pyzotero_cli/fulltext_cmds.py:59-64 | one table row per map entry |
| Fulltext.ListNewKeysAlwaysEmpty | pyzotero_cli/fulltext_cmds.py:65-67 | as written, the keys branch prints the empty string whatever the map holds, and so does `list-new` in keys format for any non-empty map |
| Fulltext.ListNewKeysLost | pyzotero_cli/fulltext_cmds.py:65-67 | a one-entry map whose key is lost |
| Fulltext.ListNewKeysLines | pyzotero_cli/fulltext_cmds.py:65-67 | the intended keys output reads back line by line as the map's keys in order |
| Fulltext.ListNewKeysOutput | pyzotero_cli/fulltext_cmds.py:65-71 | corrected `list-new` in keys format prints the map keys joined by newlines, and differs from the command as written exactly when that text is not empty |
| Fulltext.ListNew | pyzotero_cli/fulltext_cmds.py:53-71 | as written: the no-new message is printed, alone, exactly when the data is empty, in every format; table and keys raise on a non-dict; the other formats serialise the data |
| Fulltext.ListNewCorrected | pyzotero_cli/fulltext_cmds.py:65-67 | corrected `list-new`: the keys branch prints the intended keys output, and every other case is as written |
| Fulltext.ListNewCells | pyzotero_cli/fulltext_cmds.py:59-63 | a record's cells are its key and its version, `''` for a null version |
| Fulltext.TwoColumnRow | pyzotero_cli/utils.py:70-115 | row i of a two-column table holds the two cells of record i |
| Fulltext.ListNewRow | pyzotero_cli/fulltext_cmds.py:58-64 | row i of the list-new table is entry i's key and version |
| Fulltext.ListNewGrid | pyzotero_cli/fulltext_cmds.py:58-64 | the list-new table is the two headers and the rows of `ListNewRows` |
| Fulltext.ListNewTable | pyzotero_cli/fulltext_cmds.py:58-64 | `list-new` in table format shows headers `Item Key`, `Library Version` and one row per entry, in map order |
| Fulltext.CheckPayload | pyzotero_cli/fulltext_cmds.py:117-133 | a payload is accepted exactly when it is a dict with `content` and a complete pair of counts; the first failing check is reported; both pairs are flagged |
| Fulltext.SetFulltext | pyzotero_cli/fulltext_cmds.py:117-150 | `set_fulltext` is called exactly for acceptable payloads; a rejected payload raises before anything is printed; an accepted one ends normally exactly when the client reports success |
| Fulltext.SetRejectionIgnoresClient | pyzotero_cli/fulltext_cmds.py:117-132 | a rejected payload is rejected whatever the client would have answered |
| Fulltext.SetRejectsNonDict | pyzotero_cli/fulltext_cmds.py:145-150 | a non-dict payload raises the not-a-dict error |
| Fulltext.SetRejectsMissingContent | pyzotero_cli/fulltext_cmds.py:119-123 | every dict without `content` raises the missing-content error, whatever counts it carries |
| Fulltext.SetRejectsIncomplete | pyzotero_cli/fulltext_cmds.py:125-132 | every dict with `content` but neither complete pair raises the incomplete-payload error |
| Fulltext.SetRejectsCrossedHalves | pyzotero_cli/fulltext_cmds.py:125-132 | no dict whose counts are at most `indexedPages` and `totalChars` reaches the client |
| Fulltext.SetRejectsOtherCrossedHalves | pyzotero_cli/fulltext_cmds.py:125-132 | no dict whose counts are at most `indexedChars` and `totalPages` reaches the client |
| Fulltext.SetWarning | pyzotero_cli/fulltext_cmds.py:133-144 | an accepted payload warns exactly when both pairs are present; after the warning, success prints the confirmation naming the item, and failure raises the failed-to-set error naming the item |
| ZotFulltext.Lower | zotcli_commands/fulltext_cmds.py:16 | lower-casing leaves no upper-case ASCII letter and changes no other character |
| ZotFulltext.LowerIdempotent | zotcli_commands/fulltext_cmds.py:16 | lower-casing twice is lower-casing once |
| ZotFulltext.GetBoolean | zotcli_commands/fulltext_cmds.py:16 | `getboolean` gives the fallback for an absent key, true exactly for the lower-cased true words, false exactly for the false words, and ValueError for any other word |
| ZotFulltext.GetBooleanWords | zotcli_commands/fulltext_cmds.py:16 | any spelling of a word reads as its lower-case form, so `getboolean` ignores case |
| ZotFulltext.ResolveAsWritten | zotcli_commands/fulltext_cmds.py:11-16 | as written: without a profile resolution raises AttributeError; with one it fails exactly for an unreadable `local_zotero` word |
| ZotFulltext.MissingProfileRaises | zotcli_commands/fulltext_cmds.py:11-16 | as written, a context without a profile never resolves, even with every setting in the context |
| ZotFulltext.ResolveCorrects | zotcli_commands/fulltext_cmds.py:11-16 | corrected: agrees with the source whenever a profile exists, and resolves without one |
| ZotFulltext.ResolveSources | zotcli_commands/fulltext_cmds.py:11-16 | each setting comes from the context, else the profile (`api_key`, `library_id`, `library_type`, `locale`, and `local_zotero` read as a boolean), else its default (None, `en-US`, False) |
| ZotFulltext.ConnectionArgs | zotcli_commands/fulltext_cmds.py:11-41 | the callback as written: without a profile it raises AttributeError; otherwise it meets `ConnectsAs` for the settings as written |
| ZotFulltext.BuildKwargs | zotcli_commands/fulltext_cmds.py:17-41 | exits without a library ID, or without a library type for a remote connection; otherwise the five keyword arguments with the local or remote values; a resolution error is passed on |
| ZotFulltext.ConnectionArgsCorrected | zotcli_commands/fulltext_cmds.py:11-41 | corrected: the same steps with a missing profile read as an empty section, so a missing profile never raises |
| ZotFulltext.ConnectsAsUnique | zotcli_commands/fulltext_cmds.py:17-41 | the specification of the keyword arguments leaves exactly one outcome for given settings |
| ZotFulltext.GetFulltext | zotcli_commands/fulltext_cmds.py:55-58 | empty data prints only the no-content message on standard error, exactly when the data is falsy |
| ZotFulltext.SetAgreesWithOtherCopy | zotcli_commands/fulltext_cmds.py:139-154 | calls `set_fulltext` for exactly the payloads the other copy calls it for |
| ZotFulltext.SetFulltext | zotcli_commands/fulltext_cmds.py:139-162 | `set_fulltext` is called exactly for acceptable payloads; each rejection is one error line and exit status 1; a call always ends normally |
| ZotFulltext.SetSuccessAgrees | zotcli_commands/fulltext_cmds.py:151-156 | the warning and success line are those of the other copy |
| Search.SearchClientChoice | pyzotero_cli/search_cmds.py:11-19 | the client depends on the five context settings only; an empty context gives None for each and False for the local flag |
| Search.SearchClient | pyzotero_cli/search_cmds.py:11-19 | a client is constructed exactly when the context has none, each argument the context setting when present, else None, else False for the local flag |
| Search.FirstIncomplete | pyzotero_cli/search_cmds.py:78-81 | finds the first condition lacking one of the three keys, or none when all are complete |
| Search.CreateSearch | pyzotero_cli/search_cmds.py:73-96 | `create_saved_search` is called exactly for a list of complete condition dicts; a rejection is one error line and exit status 1; after a call one line, an error line exactly when it failed |
| Search.CreateRejectionIgnoresClient | pyzotero_cli/search_cmds.py:73-81 | invalid conditions are rejected whatever the client would have answered |
| Search.CreateReportsFirstIncomplete | pyzotero_cli/search_cmds.py:78-81 | a list of dicts is reported by its first incomplete condition |
| Search.CreateRejectsNonObjects | pyzotero_cli/search_cmds.py:73-75 | every non-list, and every list with a non-dict anywhere, is rejected as not a list of objects |
| Search.CreateConfirmation | pyzotero_cli/search_cmds.py:86-94 | after success: a sentence for table, the bare name for keys, the formatted name and status otherwise |
| Search.DeleteMessageOrder | pyzotero_cli/search_cmds.py:128-135 | the success and failure messages list the keys in the given order, comma-separated |
| Search.DeleteMessages | pyzotero_cli/search_cmds.py:128-135 | success is one line on standard output; failure is two lines on standard error, the second the batch-delete note |
| Groups.GroupParams | pyzotero_cli/group_cmds.py:38 | exactly the options that are not None, each under its own name with its value |
| Groups.ListGroups | pyzotero_cli/group_cmds.py:31-67 | without a client nothing is queried and the exit status is 1; otherwise the non-None options are the query and the command ends normally; an answer is the no-groups message alone exactly when it is empty |
| Groups.ListGroupsRaw | pyzotero_cli/group_cmds.py:46-64 | json and yaml pass the raw groups on; keys lists each group's `id` |
| Groups.ListGroupsTable | pyzotero_cli/group_cmds.py:51-67 | the table has the eight headers in order and one row per group of its eight cells |
| Groups.ListGroupsTableFormat | pyzotero_cli/group_cmds.py:65-67 | the table format is that table whatever the query parameters |
| Groups.DescriptionDefault | pyzotero_cli/group_cmds.py:54 | a missing description shows `''` |
| Groups.MissingData | pyzotero_cli/group_cmds.py:53-56 | a group without `data` shows `''` for the description and None for the other data fields |
| Paths.LastSlash | zotcli_commands/file_cmds.py:38-39 | the position of the last slash, with no slash after it |
| Paths.Basename | zotcli_commands/file_cmds.py:39 | the base name holds no slash and completes the path after the last slash |
| Paths.StripSlashes | zotcli_commands/file_cmds.py:38 | removes exactly the trailing slashes of the directory part |
| Paths.Dirname | zotcli_commands/file_cmds.py:38 | the directory part is the prefix up to the last slash with only trailing slashes removed: empty exactly without a slash, ending in a slash only when all slashes, and the whole head when the head is all slashes |
| Paths.DirnameStopsAtLastSlash | zotcli_commands/file_cmds.py:38 | a single last slash after a name is the only character the directory part drops |
| Paths.DirnameJoin | zotcli_commands/file_cmds.py:38-40 | the directory part, a slash and the base name give back such a path |
| Paths.AbsoluteDirname | zotcli_commands/file_cmds.py:38-41 | the directory of an absolute path is never empty and starts with a slash |
| Files.DownloadTargets | zotcli_commands/file_cmds.py:30-51 | an output that is not a directory is split into a directory (the working directory when empty) and a name that put back together give its absolute path |
| Files.PlanDownload | zotcli_commands/file_cmds.py:30-51 | no output means the working directory and no name; an output directory is the target with no name; a name holds no slash; a missing target directory is created only for a given output |
| Files.DownloadFileKeepsDirectory | zotcli_commands/file_cmds.py:38-41 | since `abspath` is absolute, the working-directory fallback is never taken |
| Files.UploadSingle | zotcli_commands/file_cmds.py:73-82 | one file: `attachment_both([(name, path)])` with a name, `attachment_simple([path])` without |
| Files.UploadMany | zotcli_commands/file_cmds.py:83-89 | several files: always `attachment_simple` of every absolute path in order; a name only adds the warning |
| Files.PlanUpload | zotcli_commands/file_cmds.py:68-89 | no path is no call; the parent is passed on; `attachment_both` exactly for one path with a name; the ignored-name warning exactly for several paths with a name |
| Files.ClassifySkips | zotcli_commands/file_cmds.py:134-159 | non-dicts, missing or non-existent `local_path`, and new attachments without `zotero_filename` are skipped |
| Files.ClassifyExisting | zotcli_commands/file_cmds.py:147-154 | an existing-key entry is queued with its absolute path and titled by `zotero_filename`, else by the path's base name |
| Files.Classify | zotcli_commands/file_cmds.py:134-165 | only a dict whose `local_path` is an existing file is queued or created, under its absolute path; a queued entry carries its existing key; a created one is titled and named by its `zotero_filename` |
| Files.CreatedKey | zotcli_commands/file_cmds.py:170-172 | a new item is known exactly when the answer has a non-empty `success` dict, and its key is that dict's first key |
| Files.UploadBatch | zotcli_commands/file_cmds.py:125-201 | a non-list is rejected before any processing; otherwise the queue is the existing-key entries, then the created items, in manifest order; an empty queue makes no upload call |
| Files.ExistingConcat | zotcli_commands/file_cmds.py:133-154 | the existing-key part keeps manifest order |
| Files.ExistingMembers | zotcli_commands/file_cmds.py:149-154 | an attachment is in the existing-key part exactly when some entry queues it at once |
| Files.CreatedMembers | zotcli_commands/file_cmds.py:161-190 | an attachment is in the created part exactly when some new entry's creation reported its key, with that entry's path and title |
| Files.SkippedContributeNothing | zotcli_commands/file_cmds.py:134-159 | skipped entries queue nothing and send no template |
| Files.TitleFor | zotcli_commands/file_cmds.py:208-216 | the reported title is the key itself or the title of a queued attachment with that key |
| Files.TitleForFirst | zotcli_commands/file_cmds.py:208 | a reported key's title is that of the first queued attachment with that key |
| Files.TitleForAbsent | zotcli_commands/file_cmds.py:212 | a key no queued attachment has is reported by the key itself |
| Files.BatchReportSuccess | zotcli_commands/file_cmds.py:203-209 | a success-only answer ends normally after the header and one line per key, in answer order, each with that key's title |
| Files.BatchReportSuccessBeforeFailure | zotcli_commands/file_cmds.py:203-212 | a failure section that is not a dict raises only after the header and every success line have been printed |
| Files.BatchReport | zotcli_commands/file_cmds.py:203-220 | an empty answer is one message on standard error; any other answer prints the header first; one that is not a dict then raises AttributeError with only the header printed; a dict is reported section by section |
| Files.SectionsReport | zotcli_commands/file_cmds.py:205-217 | header, success, failure and unchanged lines in turn; a section that cannot be read raises TypeError or AttributeError after exactly the lines printed before it, the success lines always printed in full; it ends normally exactly when all three sections can be read |

## Left out

- JSON and YAML serialisation, and the `tabulate` grid renderer. The model stops at
  the value handed to them (`Serialized`, `Grid`).
- The warnings for a missing PyYAML or tabulate (pyzotero_cli/utils.py:57, 120).
  Which libraries are installed is part of the environment.
- `handle_zotero_exceptions_and_exit`: its messages and its traceback. `Raise`
  records only the lines printed before the exception and the exception itself.
- `ctx.exit(1)` inside a `try`. Click's exit exception is itself caught by the
  generic handler, which prints an extra error line. The model records only the
  command's own message and the status 1.
- `create_click_exception`. pyzotero_cli/fulltext_cmds.py imports it, but
  pyzotero_cli/utils.py does not define it, so that import would fail. The model
  records the description, context and details that are passed to it.
- Parsing the JSON argument or file of `set`, `search create` and `upload-batch`,
  with its error messages. These commands are modelled from the parsed value on.
- The confirmation prompts: `set` in local mode and `search delete` without
  `--force`. They are interactive.
- The client construction of the pyzotero_cli `fulltext` group
  (pyzotero_cli/fulltext_cmds.py:10-18). It is a bare client call. The search
  group's choice is modelled.
- `search list` (pyzotero_cli/search_cmds.py:23-48) is not part of this model.
- The `sys.exit` path of `group list` when there is no click context.
- `download`: the `dump` call, its "File downloaded to" line, and the error and
  hint messages (zotcli_commands/file_cmds.py:46-57). These report client
  answers.
- `upload`: the reporting of the attachment response
  (zotcli_commands/file_cmds.py:91-109). It prints the client's answer.
- `upload-batch`: the progress and warning lines of the manifest loop and the
  "Attempting to upload" line. The model keeps what decides the upload list.
- `upload-batch`: the text of the exceptions that `create_items` and
  `upload_attachments` may raise, and the "Error during batch file upload process"
  line of zotcli_commands/file_cmds.py:221-222 that reports them. A failed creation
  is modelled as no created item; an exception while reporting the batch answer
  ends the report with `Raise`, after the lines printed before it.
- Files.UploadBatch: `item_template` (zotcli_commands/file_cmds.py:161) sits
  outside the `try` of the creation call, so a client that raises there ends
  `upload-batch` in the middle of the manifest, after earlier items may already
  have been created. The model takes `item_template` as always succeeding: it has
  no input for that exception and does not capture the partly processed manifest.
- Files.Classify: a truthy `local_path` that is not a string is treated as
  invalid. In Python, `os.path.exists` tests a file descriptor for an integer and
  raises TypeError for a list.
- Files.CreatedKey: takes the first key of the `success` dict, as written. Which
  key pyzotero puts there is not visible from this code.
- Files.TitleFor: compares keys as JSON values. Python's `True == 1` equality
  between booleans and numbers is not modelled.
- Json.Repr: Python also escapes the non-printable characters outside ASCII (such
  as U+0085 or U+2028) with `\x`, `\u` or `\U`; the model copies them unchanged.
  ASCII control characters, quotes and backslashes are escaped as Python does.
- Json.Value: numbers are integers. JSON from the user or the client may hold
  floats (search conditions, `set` payloads, manifest entries, client answers);
  their `str` and `repr` are not modelled.
- Paths: only POSIX path rules are modelled.
- The tests under tests/ are not part of this model.

## Findings

| source | as written | input that shows it | evidently intended | confidence | as-written member | corrected member |
|---|---|---|---|---|---|---|
| pyzotero_cli/fulltext_cmds.py:65-67 | `list-new --output keys` hands the list of key strings to keys mode, which only reads dicts, so it prints an empty line | `new_fulltext` answers `{"ABCD2345": 7}` | the map's keys, one per line | high, not executed | Fulltext.ListNewKeysLost | Fulltext.ListNewKeysLines |
| zotcli_commands/fulltext_cmds.py:94-96 | the zotcli copy of the same keys branch, with the same empty output | `new_fulltext` answers `{"ABCD2345": 7}` | the map's keys, one per line | high, not executed | Fulltext.ListNewKeysAlwaysEmpty | Fulltext.ListNewKeysOutput |
| zotcli_commands/fulltext_cmds.py:11-16 | with no `PROFILE_CONFIG` in the context, the default `{}` is a plain dict without `getboolean`, so the callback raises AttributeError even when the context holds every setting | a context with all five settings and no profile | a missing profile read as an empty section | medium, not executed | ZotFulltext.MissingProfileRaises | ZotFulltext.ConnectionArgsCorrected |
