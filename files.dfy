/** POSIX path splitting as `os.path.dirname` and `os.path.basename` do it. */
module Paths {

  /** `p.rfind('/')`: the index of the last slash, -1 when there is none. */
  function LastSlash(p: string): (r: int)
    ensures -1 <= r < |p|
    ensures r >= 0 ==> p[r] == '/'
    ensures forall k :: r < k < |p| ==> p[k] != '/'
    decreases |p|
  {
    if |p| == 0 then -1
    else if p[|p| - 1] == '/' then |p| - 1
    else LastSlash(p[..|p| - 1])
  }

  /** `os.path.basename(p)`: what follows the last slash. */
  function Basename(p: string): (b: string)
    ensures '/' !in b
    ensures p == p[..LastSlash(p) + 1] + b
  {
    p[LastSlash(p) + 1..]
  }

  /** `s.rstrip('/')`. */
  function StripSlashes(s: string): (r: string)
    ensures |r| <= |s| && r == s[..|r|]
    ensures forall k :: |r| <= k < |s| ==> s[k] == '/'
    ensures |r| == 0 || r[|r| - 1] != '/'
    decreases |s|
  {
    if |s| > 0 && s[|s| - 1] == '/' then
      var r := StripSlashes(s[..|s| - 1]);
      assert s[..|s| - 1][..|r|] == s[..|r|];
      r
    else s
  }

  /** `os.path.dirname(p)`: everything up to the last slash, without its trailing
      slashes unless it is nothing but slashes. So it is a prefix of the path
      that stops at or before the last slash, and only slashes lie between its end
      and the last slash; it is empty exactly for a path without a slash, and it
      ends in a slash only when it is all slashes. */
  function Dirname(p: string): (d: string)
    ensures |d| <= LastSlash(p) + 1 && d == p[..|d|]
    ensures forall k :: |d| <= k <= LastSlash(p) ==> p[k] == '/'
    ensures '/' !in p ==> d == ""
    ensures '/' in p ==> |d| > 0
    ensures |d| > 0 && d[|d| - 1] == '/' ==> forall k :: 0 <= k < |d| ==> d[k] == '/'
    ensures (forall k :: 0 <= k <= LastSlash(p) ==> p[k] == '/') ==> d == p[..LastSlash(p) + 1]
  {
    var head := p[..LastSlash(p) + 1];
    if exists k :: 0 <= k < |head| && head[k] != '/' then
      var d := StripSlashes(head);
      assert head[..|d|] == p[..|d|];
      d
    else head
  }

  /** A last slash right after a directory name is the only slash `dirname` drops. */
  lemma DirnameStopsAtLastSlash(p: string)
    requires LastSlash(p) > 0 && p[LastSlash(p) - 1] != '/'
    ensures Dirname(p) == p[..LastSlash(p)]
  {
    var i := LastSlash(p);
    var d := Dirname(p);
    assert |d| >= i;
    assert d[i - 1] == p[i - 1];
  }

  /** `os.path.join(dirname(p), basename(p))` gives back a path whose last slash is
      a single one after a directory name. */
  lemma DirnameJoin(p: string)
    requires LastSlash(p) > 0 && p[LastSlash(p) - 1] != '/'
    ensures p == Dirname(p) + "/" + Basename(p)
  {
    var i := LastSlash(p);
    DirnameStopsAtLastSlash(p);
    assert p[..i + 1] == p[..i] + "/";
  }

  /** The directory of an absolute path is never empty. */
  lemma AbsoluteDirname(p: string)
    requires |p| > 0 && p[0] == '/'
    ensures |Dirname(p)| > 0
    ensures Dirname(p)[0] == '/'
  {
    var head := p[..LastSlash(p) + 1];
    assert head[0] == '/';
    if exists k :: 0 <= k < |head| && head[k] != '/' {
      var k :| 0 <= k < |head| && head[k] != '/';
      assert |StripSlashes(head)| > k;
    }
  }
}

/** The `file` command group of zotcli_commands/file_cmds.py: where `download` puts a
    file, which attachment call `upload` makes, the upload list `upload-batch` builds
    from a manifest, and how its results are reported. Filesystem queries
    (`os.path.abspath`, `isdir`, `exists`) and the client's answers are parameters. */
module Files {
  import opened Wrappers
  import opened Json
  import opened Cli
  import opened Paths

  // ---------------------------------------------------------------- download

  /** The `path` and `filename` given to `dump`, and whether `os.makedirs` runs first. */
  datatype DownloadPlan = DownloadPlan(dir: string, filename: Option<string>, makeDirs: bool)

  /** Lines 30-51; `output` is `""` when the option is not given. Without an
      output the file goes to the working directory under its own name; an output
      directory is kept and the name left to `dump`; a file name is named only for
      an output that is not a directory, and holds no slash. A missing target
      directory is created, and only for a given output. */
  function PlanDownload(output: string, abspath: string -> string, isDir: string -> bool,
                        pathExists: string -> bool, cwd: string): (plan: DownloadPlan)
    ensures |output| == 0 ==> plan == DownloadPlan(cwd, None, false)
    ensures |output| > 0 ==> plan.makeDirs == !pathExists(plan.dir)
    ensures |output| > 0 && isDir(abspath(output)) ==> plan.dir == abspath(output) && plan.filename.None?
    ensures plan.filename.Some? ==> |output| > 0 && !isDir(abspath(output)) && '/' !in plan.filename.value
  {
    if |output| == 0 then DownloadPlan(cwd, None, false)
    else
      var p := abspath(output);
      if isDir(p) then DownloadPlan(p, None, !pathExists(p))
      else
        var d := Dirname(p);
        var dir := if |d| == 0 then cwd else d;
        DownloadPlan(dir, Some(Basename(p)), !pathExists(dir))
  }

  /** An output that is not a directory is split into directory and name, which
      put back together give the output's absolute path; the working directory
      stands in for an empty directory part. */
  lemma DownloadTargets(output: string, abspath: string -> string, isDir: string -> bool,
                        pathExists: string -> bool, cwd: string)
    ensures |output| > 0 && !isDir(abspath(output)) ==>
      var p := abspath(output);
      var plan := PlanDownload(output, abspath, isDir, pathExists, cwd);
      && plan.filename == Some(Basename(p))
      && plan.dir == (if Dirname(p) == "" then cwd else Dirname(p))
      && p == p[..LastSlash(p) + 1] + plan.filename.value
  {
  }

  /** Since `abspath` always answers an absolute path, the working-directory fallback
      for a file output is never taken. */
  lemma DownloadFileKeepsDirectory(output: string, abspath: string -> string, isDir: string -> bool,
                                   pathExists: string -> bool, cwd: string)
    requires |output| > 0 && !isDir(abspath(output))
    requires |abspath(output)| > 0 && abspath(output)[0] == '/'
    ensures PlanDownload(output, abspath, isDir, pathExists, cwd).dir == Dirname(abspath(output))
  {
    AbsoluteDirname(abspath(output));
  }

  // ---------------------------------------------------------------- upload

  datatype UploadCall =
    | AttachmentBoth(files: seq<(string, string)>)  // `attachment_both([(name, path)])`
    | AttachmentSimple(paths: seq<string>)          // `attachment_simple(paths)`

  /** No files, or the call to make (with the parent id) and whether the ignored
      `--filename` warning is printed. */
  datatype UploadPlan = NoFiles | Upload(call: UploadCall, parent: Option<string>, filenameIgnored: bool)

  /** Lines 68-89; `filename` is `""` when the option is not given. No path is
      no call; the parent is passed on; `attachment_both` is used exactly for one
      path with a name, and the name is reported as ignored exactly for several
      paths. */
  function PlanUpload(paths: seq<string>, abspath: string -> string, parent: Option<string>, filename: string): (plan: UploadPlan)
    ensures plan.NoFiles? <==> |paths| == 0
    ensures plan.Upload? ==> plan.parent == parent
    ensures plan.Upload? ==> (plan.call.AttachmentBoth? <==> |paths| == 1 && |filename| > 0)
    ensures plan.Upload? ==> (plan.filenameIgnored <==> |paths| > 1 && |filename| > 0)
  {
    if |paths| == 0 then NoFiles
    else if |paths| == 1 then
      var p := abspath(paths[0]);
      if |filename| > 0 then Upload(AttachmentBoth([(filename, p)]), parent, false)
      else Upload(AttachmentSimple([p]), parent, false)
    else Upload(AttachmentSimple(seq(|paths|, i requires 0 <= i < |paths| => abspath(paths[i]))), parent, |filename| > 0)
  }

  /** One file: `attachment_both` with the given name, else `attachment_simple`. */
  lemma UploadSingle(path: string, abspath: string -> string, parent: Option<string>, filename: string)
    ensures |filename| > 0 ==> PlanUpload([path], abspath, parent, filename) == Upload(AttachmentBoth([(filename, abspath(path))]), parent, false)
    ensures |filename| == 0 ==> PlanUpload([path], abspath, parent, filename) == Upload(AttachmentSimple([abspath(path)]), parent, false)
  {
  }

  /** Several files: always `attachment_simple` with every absolute path in order; a
      given name changes nothing but the warning. */
  lemma UploadMany(paths: seq<string>, abspath: string -> string, parent: Option<string>, filename: string)
    requires |paths| > 1
    ensures var plan := PlanUpload(paths, abspath, parent, filename);
      && plan.Upload? && plan.call.AttachmentSimple?
      && |plan.call.paths| == |paths|
      && (forall i :: 0 <= i < |paths| ==> plan.call.paths[i] == abspath(paths[i]))
      && (plan.filenameIgnored <==> |filename| > 0)
      && plan.call == PlanUpload(paths, abspath, parent, "").call
  {
  }

  // ---------------------------------------------------------------- upload-batch

  /** An entry of `attachments_to_upload`. */
  datatype Attachment = Attachment(key: Value, filename: string, title: Value)

  /** The fields the command sets on the attachment template before `create_items`. */
  datatype Template = Template(title: Value, filename: Value, parentItem: Option<Value>)

  /** What one manifest entry leads to. */
  datatype EntryPlan =
    | Skip                                   // a warning, and nothing else
    | Existing(att: Attachment)              // queued at once
    | Create(template: Template, path: string)  // an item to create first

  /** Lines 134-165 for one entry. A `local_path` that is not a string is treated as
      invalid. Only a dict whose `local_path` names an existing file is queued or
      created, always under that file's absolute path; an existing-key entry is
      queued under its key, and a new attachment is created titled and named by
      its `zotero_filename`. */
  function Classify(entry: Value, pathExists: string -> bool, abspath: string -> string): (r: EntryPlan)
    ensures !entry.Obj? ==> r == Skip
    ensures r != Skip ==>
      && entry.Obj? && Get(entry.fields, "local_path", Null).Str?
      && pathExists(Get(entry.fields, "local_path", Null).s)
    ensures r.Existing? ==>
      && r.att.key == Get(entry.fields, "existing_attachment_key", Null) && Truthy(r.att.key)
      && r.att.filename == abspath(Get(entry.fields, "local_path", Null).s)
    ensures r.Create? ==>
      && !Truthy(Get(entry.fields, "existing_attachment_key", Null))
      && r.path == abspath(Get(entry.fields, "local_path", Null).s)
      && r.template.title == r.template.filename == Get(entry.fields, "zotero_filename", Null)
      && Truthy(r.template.title)
  {
    if !entry.Obj? then Skip
    else
      var localPath := Get(entry.fields, "local_path", Null);
      var zoteroFilename := Get(entry.fields, "zotero_filename", Null);
      var parentId := Get(entry.fields, "parent_item_id", Null);
      var existingKey := Get(entry.fields, "existing_attachment_key", Null);
      if !Truthy(localPath) || !localPath.Str? || !pathExists(localPath.s) then Skip
      else
        var absolute := abspath(localPath.s);
        if Truthy(existingKey) then
          Existing(Attachment(existingKey, absolute,
            if Truthy(zoteroFilename) then zoteroFilename else Str(Basename(localPath.s))))
        else if !Truthy(zoteroFilename) then Skip
        else Create(Template(zoteroFilename, zoteroFilename, if Truthy(parentId) then Some(parentId) else None), absolute)
  }

  /** The skipped entries: non-dicts, entries whose `local_path` is missing or does not
      exist, and new attachments without `zotero_filename`. */
  lemma ClassifySkips(entry: Value, pathExists: string -> bool, abspath: string -> string)
    ensures !entry.Obj? ==> Classify(entry, pathExists, abspath) == Skip
    ensures entry.Obj? && !Has(entry.fields, "local_path") ==> Classify(entry, pathExists, abspath) == Skip
    ensures (entry.Obj? && Get(entry.fields, "local_path", Null).Str?
              && !pathExists(Get(entry.fields, "local_path", Null).s)) ==> Classify(entry, pathExists, abspath) == Skip
    ensures (entry.Obj? && !Truthy(Get(entry.fields, "existing_attachment_key", Null))
              && !Truthy(Get(entry.fields, "zotero_filename", Null))) ==> Classify(entry, pathExists, abspath) == Skip
  {
    if entry.Obj? && !Has(entry.fields, "local_path") {
      GetAbsent(entry.fields, "local_path", Null);
    }
  }

  /** An entry with an existing key and a usable path is queued at once with its
      absolute path, titled by `zotero_filename`, or by the path's base name when
      that is missing or empty. */
  lemma ClassifyExisting(entry: Value, pathExists: string -> bool, abspath: string -> string, path: string)
    requires entry.Obj? && Get(entry.fields, "local_path", Null) == Str(path) && |path| > 0 && pathExists(path)
    requires Truthy(Get(entry.fields, "existing_attachment_key", Null))
    ensures var zf := Get(entry.fields, "zotero_filename", Null);
      Classify(entry, pathExists, abspath) == Existing(Attachment(Get(entry.fields, "existing_attachment_key", Null),
        abspath(path), if Truthy(zf) then zf else Str(Basename(path))))
  {
  }

  /** The key `create_items` reports for the new item: the first key of a non-empty
      `success` dict. Any other answer, including one that would raise, creates
      nothing usable. */
  function CreatedKey(response: Value): (r: Option<string>)
    ensures r.Some? <==>
      (response.Obj? && Get(response.fields, "success", Null).Obj? && |Get(response.fields, "success", Null).fields| > 0)
    ensures r.Some? ==> r.value == Keys(Get(response.fields, "success", Null).fields)[0]
  {
    if !response.Obj? then None
    else if !Has(response.fields, "success") then
      GetAbsent(response.fields, "success", Null);
      None
    else
      var success := Get(response.fields, "success", Null);
      if success.Obj? && |success.fields| > 0 then Some(success.fields[0].0) else None
  }

  /** The queued existing-key attachments of a manifest prefix, in manifest order. */
  function ExistingUpTo(m: seq<Value>, pathExists: string -> bool, abspath: string -> string): seq<Attachment>
    decreases |m|
  {
    if |m| == 0 then []
    else
      var plan := Classify(m[|m| - 1], pathExists, abspath);
      ExistingUpTo(m[..|m| - 1], pathExists, abspath) + (if plan.Existing? then [plan.att] else [])
  }

  /** The templates sent to `create_items` for a manifest prefix, in manifest order. */
  function CreatesUpTo(m: seq<Value>, pathExists: string -> bool, abspath: string -> string): seq<Template>
    decreases |m|
  {
    if |m| == 0 then []
    else
      var plan := Classify(m[|m| - 1], pathExists, abspath);
      CreatesUpTo(m[..|m| - 1], pathExists, abspath) + (if plan.Create? then [plan.template] else [])
  }

  /** The attachment one entry contributes once its item is created, given the
      answer of `create_items` for it. */
  function CreatedFrom(plan: EntryPlan, response: Value): Option<Attachment>
  {
    if plan.Create? && CreatedKey(response).Some? then
      Some(Attachment(Str(CreatedKey(response).value), plan.path, plan.template.title))
    else None
  }

  /** `created_items_info` for a manifest prefix, as attachments, in manifest order. */
  function CreatedUpTo(m: seq<Value>, pathExists: string -> bool, abspath: string -> string, respond: nat -> Value): seq<Attachment>
    decreases |m|
  {
    if |m| == 0 then []
    else
      var made := CreatedFrom(Classify(m[|m| - 1], pathExists, abspath), respond(|m| - 1));
      CreatedUpTo(m[..|m| - 1], pathExists, abspath, respond) + (if made.Some? then [made.value] else [])
  }

  /** What `upload-batch` does with its manifest. */
  datatype BatchOutcome =
    | NotAList                                                   // rejected before any processing
    | NothingToUpload(creates: seq<Template>)                    // "No valid attachments ..."
    | UploadAll(creates: seq<Template>, attachments: seq<Attachment>)  // `upload_attachments(attachments)`

  const NotAListMessage := "Error: JSON manifest must be a list of objects."
  const NothingMessage := "No valid attachments to upload after processing manifest."

  /** Lines 125-201: the manifest loop, then the loop appending the created items. */
  method UploadBatch(manifest: Value, pathExists: string -> bool, abspath: string -> string, respond: nat -> Value)
    returns (r: BatchOutcome)
    ensures !manifest.Arr? <==> r == NotAList
    ensures manifest.Arr? ==>
      var m := manifest.items;
      var queue := ExistingUpTo(m, pathExists, abspath) + CreatedUpTo(m, pathExists, abspath, respond);
      r == if |queue| == 0 then NothingToUpload(CreatesUpTo(m, pathExists, abspath))
           else UploadAll(CreatesUpTo(m, pathExists, abspath), queue)
  {
    if !manifest.Arr? {
      return NotAList;
    }
    var m := manifest.items;
    var toUpload: seq<Attachment> := [];
    var createdInfo: seq<Attachment> := [];
    var creates: seq<Template> := [];
    var index := 0;
    while index < |m|
      invariant 0 <= index <= |m|
      invariant toUpload == ExistingUpTo(m[..index], pathExists, abspath)
      invariant createdInfo == CreatedUpTo(m[..index], pathExists, abspath, respond)
      invariant creates == CreatesUpTo(m[..index], pathExists, abspath)
    {
      assert m[..index + 1][..index] == m[..index];
      var plan := Classify(m[index], pathExists, abspath);
      match plan {
        case Skip =>
        case Existing(att) =>
          toUpload := toUpload + [att];
        case Create(template, path) =>
          creates := creates + [template];
          var key := CreatedKey(respond(index));
          if key.Some? {
            createdInfo := createdInfo + [Attachment(Str(key.value), path, template.title)];
          }
      }
      index := index + 1;
    }
    assert m[..|m|] == m;
    var existing := toUpload;
    var j := 0;
    while j < |createdInfo|
      invariant 0 <= j <= |createdInfo|
      invariant toUpload == existing + createdInfo[..j]
    {
      assert createdInfo[..j + 1] == createdInfo[..j] + [createdInfo[j]];
      toUpload := toUpload + [createdInfo[j]];
      j := j + 1;
    }
    assert createdInfo[..|createdInfo|] == createdInfo;
    if |toUpload| == 0 {
      return NothingToUpload(creates);
    }
    return UploadAll(creates, toUpload);
  }

  /** The existing-key part keeps manifest order: a manifest split in two queues the
      first part's entries before the second's. */
  lemma {:induction false} ExistingConcat(a: seq<Value>, b: seq<Value>, pathExists: string -> bool, abspath: string -> string)
    ensures ExistingUpTo(a + b, pathExists, abspath) == ExistingUpTo(a, pathExists, abspath) + ExistingUpTo(b, pathExists, abspath)
    decreases |b|
  {
    if |b| == 0 {
      assert a + b == a;
    } else {
      assert (a + b)[..|a + b| - 1] == a + b[..|b| - 1];
      ExistingConcat(a, b[..|b| - 1], pathExists, abspath);
    }
  }

  /** An attachment is queued from the existing-key part exactly when some entry is an
      existing-key entry for it. */
  lemma {:induction false} ExistingMembers(m: seq<Value>, pathExists: string -> bool, abspath: string -> string, att: Attachment)
    ensures att in ExistingUpTo(m, pathExists, abspath) <==>
      exists i :: 0 <= i < |m| && Classify(m[i], pathExists, abspath) == Existing(att)
    decreases |m|
  {
    if |m| > 0 {
      var init := m[..|m| - 1];
      ExistingMembers(init, pathExists, abspath, att);
      assert forall i :: 0 <= i < |init| ==> init[i] == m[i];
    }
  }

  /** An attachment comes from the created part exactly when some entry is a new
      attachment whose creation reported a key, and it carries that key, the entry's
      absolute path and its `zotero_filename` as title. */
  lemma {:induction false} CreatedMembers(m: seq<Value>, pathExists: string -> bool, abspath: string -> string,
                                          respond: nat -> Value, att: Attachment)
    ensures att in CreatedUpTo(m, pathExists, abspath, respond) <==>
      exists i :: 0 <= i < |m| && CreatedFrom(Classify(m[i], pathExists, abspath), respond(i)) == Some(att)
    decreases |m|
  {
    if |m| > 0 {
      var init := m[..|m| - 1];
      var last := CreatedFrom(Classify(m[|m| - 1], pathExists, abspath), respond(|m| - 1));
      assert CreatedUpTo(m, pathExists, abspath, respond)
        == CreatedUpTo(init, pathExists, abspath, respond) + (if last.Some? then [last.value] else []);
      CreatedMembers(init, pathExists, abspath, respond, att);
      assert forall i :: 0 <= i < |init| ==> init[i] == m[i];
    }
  }

  /** A skipped entry contributes nothing: a manifest of skipped entries queues nothing,
      sends no template and so makes no upload call. */
  lemma {:induction false} SkippedContributeNothing(m: seq<Value>, pathExists: string -> bool, abspath: string -> string,
                                                    respond: nat -> Value)
    requires forall i :: 0 <= i < |m| ==> Classify(m[i], pathExists, abspath) == Skip
    ensures ExistingUpTo(m, pathExists, abspath) == []
    ensures CreatedUpTo(m, pathExists, abspath, respond) == []
    ensures CreatesUpTo(m, pathExists, abspath) == []
    decreases |m|
  {
    if |m| > 0 {
      var init := m[..|m| - 1];
      assert forall i :: 0 <= i < |init| ==> init[i] == m[i];
      SkippedContributeNothing(init, pathExists, abspath, respond);
    }
  }

  // ---------------------------------------------------------------- reporting

  /** `next((att['title'] for att in atts if att['key'] == key), key)`: the title of
      some queued attachment with that key, or the key itself. */
  function TitleFor(atts: seq<Attachment>, key: Value): (r: Value)
    ensures r == key || exists i :: 0 <= i < |atts| && atts[i].key == key && r == atts[i].title
    decreases |atts|
  {
    if |atts| == 0 then key
    else if atts[0].key == key then atts[0].title
    else
      var r := TitleFor(atts[1..], key);
      assert forall i :: 0 <= i < |atts| - 1 ==> atts[1..][i] == atts[i + 1];
      r
  }

  /** The reported title is the title of the first queued attachment with that key,
      and the key itself when none has it. */
  lemma {:induction false} TitleForFirst(atts: seq<Attachment>, key: Value, i: nat)
    requires i < |atts| && atts[i].key == key
    requires forall j :: 0 <= j < i ==> atts[j].key != key
    ensures TitleFor(atts, key) == atts[i].title
  {
    if i > 0 {
      TitleForFirst(atts[1..], key, i - 1);
    }
  }

  lemma {:induction false} TitleForAbsent(atts: seq<Attachment>, key: Value)
    requires forall j :: 0 <= j < |atts| ==> atts[j].key != key
    ensures TitleFor(atts, key) == key
    decreases |atts|
  {
    if |atts| > 0 {
      TitleForAbsent(atts[1..], key);
    }
  }

  /** Iterating a value with `for x in v`: a list gives its items, a dict its keys, a
      string its characters; anything else raises (None). */
  function Iterate(v: Value): Option<seq<Value>>
  {
    match v
    case Arr(items) => Some(items)
    case Obj(fields) => Some(seq(|fields|, i requires 0 <= i < |fields| => Str(fields[i].0)))
    case Str(s) => Some(seq(|s|, i requires 0 <= i < |s| => Str([s[i]])))
    case _ => None
  }

  function SuccessLines(atts: seq<Attachment>, keys: seq<Value>): seq<Line>
  {
    seq(|keys|, i requires 0 <= i < |keys| =>
      Out("  Successfully uploaded file for item: " + ToStr(TitleFor(atts, keys[i])) + " (Key: " + ToStr(keys[i]) + ")"))
  }

  function FailureLines(atts: seq<Attachment>, failures: seq<(string, Value)>): seq<Line>
  {
    seq(|failures|, i requires 0 <= i < |failures| =>
      ErrOut("  Failed to upload file for item: " + ToStr(TitleFor(atts, Str(failures[i].0)))
        + " (Key: " + failures[i].0 + "). Reason: " + ToStr(failures[i].1)))
  }

  function UnchangedLines(atts: seq<Attachment>, keys: seq<Value>): seq<Line>
  {
    seq(|keys|, i requires 0 <= i < |keys| =>
      Out("  File for item " + ToStr(TitleFor(atts, keys[i])) + " (Key: " + ToStr(keys[i]) + ") was unchanged on server."))
  }

  /** `if v:` followed by `for x in v`: a falsy value gives nothing to loop over,
      and a truthy one that cannot be iterated raises (None). */
  function Listed(v: Value): Option<seq<Value>>
  {
    if !Truthy(v) then Some([]) else Iterate(v)
  }

  /** `if v:` followed by `v.items()`: only a dict has items. */
  function FailureEntries(v: Value): Option<seq<(string, Value)>>
  {
    if !Truthy(v) then Some([]) else if v.Obj? then Some(v.fields) else None
  }

  const ResultsHeader := "Batch upload results:"
  const NoResultsMessage := "No detailed results from batch upload operation."

  /** Lines 205-219 for a dict answer, given how each of its three sections reads:
      the header, then the success, failure and unchanged lines in turn. A section
      that cannot be read (None) raises after everything printed before it; the
      success lines are printed whatever follows them. */
  function SectionsReport(atts: seq<Attachment>, s: Option<seq<Value>>, f: Option<seq<(string, Value)>>,
                          u: Option<seq<Value>>): (r: Run)
    ensures !r.Exit? && |r.lines| > 0 && r.lines[0] == Out(ResultsHeader)
    ensures r.Done? <==> s.Some? && f.Some? && u.Some?
    ensures s.None? ==> r == Raise([Out(ResultsHeader)], PythonError("TypeError"))
    ensures s.Some? ==> |r.lines| >= 1 + |s.value| && r.lines[1..1 + |s.value|] == SuccessLines(atts, s.value)
    ensures s.Some? && f.None? ==>
      r == Raise([Out(ResultsHeader)] + SuccessLines(atts, s.value), PythonError("AttributeError"))
    ensures s.Some? && f.Some? && u.None? ==>
      r == Raise([Out(ResultsHeader)] + SuccessLines(atts, s.value) + FailureLines(atts, f.value), PythonError("TypeError"))
    ensures s.Some? && f.Some? && u.Some? ==>
      r == Done([Out(ResultsHeader)] + SuccessLines(atts, s.value) + FailureLines(atts, f.value) + UnchangedLines(atts, u.value))
  {
    var head := [Out(ResultsHeader)];
    if s.None? then Raise(head, PythonError("TypeError"))
    else
      var printed := head + SuccessLines(atts, s.value);
      assert printed[0] == Out(ResultsHeader) && printed[1..1 + |s.value|] == SuccessLines(atts, s.value);
      if f.None? then Raise(printed, PythonError("AttributeError"))
      else
        var more := printed + FailureLines(atts, f.value);
        assert more[..|printed|] == printed && more[0] == printed[0];
        if u.None? then Raise(more, PythonError("TypeError"))
        else
          var all := more + UnchangedLines(atts, u.value);
          assert all[..|printed|] == printed && all[0] == printed[0];
          Done(all)
  }

  /** Lines 203-219: the report on what `upload_attachments` answered. An empty
      answer is one message on standard error. Otherwise the header is printed
      first; an answer that is not a dict then raises at its first `.get`, and a
      dict is reported section by section. An exception here is what line 221
      reports (`Raise`). */
  function BatchReport(atts: seq<Attachment>, results: Value): (r: Run)
    ensures !Truthy(results) ==> r == Done([ErrOut(NoResultsMessage)])
    ensures Truthy(results) ==> !r.Exit? && |r.lines| > 0 && r.lines[0] == Out(ResultsHeader)
    ensures Truthy(results) && !results.Obj? ==> r == Raise([Out(ResultsHeader)], PythonError("AttributeError"))
    ensures Truthy(results) && results.Obj? ==>
      r == SectionsReport(atts, Listed(Get(results.fields, "success", Null)),
        FailureEntries(Get(results.fields, "failure", Null)), Listed(Get(results.fields, "unchanged", Null)))
  {
    if !Truthy(results) then Done([ErrOut(NoResultsMessage)])
    else if !results.Obj? then Raise([Out(ResultsHeader)], PythonError("AttributeError"))
    else
      SectionsReport(atts, Listed(Get(results.fields, "success", Null)),
        FailureEntries(Get(results.fields, "failure", Null)), Listed(Get(results.fields, "unchanged", Null)))
  }

  /** With a list of successful keys only, the report is the header and one line per
      key, in answer order, each naming the title queued for that key. */
  lemma BatchReportSuccess(atts: seq<Attachment>, keys: seq<Value>)
    requires |keys| > 0
    ensures BatchReport(atts, Obj([("success", Arr(keys))])) == Done([Out(ResultsHeader)] + SuccessLines(atts, keys))
    ensures forall i :: 0 <= i < |keys| ==>
      SuccessLines(atts, keys)[i].text == "  Successfully uploaded file for item: " + ToStr(TitleFor(atts, keys[i]))
        + " (Key: " + ToStr(keys[i]) + ")"
  {
    var fields := [("success", Arr(keys))];
    assert Get(fields, "success", Null) == Arr(keys);
    assert Get(fields, "failure", Null) == Null;
    assert Get(fields, "unchanged", Null) == Null;
    var lines := [Out(ResultsHeader)] + SuccessLines(atts, keys);
    assert lines + [] + [] == lines;
  }

  /** The success lines are printed whatever follows: a failure section that is not
      a dict raises only after them. */
  lemma BatchReportSuccessBeforeFailure(atts: seq<Attachment>, keys: seq<Value>, failure: Value)
    requires |keys| > 0 && Truthy(failure) && !failure.Obj?
    ensures BatchReport(atts, Obj([("success", Arr(keys)), ("failure", failure)]))
      == Raise([Out(ResultsHeader)] + SuccessLines(atts, keys), PythonError("AttributeError"))
  {
    var fields := [("success", Arr(keys)), ("failure", failure)];
    assert Get(fields, "success", Null) == Arr(keys);
    assert Get(fields, "failure", Null) == failure;
  }
}
