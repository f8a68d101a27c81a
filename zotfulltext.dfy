/** The `fulltext` command group of zotcli_commands/fulltext_cmds.py: the group
    callback that resolves the connection settings and builds the client's keyword
    arguments, and the commands after their client calls. `ctx` is the settings
    part of the click context object; `profile` is its `PROFILE_CONFIG` section,
    `None` when the context has none. */
module ZotFulltext {
  import opened Wrappers
  import opened Json
  import opened Cli
  import Fulltext

  // ---------------------------------------------------------------- settings

  /** A configuration section: option names to their raw string values. */
  type Profile = map<string, string>

  /** The five settings that decide the connection. */
  datatype Settings = Settings(apiKey: Value, libraryId: Value, libraryType: Value, locale: Value, local: Value)

  /** `ctx.obj.get(key, default)`. */
  function CtxGet(ctx: map<string, Value>, key: string, default: Value): Value
  {
    if key in ctx then ctx[key] else default
  }

  /** `profile_config.get(key, default)`. */
  function ProfileGet(profile: Profile, key: string, default: Value): Value
  {
    if key in profile then Str(profile[key]) else default
  }

  /** ASCII lower-casing; no other character lowers to a letter of the boolean
      words. The result holds no upper-case ASCII letter, and every other
      character stays where it was. */
  function Lower(s: string): (r: string)
    ensures |r| == |s|
    ensures forall k :: 0 <= k < |r| ==> !('A' <= r[k] <= 'Z')
    ensures forall k :: 0 <= k < |s| && !('A' <= s[k] <= 'Z') ==> r[k] == s[k]
  {
    seq(|s|, k requires 0 <= k < |s| => if 'A' <= s[k] <= 'Z' then (s[k] as int + 32) as char else s[k])
  }

  /** Lower-casing twice is lower-casing once. */
  lemma LowerIdempotent(s: string)
    ensures Lower(Lower(s)) == Lower(s)
  {
    var once := Lower(s);
    assert forall k :: 0 <= k < |once| ==> Lower(once)[k] == once[k];
  }

  /** The words configparser reads as true, and as false. */
  const TrueWords: set<string> := {"1", "yes", "true", "on"}
  const FalseWords: set<string> := {"0", "no", "false", "off"}

  /** `section.getboolean(key, fallback)`: the configparser truth words, in any case,
      an absent key being the fallback and any other word a ValueError. */
  function GetBoolean(profile: Profile, key: string, fallback: bool): (r: Result<bool>)
    ensures key !in profile ==> r == Ok(fallback)
    ensures key in profile ==> (r == Ok(true) <==> Lower(profile[key]) in TrueWords)
    ensures key in profile ==> (r == Ok(false) <==> Lower(profile[key]) in FalseWords)
    ensures r.Err? ==> r.error == "ValueError" && key in profile && Lower(profile[key]) !in TrueWords + FalseWords
  {
    if key !in profile then Ok(fallback)
    else
      var w := Lower(profile[key]);
      if w in TrueWords then Ok(true)
      else if w in FalseWords then Ok(false)
      else Err("ValueError")
  }

  /** The case of the word does not matter: any spelling reads as its lower-case form. */
  lemma GetBooleanWords(profile: Profile, key: string, word: string, fallback: bool)
    ensures GetBoolean(profile[key := word], key, fallback) == GetBoolean(profile[key := Lower(word)], key, fallback)
  {
    LowerIdempotent(word);
  }

  /** Lines 11-16 AS WRITTEN: `PROFILE_CONFIG` defaults to `{}`, a plain dict, which
      has no `getboolean`, so a context without a profile raises AttributeError. */
  function ResolveAsWritten(ctx: map<string, Value>, profile: Option<Profile>): (r: Result<Settings>)
    ensures profile.None? ==> r == Err("AttributeError")
    ensures profile.Some? ==> (r.Err? <==> GetBoolean(profile.value, "local_zotero", false).Err?)
  {
    match profile
    case None => Err("AttributeError")
    case Some(p) =>
      match GetBoolean(p, "local_zotero", false)
      case Err(e) => Err(e)
      case Ok(flag) =>
        Ok(Settings(CtxGet(ctx, "API_KEY", ProfileGet(p, "api_key", Null)),
                    CtxGet(ctx, "LIBRARY_ID", ProfileGet(p, "library_id", Null)),
                    CtxGet(ctx, "LIBRARY_TYPE", ProfileGet(p, "library_type", Null)),
                    CtxGet(ctx, "LOCALE", ProfileGet(p, "locale", Str("en-US"))),
                    CtxGet(ctx, "LOCAL", Bool(flag))))
  }

  /** Without a profile the settings never resolve, even when the context supplies
      every one of them. */
  lemma MissingProfileRaises(ctx: map<string, Value>)
    ensures ResolveAsWritten(ctx, None) == Err("AttributeError")
    ensures ResolveAsWritten(map["API_KEY" := Str("k"), "LIBRARY_ID" := Str("1"), "LIBRARY_TYPE" := Str("user"),
                                 "LOCALE" := Str("en-US"), "LOCAL" := Bool(false)], None).Err?
  {
  }

  /** The evident intent: a missing profile is an empty section. */
  function Resolve(ctx: map<string, Value>, profile: Option<Profile>): Result<Settings>
  {
    ResolveAsWritten(ctx, Some(if profile.Some? then profile.value else map[]))
  }

  /** With a profile the two agree; without one the corrected resolution succeeds. */
  lemma ResolveCorrects(ctx: map<string, Value>, profile: Option<Profile>)
    ensures profile.Some? ==> Resolve(ctx, profile) == ResolveAsWritten(ctx, profile)
    ensures profile.None? ==> Resolve(ctx, profile).Ok?
  {
  }

  /** Where each setting comes from: a context entry wins, else the profile entry,
      else the default (None, except `en-US` for the locale and False for the local
      flag). Only an unreadable `local_zotero` word stops resolution. */
  lemma ResolveSources(ctx: map<string, Value>, p: Profile)
    ensures ResolveAsWritten(ctx, Some(p)).Ok? ==>
      var s := ResolveAsWritten(ctx, Some(p)).value;
      && ("API_KEY" in ctx ==> s.apiKey == ctx["API_KEY"])
      && ("LIBRARY_ID" in ctx ==> s.libraryId == ctx["LIBRARY_ID"])
      && ("LIBRARY_TYPE" in ctx ==> s.libraryType == ctx["LIBRARY_TYPE"])
      && ("LOCALE" in ctx ==> s.locale == ctx["LOCALE"])
      && ("LOCAL" in ctx ==> s.local == ctx["LOCAL"])
      && ("API_KEY" !in ctx && "api_key" in p ==> s.apiKey == Str(p["api_key"]))
      && ("LIBRARY_ID" !in ctx && "library_id" in p ==> s.libraryId == Str(p["library_id"]))
      && ("LIBRARY_TYPE" !in ctx && "library_type" in p ==> s.libraryType == Str(p["library_type"]))
      && ("LOCALE" !in ctx && "locale" in p ==> s.locale == Str(p["locale"]))
      && ("LOCAL" !in ctx ==> s.local == Bool(GetBoolean(p, "local_zotero", false).value))
      && ("API_KEY" !in ctx && "api_key" !in p ==> s.apiKey == Null)
      && ("LIBRARY_ID" !in ctx && "library_id" !in p ==> s.libraryId == Null)
      && ("LIBRARY_TYPE" !in ctx && "library_type" !in p ==> s.libraryType == Null)
      && ("LOCALE" !in ctx && "locale" !in p ==> s.locale == Str("en-US"))
      && ("LOCAL" !in ctx && "local_zotero" !in p ==> s.local == Bool(false))
  {
  }

  // ---------------------------------------------------------------- connection

  const LibraryIdRequired := "Error: Library ID is required. Configure with 'zot configure setup'."
  const LibraryTypeRequired := "Error: Library Type is required for remote connections. Configure with 'zot configure setup'."

  /** How the group callback ends: the keyword arguments for `zotero.Zotero`, an
      error exit with its message, or an exception from resolving the settings. */
  datatype Connect =
    | Kwargs(args: map<string, Value>)
    | ConnectExit(message: string)
    | ConnectRaise(error: string)

  /** What lines 17-41 promise for the resolved settings: an exception from
      resolving is passed on; a missing library id, or a remote connection without
      a library type, is an error exit; otherwise the five keyword arguments, a
      local connection using the library id as its `local` flag and dropping the
      API key and the library type. */
  predicate ConnectsAs(resolved: Result<Settings>, r: Connect)
  {
    && (resolved.Err? ==> r == ConnectRaise(resolved.error))
    && (resolved.Ok? ==>
      var s := resolved.value;
      && (!Truthy(s.libraryId) ==> r == ConnectExit(LibraryIdRequired))
      && (Truthy(s.libraryId) && !Truthy(s.local) && !Truthy(s.libraryType) ==> r == ConnectExit(LibraryTypeRequired))
      && (r.Kwargs? <==> Truthy(s.libraryId) && (Truthy(s.local) || Truthy(s.libraryType)))
      && (r.Kwargs? ==>
            && r.args.Keys == {"library_id", "locale", "local", "api_key", "library_type"}
            && r.args["library_id"] == s.libraryId
            && r.args["locale"] == s.locale
            && (Truthy(s.local) ==>
                  r.args["local"] == s.libraryId && r.args["api_key"] == Null && r.args["library_type"] == Null)
            && (!Truthy(s.local) ==>
                  r.args["local"] == Null && r.args["api_key"] == s.apiKey && r.args["library_type"] == s.libraryType)))
  }

  /** Lines 17-41: fill `zot_kwargs` step by step from the resolved settings. */
  method BuildKwargs(resolved: Result<Settings>) returns (r: Connect)
    ensures ConnectsAs(resolved, r)
  {
    if resolved.Err? {
      return ConnectRaise(resolved.error);
    }
    var s := resolved.value;
    if !Truthy(s.libraryId) {
      return ConnectExit(LibraryIdRequired);
    }
    var kwargs := map["library_id" := s.libraryId, "locale" := s.locale];
    if Truthy(s.local) {
      kwargs := kwargs["local" := s.libraryId];
      kwargs := kwargs["api_key" := Null];
      kwargs := kwargs["library_type" := Null];
    } else {
      if !Truthy(s.libraryType) {
        return ConnectExit(LibraryTypeRequired);
      }
      kwargs := kwargs["api_key" := s.apiKey];
      kwargs := kwargs["library_type" := s.libraryType];
      kwargs := kwargs["local" := Null];
    }
    return Kwargs(kwargs);
  }

  /** The callback as written, lines 11-41: without a profile it raises
      AttributeError, whatever the context holds. */
  method ConnectionArgs(ctx: map<string, Value>, profile: Option<Profile>) returns (r: Connect)
    ensures ConnectsAs(ResolveAsWritten(ctx, profile), r)
    ensures profile.None? ==> r == ConnectRaise("AttributeError")
  {
    r := BuildKwargs(ResolveAsWritten(ctx, profile));
  }

  /** The callback with a missing profile read as an empty section: it raises only
      for an unreadable `local_zotero` word, so never without a profile. */
  method ConnectionArgsCorrected(ctx: map<string, Value>, profile: Option<Profile>) returns (r: Connect)
    ensures ConnectsAs(Resolve(ctx, profile), r)
    ensures profile.None? ==> !r.ConnectRaise?
  {
    ResolveCorrects(ctx, profile);
    r := BuildKwargs(Resolve(ctx, profile));
  }

  /** The specification leaves no choice: for given settings one outcome meets it. */
  lemma ConnectsAsUnique(resolved: Result<Settings>, r1: Connect, r2: Connect)
    requires ConnectsAs(resolved, r1) && ConnectsAs(resolved, r2)
    ensures r1 == r2
  {
    if r1.Kwargs? {
      assert r1.args == r2.args;
    }
  }

  // ---------------------------------------------------------------- get

  const NoContentMessage := "No full-text content found or item is not an attachment with full-text."

  /** `get` once `data` is fetched: empty data is a message on standard error and
      nothing is formatted; otherwise it behaves as the other copy's `get`. */
  function GetFulltext(data: Value, output: Fulltext.GetOutput): (r: Run)
    ensures !Truthy(data) <==> r == Done([ErrOut(NoContentMessage)])
  {
    if !Truthy(data) then Done([ErrOut(NoContentMessage)])
    else Fulltext.GetFulltext(data, output)
  }

  // ---------------------------------------------------------------- set

  /** `set` once the payload is parsed: the client is called exactly for an
      acceptable payload; each rejection is one message on standard error and exit
      status 1; a failed client call is only reported, so a call always ends
      normally. */
  function SetFulltext(itemKey: string, payload: Value, setOk: bool): (o: Fulltext.SetOutcome)
    ensures o.called <==> Fulltext.Acceptable(payload)
    ensures !o.called ==> o.run.Exit? && o.run.code == 1 && |o.run.lines| == 1 && o.run.lines[0].ErrOut?
    ensures o.called ==> o.run.Done?
  {
    match Fulltext.CheckPayload(payload)
    case NotADict =>
      Fulltext.SetOutcome(false, Exit([ErrOut("Error: Parsed payload is not a JSON object (dictionary).")], 1))
    case NoContent =>
      Fulltext.SetOutcome(false, Exit([ErrOut("Error: Payload must have a 'content' key.")], 1))
    case NoCompletePair =>
      Fulltext.SetOutcome(false, Exit([ErrOut("Error: Payload needs ('indexedPages' & 'totalPages') OR ('indexedChars' & 'totalChars').")], 1))
    case Accepted(both) =>
      var warning := if both then [ErrOut(Fulltext.BothCountsWarning)] else [];
      if setOk then Fulltext.SetOutcome(true, Done(warning + [Out("Successfully set full-text for item '" + itemKey + "'.")]))
      else Fulltext.SetOutcome(true, Done(warning + [ErrOut("Failed to set full-text for '" + itemKey + "'. API reported no success/error.")]))
  }

  /** Both copies apply the same rules: they call the client for the same payloads,
      the acceptable ones, ... */
  lemma SetAgreesWithOtherCopy(itemKey: string, payload: Value, setOk: bool)
    ensures SetFulltext(itemKey, payload, setOk).called == Fulltext.SetFulltext(itemKey, payload, setOk).called
  {
  }

  /** ... and print the same warning and the same success line. */
  lemma SetSuccessAgrees(itemKey: string, payload: Value)
    requires Fulltext.Acceptable(payload)
    ensures SetFulltext(itemKey, payload, true).run == Fulltext.SetFulltext(itemKey, payload, true).run
  {
  }
}
