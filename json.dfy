/** Option, for the `None` of Python calls that may find nothing, and Result. */
module Wrappers {
  datatype Option<+T> = None | Some(value: T)

  /** A value, or the description of the exception that replaced it. */
  datatype Result<+T> = Ok(value: T) | Err(error: string)
}

/** Parsed JSON as the command layer sees it after `json.load`: Python's
    `None`, `bool`, `int`, `str`, `list` and `dict`. A `dict` keeps its
    insertion order, so an object is an association list. */
module Json {
  import opened Text

  datatype Value =
    | Null
    | Bool(b: bool)
    | Num(n: int)
    | Str(s: string)
    | Arr(items: seq<Value>)
    | Obj(fields: seq<(string, Value)>)

  /** Python truthiness: `None`, `False`, `0`, `''`, `[]` and `{}` are false. */
  predicate Truthy(v: Value)
  {
    match v
    case Null => false
    case Bool(b) => b
    case Num(n) => n != 0
    case Str(s) => |s| > 0
    case Arr(items) => |items| > 0
    case Obj(fields) => |fields| > 0
  }

  /** `list(d.keys())`. */
  function Keys(fields: seq<(string, Value)>): (ks: seq<string>)
    ensures |ks| == |fields|
    ensures forall k :: k in ks <==> Has(fields, k)
  {
    var ks := seq(|fields|, i requires 0 <= i < |fields| => fields[i].0);
    assert forall k :: k in ks ==> exists i :: 0 <= i < |fields| && ks[i] == k && fields[i].0 == k;
    assert forall i :: 0 <= i < |fields| ==> ks[i] == fields[i].0 && ks[i] in ks;
    ks
  }

  /** What a real Python dict guarantees: no key twice. */
  predicate DistinctKeys(fields: seq<(string, Value)>)
  {
    forall i, j :: 0 <= i < j < |fields| ==> fields[i].0 != fields[j].0
  }

  /** `key in d`. */
  predicate Has(fields: seq<(string, Value)>, key: string)
  {
    exists i :: 0 <= i < |fields| && fields[i].0 == key
  }

  /** The keys come in insertion order, and a dict lists each of its keys once. */
  lemma KeysOrder(fields: seq<(string, Value)>)
    ensures forall i :: 0 <= i < |fields| ==> Keys(fields)[i] == fields[i].0
    ensures DistinctKeys(fields) ==> forall i, j :: 0 <= i < j < |fields| ==> Keys(fields)[i] != Keys(fields)[j]
  {
  }

  /** `d.get(key, default)`. */
  function Get(fields: seq<(string, Value)>, key: string, default: Value): Value
  {
    if |fields| == 0 then default
    else if fields[0].0 == key then fields[0].1
    else Get(fields[1..], key, default)
  }

  /** `d.get(key, default)` is the default exactly when the key is absent... */
  lemma {:induction false} GetAbsent(fields: seq<(string, Value)>, key: string, default: Value)
    requires !Has(fields, key)
    ensures Get(fields, key, default) == default
  {
    if |fields| > 0 {
      assert forall i :: 0 <= i < |fields| - 1 ==> fields[1..][i].0 == fields[i + 1].0;
      GetAbsent(fields[1..], key, default);
    }
  }

  /** ... and otherwise the value of the first entry with that key. */
  lemma {:induction false} GetFirst(fields: seq<(string, Value)>, key: string, default: Value, i: nat)
    requires i < |fields| && fields[i].0 == key
    requires forall j :: 0 <= j < i ==> fields[j].0 != key
    ensures Get(fields, key, default) == fields[i].1
  {
    if i > 0 {
      GetFirst(fields[1..], key, default, i - 1);
    }
  }

  /** In a dict without repeated keys, the entry at position i is what `d.get` finds. */
  lemma GetAt(fields: seq<(string, Value)>, i: nat, default: Value)
    requires DistinctKeys(fields) && i < |fields|
    ensures Get(fields, fields[i].0, default) == fields[i].1
  {
    GetFirst(fields, fields[i].0, default, i);
  }

  /** `d[key] = value`: overwrite in place when present, otherwise append. */
  function Put(fields: seq<(string, Value)>, key: string, value: Value): seq<(string, Value)>
  {
    if |fields| == 0 then [(key, value)]
    else if fields[0].0 == key then [(key, value)] + fields[1..]
    else [fields[0]] + Put(fields[1..], key, value)
  }

  /** After `d[key] = value`, `d.get(key)` is value and every other key reads as before. */
  lemma {:induction false} PutGet(fields: seq<(string, Value)>, key: string, value: Value, other: string, default: Value)
    ensures Get(Put(fields, key, value), key, default) == value
    ensures other != key ==> Get(Put(fields, key, value), other, default) == Get(fields, other, default)
  {
    if |fields| > 0 && fields[0].0 != key {
      PutGet(fields[1..], key, value, other, default);
    }
  }

  /** The keys of a dict with one more entry in front. */
  lemma KeysCons(e: (string, Value), rest: seq<(string, Value)>)
    ensures Keys([e] + rest) == [e.0] + Keys(rest)
  {
    assert forall i :: 0 < i <= |rest| ==> ([e] + rest)[i] == rest[i - 1];
  }

  /** `d[key] = value` leaves the key order alone when the key is present... */
  lemma {:induction false} PutPresentKeys(fields: seq<(string, Value)>, key: string, value: Value)
    requires Has(fields, key)
    ensures Keys(Put(fields, key, value)) == Keys(fields)
  {
    assert fields == [fields[0]] + fields[1..];
    if fields[0].0 != key {
      var i :| 0 <= i < |fields| && fields[i].0 == key;
      assert fields[1..][i - 1].0 == key;
      PutPresentKeys(fields[1..], key, value);
      KeysCons(fields[0], fields[1..]);
      KeysCons(fields[0], Put(fields[1..], key, value));
    } else {
      KeysCons(fields[0], fields[1..]);
      KeysCons((key, value), fields[1..]);
    }
  }

  /** ... and appends a new key at the end. */
  lemma {:induction false} PutAbsentKeys(fields: seq<(string, Value)>, key: string, value: Value)
    requires !Has(fields, key)
    ensures Put(fields, key, value) == fields + [(key, value)]
  {
    if |fields| > 0 {
      assert forall i :: 0 <= i < |fields| - 1 ==> fields[1..][i].0 == fields[i + 1].0;
      PutAbsentKeys(fields[1..], key, value);
      assert [fields[0]] + (fields[1..] + [(key, value)]) == fields + [(key, value)];
    }
  }

  /** The quote `repr` puts around a string: a single quote, unless the
      string holds a single quote and no double quote. */
  function QuoteFor(s: string): (q: char)
    ensures q == '\'' || q == '"'
    ensures q == '"' ==> q !in s
  {
    if '\'' in s && '"' !in s then '"' else '\''
  }

  /** A lower-case hexadecimal digit, as `repr` writes it in `\xNN`. */
  function HexDigit(d: nat): char
    requires d < 16
  {
    "0123456789abcdef"[d]
  }

  /** A character `repr` writes as a `\xNN` escape: the ASCII control characters. */
  predicate Control(c: char)
  {
    c as int < 32 || c as int == 127
  }

  /** How `repr` writes one character of a string it quotes with q: the
      backslash and q itself get a backslash, newline, carriage return and tab
      their letter escapes, other control characters `\xNN`. */
  function EscapeChar(c: char, q: char): string
  {
    if c == '\\' then "\\\\"
    else if c == q then ['\\', q]
    else if c == '\n' then "\\n"
    else if c == '\r' then "\\r"
    else if c == '\t' then "\\t"
    else if Control(c) then ['\\', 'x', HexDigit(c as int / 16), HexDigit(c as int % 16)]
    else [c]
  }

  /** The inside of a quoted string, character by character. */
  function Escaped(s: string, q: char): string
  {
    if |s| == 0 then "" else EscapeChar(s[0], q) + Escaped(s[1..], q)
  }

  /** A character `repr` copies as it is. */
  predicate Plain(c: char, q: char)
  {
    c != '\\' && c != q && !Control(c)
  }

  /** Characters that need no escape are copied unchanged. */
  lemma {:induction false} EscapedPlain(s: string, q: char)
    requires forall i :: 0 <= i < |s| ==> Plain(s[i], q)
    ensures Escaped(s, q) == s
  {
    if |s| > 0 {
      EscapedPlain(s[1..], q);
      assert s == [s[0]] + s[1..];
    }
  }

  /** `repr(s)` for a string. */
  function StrRepr(s: string): string
  {
    [QuoteFor(s)] + Escaped(s, QuoteFor(s)) + [QuoteFor(s)]
  }

  /** A string without backslashes or control characters is printed between
      single quotes, or between double quotes when it holds a single quote
      and no double quote; a string holding both kinds of quote keeps single
      quotes and escapes them. */
  lemma StrReprQuotes(s: string)
    requires forall i :: 0 <= i < |s| ==> s[i] != '\\' && !Control(s[i])
    ensures '\'' !in s ==> StrRepr(s) == "'" + s + "'"
    ensures '\'' in s && '"' !in s ==> StrRepr(s) == "\"" + s + "\""
    ensures '\'' in s && '"' in s ==> QuoteFor(s) == '\'' && EscapeChar('\'', QuoteFor(s)) == "\\'"
  {
    if '\'' !in s || '"' !in s {
      EscapedPlain(s, QuoteFor(s));
    }
  }

  /** `repr(v)`, which Python uses for the elements of a printed list or dict. */
  function Repr(v: Value): string
  {
    match v
    case Null => "None"
    case Bool(b) => if b then "True" else "False"
    case Num(n) => IntToString(n)
    case Str(s) => StrRepr(s)
    case Arr(items) =>
      "[" + Join(seq(|items|, i requires 0 <= i < |items| => Repr(items[i])), ", ") + "]"
    case Obj(fields) =>
      "{" + Join(seq(|fields|, i requires 0 <= i < |fields| => StrRepr(fields[i].0) + ": " + Repr(fields[i].1)), ", ") + "}"
  }

  /** `str(v)`: a string prints as itself, everything else as its repr. */
  function ToStr(v: Value): (r: string)
    ensures v.Str? ==> r == v.s
    ensures v.Arr? ==> |r| >= 2 && r[0] == '[' && r[|r| - 1] == ']'
    ensures v.Obj? ==> |r| >= 2 && r[0] == '{' && r[|r| - 1] == '}'
  {
    if v.Str? then v.s else Repr(v)
  }

  /** A list holding `it's` prints with double quotes, as Python does. */
  lemma ReprOfApostrophe()
    ensures ToStr(Arr([Str("it's")])) == "[\"it's\"]"
  {
    StrReprQuotes("it's");
    assert Repr(Str("it's")) == "\"it's\"";
    var parts := seq(1, i requires 0 <= i < 1 => Repr([Str("it's")][i]));
    assert parts == ["\"it's\""];
  }
}
