/**
 * The dynamically typed values that flow through the wizard and the renderer:
 * Python's `str`, `int`, `bool`, `None`, `list` and `dict` as decoded from JSON.
 * A dict is an ORDERED list of key/value pairs because Python dicts keep
 * insertion order, and that order decides the order of emitted blocks and columns.
 */
module JsonValue {
  import opened Wrappers
  import opened Text

  datatype Json =
    | JStr(str: string)
    | JInt(num: int)
    | JBool(flag: bool)
    | JNull
    | JList(items: seq<Json>)
    | JObj(fields: seq<(string, Json)>)

  /** Python truthiness: `not v` holds exactly for these values. */
  predicate Falsy(v: Json) {
    match v
    case JStr(s) => s == []
    case JInt(i) => i == 0
    case JBool(b) => !b
    case JNull => true
    case JList(xs) => xs == []
    case JObj(kvs) => kvs == []
  }

  /** `list(d.keys())`: the keys of a dict, in insertion order. */
  function Keys(kvs: seq<(string, Json)>): (ks: seq<string>)
    ensures |ks| == |kvs| && forall i :: 0 <= i < |kvs| ==> ks[i] == kvs[i].0
  {
    seq(|kvs|, i requires 0 <= i < |kvs| => kvs[i].0)
  }

  /** `d[k]` when `k in d`: the value stored under the first occurrence of `k`. */
  function Find(kvs: seq<(string, Json)>, k: string): (r: Option<Json>)
    ensures r.None? <==> k !in Keys(kvs)
  {
    if kvs == [] then None
    else if kvs[0].0 == k then Some(kvs[0].1)
    else
      assert Keys(kvs) == [kvs[0].0] + Keys(kvs[1..]);
      Find(kvs[1..], k)
  }

  /** `d.get(k, default)`; raises when `d` is not a dict. */
  function Get(d: Json, k: string, default: Json): Result<Json> {
    match d
    case JObj(kvs) => Ok(match Find(kvs, k) case Some(v) => v case None => default)
    case _ => Raised(AttributeError)
  }

  /** What a Python `for` loop visits: list elements, dict keys or string characters. */
  function Iterate(v: Json): Result<seq<Json>> {
    match v
    case JList(xs) => Ok(xs)
    case JObj(kvs) => Ok(seq(|kvs|, i requires 0 <= i < |kvs| => JStr(kvs[i].0)))
    case JStr(s) => Ok(seq(|s|, i requires 0 <= i < |s| => JStr([s[i]])))
    case _ => Raised(TypeError)
  }

  /** Concatenation of `f(c)` over the characters of `s`. */
  function ConcatMap(s: string, f: char -> string): string {
    if s == [] then [] else f(s[0]) + ConcatMap(s[1..], f)
  }

  function HexDigit(d: nat): char
    requires d < 16
  {
    if d < 10 then DigitChar(d) else ('a' as int + d - 10) as char
  }

  /** One character inside a `json.dumps` string literal (ensure_ascii=False). */
  function JsonEscape(c: char): string {
    if c == '"' then "\\\""
    else if c == '\\' then "\\\\"
    else if c == '\n' then "\\n"
    else if c == '\r' then "\\r"
    else if c == '\t' then "\\t"
    else if c == '\U{8}' then "\\b"
    else if c == '\U{C}' then "\\f"
    else if (c as int) < 0x20 then "\\u00" + [HexDigit(c as int / 16), HexDigit(c as int % 16)]
    else [c]
  }

  /** A JSON string literal. */
  function DumpsString(s: string): string {
    "\"" + ConcatMap(s, JsonEscape) + "\""
  }

  /** `json.dumps(v, ensure_ascii=False)` with Python's default separators. */
  function Dumps(v: Json): string
    decreases v, 1, 0
  {
    match v
    case JStr(s) => DumpsString(s)
    case JInt(i) => IntToString(i)
    case JBool(b) => if b then "true" else "false"
    case JNull => "null"
    case JList(xs) => "[" + DumpsItems(v, 0) + "]"
    case JObj(kvs) => "{" + DumpsFields(v, 0) + "}"
  }

  /** The elements of a list from index `k` on, each preceded by `", "` except the first. */
  function DumpsItems(v: Json, k: nat): string
    requires v.JList? && k <= |v.items|
    decreases v, 0, |v.items| - k
  {
    if k == |v.items| then []
    else (if k == 0 then [] else ", ") + Dumps(v.items[k]) + DumpsItems(v, k + 1)
  }

  /** The entries of a dict from index `k` on, as `"key": value`. */
  function DumpsFields(v: Json, k: nat): string
    requires v.JObj? && k <= |v.fields|
    decreases v, 0, |v.fields| - k
  {
    if k == |v.fields| then []
    else
      (if k == 0 then [] else ", ") + DumpsString(v.fields[k].0) + ": " + Dumps(v.fields[k].1)
      + DumpsFields(v, k + 1)
  }

  /** The quote `repr` puts around a string: single, unless only double quotes avoid escapes. */
  function ReprQuote(s: string): char {
    if '\'' in s && '"' !in s then '"' else '\''
  }

  /** One character inside a `repr` string literal quoted with `q`. */
  function ReprEscape(c: char, q: char): string {
    if c == '\\' then "\\\\" else if c == q then ['\\', q]
    else if c == '\n' then "\\n" else if c == '\r' then "\\r"
    else if c == '\t' then "\\t" else [c]
  }

  function ReprChars(s: string, q: char): string {
    if s == [] then [] else ReprEscape(s[0], q) + ReprChars(s[1..], q)
  }

  /** Python's `repr(s)` for a string. */
  function ReprString(s: string): string {
    var q := ReprQuote(s);
    [q] + ReprChars(s, q) + [q]
  }

  /** Python's `repr(v)`, which `str` uses for the elements of lists and dicts. */
  function Repr(v: Json): string
    decreases v, 1, 0
  {
    match v
    case JStr(s) => ReprString(s)
    case JInt(i) => IntToString(i)
    case JBool(b) => if b then "True" else "False"
    case JNull => "None"
    case JList(xs) => "[" + ReprItems(v, 0) + "]"
    case JObj(kvs) => "{" + ReprFields(v, 0) + "}"
  }

  function ReprItems(v: Json, k: nat): string
    requires v.JList? && k <= |v.items|
    decreases v, 0, |v.items| - k
  {
    if k == |v.items| then []
    else (if k == 0 then [] else ", ") + Repr(v.items[k]) + ReprItems(v, k + 1)
  }

  function ReprFields(v: Json, k: nat): string
    requires v.JObj? && k <= |v.fields|
    decreases v, 0, |v.fields| - k
  {
    if k == |v.fields| then []
    else
      (if k == 0 then [] else ", ") + ReprString(v.fields[k].0) + ": " + Repr(v.fields[k].1)
      + ReprFields(v, k + 1)
  }

  /** Python's `str(v)` (also what an f-string inserts for `{v}`). */
  function PyStr(v: Json): string {
    if v.JStr? then v.str else Repr(v)
  }
}
