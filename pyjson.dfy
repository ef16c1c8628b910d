/**
 * Values as Python's `json.loads` builds them (JSON numbers other than
 * integers are not modelled), with the Python behaviour the servers lean on:
 * truthiness, `dict.get`, `int(...)` and `str(...)`.
 */
module PyJson {
  import opened Wrappers
  import opened Strings

  /**
   * A parsed JSON value. An object lists its members in insertion order; like
   * the dict `json.loads` returns, it is meant to hold each key once.
   */
  datatype Json =
    | JNull
    | JBool(b: bool)
    | JInt(i: int)
    | JStr(s: string)
    | JArray(items: seq<Json>)
    | JObject(fields: seq<(string, Json)>)

  /** Python's `bool(v)`. */
  predicate Truthy(v: Json) {
    match v
      case JNull => false
      case JBool(b) => b
      case JInt(i) => i != 0
      case JStr(s) => s != []
      case JArray(items) => items != []
      case JObject(fields) => fields != []
  }

  /** The value stored under `key` at its first occurrence, if the object has that key. */
  function Lookup(fields: seq<(string, Json)>, key: string): Option<Json> {
    if fields == [] then None
    else if fields[0].0 == key then Some(fields[0].1)
    else Lookup(fields[1..], key)
  }

  /** A lookup fails exactly when no field has the key, and what it finds is stored under the key. */
  lemma {:induction false} LookupFinds(fields: seq<(string, Json)>, key: string)
    ensures Lookup(fields, key).None? <==> forall i :: 0 <= i < |fields| ==> fields[i].0 != key
    ensures Lookup(fields, key).Some? ==> exists i :: 0 <= i < |fields| && fields[i] == (key, Lookup(fields, key).value)
  {
    if fields != [] && fields[0].0 != key {
      LookupFinds(fields[1..], key);
      assert forall i :: 1 <= i < |fields| ==> fields[i] == fields[1..][i - 1];
      if Lookup(fields, key).Some? {
        var k :| 0 <= k < |fields[1..]| && fields[1..][k] == (key, Lookup(fields, key).value);
        assert fields[k + 1] == (key, Lookup(fields, key).value);
      }
    }
  }

  /** A key is found at its first occurrence. */
  lemma {:induction false} LookupAt(fields: seq<(string, Json)>, i: nat, key: string)
    requires i < |fields| && fields[i].0 == key
    requires forall j :: 0 <= j < i ==> fields[j].0 != key
    ensures Lookup(fields, key) == Some(fields[i].1)
    decreases i
  {
    if i > 0 {
      LookupAt(fields[1..], i - 1, key);
    }
  }

  /** Looking up in two field lists laid end to end searches the first list, then the second. */
  lemma {:induction false} LookupAppend(a: seq<(string, Json)>, b: seq<(string, Json)>, key: string)
    ensures Lookup(a + b, key) == if Lookup(a, key).Some? then Lookup(a, key) else Lookup(b, key)
    decreases |a|
  {
    if a != [] {
      assert (a + b)[1..] == a[1..] + b;
      LookupAppend(a[1..], b, key);
    } else {
      assert a + b == b;
    }
  }

  /** `obj.get(key, default)` on a dict. */
  function GetOr(fields: seq<(string, Json)>, key: string, default: Json): Json {
    match Lookup(fields, key)
      case Some(v) => v
      case None => default
  }

  /** A list of strings as a JSON array. */
  function StrList(l: seq<string>): (v: Json)
    ensures v.JArray? && |v.items| == |l|
  {
    JArray(seq(|l|, i requires 0 <= i < |l| => JStr(l[i])))
  }

  /** `None` for an absent optional string, the string otherwise. */
  function OptStr(o: Option<string>): Json {
    match o
      case None => JNull
      case Some(s) => JStr(s)
  }

  /** Python's `type(v).__name__`, as it appears in `AttributeError` and `TypeError` messages. */
  function TypeName(v: Json): string {
    match v
      case JNull => "NoneType"
      case JBool(_) => "bool"
      case JInt(_) => "int"
      case JStr(_) => "str"
      case JArray(_) => "list"
      case JObject(_) => "dict"
  }

  /** The message of the `AttributeError` that `v.get(...)` raises on anything but a dict. */
  function NoGetMessage(v: Json): string {
    "'" + TypeName(v) + "' object has no attribute 'get'"
  }

  /** Python's `int(v)`; `None` where Python raises. */
  function ToInt(v: Json): Option<int> {
    match v
      case JInt(i) => Some(i)
      case JBool(b) => Some(if b then 1 else 0)
      case JStr(s) => PyInt(s)
      case _ => None
  }

  const HexDigits: string := "0123456789abcdef"

  function Hex2(n: nat): string
    requires n < 256
  {
    [HexDigits[n / 16], HexDigits[n % 16]]
  }

  /** One character inside `repr` of a string quoted with `quote`. */
  function ReprChar(c: char, quote: char): string {
    var n := c as int;
    if c == '\\' then "\\\\"
    else if c == quote then ['\\', quote]
    else if c == '\t' then "\\t"
    else if c == '\n' then "\\n"
    else if c == '\r' then "\\r"
    else if n < 32 || (127 <= n <= 160) || n == 173 then "\\x" + Hex2(n)
    else [c]
  }

  function ReprChars(s: string, quote: char): string {
    if s == [] then [] else ReprChar(s[0], quote) + ReprChars(s[1..], quote)
  }

  /** Python's `repr` of a string: single quotes unless the text has a single quote and no double quote. */
  function StrRepr(s: string): string {
    var quote := if '\'' in s && '"' !in s then '"' else '\'';
    [quote] + ReprChars(s, quote) + [quote]
  }

  function JoinComma(parts: seq<string>): string {
    if parts == [] then []
    else if |parts| == 1 then parts[0]
    else parts[0] + ", " + JoinComma(parts[1..])
  }

  /** Python's `repr(v)`. */
  function Repr(v: Json): string
    decreases v
  {
    match v
      case JNull => "None"
      case JBool(b) => if b then "True" else "False"
      case JInt(i) => IntToDecimal(i)
      case JStr(s) => StrRepr(s)
      case JArray(items) =>
        "[" + JoinComma(seq(|items|, k requires 0 <= k < |items| => Repr(items[k]))) + "]"
      case JObject(fields) =>
        "{" + JoinComma(seq(|fields|, k requires 0 <= k < |fields| =>
          StrRepr(fields[k].0) + ": " + Repr(fields[k].1))) + "}"
  }

  /** Python's `str(v)`, which is what an f-string inserts. */
  function PyStr(v: Json): (r: string)
    ensures v.JStr? ==> r == v.s
    ensures v.JInt? ==> PyInt(r) == Some(v.i)
  {
    if v.JStr? then v.s
    else if v.JInt? then PyIntRoundTrip(v.i); Repr(v)
    else Repr(v)
  }
}
