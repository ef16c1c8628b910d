/**
 * The text `json.dumps` writes for a list of strings (with its default
 * `ensure_ascii=True` and `", "` separator), the reading of that text back
 * with `json.loads`, and the round trip between them. The stores keep
 * redirect-URI lists in a text column in this form.
 */
module JsonText {
  import opened Wrappers
  import opened Strings

  const HexLower: string := "0123456789abcdef"

  function Hex2(m: nat): (r: string)
    requires m < 256
    ensures |r| == 2
  {
    [HexLower[m / 16], HexLower[m % 16]]
  }

  /** Four lower-case hex digits, as in `\u00e9`. */
  function Hex4(n: nat): (r: string)
    requires n < 65536
    ensures |r| == 4
  {
    Hex2(n / 256) + Hex2(n % 256)
  }

  function HexValue(c: char): Option<nat> {
    if '0' <= c <= '9' then Some(c as int - 48)
    else if 'a' <= c <= 'f' then Some(c as int - 87)
    else if 'A' <= c <= 'F' then Some(c as int - 55)
    else None
  }

  function ParseHex2(s: string): (r: Option<nat>)
    requires |s| == 2
    ensures r.Some? ==> r.value < 256
  {
    match (HexValue(s[0]), HexValue(s[1]))
      case (Some(a), Some(b)) => if a < 16 && b < 16 then Some(a * 16 + b) else None
      case _ => None
  }

  function ParseHex4(s: string): (r: Option<nat>)
    requires |s| == 4
    ensures r.Some? ==> r.value < 65536
  {
    match (ParseHex2(s[..2]), ParseHex2(s[2..]))
      case (Some(a), Some(b)) => Some(a * 256 + b)
      case _ => None
  }

  lemma HexDigitRoundTrip(d: nat)
    requires d < 16
    ensures HexValue(HexLower[d]) == Some(d)
  {
  }

  lemma Hex2RoundTrip(m: nat)
    requires m < 256
    ensures ParseHex2(Hex2(m)) == Some(m)
  {
    HexDigitRoundTrip(m / 16);
    HexDigitRoundTrip(m % 16);
  }

  lemma Hex4RoundTrip(n: nat)
    requires n < 65536
    ensures ParseHex4(Hex4(n)) == Some(n)
  {
    var h := Hex4(n);
    assert h[..2] == Hex2(n / 256) && h[2..] == Hex2(n % 256);
    Hex2RoundTrip(n / 256);
    Hex2RoundTrip(n % 256);
  }

  /** How `json.dumps` writes one character inside a string. */
  function EscapeChar(c: char): (r: string)
    ensures |r| >= 1 && r[0] != '"'
  {
    var n := c as int;
    if c == '"' then "\\\""
    else if c == '\\' then "\\\\"
    else if c == '\n' then "\\n"
    else if c == '\r' then "\\r"
    else if c == '\t' then "\\t"
    else if n == 8 then "\\b"
    else if n == 12 then "\\f"
    else if n < 32 then "\\u" + Hex4(n)
    else if n < 128 then [c]
    else if n < 65536 then "\\u" + Hex4(n)
    else SurrogatePair(n - 0x10000)
  }

  /** The two `\\u` escapes `json.dumps` writes for a character beyond U+FFFF, `v` above U+10000. */
  function SurrogatePair(v: nat): string
    requires v < 0x100000
  {
    "\\u" + Hex4(0xD800 + v / 1024) + "\\u" + Hex4(0xDC00 + v % 1024)
  }

  function EscapeString(s: string): string {
    if s == [] then [] else EscapeChar(s[0]) + EscapeString(s[1..])
  }

  /** `json.dumps(s)` for a string. */
  function EncodeString(s: string): string {
    "\"" + EscapeString(s) + "\""
  }

  function EncodeItems(l: seq<string>): string {
    if l == [] then []
    else if |l| == 1 then EncodeString(l[0])
    else EncodeString(l[0]) + ", " + EncodeItems(l[1..])
  }

  /** `json.dumps(l)` for a list of strings. */
  function EncodeStringList(l: seq<string>): string {
    "[" + EncodeItems(l) + "]"
  }

  /** The character a two-character escape such as `\n` stands for. */
  function ShortEscape(e: char): Option<char> {
    if e == '"' then Some('"')
    else if e == '\\' then Some('\\')
    else if e == '/' then Some('/')
    else if e == 'b' then Some(8 as char)
    else if e == 'f' then Some(12 as char)
    else if e == 'n' then Some('\n')
    else if e == 'r' then Some('\r')
    else if e == 't' then Some('\t')
    else None
  }

  /** Reads a `\uXXXX` escape, or a surrogate pair of them, from `t` (which starts after the `\u`). */
  function DecodeUnicodeEscape(t: string): (r: Option<(char, string)>)
    ensures r.Some? ==> |r.value.1| < |t|
  {
    if |t| < 4 then None
    else match ParseHex4(t[..4])
      case None => None
      case Some(h) =>
        if 0xD800 <= h < 0xDC00 then
          if |t| >= 10 && t[4..6] == "\\u" then
            match ParseHex4(t[6..10])
              case Some(lo) =>
                if 0xDC00 <= lo < 0xE000 then
                  Some(((0x10000 + (h - 0xD800) * 1024 + (lo - 0xDC00)) as char, t[10..]))
                else None
              case None => None
          else None
        else if h < 0xE000 && h >= 0xDC00 then None
        else Some((h as char, t[4..]))
  }

  /** Reads one (possibly escaped) character of a JSON string; the text does not start at the closing quote. */
  function DecodeChar(t: string): (r: Option<(char, string)>)
    requires t != [] && t[0] != '"'
    ensures r.Some? ==> |r.value.1| < |t|
  {
    if t[0] == '\\' then
      if |t| < 2 then None
      else if t[1] == 'u' then DecodeUnicodeEscape(t[2..])
      else match ShortEscape(t[1])
        case Some(c) => Some((c, t[2..]))
        case None => None
    else if (t[0] as int) < 32 then None
    else Some((t[0], t[1..]))
  }

  /** Reads the rest of a JSON string up to its closing quote: the text read and what follows the quote. */
  function DecodeStringBody(t: string): (r: Option<(string, string)>)
    ensures r.Some? ==> |r.value.1| < |t|
    decreases |t|
  {
    if t == [] then None
    else if t[0] == '"' then Some(([], t[1..]))
    else match DecodeChar(t)
      case None => None
      case Some((c, rest)) =>
        match DecodeStringBody(rest)
          case None => None
          case Some((s, after)) => Some(([c] + s, after))
  }

  function DecodeItems(t: string): Option<seq<string>>
    decreases |t|
  {
    if t == [] || t[0] != '"' then None
    else match DecodeStringBody(t[1..])
      case None => None
      case Some((s, rest)) =>
        if rest == "]" then Some([s])
        else if |rest| >= 2 && rest[..2] == ", " then
          match DecodeItems(rest[2..])
            case None => None
            case Some(more) => Some([s] + more)
        else None
  }

  /** `json.loads` of the text `json.dumps` writes for a list of strings. */
  function DecodeStringList(t: string): Option<seq<string>> {
    if t == "[]" then Some([])
    else if |t| >= 2 && t[0] == '[' then DecodeItems(t[1..])
    else None
  }

  lemma UnicodeEscapeDecodes(n: nat, more: string)
    requires n < 0xD800 || 0xE000 <= n < 65536
    ensures DecodeUnicodeEscape(Hex4(n) + more) == Some((n as char, more))
  {
    var t := Hex4(n) + more;
    assert t[..4] == Hex4(n);
    Hex4RoundTrip(n);
    assert t[4..] == more;
  }

  lemma SurrogatePairDecodes(hi: nat, lo: nat, more: string)
    requires 0xD800 <= hi < 0xDC00 && 0xDC00 <= lo < 0xE000
    ensures DecodeUnicodeEscape(Hex4(hi) + "\\u" + Hex4(lo) + more)
      == Some(((0x10000 + (hi - 0xD800) * 1024 + (lo - 0xDC00)) as char, more))
  {
    var t := Hex4(hi) + "\\u" + Hex4(lo) + more;
    assert t[..4] == Hex4(hi);
    assert t[4..6] == "\\u";
    assert t[6..10] == Hex4(lo);
    assert t[10..] == more;
    Hex4RoundTrip(hi);
    Hex4RoundTrip(lo);
  }

  lemma SplitCodePoint(v: int)
    requires 0 <= v < 0x100000
    ensures 0 <= v / 1024 < 1024 && (v / 1024) * 1024 + v % 1024 == v
  {
  }

  lemma ShortEscapeDecodes(c: char, more: string)
    requires HasShortEscape(c)
    ensures DecodeChar(EscapeChar(c) + more) == Some((c, more))
  {
    var t := EscapeChar(c) + more;
    assert |EscapeChar(c)| == 2 && t[0] == '\\' && t[1] == EscapeChar(c)[1];
    assert ShortEscape(EscapeChar(c)[1]) == Some(c);
    assert t[2..] == more;
  }

  predicate HasShortEscape(c: char) {
    c == '"' || c == '\\' || c == '\n' || c == '\r' || c == '\t' || c as int == 8 || c as int == 12
  }

  lemma BmpEscapeDecodes(c: char, more: string)
    requires !HasShortEscape(c) && (c as int < 32 || 128 <= c as int < 65536)
    ensures DecodeChar(EscapeChar(c) + more) == Some((c, more))
  {
    var n := c as int;
    var t := EscapeChar(c) + more;
    assert EscapeChar(c) == "\\u" + Hex4(n);
    assert t[2..] == Hex4(n) + more;
    UnicodeEscapeDecodes(n, more);
  }

  lemma PlainCharDecodes(c: char, more: string)
    requires !HasShortEscape(c) && 32 <= c as int < 128
    ensures DecodeChar(EscapeChar(c) + more) == Some((c, more))
  {
    var t := EscapeChar(c) + more;
    assert EscapeChar(c) == [c];
    assert t[1..] == more;
  }

  /** The two halves of a code point above U+FFFF, and how they recombine. */
  lemma SurrogateHalves(n: int) returns (hi: nat, lo: nat)
    requires 0x10000 <= n < 0x110000
    ensures hi == 0xD800 + (n - 0x10000) / 1024 && lo == 0xDC00 + (n - 0x10000) % 1024
    ensures 0xD800 <= hi < 0xDC00 && 0xDC00 <= lo < 0xE000
    ensures 0x10000 + (hi - 0xD800) * 1024 + (lo - 0xDC00) == n
  {
    SplitCodePoint(n - 0x10000);
    hi, lo := 0xD800 + (n - 0x10000) / 1024, 0xDC00 + (n - 0x10000) % 1024;
  }

  /** Where the second escape of a surrogate pair starts. */
  lemma SurrogateText(a: string, b: string, more: string)
    requires |a| == 4 && |b| == 4
    ensures var t := "\\u" + a + "\\u" + b + more;
      t[0] == '\\' && t[1] == 'u' && t[2..] == a + "\\u" + b + more
  {
  }

  lemma EscapeAstral(c: char)
    requires c as int >= 65536
    ensures EscapeChar(c) == SurrogatePair(c as int - 0x10000)
  {
  }

  lemma SurrogatePairText(n: int, hi: nat, lo: nat)
    requires 0x10000 <= n < 0x110000
    requires hi == 0xD800 + (n - 0x10000) / 1024 && lo == 0xDC00 + (n - 0x10000) % 1024
    requires hi < 65536 && lo < 65536
    ensures SurrogatePair(n - 0x10000) == "\\u" + Hex4(hi) + "\\u" + Hex4(lo)
  {
  }

  /** A surrogate pair, read back, is the code point it was written for. */
  lemma SurrogatePairReads(n: int, more: string)
    requires 0x10000 <= n < 0x110000
    ensures DecodeChar(SurrogatePair(n - 0x10000) + more) == Some((n as char, more))
  {
    var hi, lo := SurrogateHalves(n);
    SurrogatePairText(n, hi, lo);
    SurrogateText(Hex4(hi), Hex4(lo), more);
    SurrogatePairDecodes(hi, lo, more);
  }

  lemma AstralCharDecodes(c: char, more: string)
    requires c as int >= 65536
    ensures DecodeChar(EscapeChar(c) + more) == Some((c, more))
  {
    EscapeAstral(c);
    SurrogatePairReads(c as int, more);
  }

  lemma EscapeCharDecodes(c: char, more: string)
    ensures DecodeChar(EscapeChar(c) + more) == Some((c, more))
  {
    var n := c as int;
    if HasShortEscape(c) {
      ShortEscapeDecodes(c, more);
    } else if n < 32 || (128 <= n < 65536) {
      BmpEscapeDecodes(c, more);
    } else if n < 128 {
      PlainCharDecodes(c, more);
    } else {
      AstralCharDecodes(c, more);
    }
  }

  lemma EscapeStringStep(s: string, rest: string)
    requires s != []
    ensures EscapeString(s) + "\"" + rest == EscapeChar(s[0]) + (EscapeString(s[1..]) + "\"" + rest)
  {
    Regroup(EscapeChar(s[0]), EscapeString(s[1..]), "\"", rest);
  }

  lemma Regroup(a: string, b: string, q: string, r: string)
    ensures ((a + b) + q) + r == a + ((b + q) + r)
  {
  }

  /** One step of reading a string body: a character that is not the closing quote, then the rest. */
  lemma BodyStep(t: string, c: char, tail: string)
    requires t != [] && t[0] != '"' && DecodeChar(t) == Some((c, tail))
    ensures DecodeStringBody(t)
      == if DecodeStringBody(tail).Some? then Some(([c] + DecodeStringBody(tail).value.0, DecodeStringBody(tail).value.1)) else None
  {
  }

  lemma {:induction false} EscapeStringDecodes(s: string, rest: string)
    ensures DecodeStringBody(EscapeString(s) + "\"" + rest) == Some((s, rest))
    decreases |s|
  {
    if s == [] {
      assert EscapeString(s) + "\"" + rest == "\"" + rest;
    } else {
      var tail := EscapeString(s[1..]) + "\"" + rest;
      EscapeStringStep(s, rest);
      EscapeCharDecodes(s[0], tail);
      BodyStep(EscapeChar(s[0]) + tail, s[0], tail);
      EscapeStringDecodes(s[1..], rest);
      assert [s[0]] + s[1..] == s;
    }
  }

  lemma LastItemDecodes(x: string)
    ensures DecodeItems(EncodeString(x) + "]") == Some([x])
  {
    var t := EncodeString(x) + "]";
    assert t[0] == '"';
    assert t[1..] == EscapeString(x) + "\"" + "]";
    EscapeStringDecodes(x, "]");
  }

  /** One step of reading the items: a string followed by `, ` and further text. */
  lemma ItemStep(t: string, x: string, rest: string)
    requires t != [] && t[0] == '"' && DecodeStringBody(t[1..]) == Some((x, rest))
    requires |rest| >= 2 && rest[..2] == ", "
    ensures DecodeItems(t) == if DecodeItems(rest[2..]).Some? then Some([x] + DecodeItems(rest[2..]).value) else None
  {
    assert rest != "]";
  }

  lemma ItemDecodes(x: string, more: string)
    requires more != [] && more[0] == '"'
    ensures DecodeItems(EncodeString(x) + ", " + more)
      == if DecodeItems(more).Some? then Some([x] + DecodeItems(more).value) else None
  {
    var rest := ", " + more;
    var t := "\"" + (EscapeString(x) + "\"" + rest);
    assert t == EncodeString(x) + ", " + more;
    assert t[1..] == EscapeString(x) + "\"" + rest;
    EscapeStringDecodes(x, rest);
    assert rest[..2] == ", " && rest[2..] == more;
    ItemStep(t, x, rest);
  }

  lemma {:induction false} EncodeItemsDecodes(l: seq<string>)
    requires l != []
    ensures DecodeItems(EncodeItems(l) + "]") == Some(l)
    decreases |l|
  {
    if |l| == 1 {
      LastItemDecodes(l[0]);
      assert EncodeItems(l) == EncodeString(l[0]) && [l[0]] == l;
    } else {
      var more := EncodeItems(l[1..]) + "]";
      assert EncodeItems(l) + "]" == EncodeString(l[0]) + ", " + more;
      assert more[0] == '"';
      ItemDecodes(l[0], more);
      EncodeItemsDecodes(l[1..]);
      assert [l[0]] + l[1..] == l;
    }
  }

  lemma ItemsOpenWithQuote(l: seq<string>)
    requires l != []
    ensures |EncodeItems(l)| >= 1 && EncodeItems(l)[0] == '"'
  {
    assert EncodeString(l[0])[0] == '"';
  }

  lemma Bracketed(a: string)
    requires |a| >= 1 && a[0] == '"'
    ensures var t := "[" + a + "]"; t != "[]" && |t| >= 2 && t[0] == '[' && t[1..] == a + "]"
  {
    var t := "[" + a + "]";
    assert t[1] == '"';
  }

  /** Reading back what `json.dumps` wrote gives the same list. */
  lemma StringListRoundTrip(l: seq<string>)
    ensures DecodeStringList(EncodeStringList(l)) == Some(l)
  {
    if l != [] {
      ItemsOpenWithQuote(l);
      Bracketed(EncodeItems(l));
      EncodeItemsDecodes(l);
    }
  }
}
