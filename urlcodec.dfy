/**
 * The parts of Python's `urllib.parse` the servers use: `quote`,
 * `quote_plus`, `unquote`, `parse_qs`, `urlencode` and the query component of
 * `urlsplit`. Text is encoded to UTF-8 before percent-escaping, and escaped
 * bytes are decoded as UTF-8 with invalid sequences replaced by U+FFFD.
 */
module UrlCodec {
  import opened Wrappers
  import opened Strings

  // ---------------------------------------------------------------- UTF-8

  /** The UTF-8 encoding of one character. */
  function Utf8(c: char): (r: seq<nat>)
    ensures 1 <= |r| <= 4 && forall i :: 0 <= i < |r| ==> r[i] < 256
  {
    var n := c as int;
    if n < 0x80 then [n]
    else if n < 0x800 then [0xC0 + n / 64, 0x80 + n % 64]
    else if n < 0x10000 then [0xE0 + n / 4096, 0x80 + (n / 64) % 64, 0x80 + n % 64]
    else [0xF0 + n / 262144, 0x80 + (n / 4096) % 64, 0x80 + (n / 64) % 64, 0x80 + n % 64]
  }

  /** What percent-decoding sees: a byte (an escape or an ASCII character) or a character beyond ASCII. */
  datatype Unit = Byte(b: nat) | Wide(c: char)

  predicate ContAt(u: seq<Unit>, i: nat, lo: nat, hi: nat) {
    i < |u| && u[i].Byte? && lo <= u[i].b <= hi
  }

  const Replacement: char := '�'

  /**
   * Decodes the multi-byte sequence that starts at `u[0]` (a byte of 0x80 or
   * more): the character and how many units it used. An invalid or cut-off
   * sequence becomes one U+FFFD for its longest valid prefix.
   */
  function DecodeMulti(u: seq<Unit>): (r: (char, nat))
    requires u != [] && u[0].Byte? && 0x80 <= u[0].b < 256
    ensures 1 <= r.1 <= |u|
  {
    var b := u[0].b;
    if 0xC2 <= b <= 0xDF then
      if ContAt(u, 1, 0x80, 0xBF) then (((b - 0xC0) * 64 + (u[1].b - 0x80)) as char, 2)
      else (Replacement, 1)
    else if 0xE0 <= b <= 0xEF then
      var lo, hi := if b == 0xE0 then 0xA0 else 0x80, if b == 0xED then 0x9F else 0xBF;
      if !ContAt(u, 1, lo, hi) then (Replacement, 1)
      else if !ContAt(u, 2, 0x80, 0xBF) then (Replacement, 2)
      else (((b - 0xE0) * 4096 + (u[1].b - 0x80) * 64 + (u[2].b - 0x80)) as char, 3)
    else if 0xF0 <= b <= 0xF4 then
      var lo, hi := if b == 0xF0 then 0x90 else 0x80, if b == 0xF4 then 0x8F else 0xBF;
      if !ContAt(u, 1, lo, hi) then (Replacement, 1)
      else if !ContAt(u, 2, 0x80, 0xBF) then (Replacement, 2)
      else if !ContAt(u, 3, 0x80, 0xBF) then (Replacement, 3)
      else (((b - 0xF0) * 262144 + (u[1].b - 0x80) * 4096 + (u[2].b - 0x80) * 64 + (u[3].b - 0x80)) as char, 4)
    else (Replacement, 1)
  }

  /** UTF-8 decoding with `errors='replace'`; characters beyond ASCII pass through. */
  function DecodeUnits(u: seq<Unit>): string
    requires forall i :: 0 <= i < |u| ==> (u[i].Byte? ==> u[i].b < 256)
    decreases |u|
  {
    if u == [] then []
    else match u[0]
      case Wide(c) => [c] + DecodeUnits(u[1..])
      case Byte(b) =>
        if b < 0x80 then [b as char] + DecodeUnits(u[1..])
        else
          var (c, k) := DecodeMulti(u);
          [c] + DecodeUnits(u[k..])
  }

  function Bytes(b: seq<nat>): seq<Unit> {
    if b == [] then [] else [Byte(b[0])] + Bytes(b[1..])
  }

  lemma Utf8TwoBytes(n: int)
    requires 0x80 <= n < 0x800
    ensures (n / 64) * 64 + n % 64 == n && 2 <= n / 64 < 32
  {
  }

  lemma Utf8ThreeBytes(n: int)
    requires 0x800 <= n < 0x10000
    ensures (n / 4096) * 4096 + ((n / 64) % 64) * 64 + n % 64 == n
    ensures n / 4096 < 16
    ensures n / 4096 == 0 ==> (n / 64) % 64 >= 32
    ensures (n / 4096 == 13 && n < 0xD800) ==> (n / 64) % 64 < 32
  {
  }

  lemma Utf8FourBytes(n: int)
    requires 0x10000 <= n < 0x110000
    ensures (n / 262144) * 262144 + ((n / 4096) % 64) * 4096 + ((n / 64) % 64) * 64 + n % 64 == n
    ensures n / 262144 < 5
    ensures n / 262144 == 0 ==> (n / 4096) % 64 >= 16
    ensures n / 262144 == 4 ==> (n / 4096) % 64 < 16
  {
    assert n / 262144 == (n / 4096) / 64;
    assert n / 4096 == (n / 4096 / 64) * 64 + (n / 4096) % 64;
    assert n / 64 == (n / 4096) * 64 + (n / 64) % 64;
  }

  /** Decoding a character's UTF-8 bytes gives the character back, whatever follows. */
  lemma Utf8Decodes(c: char, more: seq<Unit>)
    requires forall i :: 0 <= i < |more| ==> (more[i].Byte? ==> more[i].b < 256)
    ensures var u := Bytes(Utf8(c)) + more;
      (forall i :: 0 <= i < |u| ==> (u[i].Byte? ==> u[i].b < 256))
      && DecodeUnits(u) == [c] + DecodeUnits(more)
  {
    var n := c as int;
    var e := Utf8(c);
    var u := Bytes(e) + more;
    assert Bytes(e) == seq(|e|, i requires 0 <= i < |e| => Byte(e[i])) by { BytesIndex(e); }
    assert u[|e|..] == more;
    if n < 0x80 {
    } else if n < 0x800 {
      Utf8TwoBytes(n);
      assert DecodeMulti(u) == (c, 2);
    } else if n < 0x10000 {
      Utf8ThreeBytes(n);
      assert DecodeMulti(u) == (c, 3);
    } else {
      Utf8FourBytes(n);
      assert DecodeMulti(u) == (c, 4);
    }
  }

  lemma {:induction false} BytesIndex(b: seq<nat>)
    ensures Bytes(b) == seq(|b|, i requires 0 <= i < |b| => Byte(b[i]))
  {
    if b != [] {
      BytesIndex(b[1..]);
    }
  }

  // ---------------------------------------------------------------- escaping

  predicate IsAsciiAlnum(c: char) {
    ('a' <= c <= 'z') || ('A' <= c <= 'Z') || ('0' <= c <= '9')
  }

  /** The characters `quote` never escapes. */
  predicate AlwaysSafe(c: char) {
    IsAsciiAlnum(c) || c == '_' || c == '.' || c == '-' || c == '~'
  }

  const HexUpper: string := "0123456789ABCDEF"

  function PercentByte(b: nat): (r: string)
    requires b < 256
    ensures |r| == 3 && r[0] == '%'
  {
    ['%', HexUpper[b / 16], HexUpper[b % 16]]
  }

  function PercentBytes(b: seq<nat>): string
    requires forall i :: 0 <= i < |b| ==> b[i] < 256
  {
    if b == [] then [] else PercentByte(b[0]) + PercentBytes(b[1..])
  }

  /** How `quote(s, safe)` writes one character; `quote_plus` writes a space as `+`. */
  function QuoteChar(c: char, safe: string, plus: bool): string {
    if AlwaysSafe(c) || c in safe then [c]
    else if plus && c == ' ' then "+"
    else PercentBytes(Utf8(c))
  }

  function QuoteWith(s: string, safe: string, plus: bool): string {
    if s == [] then [] else QuoteChar(s[0], safe, plus) + QuoteWith(s[1..], safe, plus)
  }

  /** `urllib.parse.quote(s)`, whose default leaves `/` as it is. */
  function Quote(s: string): string {
    QuoteWith(s, "/", false)
  }

  /** `urllib.parse.quote_plus(s)`. */
  function QuotePlus(s: string): string {
    QuoteWith(s, "", true)
  }

  // ---------------------------------------------------------------- unescaping

  function HexDigitValue(c: char): Option<nat> {
    if '0' <= c <= '9' then Some(c as int - 48)
    else if 'a' <= c <= 'f' then Some(c as int - 87)
    else if 'A' <= c <= 'F' then Some(c as int - 55)
    else None
  }

  /**
   * What `unquote` reads from `s`: `%XX` with two hex digits is a byte, any
   * other ASCII character its own byte (`+` a space when `plus`, as
   * `parse_qs` replaces it first), anything else a character.
   */
  function Units(s: string, plus: bool): (u: seq<Unit>)
    ensures forall i :: 0 <= i < |u| ==> (u[i].Byte? ==> u[i].b < 256)
    decreases |s|
  {
    if s == [] then []
    else if s[0] == '%' && |s| >= 3 && HexDigitValue(s[1]).Some? && HexDigitValue(s[2]).Some? then
      [Byte(HexDigitValue(s[1]).value * 16 + HexDigitValue(s[2]).value)] + Units(s[3..], plus)
    else if plus && s[0] == '+' then [Byte(32)] + Units(s[1..], plus)
    else if (s[0] as int) < 128 then [Byte(s[0] as int)] + Units(s[1..], plus)
    else [Wide(s[0])] + Units(s[1..], plus)
  }

  /** `urllib.parse.unquote(s)`. */
  function Unquote(s: string): string {
    DecodeUnits(Units(s, false))
  }

  /** `unquote(s.replace('+', ' '))`, what `parse_qs` applies to names and values. */
  function UnquotePlus(s: string): string {
    DecodeUnits(Units(s, true))
  }

  lemma PercentByteUnits(b: nat, rest: string, plus: bool)
    requires b < 256
    ensures Units(PercentByte(b) + rest, plus) == [Byte(b)] + Units(rest, plus)
  {
    var t := PercentByte(b) + rest;
    assert t[0] == '%' && t[1] == HexUpper[b / 16] && t[2] == HexUpper[b % 16];
    assert HexDigitValue(HexUpper[b / 16]) == Some(b / 16);
    assert HexDigitValue(HexUpper[b % 16]) == Some(b % 16);
    assert t[3..] == rest;
  }

  lemma ConcatAssoc<T>(a: seq<T>, b: seq<T>, c: seq<T>)
    ensures a + (b + c) == (a + b) + c
  {
  }

  lemma {:induction false} PercentBytesUnits(b: seq<nat>, rest: string, plus: bool)
    requires forall i :: 0 <= i < |b| ==> b[i] < 256
    ensures Units(PercentBytes(b) + rest, plus) == Bytes(b) + Units(rest, plus)
    decreases |b|
  {
    if b != [] {
      var tail := PercentBytes(b[1..]) + rest;
      var head := PercentByte(b[0]);
      assert PercentBytes(b) + rest == head + tail;
      PercentByteUnits(b[0], tail, plus);
      PercentBytesUnits(b[1..], rest, plus);
      var u1, u2 := Bytes(b[1..]), Units(rest, plus);
      assert Units(head + tail, plus) == [Byte(b[0])] + (u1 + u2);
      assert Bytes(b) == [Byte(b[0])] + u1;
      ConcatAssoc([Byte(b[0])], u1, u2);
    } else {
      assert PercentBytes(b) + rest == rest;
      assert Bytes(b) + Units(rest, plus) == Units(rest, plus);
    }
  }

  /** Reading back one quoted character gives the character, whatever follows. */
  lemma QuoteCharDecodes(c: char, safe: string, plus: bool, rest: string)
    requires forall i :: 0 <= i < |safe| ==> (safe[i] as int) < 128 && safe[i] != '%' && safe[i] != '+'
    ensures DecodeUnits(Units(QuoteChar(c, safe, plus) + rest, plus)) == [c] + DecodeUnits(Units(rest, plus))
  {
    var q := QuoteChar(c, safe, plus);
    if AlwaysSafe(c) || c in safe {
      assert (q + rest)[1..] == rest;
      assert Units(q + rest, plus) == [Byte(c as int)] + Units(rest, plus);
    } else if plus && c == ' ' {
      assert (q + rest)[1..] == rest;
      assert Units(q + rest, plus) == [Byte(32)] + Units(rest, plus);
    } else {
      PercentBytesUnits(Utf8(c), rest, plus);
      Utf8Decodes(c, Units(rest, plus));
    }
  }

  /** `unquote(quote(s, safe)) == s`, with `+` read as a space exactly when it was written for one. */
  lemma {:induction false} QuoteRoundTrip(s: string, safe: string, plus: bool)
    requires forall i :: 0 <= i < |safe| ==> (safe[i] as int) < 128 && safe[i] != '%' && safe[i] != '+'
    ensures DecodeUnits(Units(QuoteWith(s, safe, plus), plus)) == s
    decreases |s|
  {
    if s == [] {
    } else {
      QuoteCharDecodes(s[0], safe, plus, QuoteWith(s[1..], safe, plus));
      QuoteRoundTrip(s[1..], safe, plus);
      assert [s[0]] + s[1..] == s;
    }
  }

  lemma UnquotePlusQuotePlus(s: string)
    ensures UnquotePlus(QuotePlus(s)) == s
  {
    QuoteRoundTrip(s, "", true);
  }

  lemma UnquoteQuote(s: string)
    ensures Unquote(Quote(s)) == s
  {
    QuoteRoundTrip(s, "/", false);
  }

  /** Only always-safe characters, characters of `safe`, `+` and `%XX` escapes appear in quoted text. */
  lemma {:induction false} QuotedChars(s: string, safe: string, plus: bool, x: char)
    requires x in QuoteWith(s, safe, plus)
    ensures AlwaysSafe(x) || x in safe || x == '%' || ('A' <= x <= 'F') || (plus && x == '+')
    decreases |s|
  {
    if s != [] {
      if x in QuoteChar(s[0], safe, plus) {
        if !(AlwaysSafe(s[0]) || s[0] in safe) && !(plus && s[0] == ' ') {
          PercentBytesChars(Utf8(s[0]), x);
        }
      } else {
        QuotedChars(s[1..], safe, plus, x);
      }
    }
  }

  lemma {:induction false} PercentBytesChars(b: seq<nat>, x: char)
    requires forall i :: 0 <= i < |b| ==> b[i] < 256
    requires x in PercentBytes(b)
    ensures x == '%' || ('0' <= x <= '9') || ('A' <= x <= 'F')
    decreases |b|
  {
    if b != [] {
      if x !in PercentByte(b[0]) {
        PercentBytesChars(b[1..], x);
      }
    }
  }

  // ---------------------------------------------------------------- queries

  /**
   * One `name=value` field of a query string as `parse_qs` reads it: empty
   * fields, fields without `=` and fields with an empty value are dropped.
   */
  function ParseField(field: string): Option<(string, string)> {
    if field == [] then None
    else match SplitFirst(field, '=')
      case (_, None) => None
      case (name, Some(value)) =>
        if value == [] then None else Some((UnquotePlus(name), UnquotePlus(value)))
  }

  function ParseFields(fields: seq<string>): seq<(string, string)> {
    if fields == [] then []
    else match ParseField(fields[0])
      case None => ParseFields(fields[1..])
      case Some(p) => [p] + ParseFields(fields[1..])
  }

  /** `parse_qs(qs)`, as the ordered list of the name/value pairs it collects. */
  function ParseQs(qs: string): seq<(string, string)> {
    ParseFields(Split(qs, '&'))
  }

  /** `parse_qs(qs).get(name, [default])[0]`: the first value given for `name`. */
  function QsFirst(pairs: seq<(string, string)>, name: string, default: string): (r: string)
    ensures (forall i :: 0 <= i < |pairs| ==> pairs[i].0 != name) ==> r == default
    ensures (exists i :: 0 <= i < |pairs| && pairs[i].0 == name) ==>
      exists i :: 0 <= i < |pairs| && pairs[i] == (name, r) && forall j :: 0 <= j < i ==> pairs[j].0 != name
  {
    if pairs == [] then default
    else if pairs[0].0 == name then pairs[0].1
    else
      var r := QsFirst(pairs[1..], name, default);
      assert forall i :: 1 <= i < |pairs| ==> pairs[i] == pairs[1..][i - 1];
      if exists i :: 0 <= i < |pairs| && pairs[i].0 == name then
        ghost var k :| 0 <= k < |pairs| && pairs[k].0 == name;
        assert pairs[1..][k - 1].0 == name;
        ghost var m :| 0 <= m < |pairs[1..]| && pairs[1..][m] == (name, r) && forall j :: 0 <= j < m ==> pairs[1..][j].0 != name;
        assert pairs[m + 1] == (name, r);
        r
      else r
  }

  /** The query component `urlsplit(url).query`: after the first `?`, up to any `#`. */
  function UrlQuery(url: string): (q: string)
    ensures '#' !in url && '?' !in url ==> q == []
  {
    var beforeFragment := SplitFirst(url, '#').0;
    match SplitFirst(beforeFragment, '?')
      case (_, None) => []
      case (_, Some(query)) => query
  }

  function EncodeField(p: (string, string)): string {
    QuotePlus(p.0) + "=" + QuotePlus(p.1)
  }

  /** `urlencode(pairs)`. */
  function UrlEncode(pairs: seq<(string, string)>): string {
    if pairs == [] then []
    else if |pairs| == 1 then EncodeField(pairs[0])
    else EncodeField(pairs[0]) + "&" + UrlEncode(pairs[1..])
  }

  lemma NoSeparatorInQuotePlus(s: string)
    ensures '&' !in QuotePlus(s) && '=' !in QuotePlus(s) && '#' !in QuotePlus(s) && '?' !in QuotePlus(s)
  {
    forall x | x in QuotePlus(s) ensures x != '&' && x != '=' && x != '#' && x != '?' {
      QuotedChars(s, "", true, x);
    }
  }

  lemma EncodedFieldParses(p: (string, string))
    requires p.1 != []
    ensures ParseField(EncodeField(p)) == Some(p)
  {
    var f := EncodeField(p);
    NoSeparatorInQuotePlus(p.0);
    NoSeparatorInQuotePlus(p.1);
    SplitFirstAt(QuotePlus(p.0), '=', QuotePlus(p.1));
    UnquotePlusQuotePlus(p.0);
    UnquotePlusQuotePlus(p.1);
    assert QuotePlus(p.1) != [] by {
      assert p.1 == [p.1[0]] + p.1[1..];
    }
  }

  lemma ParseFieldsCons(f: string, rest: seq<string>)
    ensures ParseFields([f] + rest) == ParseFields([f]) + ParseFields(rest)
  {
    assert ([f] + rest)[1..] == rest;
    assert [f][1..] == [];
  }

  /** `parse_qs` reads back what `urlencode` wrote, when no value is empty. */
  lemma {:induction false} UrlEncodeRoundTrip(pairs: seq<(string, string)>)
    requires forall i :: 0 <= i < |pairs| ==> pairs[i].1 != []
    ensures ParseQs(UrlEncode(pairs)) == pairs
    decreases |pairs|
  {
    if pairs == [] {
      assert Split([], '&') == [[]];
    } else {
      var head := EncodeField(pairs[0]);
      NoSeparatorInQuotePlus(pairs[0].0);
      NoSeparatorInQuotePlus(pairs[0].1);
      assert '&' !in head;
      EncodedFieldParses(pairs[0]);
      assert ParseFields([head]) == [pairs[0]] by {
        ParseFieldsCons(head, []);
        assert [head] + [] == [head];
      }
      if |pairs| == 1 {
        assert Split(head, '&') == [head];
        assert [pairs[0]] == pairs;
      } else {
        var tail := UrlEncode(pairs[1..]);
        assert UrlEncode(pairs) == head + "&" + tail;
        SplitCons(head, '&', tail);
        ParseFieldsCons(head, Split(tail, '&'));
        UrlEncodeRoundTrip(pairs[1..]);
        assert [pairs[0]] + pairs[1..] == pairs;
      }
    }
  }

  /** `urlencode` output has no `#` or `?`, so it is exactly the query of the URL it ends. */
  lemma {:induction false} UrlEncodeHasNoDelimiters(pairs: seq<(string, string)>)
    ensures '#' !in UrlEncode(pairs) && '?' !in UrlEncode(pairs)
    decreases |pairs|
  {
    if pairs != [] {
      NoSeparatorInQuotePlus(pairs[0].0);
      NoSeparatorInQuotePlus(pairs[0].1);
      UrlEncodeHasNoDelimiters(pairs[1..]);
    }
  }

  /** The query of `base + "?" + query`, when `base` has neither `?` nor `#` and `query` no `#`. */
  lemma QueryOfJoinedUrl(base: string, query: string)
    requires '?' !in base && '#' !in base && '#' !in query
    ensures UrlQuery(base + "?" + query) == query
  {
    var url := base + "?" + query;
    assert '#' !in url;
    SplitFirstAt(base, '?', query);
  }
}
