/**
 * Standard base64 (RFC 4648 section 4, with `=` padding), as Python's
 * `base64.b64encode` writes it, and the reading of well-formed text back.
 */
module Base64 {
  import opened Wrappers

  newtype byte = x: int | 0 <= x < 256

  /** The character for a six-bit value. */
  function SextetChar(k: nat): (c: char)
    requires k < 64
    ensures c != '='
  {
    if k < 26 then (65 + k) as char
    else if k < 52 then (97 + k - 26) as char
    else if k < 62 then (48 + k - 52) as char
    else if k == 62 then '+'
    else '/'
  }

  /** The six-bit value of an alphabet character; `None` for `=` and for characters outside the alphabet. */
  function SextetValue(c: char): (r: Option<nat>)
    ensures r.Some? ==> r.value < 64
  {
    if 'A' <= c <= 'Z' then Some(c as int - 65)
    else if 'a' <= c <= 'z' then Some(c as int - 97 + 26)
    else if '0' <= c <= '9' then Some(c as int - 48 + 52)
    else if c == '+' then Some(62)
    else if c == '/' then Some(63)
    else None
  }

  lemma SextetRoundTrip(k: nat)
    requires k < 64
    ensures SextetValue(SextetChar(k)) == Some(k)
  {
  }

  function Group1(b0: int): string
    requires 0 <= b0 < 256
  {
    [SextetChar(b0 / 4), SextetChar((b0 % 4) * 16), '=', '=']
  }

  function Group2(b0: int, b1: int): string
    requires 0 <= b0 < 256 && 0 <= b1 < 256
  {
    [SextetChar(b0 / 4), SextetChar((b0 % 4) * 16 + b1 / 16), SextetChar((b1 % 16) * 4), '=']
  }

  function Group3(b0: int, b1: int, b2: int): string
    requires 0 <= b0 < 256 && 0 <= b1 < 256 && 0 <= b2 < 256
  {
    [SextetChar(b0 / 4), SextetChar((b0 % 4) * 16 + b1 / 16),
     SextetChar((b1 % 16) * 4 + b2 / 64), SextetChar(b2 % 64)]
  }

  /** `b64encode` of a byte string. */
  function Encode(b: seq<byte>): (s: string)
    ensures |s| % 4 == 0
    decreases |b|
  {
    if b == [] then []
    else if |b| == 1 then Group1(b[0] as int)
    else if |b| == 2 then Group2(b[0] as int, b[1] as int)
    else Group3(b[0] as int, b[1] as int, b[2] as int) + Encode(b[3..])
  }

  /** The one to three bytes a group of four characters stands for. */
  function DecodeQuad(q: string): (r: Option<seq<byte>>)
    requires |q| == 4
    ensures r.Some? ==> 1 <= |r.value| <= 3
  {
    match (SextetValue(q[0]), SextetValue(q[1]))
      case (Some(c0), Some(c1)) =>
        var first := (c0 * 4 + c1 / 16) as byte;
        if q[2] == '=' && q[3] == '=' then Some([first])
        else DecodeTail(q, c1, first)
      case _ => None
  }

  function DecodeTail(q: string, c1: nat, first: byte): (r: Option<seq<byte>>)
    requires |q| == 4 && c1 < 64
    ensures r.Some? ==> 2 <= |r.value| <= 3 && r.value[0] == first
  {
    match SextetValue(q[2])
      case None => None
      case Some(c2) =>
        var second := ((c1 % 16) * 16 + c2 / 4) as byte;
        if q[3] == '=' then Some([first, second])
        else
          match SextetValue(q[3])
            case None => None
            case Some(c3) => Some([first, second, ((c2 % 4) * 64 + c3) as byte])
  }

  /** `b64decode` of strict base64 text; `None` for text that is not strict base64. */
  function Decode(s: string): Option<seq<byte>>
    decreases |s|
  {
    if s == [] then Some([])
    else if |s| < 4 then None
    else match DecodeQuad(s[..4])
      case None => None
      case Some(group) =>
        if |s| == 4 then Some(group)
        else if |group| < 3 then None
        else match Decode(s[4..])
          case None => None
          case Some(more) => Some(group + more)
  }

  lemma ThreeBytesRoundTrip(b0: int, b1: int, b2: int)
    requires 0 <= b0 < 256 && 0 <= b1 < 256 && 0 <= b2 < 256
    ensures var c0, c1, c2, c3 := b0 / 4, (b0 % 4) * 16 + b1 / 16, (b1 % 16) * 4 + b2 / 64, b2 % 64;
      c0 * 4 + c1 / 16 == b0 && (c1 % 16) * 16 + c2 / 4 == b1 && (c2 % 4) * 64 + c3 == b2
  {
  }

  lemma QuadOne(c0: nat, c1: nat)
    requires c0 < 64 && c1 < 64
    ensures DecodeQuad([SextetChar(c0), SextetChar(c1), '=', '=']) == Some([(c0 * 4 + c1 / 16) as byte])
  {
    SextetRoundTrip(c0);
    SextetRoundTrip(c1);
  }

  lemma QuadTwo(c0: nat, c1: nat, c2: nat)
    requires c0 < 64 && c1 < 64 && c2 < 64
    ensures DecodeQuad([SextetChar(c0), SextetChar(c1), SextetChar(c2), '='])
      == Some([(c0 * 4 + c1 / 16) as byte, ((c1 % 16) * 16 + c2 / 4) as byte])
  {
    SextetRoundTrip(c0);
    SextetRoundTrip(c1);
    SextetRoundTrip(c2);
  }

  lemma QuadThree(c0: nat, c1: nat, c2: nat, c3: nat)
    requires c0 < 64 && c1 < 64 && c2 < 64 && c3 < 64
    ensures DecodeQuad([SextetChar(c0), SextetChar(c1), SextetChar(c2), SextetChar(c3)])
      == Some([(c0 * 4 + c1 / 16) as byte, ((c1 % 16) * 16 + c2 / 4) as byte, ((c2 % 4) * 64 + c3) as byte])
  {
    SextetRoundTrip(c0);
    SextetRoundTrip(c1);
    SextetRoundTrip(c2);
    SextetRoundTrip(c3);
  }

  lemma Group1RoundTrip(b0: int)
    requires 0 <= b0 < 256
    ensures DecodeQuad(Group1(b0)) == Some([b0 as byte])
  {
    ThreeBytesRoundTrip(b0, 0, 0);
    QuadOne(b0 / 4, (b0 % 4) * 16);
  }

  lemma Group2RoundTrip(b0: int, b1: int)
    requires 0 <= b0 < 256 && 0 <= b1 < 256
    ensures DecodeQuad(Group2(b0, b1)) == Some([b0 as byte, b1 as byte])
  {
    ThreeBytesRoundTrip(b0, b1, 0);
    QuadTwo(b0 / 4, (b0 % 4) * 16 + b1 / 16, (b1 % 16) * 4);
  }

  lemma Group3RoundTrip(b0: int, b1: int, b2: int)
    requires 0 <= b0 < 256 && 0 <= b1 < 256 && 0 <= b2 < 256
    ensures DecodeQuad(Group3(b0, b1, b2)) == Some([b0 as byte, b1 as byte, b2 as byte])
  {
    ThreeBytesRoundTrip(b0, b1, b2);
    QuadThree(b0 / 4, (b0 % 4) * 16 + b1 / 16, (b1 % 16) * 4 + b2 / 64, b2 % 64);
  }

  /** A last group of four characters decodes on its own. */
  lemma DecodeLastQuad(g: string)
    requires |g| == 4
    ensures Decode(g) == DecodeQuad(g)
  {
    assert g[..4] == g;
  }

  /** A full group of three bytes, then the rest. */
  lemma DecodeStep(g: string, rest: string, group: seq<byte>, more: seq<byte>)
    requires |g| == 4 && DecodeQuad(g) == Some(group) && |group| == 3 && Decode(rest) == Some(more)
    ensures Decode(g + rest) == Some(group + more)
  {
    var s := g + rest;
    assert s[..4] == g && s[4..] == rest;
    if rest == [] {
      assert s == g && more == [] && group + more == group;
    }
  }

  lemma RoundTripOne(b: seq<byte>)
    requires |b| == 1
    ensures Decode(Encode(b)) == Some(b)
  {
    Group1RoundTrip(b[0] as int);
    DecodeLastQuad(Encode(b));
    assert [b[0]] == b;
  }

  lemma RoundTripTwo(b: seq<byte>)
    requires |b| == 2
    ensures Decode(Encode(b)) == Some(b)
  {
    Group2RoundTrip(b[0] as int, b[1] as int);
    DecodeLastQuad(Encode(b));
    assert [b[0], b[1]] == b;
  }

  lemma RoundTripStep(b: seq<byte>)
    requires |b| >= 3 && Decode(Encode(b[3..])) == Some(b[3..])
    ensures Decode(Encode(b)) == Some(b)
  {
    var g := Group3(b[0] as int, b[1] as int, b[2] as int);
    Group3RoundTrip(b[0] as int, b[1] as int, b[2] as int);
    assert Encode(b) == g + Encode(b[3..]);
    DecodeStep(g, Encode(b[3..]), [b[0], b[1], b[2]], b[3..]);
    SplitThree(b);
  }

  lemma SplitThree<T>(b: seq<T>)
    requires |b| >= 3
    ensures [b[0], b[1], b[2]] + b[3..] == b
  {
    assert b == b[..3] + b[3..];
  }

  /** Decoding what `b64encode` wrote gives back the same bytes. */
  lemma {:induction false} RoundTrip(b: seq<byte>)
    ensures Decode(Encode(b)) == Some(b)
    decreases |b|
  {
    if |b| == 1 {
      RoundTripOne(b);
    } else if |b| == 2 {
      RoundTripTwo(b);
    } else if |b| >= 3 {
      RoundTrip(b[3..]);
      RoundTripStep(b);
    }
  }
}
