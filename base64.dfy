/** The base64 encoding of section 4 of RFC 4648 with `=` padding, which
    `btoa` applies to a string of byte-valued characters; and the decoder
    that undoes it. */
module Base64 {
  import opened Js

  type Byte = x: int | 0 <= x < 256

  /** The character for a 6-bit value (Table 1 of RFC 4648). */
  function EncodeSextet(x: int): (c: char)
    requires 0 <= x < 64
  {
    if x < 26 then ('A' as int + x) as char
    else if x < 52 then ('a' as int + (x - 26)) as char
    else if x < 62 then ('0' as int + (x - 52)) as char
    else if x == 62 then '+'
    else '/'
  }

  /** The 6-bit value of an alphabet character; `None` for anything else, `=` included. */
  function DecodeChar(c: char): (r: Option<int>)
    ensures r.Some? ==> 0 <= r.value < 64
  {
    if 'A' <= c <= 'Z' then Some(c as int - 'A' as int)
    else if 'a' <= c <= 'z' then Some(c as int - 'a' as int + 26)
    else if '0' <= c <= '9' then Some(c as int - '0' as int + 52)
    else if c == '+' then Some(62)
    else if c == '/' then Some(63)
    else None
  }

  lemma SextetRoundTrip(x: int)
    requires 0 <= x < 64
    ensures DecodeChar(EncodeSextet(x)) == Some(x)
    ensures EncodeSextet(x) != '='
  {
  }

  /** Three bytes as four characters. */
  function EncodeGroup(a: Byte, b: Byte, c: Byte): (r: string)
    ensures |r| == 4
  {
    [EncodeSextet(a / 4), EncodeSextet((a % 4) * 16 + b / 16),
     EncodeSextet((b % 16) * 4 + c / 64), EncodeSextet(c % 64)]
  }

  /** A final single byte: two characters and two pads. */
  function EncodeOne(a: Byte): (r: string)
    ensures |r| == 4
  {
    [EncodeSextet(a / 4), EncodeSextet((a % 4) * 16), '=', '=']
  }

  /** A final pair of bytes: three characters and one pad. */
  function EncodeTwo(a: Byte, b: Byte): (r: string)
    ensures |r| == 4
  {
    [EncodeSextet(a / 4), EncodeSextet((a % 4) * 16 + b / 16), EncodeSextet((b % 16) * 4), '=']
  }

  function Encode(b: seq<Byte>): string {
    if |b| == 0 then ""
    else if |b| == 1 then EncodeOne(b[0])
    else if |b| == 2 then EncodeTwo(b[0], b[1])
    else EncodeGroup(b[0], b[1], b[2]) + Encode(b[3..])
  }

  /** Four sextets back to three bytes. */
  function DecodeGroup(w: int, x: int, y: int, z: int): seq<Byte>
    requires 0 <= w < 64 && 0 <= x < 64 && 0 <= y < 64 && 0 <= z < 64
  {
    [w * 4 + x / 16, (x % 16) * 16 + y / 4, (y % 4) * 64 + z]
  }

  /** Decodes a padded base64 string; `None` when it is not one. */
  function Decode(s: string): Option<seq<Byte>> {
    if |s| == 0 then Some([])
    else if |s| < 4 then None
    else
      var w, x, y, z := DecodeChar(s[0]), DecodeChar(s[1]), DecodeChar(s[2]), DecodeChar(s[3]);
      if w.None? || x.None? then None
      else if |s| == 4 && s[2] == '=' && s[3] == '=' then
        Some([w.value * 4 + x.value / 16])
      else if y.None? then None
      else if |s| == 4 && s[3] == '=' then
        Some([w.value * 4 + x.value / 16, (x.value % 16) * 16 + y.value / 4])
      else if z.None? then None
      else
        match Decode(s[4..])
        case None => None
        case Some(rest) => Some(DecodeGroup(w.value, x.value, y.value, z.value) + rest)
  }

  lemma GroupRoundTrip(a: Byte, b: Byte, c: Byte)
    ensures var w, x, y, z := a / 4, (a % 4) * 16 + b / 16, (b % 16) * 4 + c / 64, c % 64;
      0 <= w < 64 && 0 <= x < 64 && 0 <= y < 64 && 0 <= z < 64 &&
      DecodeGroup(w, x, y, z) == [a, b, c]
  {
    var x, y := (a % 4) * 16 + b / 16, (b % 16) * 4 + c / 64;
    assert x / 16 == a % 4 && x % 16 == b / 16;
    assert y / 4 == b % 16 && y % 4 == c / 64;
  }

  /** Decoding undoes encoding, for every byte sequence. */
  lemma {:induction false} RoundTrip(b: seq<Byte>)
    ensures Decode(Encode(b)) == Some(b)
  {
    if |b| == 1 {
      assert b == [b[0]];
      RoundTripOne(b[0]);
    } else if |b| == 2 {
      assert b == [b[0], b[1]];
      RoundTripTwo(b[0], b[1]);
    } else if |b| >= 3 {
      RoundTrip(b[3..]);
      RoundTripGroup(b);
    }
  }

  /** One byte: two characters and two pads. */
  lemma RoundTripOne(a: Byte)
    ensures Decode(Encode([a])) == Some([a])
  {
    var w, x := a / 4, (a % 4) * 16;
    SextetRoundTrip(w);
    SextetRoundTrip(x);
    var s := Encode([a]);
    assert s == [EncodeSextet(w), EncodeSextet(x), '=', '='];
    DecodeTwoPads(s, w, x);
    assert x / 16 == a % 4;
  }

  /** Two bytes: three characters and one pad. */
  lemma RoundTripTwo(a: Byte, c: Byte)
    ensures Decode(Encode([a, c])) == Some([a, c])
  {
    var w, x, y := a / 4, (a % 4) * 16 + c / 16, (c % 16) * 4;
    SextetRoundTrip(w);
    SextetRoundTrip(x);
    SextetRoundTrip(y);
    var s := Encode([a, c]);
    assert s == [EncodeSextet(w), EncodeSextet(x), EncodeSextet(y), '='];
    DecodeOnePad(s, w, x, y);
    PairDecodes(a, c);
  }

  lemma PairDecodes(a: Byte, b: Byte)
    ensures var w, x, y := a / 4, (a % 4) * 16 + b / 16, (b % 16) * 4;
      0 <= x < 64 && 0 <= y < 64 &&
      [w * 4 + x / 16, (x % 16) * 16 + y / 4] == [a, b]
  {
    PairArithmetic(a, b);
  }

  lemma PairArithmetic(a: Byte, b: Byte)
    ensures var x, y := (a % 4) * 16 + b / 16, (b % 16) * 4;
      (a / 4) * 4 + x / 16 == a && (x % 16) * 16 + y / 4 == b
  {
    var x := (a % 4) * 16 + b / 16;
    assert x / 16 == a % 4 && x % 16 == b / 16;
  }

  lemma DecodeTwoPads(s: string, w: int, x: int)
    requires |s| == 4 && 0 <= w < 64 && 0 <= x < 64
    requires DecodeChar(s[0]) == Some(w) && DecodeChar(s[1]) == Some(x)
    requires s[2] == '=' && s[3] == '='
    ensures Decode(s) == Some([w * 4 + x / 16])
  {
  }

  lemma DecodeOnePad(s: string, w: int, x: int, y: int)
    requires |s| == 4 && 0 <= w < 64 && 0 <= x < 64 && 0 <= y < 64
    requires DecodeChar(s[0]) == Some(w) && DecodeChar(s[1]) == Some(x)
    requires DecodeChar(s[2]) == Some(y) && s[2] != '=' && s[3] == '='
    ensures Decode(s) == Some([w * 4 + x / 16, (x % 16) * 16 + y / 4])
  {
  }

  /** Three or more bytes: the first group, then the rest. */
  lemma RoundTripGroup(b: seq<Byte>)
    requires |b| >= 3
    requires Decode(Encode(b[3..])) == Some(b[3..])
    ensures Decode(Encode(b)) == Some(b)
  {
    var t := Encode(b[3..]);
    var g := EncodeGroup(b[0], b[1], b[2]);
    assert Encode(b) == g + t;
    GroupThenRest(b[0], b[1], b[2], b[3..], t);
    SplitThree(b);
    Glue(Encode(b), g + t, Some(b));
  }

  lemma SplitThree(b: seq<Byte>)
    requires |b| >= 3
    ensures b == [b[0], b[1], b[2]] + b[3..]
  {
  }

  lemma Glue(e: string, e2: string, d: Option<seq<Byte>>)
    requires e == e2 && Decode(e2) == d
    ensures Decode(e) == d
  {
  }

  /** The encoding of a group, in front of any text that decodes, decodes to
      the group's bytes in front of that text's bytes. */
  lemma GroupThenRest(a: Byte, b: Byte, c: Byte, rest: seq<Byte>, t: string)
    requires Decode(t) == Some(rest)
    ensures Decode(EncodeGroup(a, b, c) + t) == Some([a, b, c] + rest)
  {
    var w, x, y, z := a / 4, (a % 4) * 16 + b / 16, (b % 16) * 4 + c / 64, c % 64;
    SextetRoundTrip(w);
    SextetRoundTrip(x);
    SextetRoundTrip(y);
    SextetRoundTrip(z);
    GroupRoundTrip(a, b, c);
    DecodeFullGroup(EncodeGroup(a, b, c), t, w, x, y, z);
  }

  /** A group of four alphabet characters decodes to three bytes, in front of the rest. */
  lemma DecodeFullGroup(g: string, t: string, w: int, x: int, y: int, z: int)
    requires |g| == 4 && 0 <= w < 64 && 0 <= x < 64 && 0 <= y < 64 && 0 <= z < 64
    requires DecodeChar(g[0]) == Some(w) && DecodeChar(g[1]) == Some(x)
    requires DecodeChar(g[2]) == Some(y) && DecodeChar(g[3]) == Some(z)
    ensures Decode(g + t) ==
      match Decode(t)
      case None => None
      case Some(rest) => Some(DecodeGroup(w, x, y, z) + rest)
  {
    var s := g + t;
    assert s[..4] == g && s[4..] == t;
    assert s[2] != '=' && s[3] != '=';
  }

  /** Four characters for every started group of three bytes. */
  lemma {:induction false} EncodeLength(b: seq<Byte>)
    ensures |Encode(b)| == 4 * ((|b| + 2) / 3)
  {
    if |b| >= 3 {
      EncodeLength(b[3..]);
      assert (|b| + 2) / 3 == (|b[3..]| + 2) / 3 + 1;
    }
  }

  /** Every character of an encoding is an alphabet character or padding. */
  lemma {:induction false} EncodeAlphabet(b: seq<Byte>)
    ensures forall i :: 0 <= i < |Encode(b)| ==> Encode(b)[i] == '=' || DecodeChar(Encode(b)[i]).Some?
  {
    if |b| >= 3 {
      EncodeAlphabet(b[3..]);
      var s := Encode(b);
      assert s == EncodeGroup(b[0], b[1], b[2]) + Encode(b[3..]);
      SextetRoundTrip(b[0] / 4);
      SextetRoundTrip((b[0] % 4) * 16 + b[1] / 16);
      SextetRoundTrip((b[1] % 16) * 4 + b[2] / 64);
      SextetRoundTrip(b[2] % 64);
    } else if |b| == 2 {
      SextetRoundTrip(b[0] / 4);
      SextetRoundTrip((b[0] % 4) * 16 + b[1] / 16);
      SextetRoundTrip((b[1] % 16) * 4);
    } else if |b| == 1 {
      SextetRoundTrip(b[0] / 4);
      SextetRoundTrip((b[0] % 4) * 16);
    }
  }
}
