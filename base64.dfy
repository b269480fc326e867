/** Base64 as section 4 of RFC 4648 defines it (alphabet of Table 1, "=" padding),
    which is what Python's `base64.b64encode` produces, together with the decoder
    the remote shell runs (`base64 --decode`, which skips line breaks). */
module Base64 {
  import opened PyErrors

  type byte = x: int | 0 <= x < 256
  type sextet = x: int | 0 <= x < 64

  /** The 64 characters of the Base64 alphabet. */
  predicate IsAlphabetChar(c: char) {
    ('A' <= c <= 'Z') || ('a' <= c <= 'z') || ('0' <= c <= '9') || c == '+' || c == '/'
  }

  /** The value a character of the alphabet stands for; None for any other character. */
  function CharSextet(c: char): Option<sextet>
  {
    if 'A' <= c <= 'Z' then Some(c as int - 'A' as int)
    else if 'a' <= c <= 'z' then Some(c as int - 'a' as int + 26)
    else if '0' <= c <= '9' then Some(c as int - '0' as int + 52)
    else if c == '+' then Some(62)
    else if c == '/' then Some(63)
    else None
  }

  /** The character that encodes a 6-bit value; CharSextet reads it back. */
  function SextetChar(v: sextet): (c: char)
    ensures IsAlphabetChar(c)
    ensures CharSextet(c) == Some(v)
  {
    if v < 26 then ('A' as int + v) as char
    else if v < 52 then ('a' as int + (v - 26)) as char
    else if v < 62 then ('0' as int + (v - 52)) as char
    else if v == 62 then '+'
    else '/'
  }

  /** Three input bytes, 24 bits, as four characters. */
  function EncodeGroup(b0: byte, b1: byte, b2: byte): string
  {
    [SextetChar(b0 / 4), SextetChar((b0 % 4) * 16 + b1 / 16),
     SextetChar((b1 % 16) * 4 + b2 / 64), SextetChar(b2 % 64)]
  }

  /** A final single byte: two characters and two pad characters. */
  function EncodeFinalOne(b0: byte): string
  {
    [SextetChar(b0 / 4), SextetChar((b0 % 4) * 16), '=', '=']
  }

  /** Two final bytes: three characters and one pad character. */
  function EncodeFinalTwo(b0: byte, b1: byte): string
  {
    [SextetChar(b0 / 4), SextetChar((b0 % 4) * 16 + b1 / 16), SextetChar((b1 % 16) * 4), '=']
  }

  /** `base64.b64encode`: the groups of three bytes in order, the last group
      padded. */
  function Encode(data: seq<byte>): string
    decreases |data|
  {
    if |data| == 0 then ""
    else if |data| == 1 then EncodeFinalOne(data[0])
    else if |data| == 2 then EncodeFinalTwo(data[0], data[1])
    else EncodeGroup(data[0], data[1], data[2]) + Encode(data[3..])
  }

  /** The first byte of a group, from its first two characters. */
  function FirstByte(v0: sextet, v1: sextet): byte { v0 * 4 + v1 / 16 }

  /** The second byte of a group, from its second and third characters. */
  function SecondByte(v1: sextet, v2: sextet): byte { (v1 % 16) * 16 + v2 / 4 }

  /** The third byte of a group, from its third and fourth characters. */
  function ThirdByte(v2: sextet, v3: sextet): byte { (v2 % 4) * 64 + v3 }

  /** Four characters as one to three bytes; a pad character may only stand in
      the last one or two places. */
  function DecodeQuad(c0: char, c1: char, c2: char, c3: char): Option<seq<byte>>
  {
    match (CharSextet(c0), CharSextet(c1))
    case (Some(v0), Some(v1)) =>
      if c2 == '=' && c3 == '=' then Some([FirstByte(v0, v1)])
      else if c3 == '=' then
        (match CharSextet(c2)
         case Some(v2) => Some([FirstByte(v0, v1), SecondByte(v1, v2)])
         case None => None)
      else
        (match (CharSextet(c2), CharSextet(c3))
         case (Some(v2), Some(v3)) => Some([FirstByte(v0, v1), SecondByte(v1, v2), ThirdByte(v2, v3)])
         case _ => None)
    case _ => None
  }

  /** Decoding of text without line breaks: groups of four characters, padding
      only in the last group; None for any other text. */
  function Decode(s: string): Option<seq<byte>>
    decreases |s|
  {
    if |s| == 0 then Some([])
    else if |s| < 4 then None
    else
      match DecodeQuad(s[0], s[1], s[2], s[3])
      case None => None
      case Some(group) =>
        if |s| == 4 then Some(group)
        else if |group| < 3 then None
        else
          match Decode(s[4..])
          case None => None
          case Some(rest) => Some(group + rest)
  }

  /** `s` with its line breaks removed. */
  function DropNewlines(s: string): (r: string)
    ensures '\n' !in r
  {
    if |s| == 0 then "" else (if s[0] == '\n' then "" else [s[0]]) + DropNewlines(s[1..])
  }

  /** What `base64 --decode FILE` writes for the text of FILE. */
  function RemoteDecode(file: string): Option<seq<byte>>
  {
    Decode(DropNewlines(file))
  }

  lemma SplitFirstByte(b0: byte, b1: byte)
    ensures FirstByte(b0 / 4, (b0 % 4) * 16 + b1 / 16) == b0
    ensures ((b0 % 4) * 16 + b1 / 16) % 16 == b1 / 16
  {
  }

  lemma SplitSecondByte(b1: byte, b2: byte)
    ensures SecondByte(b1 / 16, (b1 % 16) * 4 + b2 / 64) == b1
    ensures ((b1 % 16) * 4 + b2 / 64) % 4 == b2 / 64
  {
  }

  lemma SplitThirdByte(b2: byte)
    ensures ThirdByte(b2 / 64, b2 % 64) == b2
  {
  }

  lemma DecodeFullQuad(c0: char, c1: char, c2: char, c3: char, v0: sextet, v1: sextet, v2: sextet, v3: sextet)
    requires CharSextet(c0) == Some(v0) && CharSextet(c1) == Some(v1)
    requires CharSextet(c2) == Some(v2) && CharSextet(c3) == Some(v3)
    ensures DecodeQuad(c0, c1, c2, c3) == Some([FirstByte(v0, v1), SecondByte(v1, v2), ThirdByte(v2, v3)])
  {
    assert c2 != '=' && c3 != '=';
  }

  lemma DecodePaddedOne(c0: char, c1: char, c2: char, v0: sextet, v1: sextet, v2: sextet)
    requires CharSextet(c0) == Some(v0) && CharSextet(c1) == Some(v1) && CharSextet(c2) == Some(v2)
    ensures DecodeQuad(c0, c1, c2, '=') == Some([FirstByte(v0, v1), SecondByte(v1, v2)])
  {
    assert c2 != '=';
  }

  lemma DecodePaddedTwo(c0: char, c1: char, v0: sextet, v1: sextet)
    requires CharSextet(c0) == Some(v0) && CharSextet(c1) == Some(v1)
    ensures DecodeQuad(c0, c1, '=', '=') == Some([FirstByte(v0, v1)])
  {
  }

  lemma GroupBytes(b0: byte, b1: byte, b2: byte)
    ensures var v1, v2 := (b0 % 4) * 16 + b1 / 16, (b1 % 16) * 4 + b2 / 64;
            FirstByte(b0 / 4, v1) == b0 && SecondByte(v1, v2) == b1 && ThirdByte(v2, b2 % 64) == b2
  {
    var v1 := (b0 % 4) * 16 + b1 / 16;
    var v2 := (b1 % 16) * 4 + b2 / 64;
    SplitFirstByte(b0, b1);
    SplitSecondByte(b1, b2);
    SplitThirdByte(b2);
    assert SecondByte(v1, v2) == SecondByte(b1 / 16, v2);
    assert ThirdByte(v2, b2 % 64) == ThirdByte(b2 / 64, b2 % 64);
  }

  lemma GroupRoundTrip(b0: byte, b1: byte, b2: byte)
    ensures var g := EncodeGroup(b0, b1, b2);
            DecodeQuad(g[0], g[1], g[2], g[3]) == Some([b0, b1, b2])
  {
    var v1 := (b0 % 4) * 16 + b1 / 16;
    var v2 := (b1 % 16) * 4 + b2 / 64;
    var g := EncodeGroup(b0, b1, b2);
    DecodeFullQuad(g[0], g[1], g[2], g[3], b0 / 4, v1, v2, b2 % 64);
    GroupBytes(b0, b1, b2);
  }

  lemma FinalOneRoundTrip(b0: byte)
    ensures var g := EncodeFinalOne(b0); DecodeQuad(g[0], g[1], g[2], g[3]) == Some([b0])
  {
    var g := EncodeFinalOne(b0);
    DecodePaddedTwo(g[0], g[1], b0 / 4, (b0 % 4) * 16);
    SplitFirstByte(b0, 0);
  }

  lemma FinalTwoRoundTrip(b0: byte, b1: byte)
    ensures var g := EncodeFinalTwo(b0, b1); DecodeQuad(g[0], g[1], g[2], g[3]) == Some([b0, b1])
  {
    var v1 := (b0 % 4) * 16 + b1 / 16;
    var g := EncodeFinalTwo(b0, b1);
    DecodePaddedOne(g[0], g[1], g[2], b0 / 4, v1, (b1 % 16) * 4);
    SplitFirstByte(b0, b1);
    SplitSecondByte(b1, 0);
    assert SecondByte(v1, (b1 % 16) * 4) == SecondByte(b1 / 16, (b1 % 16) * 4);
  }

  lemma DecodeFirstGroup(g: string, t: string, group: seq<byte>, rest: seq<byte>)
    requires |g| == 4 && DecodeQuad(g[0], g[1], g[2], g[3]) == Some(group) && |group| == 3
    requires |t| > 0 && Decode(t) == Some(rest)
    ensures Decode(g + t) == Some(group + rest)
  {
    var s := g + t;
    assert s[0] == g[0] && s[1] == g[1] && s[2] == g[2] && s[3] == g[3];
    assert s[4..] == t;
  }

  lemma DecodeLastGroup(s: string)
    requires |s| == 4
    ensures Decode(s) == DecodeQuad(s[0], s[1], s[2], s[3])
  {
  }

  lemma ListBytes(data: seq<byte>)
    ensures |data| == 1 ==> data == [data[0]]
    ensures |data| == 2 ==> data == [data[0], data[1]]
    ensures |data| == 3 ==> data == [data[0], data[1], data[2]]
    ensures |data| >= 3 ==> data == [data[0], data[1], data[2]] + data[3..]
  {
    if |data| >= 3 {
      assert data[..3] == [data[0], data[1], data[2]];
      assert data == data[..3] + data[3..];
    }
  }

  lemma EncodeShort(data: seq<byte>)
    requires 1 <= |data| <= 2
    ensures Decode(Encode(data)) == Some(data)
  {
    if |data| == 1 {
      var g := EncodeFinalOne(data[0]);
      assert Decode(g) == Some([data[0]]) by {
        FinalOneRoundTrip(data[0]);
        DecodeLastGroup(g);
      }
      ListBytes(data);
    } else {
      var g := EncodeFinalTwo(data[0], data[1]);
      assert Decode(g) == Some([data[0], data[1]]) by {
        FinalTwoRoundTrip(data[0], data[1]);
        DecodeLastGroup(g);
      }
      ListBytes(data);
    }
  }

  lemma EncodeThree(data: seq<byte>)
    requires |data| == 3
    ensures Decode(Encode(data)) == Some(data)
  {
    var b0, b1, b2 := data[0], data[1], data[2];
    var g := EncodeGroup(b0, b1, b2);
    assert Encode(data) == g by {
      var e := Encode(data[3..]);
      assert e == "";
      assert g + e == g;
    }
    assert Decode(g) == Some([b0, b1, b2]) by {
      GroupRoundTrip(b0, b1, b2);
      DecodeLastGroup(g);
    }
    ListBytes(data);
  }

  lemma DecodeLong(data: seq<byte>)
    requires |data| > 3
    requires Decode(Encode(data[3..])) == Some(data[3..])
    ensures Decode(Encode(data)) == Some(data)
  {
    var b0, b1, b2 := data[0], data[1], data[2];
    var g := EncodeGroup(b0, b1, b2);
    var t := Encode(data[3..]);
    assert Encode(data) == g + t;
    assert Decode(g + t) == Some([b0, b1, b2] + data[3..]) by {
      GroupRoundTrip(b0, b1, b2);
      DecodeFirstGroup(g, t, [b0, b1, b2], data[3..]);
    }
    ListBytes(data);
  }

  /** Decoding inverts encoding. */
  lemma {:induction false} DecodeEncode(data: seq<byte>)
    ensures Decode(Encode(data)) == Some(data)
    decreases |data|
  {
    if 1 <= |data| <= 2 {
      EncodeShort(data);
    } else if |data| == 3 {
      EncodeThree(data);
    } else if |data| > 3 {
      DecodeEncode(data[3..]);
      DecodeLong(data);
    }
  }

  lemma {:induction false} DropNewlinesAppend(a: string, b: string)
    ensures DropNewlines(a + b) == DropNewlines(a) + DropNewlines(b)
    decreases |a|
  {
    if |a| > 0 {
      assert (a + b)[0] == a[0] && (a + b)[1..] == a[1..] + b;
      DropNewlinesAppend(a[1..], b);
    } else {
      assert a + b == b;
    }
  }

  lemma {:induction false} DropNewlinesNone(s: string)
    requires '\n' !in s
    ensures DropNewlines(s) == s
    decreases |s|
  {
    if |s| > 0 {
      DropNewlinesNone(s[1..]);
      assert s == [s[0]] + s[1..];
    }
  }

  /** An encoding holds only alphabet and pad characters, so neither a line break
      nor a quote that would end a shell string. */
  lemma {:induction false} EncodeAlphabet(data: seq<byte>)
    ensures forall i :: 0 <= i < |Encode(data)| ==> IsAlphabetChar(Encode(data)[i]) || Encode(data)[i] == '='
    decreases |data|
  {
    if |data| > 2 {
      EncodeAlphabet(data[3..]);
      var g := EncodeGroup(data[0], data[1], data[2]);
      var rest := Encode(data[3..]);
      assert Encode(data) == g + rest;
      forall i | 0 <= i < |g + rest|
        ensures IsAlphabetChar((g + rest)[i]) || (g + rest)[i] == '='
      {
        if i >= 4 {
          assert (g + rest)[i] == rest[i - 4];
        }
      }
    }
  }

  /** The file `echo` writes, the encoding followed by a line break, decodes on
      the remote side to the original bytes. */
  lemma RemoteDecodeEchoed(data: seq<byte>)
    ensures RemoteDecode(Encode(data) + "\n") == Some(data)
  {
    var e := Encode(data);
    DropNewlinesAppend(e, "\n");
    EncodeAlphabet(data);
    DropNewlinesNone(e);
    assert DropNewlines("\n") == "";
    assert e + "" == e;
    DecodeEncode(data);
  }
}
