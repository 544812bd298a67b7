/** Base64 with the standard alphabet and '=' padding (section 4 of RFC 4648),
    as Go's `base64.StdEncoding` encodes and decodes it. The decoder follows
    Go's non-strict mode: it skips '\r' and '\n' anywhere in the input and
    does not check that the unused bits of the last character are zero. */
module Base64 {
  import opened Wrappers

  type Byte = b: int | 0 <= b < 256
  type Sextet = i: int | 0 <= i < 64

  /** The character for a 6-bit value: A-Z, a-z, 0-9, '+', '/'. */
  function CharOf(i: Sextet): char
  {
    (if i < 26 then 'A' as int + i
     else if i < 52 then 'a' as int + (i - 26)
     else if i < 62 then '0' as int + (i - 52)
     else if i == 62 then '+' as int
     else '/' as int) as char
  }

  /** The 6-bit value of an alphabet character; None for any other char,
      the padding '=' included. */
  function IndexOf(c: char): (r: Option<Sextet>)
    ensures r.Some? ==> CharOf(r.value) == c
  {
    var x := c as int;
    if 'A' as int <= x <= 'Z' as int then Some(x - 'A' as int)
    else if 'a' as int <= x <= 'z' as int then Some(x - 'a' as int + 26)
    else if '0' as int <= x <= '9' as int then Some(x - '0' as int + 52)
    else if x == '+' as int then Some(62)
    else if x == '/' as int then Some(63)
    else None
  }

  lemma IndexOfCharOf(i: Sextet)
    ensures IndexOf(CharOf(i)) == Some(i)
  {
  }

  /** Three bytes as four characters. */
  function EncodeTriple(b0: Byte, b1: Byte, b2: Byte): string
  {
    [CharOf(b0 / 4), CharOf((b0 % 4) * 16 + b1 / 16), CharOf((b1 % 16) * 4 + b2 / 64), CharOf(b2 % 64)]
  }

  /** base64.StdEncoding.EncodeToString on bytes. */
  function Encode(b: seq<Byte>): (s: string)
    ensures |s| % 4 == 0
  {
    if |b| == 0 then ""
    else if |b| == 1 then [CharOf(b[0] / 4), CharOf((b[0] % 4) * 16), '=', '=']
    else if |b| == 2 then [CharOf(b[0] / 4), CharOf((b[0] % 4) * 16 + b[1] / 16), CharOf((b[1] % 16) * 4), '=']
    else EncodeTriple(b[0], b[1], b[2]) + Encode(b[3..])
  }

  /** Four 6-bit values as three bytes. */
  function DecodeQuad(c0: Sextet, c1: Sextet, c2: Sextet, c3: Sextet): seq<Byte>
  {
    [c0 * 4 + c1 / 16, (c1 % 16) * 16 + c2 / 4, (c2 % 4) * 64 + c3]
  }

  /** One block of four characters; padding is accepted only in the final
      block, as "xx==" (one byte) or "xxx=" (two bytes). */
  function DecodeBlock(a: char, b: char, c: char, d: char, last: bool): Option<seq<Byte>>
  {
    match (IndexOf(a), IndexOf(b), IndexOf(c), IndexOf(d))
    case (Some(i0), Some(i1), Some(i2), Some(i3)) => Some(DecodeQuad(i0, i1, i2, i3))
    case (Some(i0), Some(i1), Some(i2), None) =>
      if last && d == '=' then Some(DecodeQuad(i0, i1, i2, 0)[..2]) else None
    case (Some(i0), Some(i1), None, None) =>
      if last && c == '=' && d == '=' then Some(DecodeQuad(i0, i1, 0, 0)[..1]) else None
    case _ => None
  }

  function DecodeBlocks(s: string): Option<seq<Byte>>
    decreases |s|
  {
    if |s| == 0 then Some([])
    else if |s| < 4 then None
    else
      match DecodeBlock(s[0], s[1], s[2], s[3], |s| == 4)
      case None => None
      case Some(q) =>
        match DecodeBlocks(s[4..])
        case None => None
        case Some(rest) => Some(q + rest)
  }

  function RemoveNewlines(s: string): (r: string)
    ensures '\n' !in r && '\r' !in r
  {
    if s == [] then []
    else if s[0] == '\n' || s[0] == '\r' then RemoveNewlines(s[1..])
    else [s[0]] + RemoveNewlines(s[1..])
  }

  /** base64.StdEncoding.DecodeString: None where Go reports a
      CorruptInputError. */
  function Decode(s: string): Option<seq<Byte>>
  {
    DecodeBlocks(RemoveNewlines(s))
  }

  lemma {:induction false} RemoveNewlinesNone(s: string)
    requires '\n' !in s && '\r' !in s
    ensures RemoveNewlines(s) == s
    decreases |s|
  {
    if s != [] {
      assert s == [s[0]] + s[1..];
      RemoveNewlinesNone(s[1..]);
    }
  }

  /** The alphabet holds no line break. */
  lemma CharOfNotNewline(i: Sextet)
    ensures CharOf(i) != '\n' && CharOf(i) != '\r'
  {
  }

  /** Encoding produces no line break, so the decoder skips nothing. */
  lemma {:induction false} EncodeNoNewlines(b: seq<Byte>)
    ensures '\n' !in Encode(b) && '\r' !in Encode(b)
    decreases |b|
  {
    var s := Encode(b);
    if |b| == 1 {
      CharOfNotNewline(b[0] / 4);
      CharOfNotNewline((b[0] % 4) * 16);
      assert s == [CharOf(b[0] / 4), CharOf((b[0] % 4) * 16), '=', '='];
    } else if |b| == 2 {
      CharOfNotNewline(b[0] / 4);
      CharOfNotNewline((b[0] % 4) * 16 + b[1] / 16);
      CharOfNotNewline((b[1] % 16) * 4);
      assert s == [CharOf(b[0] / 4), CharOf((b[0] % 4) * 16 + b[1] / 16), CharOf((b[1] % 16) * 4), '='];
    } else if |b| >= 3 {
      CharOfNotNewline(b[0] / 4);
      CharOfNotNewline((b[0] % 4) * 16 + b[1] / 16);
      CharOfNotNewline((b[1] % 16) * 4 + b[2] / 64);
      CharOfNotNewline(b[2] % 64);
      EncodeNoNewlines(b[3..]);
      assert s == EncodeTriple(b[0], b[1], b[2]) + Encode(b[3..]);
    }
  }

  lemma TripleRoundTrip(b0: Byte, b1: Byte, b2: Byte)
    ensures DecodeQuad(b0 / 4, (b0 % 4) * 16 + b1 / 16, (b1 % 16) * 4 + b2 / 64, b2 % 64) == [b0, b1, b2]
  {
    var c1 := (b0 % 4) * 16 + b1 / 16;
    var c2 := (b1 % 16) * 4 + b2 / 64;
    assert c1 / 16 == b0 % 4 && c1 % 16 == b1 / 16;
    assert c2 / 4 == b1 % 16 && c2 % 4 == b2 / 64;
  }

  lemma DecodeBlockTriple(b0: Byte, b1: Byte, b2: Byte, last: bool)
    ensures var q := EncodeTriple(b0, b1, b2);
      DecodeBlock(q[0], q[1], q[2], q[3], last) == Some([b0, b1, b2])
  {
    IndexOfCharOf(b0 / 4);
    IndexOfCharOf((b0 % 4) * 16 + b1 / 16);
    IndexOfCharOf((b1 % 16) * 4 + b2 / 64);
    IndexOfCharOf(b2 % 64);
    TripleRoundTrip(b0, b1, b2);
  }

  lemma DecodeBlockOne(b0: Byte)
    ensures DecodeBlock(CharOf(b0 / 4), CharOf((b0 % 4) * 16), '=', '=', true) == Some([b0])
  {
    IndexOfCharOf(b0 / 4);
    IndexOfCharOf((b0 % 4) * 16);
    TripleRoundTrip(b0, 0, 0);
    var q := DecodeQuad(b0 / 4, (b0 % 4) * 16, 0, 0);
    assert q == [b0, 0, 0];
    assert q[..1] == [b0];
    assert IndexOf('=') == None;
    var r: Option<seq<Byte>> := Some([b0]);
    assert DecodeBlock(CharOf(b0 / 4), CharOf((b0 % 4) * 16), '=', '=', true) == r;
  }

  lemma DecodeBlockTwo(b0: Byte, b1: Byte)
    ensures DecodeBlock(CharOf(b0 / 4), CharOf((b0 % 4) * 16 + b1 / 16), CharOf((b1 % 16) * 4), '=', true)
         == Some([b0, b1])
  {
    IndexOfCharOf(b0 / 4);
    IndexOfCharOf((b0 % 4) * 16 + b1 / 16);
    IndexOfCharOf((b1 % 16) * 4);
    TripleRoundTrip(b0, b1, 0);
    var q := DecodeQuad(b0 / 4, (b0 % 4) * 16 + b1 / 16, (b1 % 16) * 4, 0);
    assert q == [b0, b1, 0];
    assert q[..2] == [b0, b1];
    assert IndexOf('=') == None;
    var r: Option<seq<Byte>> := Some([b0, b1]);
    assert DecodeBlock(CharOf(b0 / 4), CharOf((b0 % 4) * 16 + b1 / 16), CharOf((b1 % 16) * 4), '=', true) == r;
  }

  lemma DecodeBlocksCons(q: string, r: string, x: seq<Byte>, y: seq<Byte>)
    requires |q| == 4
    requires DecodeBlock(q[0], q[1], q[2], q[3], r == []) == Some(x)
    requires DecodeBlocks(r) == Some(y)
    ensures DecodeBlocks(q + r) == Some(x + y)
  {
    var s := q + r;
    assert s[0] == q[0] && s[1] == q[1] && s[2] == q[2] && s[3] == q[3];
    assert s[4..] == r;
  }

  lemma DecodeBlocksEncodeOne(b0: Byte)
    ensures DecodeBlocks(Encode([b0])) == Some([b0])
  {
    var s := [CharOf(b0 / 4), CharOf((b0 % 4) * 16), '=', '='];
    assert Encode([b0]) == s;
    DecodeBlockOne(b0);
    assert s[4..] == [];
    assert [b0] + [] == [b0];
  }

  lemma DecodeBlocksEncodeTwo(b0: Byte, b1: Byte)
    ensures DecodeBlocks(Encode([b0, b1])) == Some([b0, b1])
  {
    var s := [CharOf(b0 / 4), CharOf((b0 % 4) * 16 + b1 / 16), CharOf((b1 % 16) * 4), '='];
    assert Encode([b0, b1]) == s;
    DecodeBlockTwo(b0, b1);
    assert s[4..] == [];
    assert [b0, b1] + [] == [b0, b1];
  }

  lemma {:induction false} DecodeBlocksEncode(b: seq<Byte>)
    ensures DecodeBlocks(Encode(b)) == Some(b)
    decreases |b|
  {
    if |b| == 1 {
      DecodeBlocksEncodeOne(b[0]);
      assert b == [b[0]];
    } else if |b| == 2 {
      DecodeBlocksEncodeTwo(b[0], b[1]);
      assert b == [b[0], b[1]];
    } else if |b| >= 3 {
      DecodeBlocksEncode(b[3..]);
      DecodeBlocksEncodeStep(b[0], b[1], b[2], b[3..]);
      assert b == [b[0], b[1], b[2]] + b[3..];
    }
  }

  /** A full first triple decodes in front of whatever the rest decodes to. */
  lemma DecodeBlocksEncodeStep(b0: Byte, b1: Byte, b2: Byte, rest: seq<Byte>)
    requires DecodeBlocks(Encode(rest)) == Some(rest)
    ensures DecodeBlocks(Encode([b0, b1, b2] + rest)) == Some([b0, b1, b2] + rest)
  {
    var b := [b0, b1, b2] + rest;
    assert b[3..] == rest;
    assert Encode(b) == EncodeTriple(b0, b1, b2) + Encode(rest);
    DecodeBlocksTriple(b0, b1, b2, Encode(rest), rest);
  }

  lemma DecodeBlocksTriple(b0: Byte, b1: Byte, b2: Byte, r: string, y: seq<Byte>)
    requires DecodeBlocks(r) == Some(y)
    ensures DecodeBlocks(EncodeTriple(b0, b1, b2) + r) == Some([b0, b1, b2] + y)
  {
    DecodeBlockTriple(b0, b1, b2, r == []);
    DecodeBlocksCons(EncodeTriple(b0, b1, b2), r, [b0, b1, b2], y);
  }

  /** Decoding what was encoded gives the bytes back. */
  lemma DecodeEncode(b: seq<Byte>)
    ensures Decode(Encode(b)) == Some(b)
  {
    EncodeNoNewlines(b);
    RemoveNewlinesNone(Encode(b));
    DecodeBlocksEncode(b);
  }

  // ---------------------------------------------------------------------
  // Go strings as byte strings

  /** A string all of whose chars are bytes, as every Go string is. */
  predicate IsByteString(s: string) { forall i :: 0 <= i < |s| ==> s[i] as int < 256 }

  /** []byte(s); the model keeps the low 8 bits of a char, which changes
      nothing on a byte string. */
  function BytesOf(s: string): (b: seq<Byte>)
    ensures |b| == |s|
  {
    seq(|s|, i requires 0 <= i < |s| => (s[i] as int) % 256)
  }

  /** string(b). */
  function StringOf(b: seq<Byte>): (s: string)
    ensures |s| == |b| && IsByteString(s)
  {
    seq(|b|, i requires 0 <= i < |b| => b[i] as char)
  }

  lemma StringOfBytesOf(s: string)
    requires IsByteString(s)
    ensures StringOf(BytesOf(s)) == s
  {
  }

  function EncodeString(s: string): string { Encode(BytesOf(s)) }

  function DecodeString(s: string): Option<string>
  {
    match Decode(s)
    case None => None
    case Some(b) => Some(StringOf(b))
  }

  /** The string round trip the resource ids rely on. */
  lemma DecodeEncodeString(s: string)
    requires IsByteString(s)
    ensures DecodeString(EncodeString(s)) == Some(s)
  {
    DecodeEncode(BytesOf(s));
    StringOfBytesOf(s);
  }
}
