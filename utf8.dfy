/** Bytes and UTF-8: `str::as_bytes` (encoding) and `String::from_utf8` (validating
    decoding). Well-formed sequences are those of table 3-7 of the Unicode Standard,
    section 3.9: no overlong forms, no surrogates, nothing above U+10FFFF. */
module Utf8 {
  import opened Wrappers

  type Byte = b: int | 0 <= b < 256

  /** `String::from_utf8` failed: the bytes are not well-formed UTF-8. */
  datatype Utf8Error = Utf8Error

  /** The UTF-8 form of one character: one to four bytes, ASCII as itself. */
  function EncodeChar(c: char): (r: seq<Byte>)
    ensures 1 <= |r| <= 4
    ensures (c as int < 0x80) <==> |r| == 1
    ensures |r| == 1 ==> r[0] == c as int
  {
    var n := c as int;
    if n < 0x80 then [n]
    else if n < 0x800 then [0xC0 + n / 64, 0x80 + n % 64]
    else if n < 0x10000 then [0xE0 + n / 4096, 0x80 + (n / 64) % 64, 0x80 + n % 64]
    else [0xF0 + n / 262144, 0x80 + (n / 4096) % 64, 0x80 + (n / 64) % 64, 0x80 + n % 64]
  }

  /** `s.as_bytes()`. */
  function Encode(s: string): (r: seq<Byte>)
    ensures |r| >= |s|
  {
    if |s| == 0 then [] else EncodeChar(s[0]) + Encode(s[1..])
  }

  predicate IsContinuation(b: Byte)
  {
    0x80 <= b <= 0xBF
  }

  /** The first character of a non-empty byte sequence and the number of bytes it takes,
      or None when the sequence does not start with a well-formed character. */
  function DecodeFirst(bs: seq<Byte>): (r: Option<(char, nat)>)
    requires |bs| > 0
    ensures r.Some? ==> 1 <= r.value.1 <= |bs|
  {
    var b0: int, b1: int, b2: int, b3: int := bs[0], if |bs| > 1 then bs[1] else 0,
      if |bs| > 2 then bs[2] else 0, if |bs| > 3 then bs[3] else 0;
    if b0 < 0x80 then
      Some((b0 as char, 1))
    else if 0xC2 <= b0 <= 0xDF then
      if |bs| >= 2 && IsContinuation(bs[1]) then
        Some((((b0 - 0xC0) * 64 + (b1 - 0x80)) as char, 2))
      else None
    else if 0xE0 <= b0 <= 0xEF then
      if |bs| >= 3 && IsContinuation(bs[1]) && IsContinuation(bs[2])
         && (b0 == 0xE0 ==> bs[1] >= 0xA0) && (b0 == 0xED ==> bs[1] <= 0x9F)
      then
        var n := (b0 - 0xE0) * 4096 + (b1 - 0x80) * 64 + (b2 - 0x80);
        Some((n as char, 3))
      else None
    else if 0xF0 <= b0 <= 0xF4 then
      if |bs| >= 4 && IsContinuation(bs[1]) && IsContinuation(bs[2]) && IsContinuation(bs[3])
         && (b0 == 0xF0 ==> bs[1] >= 0x90) && (b0 == 0xF4 ==> bs[1] <= 0x8F)
      then
        var n := (b0 - 0xF0) * 262144 + (b1 - 0x80) * 4096 + (b2 - 0x80) * 64 + (b3 - 0x80);
        Some((n as char, 4))
      else None
    else None
  }

  /** `String::from_utf8(bs)`. */
  function Decode(bs: seq<Byte>): (r: Result<string, Utf8Error>)
    ensures r.Ok? ==> |r.value| <= |bs|
    decreases |bs|
  {
    if |bs| == 0 then Ok("")
    else match DecodeFirst(bs)
      case None => Err(Utf8Error)
      case Some((c, n)) =>
        match Decode(bs[n..])
        case Ok(rest) => Ok([c] + rest)
        case Err(e) => Err(e)
  }

  /** Decoding the encoding of one character, followed by anything, reads that character back. */
  lemma DecodeFirstEncodeChar(c: char, rest: seq<Byte>)
    ensures DecodeFirst(EncodeChar(c) + rest) == Some((c, |EncodeChar(c)|))
  {
    var n := c as int;
    if n < 0x80 {
    } else if n < 0x800 {
      DecodeFirstTwo(c, rest);
    } else if n < 0x10000 {
      DecodeFirstThree(c, rest);
    } else {
      DecodeFirstFour(c, rest);
    }
  }

  lemma DecodeFirstTwo(c: char, rest: seq<Byte>)
    requires 0x80 <= c as int < 0x800
    ensures DecodeFirst(EncodeChar(c) + rest) == Some((c, 2))
  {
    var n := c as int;
    var bs := EncodeChar(c) + rest;
    assert bs[0] == 0xC0 + n / 64 && bs[1] == 0x80 + n % 64;
    assert (n / 64) * 64 + n % 64 == n;
  }

  lemma DecodeFirstThree(c: char, rest: seq<Byte>)
    requires 0x800 <= c as int < 0x10000
    ensures DecodeFirst(EncodeChar(c) + rest) == Some((c, 3))
  {
    var n := c as int;
    var bs := EncodeChar(c) + rest;
    var hi, mid, lo := n / 4096, (n / 64) % 64, n % 64;
    assert bs[0] == 0xE0 + hi && bs[1] == 0x80 + mid && bs[2] == 0x80 + lo;
    assert n / 64 == hi * 64 + mid;
    assert hi * 4096 + mid * 64 + lo == n;
    assert hi == 0 ==> mid >= 32;
    assert hi == 13 ==> mid <= 31;
  }

  lemma DecodeFirstFour(c: char, rest: seq<Byte>)
    requires 0x10000 <= c as int
    ensures DecodeFirst(EncodeChar(c) + rest) == Some((c, 4))
  {
    var n := c as int;
    var bs := EncodeChar(c) + rest;
    var top, hi, mid, lo := n / 262144, (n / 4096) % 64, (n / 64) % 64, n % 64;
    FourParts(n);
    assert bs[0] == 0xF0 + top && bs[1] == 0x80 + hi && bs[2] == 0x80 + mid && bs[3] == 0x80 + lo;
  }

  /** The four fields of a supplementary code point. */
  lemma FourParts(n: int)
    requires 0x10000 <= n < 0x110000
    ensures var top, hi, mid, lo := n / 262144, (n / 4096) % 64, (n / 64) % 64, n % 64;
      && top * 262144 + hi * 4096 + mid * 64 + lo == n
      && top <= 4 && (top == 0 ==> hi >= 16) && (top == 4 ==> hi <= 15)
  {
    var top, hi, mid, lo := n / 262144, (n / 4096) % 64, (n / 64) % 64, n % 64;
    assert n / 64 == (n / 4096) * 64 + mid;
    assert n / 4096 == top * 64 + hi;
  }

  /** `String::from_utf8(s.as_bytes())` gives `s` back. */
  lemma {:induction false} DecodeEncode(s: string)
    ensures Decode(Encode(s)) == Ok(s)
    decreases |s|
  {
    if |s| > 0 {
      var head := EncodeChar(s[0]);
      DecodeFirstEncodeChar(s[0], Encode(s[1..]));
      DecodeEncode(s[1..]);
      assert (head + Encode(s[1..]))[|head|..] == Encode(s[1..]);
      assert [s[0]] + s[1..] == s;
    }
  }

  /** Six more low bits: the quotient and remainder by 64 take them apart again. */
  lemma Sextet(q: int, lo: int)
    requires q >= 0 && 0 <= lo < 64
    ensures (q * 64 + lo) / 64 == q && (q * 64 + lo) % 64 == lo
  {
  }

  /** A well-formed first character is the UTF-8 form of the character read. */
  lemma EncodeCharDecodeFirst(bs: seq<Byte>)
    requires |bs| > 0 && DecodeFirst(bs).Some?
    ensures EncodeChar(DecodeFirst(bs).value.0) == bs[..DecodeFirst(bs).value.1]
  {
    var b0: int := bs[0];
    if b0 < 0x80 {
    } else if b0 <= 0xDF {
      EncodeCharTwo(bs);
    } else if b0 <= 0xEF {
      EncodeCharThree(bs);
    } else {
      EncodeCharFour(bs);
    }
  }

  lemma EncodeCharTwo(bs: seq<Byte>)
    requires |bs| > 0 && DecodeFirst(bs).Some? && 0x80 <= bs[0] <= 0xDF
    ensures EncodeChar(DecodeFirst(bs).value.0) == bs[..DecodeFirst(bs).value.1]
  {
    var n := DecodeFirst(bs).value.0 as int;
    var b0: int, b1: int := bs[0], bs[1];
    assert n == (b0 - 0xC0) * 64 + (b1 - 0x80);
    Sextet(b0 - 0xC0, b1 - 0x80);
  }

  lemma EncodeCharThree(bs: seq<Byte>)
    requires |bs| > 0 && DecodeFirst(bs).Some? && 0xE0 <= bs[0] <= 0xEF
    ensures EncodeChar(DecodeFirst(bs).value.0) == bs[..DecodeFirst(bs).value.1]
  {
    var n := DecodeFirst(bs).value.0 as int;
    var b0: int, b1: int, b2: int := bs[0], bs[1], bs[2];
    var m := (b0 - 0xE0) * 64 + (b1 - 0x80);
    assert n == m * 64 + (b2 - 0x80);
    Sextet(m, b2 - 0x80);
    Sextet(b0 - 0xE0, b1 - 0x80);
    assert n / 4096 == (n / 64) / 64;
  }

  lemma EncodeCharFour(bs: seq<Byte>)
    requires |bs| > 0 && DecodeFirst(bs).Some? && 0xF0 <= bs[0]
    ensures EncodeChar(DecodeFirst(bs).value.0) == bs[..DecodeFirst(bs).value.1]
  {
    var n := DecodeFirst(bs).value.0 as int;
    var b0: int, b1: int, b2: int, b3: int := bs[0], bs[1], bs[2], bs[3];
    var k := (b0 - 0xF0) * 64 + (b1 - 0x80);
    var m := k * 64 + (b2 - 0x80);
    assert n == m * 64 + (b3 - 0x80);
    Sextet(m, b3 - 0x80);
    Sextet(k, b2 - 0x80);
    Sextet(b0 - 0xF0, b1 - 0x80);
    assert n / 4096 == (n / 64) / 64;
    assert n / 262144 == (n / 4096) / 64;
  }

  /** A successful decoding is the first character followed by the decoding of the rest. */
  lemma DecodeCons(bs: seq<Byte>)
    requires |bs| > 0 && Decode(bs).Ok?
    ensures DecodeFirst(bs).Some?
    ensures Decode(bs[DecodeFirst(bs).value.1..]).Ok?
    ensures Decode(bs).value == [DecodeFirst(bs).value.0] + Decode(bs[DecodeFirst(bs).value.1..]).value
  {
  }

  lemma EncodeCons(c: char, s: string)
    ensures Encode([c] + s) == EncodeChar(c) + Encode(s)
  {
    assert ([c] + s)[0] == c && ([c] + s)[1..] == s;
  }

  /** Bytes that `String::from_utf8` accepts are exactly the UTF-8 form of the text it returns. */
  lemma {:induction false} EncodeDecode(bs: seq<Byte>)
    requires Decode(bs).Ok?
    ensures Encode(Decode(bs).value) == bs
    decreases |bs|
  {
    if |bs| > 0 {
      DecodeCons(bs);
      var c, n := DecodeFirst(bs).value.0, DecodeFirst(bs).value.1;
      var tail := Decode(bs[n..]).value;
      EncodeDecode(bs[n..]);
      EncodeCharDecodeFirst(bs);
      EncodeDecodeStep(bs, c, n, tail);
    }
  }

  /** A character whose form is the first `n` bytes, before text whose encoding is the
      rest, encodes to all the bytes. */
  lemma EncodeDecodeStep(bs: seq<Byte>, c: char, n: nat, tail: string)
    requires n <= |bs| && EncodeChar(c) == bs[..n] && Encode(tail) == bs[n..]
    ensures Encode([c] + tail) == bs
  {
    EncodeCons(c, tail);
    assert bs == bs[..n] + bs[n..];
  }

  /** Encoding distributes over concatenation. */
  lemma {:induction false} EncodeAppend(a: string, b: string)
    ensures Encode(a + b) == Encode(a) + Encode(b)
    decreases |a|
  {
    if |a| > 0 {
      assert (a + b)[0] == a[0] && (a + b)[1..] == a[1..] + b;
      EncodeAppend(a[1..], b);
    } else {
      assert a + b == b;
    }
  }
}
