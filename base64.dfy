/** Base64 with the standard alphabet of section 4 of RFC 4648: every 3 bytes become
    4 symbols, and a final group of 1 or 2 bytes is padded with "==" or "=". The
    decoder is strict: the length must be a multiple of 4, '=' may appear only as the
    padding of the last group, and the unused low bits of the last symbol must be zero
    (section 3.5 of RFC 4648 allows a decoder to reject them). */
module Base64 {
  import opened Wrappers
  import opened Utf8

  datatype DecodeError = InvalidLength | InvalidByte | InvalidLastSymbol

  type Sextet = i: int | 0 <= i < 64

  /** Symbol `i` of the alphabet "A-Z a-z 0-9 + /". */
  function Symbol(i: Sextet): char
  {
    if i < 26 then ('A' as int + i) as char
    else if i < 52 then ('a' as int + i - 26) as char
    else if i < 62 then ('0' as int + i - 52) as char
    else if i == 62 then '+'
    else '/'
  }

  /** The value of an alphabet symbol; None for any other character, '=' included. */
  function Value(c: char): Option<Sextet>
  {
    var n := c as int;
    if 'A' as int <= n <= 'Z' as int then Some(n - 'A' as int)
    else if 'a' as int <= n <= 'z' as int then Some(n - 'a' as int + 26)
    else if '0' as int <= n <= '9' as int then Some(n - '0' as int + 52)
    else if c == '+' then Some(62)
    else if c == '/' then Some(63)
    else None
  }

  lemma ValueSymbol(i: Sextet)
    ensures Value(Symbol(i)) == Some(i)
  {
  }

  /** A character of the alphabet or the pad character. */
  predicate IsBase64Char(c: char)
  {
    ('A' <= c <= 'Z') || ('a' <= c <= 'z') || ('0' <= c <= '9') || c == '+' || c == '/' || c == '='
  }

  /** The four symbols of a full group of three bytes. */
  function Quantum(b0: Byte, b1: Byte, b2: Byte): (r: string)
    ensures |r| == 4 && forall i :: 0 <= i < 4 ==> IsBase64Char(r[i])
  {
    [Symbol(b0 / 4), Symbol((b0 % 4) * 16 + b1 / 16), Symbol((b1 % 16) * 4 + b2 / 64), Symbol(b2 % 64)]
  }

  /** A final group of one byte: two symbols and "==". */
  function Quantum1(b0: Byte): (r: string)
    ensures |r| == 4 && forall i :: 0 <= i < 4 ==> IsBase64Char(r[i])
  {
    [Symbol(b0 / 4), Symbol((b0 % 4) * 16), '=', '=']
  }

  /** A final group of two bytes: three symbols and "=". */
  function Quantum2(b0: Byte, b1: Byte): (r: string)
    ensures |r| == 4 && forall i :: 0 <= i < 4 ==> IsBase64Char(r[i])
  {
    [Symbol(b0 / 4), Symbol((b0 % 4) * 16 + b1 / 16), Symbol((b1 % 16) * 4), '=']
  }

  /** The encoding of `bs`: four characters per started group of three bytes. */
  function Encode(bs: seq<Byte>): (r: string)
    ensures |r| == 4 * ((|bs| + 2) / 3)
    ensures |r| % 4 == 0 && (|r| == 0 <==> |bs| == 0)
    ensures forall i :: 0 <= i < |r| ==> IsBase64Char(r[i])
    decreases |bs|
  {
    if |bs| == 0 then ""
    else if |bs| == 1 then Quantum1(bs[0])
    else if |bs| == 2 then Quantum2(bs[0], bs[1])
    else
      assert (|bs| + 2) / 3 == (|bs| - 1) / 3 + 1;
      Quantum(bs[0], bs[1], bs[2]) + Encode(bs[3..])
  }

  /** Three bytes from four symbols. */
  function Bytes3(s0: Sextet, s1: Sextet, s2: Sextet, s3: Sextet): (r: seq<Byte>)
    ensures |r| == 3
  {
    [s0 * 4 + s1 / 16, (s1 % 16) * 16 + s2 / 4, (s2 % 4) * 64 + s3]
  }

  /** One group of four characters; `last` says whether padding may appear in it. */
  function DecodeGroup(c0: char, c1: char, c2: char, c3: char, last: bool): (r: Result<seq<Byte>, DecodeError>)
    ensures r.Ok? ==> 1 <= |r.value| <= 3 && (!last ==> |r.value| == 3)
  {
    var v0, v1, v2, v3 := Value(c0), Value(c1), Value(c2), Value(c3);
    if v0.None? || v1.None? then Err(InvalidByte)
    else if v2.Some? && v3.Some? then Ok(Bytes3(v0.value, v1.value, v2.value, v3.value))
    else if v2.Some? then
      if !last || c3 != '=' then Err(InvalidByte)
      else if v2.value % 4 != 0 then Err(InvalidLastSymbol)
      else Ok(Bytes3(v0.value, v1.value, v2.value, 0)[..2])
    else if !last || c2 != '=' || c3 != '=' then Err(InvalidByte)
    else if v1.value % 16 != 0 then Err(InvalidLastSymbol)
    else Ok(Bytes3(v0.value, v1.value, 0, 0)[..1])
  }

  /** Groups of four characters, in order; a text whose length is not a multiple of four
      never reaches here. */
  function DecodeGroups(s: string): (r: Result<seq<Byte>, DecodeError>)
    decreases |s|
  {
    if |s| == 0 then Ok([])
    else if |s| < 4 then Err(InvalidLength)
    else
      match DecodeGroup(s[0], s[1], s[2], s[3], |s| == 4)
      case Err(e) => Err(e)
      case Ok(head) =>
        match DecodeGroups(s[4..])
        case Err(e) => Err(e)
        case Ok(tail) => Ok(head + tail)
  }

  /** `base64::decode(s)` with the standard alphabet. */
  function Decode(s: string): (r: Result<seq<Byte>, DecodeError>)
    ensures |s| % 4 != 0 ==> r == Err(InvalidLength)
  {
    if |s| % 4 != 0 then Err(InvalidLength) else DecodeGroups(s)
  }

  /** The arithmetic of one full group: splitting three bytes into four sextets and
      joining them again is the identity. */
  lemma Bytes3OfSextets(b0: Byte, b1: Byte, b2: Byte)
    ensures Bytes3(b0 / 4, (b0 % 4) * 16 + b1 / 16, (b1 % 16) * 4 + b2 / 64, b2 % 64) == [b0, b1, b2]
  {
    var s1 := (b0 % 4) * 16 + b1 / 16;
    var s2 := (b1 % 16) * 4 + b2 / 64;
    assert s1 / 16 == b0 % 4 && s1 % 16 == b1 / 16;
    assert s2 / 4 == b1 % 16 && s2 % 4 == b2 / 64;
  }

  lemma DecodeGroupOfOne(b0: Byte)
    ensures var q := Quantum1(b0); DecodeGroup(q[0], q[1], q[2], q[3], true) == Ok([b0])
  {
    var s0, s1 := b0 / 4, (b0 % 4) * 16;
    ValueSymbol(s0);
    ValueSymbol(s1);
    assert Value('=') == None;
    assert s1 % 16 == 0;
    Bytes3OfSextets(b0, 0, 0);
    assert Bytes3(s0, s1, 0, 0)[..1] == [b0];
  }

  lemma DecodeGroupOfTwo(b0: Byte, b1: Byte)
    ensures var q := Quantum2(b0, b1); DecodeGroup(q[0], q[1], q[2], q[3], true) == Ok([b0, b1])
  {
    var s0, s1, s2 := b0 / 4, (b0 % 4) * 16 + b1 / 16, (b1 % 16) * 4;
    ValueSymbol(s0);
    ValueSymbol(s1);
    ValueSymbol(s2);
    assert Value('=') == None;
    assert s2 % 4 == 0;
    Bytes3OfSextets(b0, b1, 0);
    assert Bytes3(s0, s1, s2, 0)[..2] == [b0, b1];
  }

  lemma DecodeGroupOfThree(b0: Byte, b1: Byte, b2: Byte, last: bool)
    ensures var q := Quantum(b0, b1, b2); DecodeGroup(q[0], q[1], q[2], q[3], last) == Ok([b0, b1, b2])
  {
    var s0, s1, s2, s3 := b0 / 4, (b0 % 4) * 16 + b1 / 16, (b1 % 16) * 4 + b2 / 64, b2 % 64;
    ValueSymbol(s0);
    ValueSymbol(s1);
    ValueSymbol(s2);
    ValueSymbol(s3);
    Bytes3OfSextets(b0, b1, b2);
  }

  lemma DecodeEncodeOne(b0: Byte)
    ensures Decode(Encode([b0])) == Ok([b0])
  {
    var q := Quantum1(b0);
    DecodeGroupOfOne(b0);
    DecodeGroupsCons(q, "", [b0], []);
    assert q + "" == q && [b0] + [] == [b0];
  }

  lemma DecodeEncodeTwo(b0: Byte, b1: Byte)
    ensures Decode(Encode([b0, b1])) == Ok([b0, b1])
  {
    var q := Quantum2(b0, b1);
    DecodeGroupOfTwo(b0, b1);
    DecodeGroupsCons(q, "", [b0, b1], []);
    assert q + "" == q && [b0, b1] + [] == [b0, b1];
  }

  /** Decoding a group of four characters in front of whole groups. */
  lemma DecodeGroupsCons(q: string, rest: string, head: seq<Byte>, tail: seq<Byte>)
    requires |q| == 4
    requires DecodeGroup(q[0], q[1], q[2], q[3], rest == []) == Ok(head)
    requires DecodeGroups(rest) == Ok(tail)
    ensures DecodeGroups(q + rest) == Ok(head + tail)
  {
    var s := q + rest;
    assert s[0] == q[0] && s[1] == q[1] && s[2] == q[2] && s[3] == q[3];
    assert (|s| == 4) == (rest == []);
    assert s[4..] == rest;
  }

  /** One full group in front of a tail that already decodes. */
  lemma DecodeEncodeStep(b0: Byte, b1: Byte, b2: Byte, tail: seq<Byte>)
    requires Decode(Encode(tail)) == Ok(tail)
    ensures Decode(Encode([b0, b1, b2] + tail)) == Ok([b0, b1, b2] + tail)
  {
    var bs := [b0, b1, b2] + tail;
    var rest := Encode(tail);
    var q := Quantum(b0, b1, b2);
    DecodeGroupOfThree(b0, b1, b2, rest == []);
    DecodeGroupsCons(q, rest, [b0, b1, b2], tail);
    assert bs[0] == b0 && bs[1] == b1 && bs[2] == b2 && bs[3..] == tail;
    assert Encode(bs) == q + rest;
  }

  lemma Regroup(bs: seq<Byte>)
    ensures |bs| == 1 ==> bs == [bs[0]]
    ensures |bs| == 2 ==> bs == [bs[0], bs[1]]
    ensures |bs| >= 3 ==> bs == [bs[0], bs[1], bs[2]] + bs[3..]
  {
  }

  /** Inputs shorter than a full group. */
  lemma DecodeEncodeShort(bs: seq<Byte>)
    requires |bs| < 3
    ensures Decode(Encode(bs)) == Ok(bs)
  {
    Regroup(bs);
    if |bs| == 1 {
      DecodeEncodeOne(bs[0]);
    } else if |bs| == 2 {
      DecodeEncodeTwo(bs[0], bs[1]);
    }
  }

  /** Decoding an encoding gives the bytes back. */
  lemma {:induction false} DecodeEncode(bs: seq<Byte>)
    ensures Decode(Encode(bs)) == Ok(bs)
    decreases |bs|
  {
    if |bs| < 3 {
      DecodeEncodeShort(bs);
    } else {
      DecodeEncode(bs[3..]);
      Regroup(bs);
      DecodeEncodeStep(bs[0], bs[1], bs[2], bs[3..]);
    }
  }
}
