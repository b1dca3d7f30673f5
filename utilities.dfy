/** The helpers of the Rust service: the `InvalidItems` mappers that turn a missing value or
    a failure into a 400 error with a fixed message, and the two decoders of an
    `Authorization: Basic base64(email:token)` header. */
module Utilities {
  import opened Wrappers
  import opened Text
  import Utf8
  import Base64

  /** `actix_web::error::ErrorBadRequest(message)`. */
  datatype ActixError = BadRequest(message: string)

  const InvalidAuthMessage: string := "Invalid authorization header"
  const InvalidHeaderMessage: string := "Invalid header"

  /** `Option::invalid_auth`: the value, or a 400 "Invalid authorization header". */
  function OptionInvalidAuth<T>(o: Option<T>): (r: Result<T, ActixError>)
    ensures r.Ok? <==> o.Some?
    ensures r.Ok? ==> r.value == o.value
    ensures r.Err? ==> r.error == BadRequest(InvalidAuthMessage)
  {
    match o
    case Some(v) => Ok(v)
    case None => Err(BadRequest(InvalidAuthMessage))
  }

  /** `Option::invalid_header`: the value, or a 400 "Invalid header". */
  function OptionInvalidHeader<T>(o: Option<T>): (r: Result<T, ActixError>)
    ensures r.Ok? <==> o.Some?
    ensures r.Ok? ==> r.value == o.value
    ensures r.Err? ==> r.error == BadRequest(InvalidHeaderMessage)
  {
    match o
    case Some(v) => Ok(v)
    case None => Err(BadRequest(InvalidHeaderMessage))
  }

  /** `Result::invalid_auth`: the value, or the original error replaced by a 400
      "Invalid authorization header". */
  function ResultInvalidAuth<T, E>(res: Result<T, E>): (r: Result<T, ActixError>)
    ensures r.Ok? <==> res.Ok?
    ensures r.Ok? ==> r.value == res.value
    ensures r.Err? ==> r.error == BadRequest(InvalidAuthMessage)
  {
    match res
    case Ok(v) => Ok(v)
    case Err(_) => Err(BadRequest(InvalidAuthMessage))
  }

  /** `Result::invalid_header`. */
  function ResultInvalidHeader<T, E>(res: Result<T, E>): (r: Result<T, ActixError>)
    ensures r.Ok? <==> res.Ok?
    ensures r.Ok? ==> r.value == res.value
    ensures r.Err? ==> r.error == BadRequest(InvalidHeaderMessage)
  {
    match res
    case Ok(v) => Ok(v)
    case Err(_) => Err(BadRequest(InvalidHeaderMessage))
  }

  datatype AuthData = AuthData(email: string, token: string)

  /** `safe_basic_auth_decoder`: the header split at whitespace must start with the word
      "Basic"; its second word is decoded as Base64, the bytes as UTF-8, and the text is
      split at ':' into the email and the token. Every failure is the same 400 error. */
  function SafeBasicAuthDecoder(header: string): (r: Result<AuthData, ActixError>)
    ensures r.Err? ==> r.error == BadRequest(InvalidAuthMessage)
    ensures r.Ok? ==> ':' !in r.value.email && ':' !in r.value.token
  {
    var words := SplitWhitespace(header);
    var scheme :- OptionInvalidAuth(Get(words, 0));
    if scheme != "Basic" then Err(BadRequest(InvalidAuthMessage))
    else
      var encoded :- OptionInvalidAuth(Get(words, 1));
      var bytes :- ResultInvalidAuth(Base64.Decode(encoded));
      var text :- ResultInvalidAuth(Utf8.Decode(bytes));
      var pieces := Split(text, ':');
      var email := pieces[0];
      var token :- OptionInvalidAuth(Get(pieces, 1));
      Ok(AuthData(email, token))
  }

  /** What the `unwrap`s of `basic_auth_decoder` need: a second word that is Base64 of
      UTF-8 text holding a ':'. */
  predicate Decodable(header: string)
  {
    var words := SplitWhitespace(header);
    && |words| >= 2
    && Base64.Decode(words[1]).Ok?
    && Utf8.Decode(Base64.Decode(words[1]).value).Ok?
    && ':' in Utf8.Decode(Base64.Decode(words[1]).value).value
  }

  /** `basic_auth_decoder`: the same decoding without the checks; the scheme word is not
      looked at, and any other failure panics, so callers must pass a decodable header. */
  function BasicAuthDecoder(header: string): (r: AuthData)
    requires Decodable(header)
    ensures ':' !in r.email && ':' !in r.token
  {
    var words := SplitWhitespace(header);
    var text := Utf8.Decode(Base64.Decode(words[1]).value).value;
    var pieces := Split(text, ':');
    assert Count(text, ':') > 0 by { CountPositive(text, ':'); }
    AuthData(pieces[0], pieces[1])
  }

  lemma {:induction false} CountPositive(s: string, c: char)
    requires c in s
    ensures Count(s, c) > 0
    decreases |s|
  {
    if s[0] != c {
      assert c in s[1..];
      CountPositive(s[1..], c);
    }
  }

  /** A header whose first word is not "Basic" (or that has no word) is rejected. */
  lemma RejectsOtherSchemes(header: string)
    requires |SplitWhitespace(header)| == 0 || SplitWhitespace(header)[0] != "Basic"
    ensures SafeBasicAuthDecoder(header) == Err(BadRequest(InvalidAuthMessage))
  {
  }

  /** What an accepted header is made of: "Basic", a second word that decodes to text,
      and that text split at ':' into at least two pieces, the first two of which are the
      credentials. */
  lemma AcceptedParts(header: string)
    requires SafeBasicAuthDecoder(header).Ok?
    ensures var words := SplitWhitespace(header);
      && |words| >= 2 && words[0] == "Basic"
      && Base64.Decode(words[1]).Ok?
      && Utf8.Decode(Base64.Decode(words[1]).value).Ok?
      && var pieces := Split(Utf8.Decode(Base64.Decode(words[1]).value).value, ':');
         |pieces| >= 2 && SafeBasicAuthDecoder(header).value == AuthData(pieces[0], pieces[1])
  {
  }

  /** Joining at least two pieces with ':' starts with the first two and a ':' between. */
  lemma JoinHead(pieces: seq<string>)
    requires |pieces| >= 2
    ensures var text, n := Join(pieces, ":"), |pieces[0]| + 1 + |pieces[1]|;
      n <= |text| && text[..n] == pieces[0] + ":" + pieces[1] && (n < |text| ==> text[n] == ':')
  {
    var head := pieces[0] + ":" + pieces[1];
    assert Join(pieces, ":") == pieces[0] + ":" + Join(pieces[1..], ":");
    if |pieces| == 2 {
      assert Join(pieces, ":") == head;
    } else {
      var more := Join(pieces[2..], ":");
      assert Join(pieces[1..], ":") == pieces[1] + ":" + more by {
        assert pieces[1..][0] == pieces[1] && pieces[1..][1..] == pieces[2..];
      }
      assert Join(pieces, ":") == head + (":" + more);
    }
  }

  /** An accepted header splits into "Basic" and a second word whose decoding is the
      email, a ':', the token, and then either nothing or a further ':' and whatever
      follows it: a token is cut at its first ':'. */
  lemma AcceptedCredentials(header: string)
    requires SafeBasicAuthDecoder(header).Ok?
    ensures var words := SplitWhitespace(header);
      && |words| >= 2 && words[0] == "Basic"
      && Base64.Decode(words[1]).Ok?
      && Utf8.Decode(Base64.Decode(words[1]).value).Ok?
      && var text, a := Utf8.Decode(Base64.Decode(words[1]).value).value, SafeBasicAuthDecoder(header).value;
         var n := |a.email| + 1 + |a.token|;
         n <= |text| && text[..n] == a.email + ":" + a.token && (n < |text| ==> text[n] == ':')
  {
    AcceptedParts(header);
    var words := SplitWhitespace(header);
    var text := Utf8.Decode(Base64.Decode(words[1]).value).value;
    JoinSplit(text, ':');
    JoinHead(Split(text, ':'));
  }

  lemma BasicIsWord()
    ensures |"Basic"| > 0 && NoWhitespace("Basic")
  {
    var b := "Basic";
    assert b[0] == 'B' && b[1] == 'a' && b[2] == 's' && b[3] == 'i' && b[4] == 'c';
  }

  /** "Basic ", then one word without whitespace, splits into those two words. */
  lemma BasicWords(enc: string)
    requires |enc| > 0 && NoWhitespace(enc)
    ensures SplitWhitespace("Basic " + enc) == ["Basic", enc]
  {
    BasicIsWord();
    SchemeOnly("Basic", enc);
    assert "Basic" + " " + enc == "Basic " + enc;
  }

  /** A scheme, a space and one word. */
  lemma SchemeOnly(scheme: string, enc: string)
    requires |scheme| > 0 && NoWhitespace(scheme) && |enc| > 0 && NoWhitespace(enc)
    ensures SplitWhitespace(scheme + " " + enc) == [scheme, enc]
  {
    SchemeWords(scheme, enc, "");
    assert scheme + " " + enc + "" == scheme + " " + enc;
    assert [scheme] + ([enc] + []) == [scheme, enc];
  }

  /** The Base64 of some bytes is one word. */
  lemma EncodedWord(bytes: seq<Utf8.Byte>)
    requires |bytes| > 0
    ensures |Base64.Encode(bytes)| > 0 && NoWhitespace(Base64.Encode(bytes))
  {
    var enc := Base64.Encode(bytes);
    forall i | 0 <= i < |enc|
      ensures !IsWhitespace(enc[i])
    {
      assert Base64.IsBase64Char(enc[i]);
    }
  }

  /** The decoder on a header whose words and decodings are known. */
  lemma DecodeKnown(header: string, enc: string, bytes: seq<Utf8.Byte>, text: string)
    requires SplitWhitespace(header) == ["Basic", enc]
    requires Base64.Decode(enc) == Ok(bytes) && Utf8.Decode(bytes) == Ok(text)
    ensures var pieces := Split(text, ':');
      SafeBasicAuthDecoder(header)
      == if |pieces| >= 2 then Ok(AuthData(pieces[0], pieces[1])) else Err(BadRequest(InvalidAuthMessage))
  {
  }

  /** The header a client builds from some text: "Basic " and then the Base64 of its UTF-8
      form, splits into those two words, and the second decodes back to the text. */
  lemma BuiltHeader(text: string)
    requires |text| > 0
    ensures var bytes := Utf8.Encode(text);
      var enc := Base64.Encode(bytes);
      && SplitWhitespace("Basic " + enc) == ["Basic", enc]
      && Base64.Decode(enc) == Ok(bytes)
      && Utf8.Decode(bytes) == Ok(text)
  {
    var bytes := Utf8.Encode(text);
    EncodedWord(bytes);
    BasicWords(Base64.Encode(bytes));
    Base64.DecodeEncode(bytes);
    Utf8.DecodeEncode(text);
  }

  /** Decoding the header a client builds from an email and a token without ':' gives that
      email and token back. */
  lemma DecodeBuiltHeader(email: string, token: string)
    requires ':' !in email && ':' !in token
    ensures SafeBasicAuthDecoder("Basic " + Base64.Encode(Utf8.Encode(email + ":" + token)))
            == Ok(AuthData(email, token))
  {
    var text := email + ":" + token;
    BuiltHeader(text);
    var bytes := Utf8.Encode(text);
    DecodeKnown("Basic " + Base64.Encode(bytes), Base64.Encode(bytes), bytes, text);
    assert Join([email, token], [':']) == text;
    SplitJoin([email, token], ':');
  }

  /** A well-encoded header whose text holds no ':' is rejected. */
  lemma RejectsWithoutColon(text: string)
    requires |text| > 0 && ':' !in text
    ensures SafeBasicAuthDecoder("Basic " + Base64.Encode(Utf8.Encode(text))).Err?
  {
    BuiltHeader(text);
    var bytes := Utf8.Encode(text);
    DecodeKnown("Basic " + Base64.Encode(bytes), Base64.Encode(bytes), bytes, text);
    CountAbsent(text, ':');
  }

  lemma {:induction false} CountAbsent(s: string, c: char)
    requires c !in s
    ensures Count(s, c) == 0
    decreases |s|
  {
    if |s| > 0 {
      assert c !in s[1..];
      CountAbsent(s[1..], c);
    }
  }

  /** After the safe decoder accepted a header, the unsafe one does not panic on it and
      reads the same credentials. */
  lemma SafeThenUnsafe(header: string)
    requires SafeBasicAuthDecoder(header).Ok?
    ensures Decodable(header)
    ensures BasicAuthDecoder(header) == SafeBasicAuthDecoder(header).value
  {
    AcceptedParts(header);
    var words := SplitWhitespace(header);
    var text := Utf8.Decode(Base64.Decode(words[1]).value).value;
    JoinSplit(text, ':');
    JoinHead(Split(text, ':'));
    assert text[|Split(text, ':')[0]|] == ':';
  }

  /** A word, then a space: the word is the first token and the rest is split on. */
  lemma WordThenSpace(w: string, rest: string)
    requires |w| > 0 && NoWhitespace(w)
    ensures SplitWhitespace(w + ([' '] + rest)) == [w] + SplitWhitespace(rest)
  {
    SplitWhitespaceWord(w, [' '] + rest);
    SplitWhitespaceSkip(' ', rest);
  }

  /** The words of a scheme, a space, a word and a rest that starts at whitespace. */
  lemma SchemeWords(scheme: string, enc: string, rest: string)
    requires |scheme| > 0 && NoWhitespace(scheme)
    requires |enc| > 0 && NoWhitespace(enc) && (rest == [] || IsWhitespace(rest[0]))
    ensures SplitWhitespace(scheme + " " + enc + rest) == [scheme, enc] + SplitWhitespace(rest)
  {
    calc {
      SplitWhitespace(scheme + " " + enc + rest);
      { assert scheme + " " + enc + rest == scheme + ([' '] + (enc + rest)); }
      SplitWhitespace(scheme + ([' '] + (enc + rest)));
      { WordThenSpace(scheme, enc + rest); }
      [scheme] + SplitWhitespace(enc + rest);
      { SplitWhitespaceWord(enc, rest); }
      [scheme] + ([enc] + SplitWhitespace(rest));
      [scheme, enc] + SplitWhitespace(rest);
    }
  }

  /** The unsafe decoder does not look at the scheme: any first word will do. */
  lemma UnsafeIgnoresScheme(scheme: string, enc: string, rest: string)
    requires |scheme| > 0 && NoWhitespace(scheme)
    requires |enc| > 0 && NoWhitespace(enc) && (rest == [] || IsWhitespace(rest[0]))
    requires Decodable("Basic " + enc + rest)
    ensures Decodable(scheme + " " + enc + rest)
    ensures BasicAuthDecoder(scheme + " " + enc + rest) == BasicAuthDecoder("Basic " + enc + rest)
  {
    var w1, w2 := SplitWhitespace(scheme + " " + enc + rest), SplitWhitespace("Basic " + enc + rest);
    assert |w1| >= 2 && w1[1] == enc by { SchemeWords(scheme, enc, rest); }
    assert |w2| >= 2 && w2[1] == enc by {
      BasicIsWord();
      SchemeWords("Basic", enc, rest);
      assert "Basic" + " " + enc + rest == "Basic " + enc + rest;
    }
  }
}
