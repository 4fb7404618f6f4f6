/**
 * What `parse_start_line` promises, stated over the tokens of the line:
 * the token-count rule, the classification by the `HTTP/` prefix, the
 * status-line and request-line rules, the order in which a request line's
 * method and version are checked, the round trips with the textual form of
 * each kind of start line, and the outcomes of some concrete lines.
 */
module StartLineProperties {
  import opened Whitespace
  import opened DecimalU16
  import opened StartLineParser

  /** The textual form of a request line: method, target, version. */
  function FormatRequestLine(rl: RequestLine): string
  {
    JoinWords([MethodToken(rl.requestMethod), rl.requestTarget, VersionToken(rl.httpVersion)])
  }

  /** A numeral for `code` as `parse::<u16>()` accepts it: an optional `+`,
      `k` leading zeros, then the shortest numeral of the code. */
  function CodeNumeral(code: u16, plus: bool, k: nat): string
  {
    (if plus then "+" else "") + Zeros(k) + Decimal(code as nat)
  }

  /** The textual form of a status line, its code spelled by CodeNumeral,
      with an optional one-word reason phrase. */
  function FormatStatusLine(sl: StatusLine, plus: bool, k: nat, reason: string): string
  {
    JoinWords([VersionToken(sl.httpVersion), CodeNumeral(sl.statusCode, plus, k)] + (if reason == [] then [] else [reason]))
  }

  /** The result depends on the line only through its tokens: how much
      whitespace separates them, and of which kind, does not matter. */
  lemma TokensDetermineResult(line1: string, line2: string)
    requires Tokens(line1) == Tokens(line2)
    ensures ParseStartLine(line1) == ParseStartLine(line2)
  {
    TokensTrim(line1);
    TokensTrim(line2);
  }

  /** Fewer than two or more than three tokens is a Bad Request. */
  lemma TokenCountRule(line: string)
    requires |Tokens(line)| < 2 || |Tokens(line)| > 3
    ensures ParseStartLine(line) == Err(BadRequest)
  {
    TokensTrim(line);
  }

  /** The empty line and a line of whitespace only are Bad Requests. */
  lemma BlankLineRule(line: string)
    requires AllWhitespace(line)
    ensures ParseStartLine(line) == Err(BadRequest)
  {
    TokensEmpty(line);
    TokenCountRule(line);
  }

  /** A line whose first token starts with `HTTP/` is a status line: it parses
      exactly when that token is `HTTP/1.1` and the second token is a 16-bit
      decimal number, and is a Bad Request otherwise.  A third token, the
      reason phrase, plays no part. */
  lemma StatusLineRule(line: string)
    requires 2 <= |Tokens(line)| <= 3 && HasHttpPrefix(Tokens(line)[0])
    ensures var ts, r := Tokens(line), ParseStartLine(line);
      && (r.Ok? <==> ts[0] == "HTTP/1.1" && ParseU16(ts[1]).Some?)
      && (r.Ok? ==> r.value == Status(StatusLine(Http11, ParseU16(ts[1]).value)))
      && (r.Err? ==> r.error == BadRequest)
  {
    TokensTrim(line);
  }

  /** `HTTP/1.1 200` and `HTTP/1.1 200 OK` parse alike: the reason phrase is
      ignored. */
  lemma ReasonPhraseIgnored(withoutReason: string, withReason: string)
    requires |Tokens(withReason)| == 3 && HasHttpPrefix(Tokens(withReason)[0])
    requires Tokens(withoutReason) == Tokens(withReason)[..2]
    ensures ParseStartLine(withoutReason) == ParseStartLine(withReason)
  {
    StatusLineRule(withReason);
    StatusLineRule(withoutReason);
  }

  /** A request line needs its version: two tokens without the `HTTP/` prefix
      are a Bad Request, never read as a status line. */
  lemma TwoTokenRequestLine(line: string)
    requires |Tokens(line)| == 2 && !HasHttpPrefix(Tokens(line)[0])
    ensures ParseStartLine(line) == Err(BadRequest)
  {
    TokensTrim(line);
  }

  /** A line of three tokens without the `HTTP/` prefix is a request line: it
      parses exactly when the method is GET or HEAD and the version is
      `HTTP/1.1`; the target is kept verbatim.  The method is checked first,
      so a rejected method decides the error whatever the version is. */
  lemma RequestLineRule(line: string)
    requires |Tokens(line)| == 3 && !HasHttpPrefix(Tokens(line)[0])
    ensures var ts, r := Tokens(line), ParseStartLine(line);
      && (r.Ok? <==> ParseMethod(ts[0]).Ok? && ts[2] == "HTTP/1.1")
      && (r.Ok? ==> r.value == Request(RequestLine(ParseMethod(ts[0]).value, ts[1], Http11)))
      && (ParseMethod(ts[0]).Err? ==> r == Err(ParseMethod(ts[0]).error))
      && (ParseMethod(ts[0]).Ok? && ts[2] != "HTTP/1.1" ==> r == Err(BadRequest))
  {
    TokensTrim(line);
  }

  /** The unsupported methods are request-line tokens that parse to Not
      Implemented. */
  lemma UnsupportedMethod(m: string)
    requires m in UnsupportedMethods
    ensures !HasHttpPrefix(m) && ParseMethod(m) == Err(NotImplemented)
  {
    assert m[0] != 'H';
  }

  /** A recognised but unsupported method is Not Implemented even when the
      version is wrong too (`POST / HTTP/2`). */
  lemma UnsupportedMethodFirst(line: string)
    requires |Tokens(line)| == 3 && Tokens(line)[0] in UnsupportedMethods
    ensures ParseStartLine(line) == Err(NotImplemented)
  {
    UnsupportedMethod(Tokens(line)[0]);
    TokensTrim(line);
  }

  /** RequestLineTokens, stated over the list of tokens. */
  lemma RequestPartsIff(ts: seq<string>, rl: RequestLine)
    ensures ParseParts(ts) == Ok(Request(rl)) <==>
      ts == [MethodToken(rl.requestMethod), rl.requestTarget, VersionToken(rl.httpVersion)]
  {
    if ParseParts(ts) == Ok(Request(rl)) {
      assert ts == [ts[0], ts[1], ts[2]];
    }
  }

  /** A line parses to a request line exactly when its tokens are that
      request line's method name, target and version, in this order. */
  lemma RequestLineTokens(line: string, rl: RequestLine)
    ensures ParseStartLine(line) == Ok(Request(rl)) <==>
      Tokens(line) == [MethodToken(rl.requestMethod), rl.requestTarget, VersionToken(rl.httpVersion)]
  {
    TokensTrim(line);
    RequestPartsIff(Tokens(line), rl);
  }

  /** StatusLineTokens, stated over the list of tokens. */
  lemma StatusPartsIff(ts: seq<string>, sl: StatusLine)
    ensures ParseParts(ts) == Ok(Status(sl)) <==>
      2 <= |ts| <= 3 && ts[0] == VersionToken(sl.httpVersion) && ParseU16(ts[1]) == Some(sl.statusCode)
  {
  }

  /** A line parses to a status line exactly when it has two or three tokens,
      the first is `HTTP/1.1` and the second spells the status code. */
  lemma StatusLineTokens(line: string, sl: StatusLine)
    ensures ParseStartLine(line) == Ok(Status(sl)) <==>
      var ts := Tokens(line);
      2 <= |ts| <= 3 && ts[0] == VersionToken(sl.httpVersion) && ParseU16(ts[1]) == Some(sl.statusCode)
  {
    TokensTrim(line);
    StatusPartsIff(Tokens(line), sl);
  }

  /** A parsed status line's code is the number its second token spells, up
      to a `+` and leading zeros. */
  lemma ParsedStatusCode(line: string, sl: StatusLine)
    requires ParseStartLine(line) == Ok(Status(sl))
    ensures StripLeadingZeros(Magnitude(Tokens(line)[1])) == Decimal(sl.statusCode as nat)
  {
    StatusLineTokens(line, sl);
    ParseU16Canonical(Tokens(line)[1], sl.statusCode);
  }

  /** Every request line with a non-empty target free of whitespace is
      parsed back from its textual form. */
  lemma RequestLineRoundTrip(rl: RequestLine)
    requires rl.requestTarget != [] && NoWhitespace(rl.requestTarget)
    ensures ParseStartLine(FormatRequestLine(rl)) == Ok(Request(rl))
  {
    TokensOfJoinWords([MethodToken(rl.requestMethod), rl.requestTarget, VersionToken(rl.httpVersion)]);
    RequestLineTokens(FormatRequestLine(rl), rl);
  }

  /** Every numeral of a status code is a word. */
  lemma CodeNumeralIsWord(code: u16, plus: bool, k: nat)
    ensures CodeNumeral(code, plus, k) != [] && NoWhitespace(CodeNumeral(code, plus, k))
  {
    var sign: string := if plus then "+" else "";
    var digits := Zeros(k) + Decimal(code as nat);
    assert CodeNumeral(code, plus, k) == sign + digits;
    assert AllDigits(digits) by {
      forall i | 0 <= i < |digits| ensures IsDigit(digits[i]) {
        if i < k { assert digits[i] == Zeros(k)[i]; }
        else { assert digits[i] == Decimal(code as nat)[i - k]; }
      }
    }
    forall i | 0 <= i < |sign + digits| ensures !IsWhitespace((sign + digits)[i]) {
      if i >= |sign| { assert (sign + digits)[i] == digits[i - |sign|]; }
    }
  }

  /** The tokens of a formatted status line are its version, its code and
      its reason phrase if there is one. */
  lemma FormatStatusLineTokens(sl: StatusLine, plus: bool, k: nat, reason: string)
    requires NoWhitespace(reason)
    ensures Tokens(FormatStatusLine(sl, plus, k, reason)) ==
      [VersionToken(sl.httpVersion), CodeNumeral(sl.statusCode, plus, k)] + (if reason == [] then [] else [reason])
  {
    CodeNumeralIsWord(sl.statusCode, plus, k);
    TokensOfJoinWords([VersionToken(sl.httpVersion), CodeNumeral(sl.statusCode, plus, k)] + (if reason == [] then [] else [reason]));
  }

  /** Every status line is parsed back from its textual form, whether its code
      is spelled with or without a `+` and with any number of leading zeros,
      and with or without a one-word reason phrase. */
  lemma StatusLineRoundTrip(sl: StatusLine, plus: bool, k: nat, reason: string)
    requires NoWhitespace(reason)
    ensures ParseStartLine(FormatStatusLine(sl, plus, k, reason)) == Ok(Status(sl))
  {
    FormatStatusLineTokens(sl, plus, k, reason);
    ParseU16Decimal(sl.statusCode, plus, k);
    StatusLineTokens(FormatStatusLine(sl, plus, k, reason), sl);
  }

  /** Visible ASCII characters (VCHAR of RFC 5234), none of them whitespace. */
  predicate VisibleAscii(w: string)
  {
    forall i :: 0 <= i < |w| ==> '!' <= w[i] <= '~'
  }

  /** The tokens of a line of visible ASCII words separated by spaces. */
  lemma TokensOfWords(ws: seq<string>, line: string)
    requires forall i :: 0 <= i < |ws| ==> ws[i] != [] && VisibleAscii(ws[i])
    requires line == JoinWords(ws)
    ensures Tokens(line) == ws
  {
    forall i | 0 <= i < |ws| ensures NoWhitespace(ws[i]) {
      var w := ws[i];
      forall j | 0 <= j < |w| ensures !IsWhitespace(w[j]) {
        assert '!' <= w[j] <= '~';
      }
    }
    TokensOfJoinWords(ws);
  }

  /** `200` parses to 200. */
  lemma Numeral200()
    ensures ParseU16("200") == Some(200)
  {
    ParseU16Decimal(200, false, 0);
    assert "" + Zeros(0) + Decimal(200) == "200";
  }

  /** `65536` is one past the largest 16-bit value and does not parse. */
  lemma Numeral65536()
    ensures ParseU16("65536") == None
  {
    assert Decimal(65536) == "65536";
  }

  /** `GET / HTTP/1.1` is a GET of `/`. */
  lemma GetExample()
    ensures ParseStartLine("GET / HTTP/1.1") == Ok(Request(RequestLine(GET, "/", Http11)))
  {
    TokensOfWords(["GET", "/", "HTTP/1.1"], "GET / HTTP/1.1");
    RequestLineTokens("GET / HTTP/1.1", RequestLine(GET, "/", Http11));
  }

  /** `HEAD /index.html HTTP/1.1` is a HEAD of `/index.html`. */
  lemma HeadExample()
    ensures ParseStartLine("HEAD /index.html HTTP/1.1") == Ok(Request(RequestLine(HEAD, "/index.html", Http11)))
  {
    TokensOfWords(["HEAD", "/index.html", "HTTP/1.1"], "HEAD /index.html HTTP/1.1");
    RequestLineTokens("HEAD /index.html HTTP/1.1", RequestLine(HEAD, "/index.html", Http11));
  }

  /** `POST /submit HTTP/1.1` is Not Implemented. */
  lemma PostExample()
    ensures ParseStartLine("POST /submit HTTP/1.1") == Err(NotImplemented)
  {
    TokensOfWords(["POST", "/submit", "HTTP/1.1"], "POST /submit HTTP/1.1");
    UnsupportedMethodFirst("POST /submit HTTP/1.1");
  }

  /** `POST / HTTP/2` is Not Implemented, not a Bad Request: the method is
      checked before the version. */
  lemma PostBadVersionExample()
    ensures ParseStartLine("POST / HTTP/2") == Err(NotImplemented)
  {
    TokensOfWords(["POST", "/", "HTTP/2"], "POST / HTTP/2");
    UnsupportedMethodFirst("POST / HTTP/2");
  }

  /** `FOO / HTTP/1.1` is a Bad Request: FOO is not a method the parser knows. */
  lemma UnknownMethodExample()
    ensures ParseStartLine("FOO / HTTP/1.1") == Err(BadRequest)
  {
    assert ParseMethod("FOO") == Err(BadRequest);
    TokensOfWords(["FOO", "/", "HTTP/1.1"], "FOO / HTTP/1.1");
    RequestLineRule("FOO / HTTP/1.1");
  }

  /** `GET / HTTP/2` is a Bad Request. */
  lemma BadVersionExample()
    ensures ParseStartLine("GET / HTTP/2") == Err(BadRequest)
  {
    TokensOfWords(["GET", "/", "HTTP/2"], "GET / HTTP/2");
    RequestLineRule("GET / HTTP/2");
  }

  /** `BOGUS` alone is a Bad Request. */
  lemma OneTokenExample()
    ensures ParseStartLine("BOGUS") == Err(BadRequest)
  {
    TokensOfWords(["BOGUS"], "BOGUS");
    TokenCountRule("BOGUS");
  }

  /** `HTTP/1.1 200 OK` is a status line with code 200; the reason phrase is
      dropped. */
  lemma StatusExample()
    ensures ParseStartLine("HTTP/1.1 200 OK") == Ok(Status(StatusLine(Http11, 200)))
  {
    Numeral200();
    assert Tokens("HTTP/1.1 200 OK") == ["HTTP/1.1", "200", "OK"] by {
      TokensOfWords(["HTTP/1.1", "200", "OK"], "HTTP/1.1 200 OK");
    }
    StatusLineTokens("HTTP/1.1 200 OK", StatusLine(Http11, 200));
  }

  /** `HTTP/1.1 +0 X` is a status line with code 0: a `+` sign is accepted
      and the code need not have three digits. */
  lemma SignedZeroCodeExample()
    ensures ParseStartLine("HTTP/1.1 +0 X") == Ok(Status(StatusLine(Http11, 0)))
  {
    assert CodeNumeral(0, true, 0) == "+0";
    assert JoinWords(["+0", "X"]) == "+0 X" by {
      assert JoinWords(["X"]) == "X";
    }
    assert JoinWords(["HTTP/1.1", "+0", "X"]) == "HTTP/1.1" + " " + JoinWords(["+0", "X"]);
    assert [VersionToken(Http11), CodeNumeral(0, true, 0)] + ["X"] == ["HTTP/1.1", "+0", "X"];
    assert FormatStatusLine(StatusLine(Http11, 0), true, 0, "X") == "HTTP/1.1 +0 X";
    StatusLineRoundTrip(StatusLine(Http11, 0), true, 0, "X");
  }

  /** `HTTP/1.1 00200` is a status line with code 200: leading zeros are
      accepted. */
  lemma ZeroPaddedCodeExample()
    ensures ParseStartLine("HTTP/1.1 00200") == Ok(Status(StatusLine(Http11, 200)))
  {
    assert Decimal(200) == "200";
    assert CodeNumeral(200, false, 2) == "00200";
    assert JoinWords(["HTTP/1.1", "00200"]) == "HTTP/1.1" + " " + JoinWords(["00200"]);
    assert [VersionToken(Http11), CodeNumeral(200, false, 2)] + [] == ["HTTP/1.1", "00200"];
    assert FormatStatusLine(StatusLine(Http11, 200), false, 2, "") == "HTTP/1.1 00200";
    StatusLineRoundTrip(StatusLine(Http11, 200), false, 2, "");
  }

  /** `HTTP/1.1 65536` is a Bad Request: the code is not clamped to 65535. */
  lemma OverflowExample()
    ensures ParseStartLine("HTTP/1.1 65536") == Err(BadRequest)
  {
    Numeral65536();
    TokensOfWords(["HTTP/1.1", "65536"], "HTTP/1.1 65536");
    StatusLineRule("HTTP/1.1 65536");
  }

  /** `HTTP/1.1 404 Not Found` is a Bad Request: a reason phrase of two words
      makes four tokens. */
  lemma TwoWordReasonExample()
    ensures ParseStartLine("HTTP/1.1 404 Not Found") == Err(BadRequest)
  {
    TokensOfWords(["HTTP/1.1", "404", "Not", "Found"], "HTTP/1.1 404 Not Found");
    TokenCountRule("HTTP/1.1 404 Not Found");
  }
}
