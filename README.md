# HTTP/1.1 start-line parser, modelled in Dafny

This project models the start-line parser of a minimal HTTP/1.1 server
(`src/http/parser.rs`). `parse_start_line` takes the first line of a
request and does four things. It splits the line into whitespace-separated
tokens. It rejects any line that does not have two or three tokens. It
classifies the line: a line whose first token starts with `HTTP/` is a
status line (section 4 of RFC 9112), and any other line is a request line
(section 3 of RFC 9112). Last, it validates the method and the version.
The result is either a typed `StartLine` or the `StatusCode` the server
answers with. That code is 400 (Bad Request) for a malformed line and 501
(Not Implemented) for a known method that the server does not serve: one of
the six other methods of RFC 9110 (POST, PUT, DELETE, CONNECT, OPTIONS and
TRACE) or PATCH, which RFC 5789 defines.

The parser is pure, so the model is made of datatypes, functions and lemmas:

- `whitespace.dfy` (module `Whitespace`) holds the two Rust `str` operations
  the parser uses, `trim` and `split_whitespace`. They work over Unicode
  scalar values. Whitespace is exactly Unicode's White_Space property (25
  code points), which is what `char::is_whitespace` tests.
- `decimal_u16.dfy` (module `DecimalU16`) holds `str::parse::<u16>()`. It
  accepts an optional `+` and then one or more ASCII digits, with leading
  zeros allowed. It fails on a value above 65535, on `-` and on any other
  character.
- `parser.dfy` (module `StartLineParser`) holds the types and
  `parse_start_line`, `parse_method` and `parse_http_version`. Rust's `?`
  is Dafny's `:-` on a `Result` datatype.
- `parser_properties.dfy` (module `StartLineProperties`) holds the
  properties of `parse_start_line`, stated over the tokens of the line. It
  also gives the outcomes of concrete lines.

The `RequestLine` field `method` is called `requestMethod`, because `method`
is a Dafny keyword. The two `StartLine` variants are called `Request` and
`Status`, so that they do not clash with the `RequestLine` and `StatusLine`
records. Rust's `ParseIntError` is modelled as `None`: the parser maps every
kind of it to Bad Request.

Two behaviours of the code are worth knowing. Both are proved below.

- A status line accepts any 16-bit number as its code, not just three
  digits. So `HTTP/1.1 +0 X` parses, and so does `HTTP/1.1 00200`.
- A status line whose reason phrase has more than one word, such as
  `HTTP/1.1 404 Not Found`, has more than three tokens, so it is a Bad
  Request. RFC 9112 allows spaces in a reason phrase, but the code rejects
  any line of four or more tokens.

## Model

| member | source | states |
|---|---|---|
| `Whitespace.IsWhitespace` | src/http/parser.rs:46 | `char::is_whitespace`, the test `trim` and `split_whitespace` use: among ASCII characters exactly the space and tab through carriage return, and no character above U+3000 |
| `Whitespace.TrimStart` | src/http/parser.rs:46 | `str::trim_start`: the result is a suffix of the input, what was dropped is all whitespace, and the result does not start with whitespace |
| `Whitespace.TrimEnd` | src/http/parser.rs:46 | `str::trim_end`: the result is a prefix of the input, what was dropped is all whitespace, and the result does not end with whitespace |
| `Whitespace.Trim` | src/http/parser.rs:46 | `str::trim`: the trimmed start without its trailing whitespace; neither end of the result is whitespace |
| `Whitespace.Tokens` | src/http/parser.rs:46 | `split_whitespace`: every token is non-empty and contains no whitespace |
| `Whitespace.TokensSplit` | src/http/parser.rs:46 | cutting a line at any whitespace character cuts its token list in two; with `TokensOfWord` and the empty line this fixes the tokeniser completely |
| `Whitespace.TokensOfWord` | src/http/parser.rs:46 | a non-empty word with no whitespace is its own single token |
| `Whitespace.TokensEmpty` | src/http/parser.rs:46-50 | a line has no tokens exactly when it is empty or all whitespace |
| `Whitespace.TokensTrimStart` | src/http/parser.rs:46 | leading whitespace does not change the tokens |
| `Whitespace.TokensTrimEnd` | src/http/parser.rs:46 | trailing whitespace does not change the tokens |
| `Whitespace.TokensTrim` | src/http/parser.rs:46 | the `trim()` before `split_whitespace()` is redundant: the tokens of the trimmed line are those of the line |
| `Whitespace.TokensOfJoinWords` | src/http/parser.rs:46 | words joined by single spaces tokenise back to the same words |
| `DecimalU16.DigitsValue` | src/http/parser.rs:54 | the value of a digit string is below 10 to the power of its length |
| `DecimalU16.Magnitude` | src/http/parser.rs:54 | the optional sign step of `parse::<u16>()`: the input is the result, or `+` followed by it |
| `DecimalU16.ParseU16` | src/http/parser.rs:54 | `parse::<u16>()`: success needs a non-empty input other than a lone `+`, made of ASCII digits after an optional `+`; a leading `-` fails; an all-digit input parses exactly when its value is at most 65535, with no clamping |
| `DecimalU16.Decimal` | src/http/parser.rs:54 | the shortest numeral of n is all digits, has value n, and starts with `0` only for 0 |
| `DecimalU16.LeadingZerosValue` | src/http/parser.rs:54 | leading zeros do not change the value of a numeral |
| `DecimalU16.ParseU16Decimal` | src/http/parser.rs:54 | every 16-bit value parses back from its numeral, with or without a `+` and with any number of leading zeros |
| `DecimalU16.DecimalUnique` | src/http/parser.rs:54 | a numeral without redundant leading zeros is the shortest numeral of its value |
| `DecimalU16.ParseU16Length` | src/http/parser.rs:54 | an all-digit input of up to four digits always parses, and one of six or more digits without a leading zero never does: it is rejected, not clamped |
| `DecimalU16.ParseU16Canonical` | src/http/parser.rs:54 | whatever parses is, after the optional `+` and its leading zeros, the shortest numeral of the value returned |
| `StartLineParser.StatusCode.Code` | src/http/parser.rs:30-36 | each code is between 400 and 599; it is a 4xx code exactly for BadRequest, MethodNotAllowed and URITooLong |
| `StartLineParser.UnsupportedMethods` | src/http/parser.rs:74-75 | the seven method names that `parse_method` answers with NotImplemented: POST, PUT, DELETE, PATCH, OPTIONS, TRACE and CONNECT |
| `StartLineParser.MethodToken` | src/http/parser.rs:39-43 | a method's name is a non-empty word without the `HTTP/` prefix, is not an unsupported method, and parses back to the method |
| `StartLineParser.VersionToken` | src/http/parser.rs:18-20 | the version's name is a word with the `HTTP/` prefix and parses back to the version |
| `StartLineParser.ParseMethod` | src/http/parser.rs:70-79 | `GET` and only `GET` gives GET, `HEAD` and only `HEAD` gives HEAD, exactly the seven names POST, PUT, DELETE, PATCH, OPTIONS, TRACE and CONNECT give NotImplemented, and every other error is BadRequest |
| `StartLineParser.ParseHttpVersion` | src/http/parser.rs:81-86 | exactly `HTTP/1.1` gives Http11; anything else is BadRequest |
| `StartLineParser.HasHttpPrefix` | src/http/parser.rs:52 | `starts_with("HTTP/")`: the string has at least five characters and they are `H`, `T`, `T`, `P`, `/` |
| `StartLineParser.ParseStartLine` | src/http/parser.rs:45-68 | every error is BadRequest or NotImplemented, so MethodNotAllowed, URITooLong and GatewayTimeout are never produced; a parsed line has two or three tokens, and it is a status line exactly when its first token starts with `HTTP/` |
| `StartLineParser.ParseParts` | src/http/parser.rs:48-67 | the same classification and error guarantees, stated over the token list `parts` |
| `StartLineProperties.TokensDetermineResult` | src/http/parser.rs:45-68 | two lines with the same tokens parse alike, whatever whitespace separates the tokens |
| `StartLineProperties.TokenCountRule` | src/http/parser.rs:46-50 | fewer than two or more than three tokens is BadRequest |
| `StartLineProperties.BlankLineRule` | src/http/parser.rs:46-50 | the empty line and any whitespace-only line are BadRequest |
| `StartLineProperties.StatusLineRule` | src/http/parser.rs:52-56 | with two or three tokens and an `HTTP/` first token, the line parses exactly when that token is `HTTP/1.1` and the second parses as a `u16`; the result is then that status line, and every failure is BadRequest |
| `StartLineProperties.ReasonPhraseIgnored` | src/http/parser.rs:12-16 | a status line parses the same with and without its third token, the reason phrase |
| `StartLineProperties.TwoTokenRequestLine` | src/http/parser.rs:57-60 | two tokens without the `HTTP/` prefix are BadRequest, never a status line |
| `StartLineProperties.RequestLineRule` | src/http/parser.rs:57-66 | with three tokens and no `HTTP/` prefix, the line parses exactly when the method parses and the version is `HTTP/1.1`; the target is the second token verbatim; a method error is returned whatever the version is; a good method with a bad version is BadRequest |
| `StartLineProperties.UnsupportedMethod` | src/http/parser.rs:74-76 | each unsupported method lacks the `HTTP/` prefix and parses to NotImplemented |
| `StartLineProperties.UnsupportedMethodFirst` | src/http/parser.rs:62-64 | a three-token line whose method is unsupported is NotImplemented, even when its version is wrong |
| `StartLineProperties.RequestPartsIff` | src/http/parser.rs:58-66 | a token list parses to a given request line exactly when it is that line's method name, target and version |
| `StartLineProperties.RequestLineTokens` | src/http/parser.rs:58-66 | a line parses to a given request line exactly when its tokens are that line's method name, target and version |
| `StartLineProperties.StatusLineTokens` | src/http/parser.rs:52-56 | a line parses to a given status line exactly when it has two or three tokens, the first is `HTTP/1.1` and the second parses to the code |
| `StartLineProperties.ParsedStatusCode` | src/http/parser.rs:54 | a parsed status code is what the second token spells, up to a `+` and leading zeros |
| `StartLineProperties.RequestLineRoundTrip` | src/http/parser.rs:58-66 | every request line whose target is a non-empty word parses back from its textual form |
| `StartLineProperties.StatusLineRoundTrip` | src/http/parser.rs:52-56 | every status line parses back from its textual form, with its code spelled with or without a `+` and with any number of leading zeros, and with or without a one-word reason phrase |
| `StartLineProperties.Numeral200` | src/http/parser.rs:54 | `200` parses to 200 |
| `StartLineProperties.Numeral65536` | src/http/parser.rs:54 | `65536` does not parse as a `u16` |
| `StartLineProperties.GetExample` | src/http/parser.rs:62-66 | `GET / HTTP/1.1` is a GET of `/` over HTTP/1.1 |
| `StartLineProperties.HeadExample` | src/http/parser.rs:62-66 | `HEAD /index.html HTTP/1.1` is a HEAD of `/index.html` over HTTP/1.1 |
| `StartLineProperties.PostExample` | src/http/parser.rs:74-76 | `POST /submit HTTP/1.1` is NotImplemented |
| `StartLineProperties.PostBadVersionExample` | src/http/parser.rs:62-64 | `POST / HTTP/2` is NotImplemented, not BadRequest |
| `StartLineProperties.UnknownMethodExample` | src/http/parser.rs:77 | `FOO / HTTP/1.1` is BadRequest |
| `StartLineProperties.BadVersionExample` | src/http/parser.rs:81-86 | `GET / HTTP/2` is BadRequest |
| `StartLineProperties.OneTokenExample` | src/http/parser.rs:48-50 | `BOGUS` is BadRequest |
| `StartLineProperties.StatusExample` | src/http/parser.rs:52-56 | `HTTP/1.1 200 OK` is a status line with code 200 |
| `StartLineProperties.SignedZeroCodeExample` | src/http/parser.rs:52-56 | `HTTP/1.1 +0 X` is a status line with code 0 |
| `StartLineProperties.ZeroPaddedCodeExample` | src/http/parser.rs:52-56 | `HTTP/1.1 00200` is a status line with code 200 |
| `StartLineProperties.OverflowExample` | src/http/parser.rs:54 | `HTTP/1.1 65536` is BadRequest: the code is not clamped |
| `StartLineProperties.TwoWordReasonExample` | src/http/parser.rs:48-50 | `HTTP/1.1 404 Not Found` has four tokens and is BadRequest |

## Left out

- `src/main.rs` is not part of this model. It holds the TCP listener and its accept loop, the per-connection task, the single read into an 8192-byte buffer, UTF-8 decoding, splitting into lines, logging and the writing of the fixed responses. All of that is I/O, concurrency or library code, and the response choice has no logic beyond the parser's result.
- The `#[derive(Debug)]` formatting of `Method` is left out: it is only used for logging. `MethodToken` gives the token that `parse_method` accepts for each method.
- `DecimalU16.ParseU16`: does not model which `ParseIntError` kind Rust returns (empty input, invalid digit or overflow), because the parser maps every kind to BadRequest.
- Determinism and the absence of side effects need no lemma: Dafny functions are deterministic and cannot have side effects.
- Rust's byte-level string handling is not modelled: strings are sequences of Unicode scalar values, as a Rust `&str` decodes to.
