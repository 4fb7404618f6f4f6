/**
 * The two `str` operations the start-line parser applies to its input line:
 * `trim` and `split_whitespace`.  Both work on Unicode scalar values and treat
 * as whitespace exactly the characters with the Unicode White_Space property,
 * which is what Rust's `char::is_whitespace` tests.
 */
module Whitespace {

  /** Unicode White_Space: U+0009..U+000D, U+0020, U+0085, U+00A0, U+1680,
      U+2000..U+200A, U+2028, U+2029, U+202F, U+205F and U+3000. */
  const WhitespaceChars: set<char> := {
    '\t', '\n', '\U{000B}', '\U{000C}', '\r', ' ', '\U{0085}', '\U{00A0}', '\U{1680}',
    '\U{2000}', '\U{2001}', '\U{2002}', '\U{2003}', '\U{2004}', '\U{2005}', '\U{2006}',
    '\U{2007}', '\U{2008}', '\U{2009}', '\U{200A}', '\U{2028}', '\U{2029}', '\U{202F}',
    '\U{205F}', '\U{3000}'
  }

  /** `char::is_whitespace`: among the ASCII characters exactly the space and
      the controls from tab to carriage return; nothing past U+3000. */
  function IsWhitespace(c: char): (b: bool)
    ensures c as int < 0x80 ==> (b <==> c == ' ' || '\t' <= c <= '\r')
    ensures b ==> c as int <= 0x3000
  {
    c in WhitespaceChars
  }

  predicate AllWhitespace(s: string)
  {
    forall i :: 0 <= i < |s| ==> IsWhitespace(s[i])
  }

  /** A word: a string with no whitespace character in it. */
  predicate NoWhitespace(s: string)
  {
    forall i :: 0 <= i < |s| ==> !IsWhitespace(s[i])
  }

  /** `str::trim_start`: `s` without its leading whitespace. */
  function TrimStart(s: string): (r: string)
    ensures |r| <= |s| && r == s[|s| - |r|..]
    ensures AllWhitespace(s[..|s| - |r|])
    ensures r == [] || !IsWhitespace(r[0])
    decreases |s|
  {
    if s != [] && IsWhitespace(s[0]) then TrimStart(s[1..]) else s
  }

  /** `str::trim_end`: `s` without its trailing whitespace. */
  function TrimEnd(s: string): (r: string)
    ensures |r| <= |s| && r == s[..|r|]
    ensures AllWhitespace(s[|r|..])
    ensures r == [] || !IsWhitespace(r[|r| - 1])
    decreases |s|
  {
    if s != [] && IsWhitespace(s[|s| - 1]) then TrimEnd(s[..|s| - 1]) else s
  }

  /** `str::trim`: the part of `s` between its leading and its trailing
      whitespace, that is `TrimStart(s)` without its trailing whitespace. */
  function Trim(s: string): (r: string)
    ensures |r| <= |TrimStart(s)| && r == TrimStart(s)[..|r|]
    ensures AllWhitespace(TrimStart(s)[|r|..])
    ensures r == [] || (!IsWhitespace(r[0]) && !IsWhitespace(r[|r| - 1]))
  {
    TrimEnd(TrimStart(s))
  }

  /** The longest prefix of `s` that has no whitespace in it. */
  function LeadingWord(s: string): (w: string)
    ensures |w| <= |s| && w == s[..|w|] && NoWhitespace(w)
    ensures |w| == |s| || IsWhitespace(s[|w|])
    decreases |s|
  {
    if s == [] || IsWhitespace(s[0]) then [] else [s[0]] + LeadingWord(s[1..])
  }

  /** `str::split_whitespace`: the maximal runs of non-whitespace characters
      of `s`, in order.  Every token is a non-empty word. */
  function Tokens(s: string): (ts: seq<string>)
    ensures forall i :: 0 <= i < |ts| ==> ts[i] != [] && NoWhitespace(ts[i])
    decreases |s|
  {
    if s == [] then []
    else if IsWhitespace(s[0]) then Tokens(s[1..])
    else
      var w := LeadingWord(s);
      [w] + Tokens(s[|w|..])
  }

  /** The words of `ws` separated by single spaces. */
  function JoinWords(ws: seq<string>): string
  {
    if ws == [] then []
    else if |ws| == 1 then ws[0]
    else ws[0] + " " + JoinWords(ws[1..])
  }

  /** A word is followed by whitespace or by nothing; its leading word does
      not reach into what follows. */
  lemma {:induction false} LeadingWordExtend(a: string, b: string)
    requires b == [] || IsWhitespace(b[0])
    ensures LeadingWord(a + b) == LeadingWord(a)
    decreases |a|
  {
    if a == [] {
      assert a + b == b;
    } else if !IsWhitespace(a[0]) {
      assert (a + b)[1..] == a[1..] + b;
      LeadingWordExtend(a[1..], b);
    }
  }

  /** A line has no tokens exactly when it is all whitespace (the empty line
      included). */
  lemma {:induction false} TokensEmpty(s: string)
    ensures Tokens(s) == [] <==> AllWhitespace(s)
    decreases |s|
  {
    if s != [] && IsWhitespace(s[0]) {
      TokensEmpty(s[1..]);
      assert AllWhitespace(s) <==> AllWhitespace(s[1..]) by {
        if AllWhitespace(s[1..]) {
          forall i | 0 <= i < |s| ensures IsWhitespace(s[i]) {
            if i > 0 { assert s[i] == s[1..][i - 1]; }
          }
        }
      }
    }
  }

  /** A single non-empty word is its own one token. */
  lemma TokensOfWord(w: string)
    requires w != [] && NoWhitespace(w)
    ensures Tokens(w) == [w]
  {
    assert LeadingWord(w) == w;
    assert w[|w|..] == [];
  }

  /** `split_whitespace` splits at every whitespace character: cutting the
      line at one whitespace character cuts its token list in two.  Together
      with TokensOfWord and the empty line this determines Tokens entirely. */
  lemma {:induction false} TokensSplit(a: string, c: char, b: string)
    requires IsWhitespace(c)
    ensures Tokens(a + [c] + b) == Tokens(a) + Tokens(b)
    decreases |a|
  {
    var s := a + [c] + b;
    if a == [] {
      assert s[1..] == b;
    } else if IsWhitespace(a[0]) {
      assert s[1..] == a[1..] + [c] + b;
      TokensSplit(a[1..], c, b);
    } else {
      assert s == a + ([c] + b);
      LeadingWordExtend(a, [c] + b);
      var w := LeadingWord(a);
      assert s[|w|..] == a[|w|..] + [c] + b;
      TokensSplit(a[|w|..], c, b);
    }
  }

  /** Leading whitespace does not change the tokens. */
  lemma {:induction false} TokensTrimStart(s: string)
    ensures Tokens(TrimStart(s)) == Tokens(s)
    decreases |s|
  {
    if s != [] && IsWhitespace(s[0]) {
      TokensTrimStart(s[1..]);
    }
  }

  /** Trailing whitespace does not change the tokens. */
  lemma {:induction false} TokensTrimEnd(s: string)
    ensures Tokens(TrimEnd(s)) == Tokens(s)
    decreases |s|
  {
    if s != [] && IsWhitespace(s[|s| - 1]) {
      var p := s[..|s| - 1];
      assert s == p + [s[|s| - 1]] + [];
      TokensSplit(p, s[|s| - 1], []);
      TokensTrimEnd(p);
    }
  }

  /** The `trim` before `split_whitespace` is redundant: tokenising the
      trimmed line gives the tokens of the line itself. */
  lemma TokensTrim(s: string)
    ensures Tokens(Trim(s)) == Tokens(s)
  {
    TokensTrimStart(s);
    TokensTrimEnd(TrimStart(s));
  }

  /** Tokenising words joined by spaces gives back the words. */
  lemma {:induction false} TokensOfJoinWords(ws: seq<string>)
    requires forall i :: 0 <= i < |ws| ==> ws[i] != [] && NoWhitespace(ws[i])
    ensures Tokens(JoinWords(ws)) == ws
    decreases |ws|
  {
    if |ws| == 1 {
      TokensOfWord(ws[0]);
    } else if |ws| > 1 {
      TokensSplit(ws[0], ' ', JoinWords(ws[1..]));
      TokensOfWord(ws[0]);
      TokensOfJoinWords(ws[1..]);
    }
  }
}
