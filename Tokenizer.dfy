/**
 * The splitting step of parameter parsing: the trimmed parameter string is cut
 * into the successive matches of `([a-zA-Z\-]*=)?["].+?["]|[^ ]+`, so that a
 * double-quoted span, optionally preceded by `key=`, stays one token while
 * everything else is split on spaces. Written out by hand, match by match.
 */
module Tokenizer {
  import opened Wrappers
  import opened Strings

  /** The characters of `[a-zA-Z\-]`, the key before `=` in a quoted match. */
  predicate IsKeyChar(c: char) {
    'a' <= c <= 'z' || 'A' <= c <= 'Z' || c == '-'
  }

  /** The length of the leading run of key characters. */
  function KeyRunLength(s: string): (n: nat)
    ensures n <= |s|
    ensures forall i | 0 <= i < n :: IsKeyChar(s[i])
    ensures n < |s| ==> !IsKeyChar(s[n])
  {
    if |s| > 0 && IsKeyChar(s[0]) then 1 + KeyRunLength(s[1..]) else 0
  }

  /**
   * The lazy `.+?["]` once at least one character has been taken: the end of
   * the first `"` at or after j, provided no newline comes before it (`.`
   * does not match a newline).
   */
  function ClosingQuote(s: string, j: nat): (r: Option<nat>)
    ensures r.Some? ==> j < r.value <= |s| && s[r.value - 1] == '"'
    decreases |s| - j
  {
    if j >= |s| then None
    else if s[j] == '"' then Some(j + 1)
    else if s[j] == '\n' then None
    else ClosingQuote(s, j + 1)
  }

  /** `["].+?["]` starting at position q: the end of the span, if it matches there. */
  function QuotedSpanEnd(s: string, q: nat): (r: Option<nat>)
    ensures r.Some? ==> q + 2 < r.value <= |s| && s[q] == '"' && s[r.value - 1] == '"'
  {
    if q + 1 < |s| && s[q] == '"' && s[q + 1] != '\n' then ClosingQuote(s, q + 2) else None
  }

  /** The first alternative, `([a-zA-Z\-]*=)?["].+?["]`, at the start of s: the length it matches. */
  function QuotedMatchLength(s: string): (r: Option<nat>)
    ensures r.Some? ==> 2 < r.value <= |s| && s[r.value - 1] == '"'
  {
    var k := KeyRunLength(s);
    if k < |s| && s[k] == '=' then
      match QuotedSpanEnd(s, k + 1)
      case Some(e) => Some(e)
      case None => QuotedSpanEnd(s, 0)
    else QuotedSpanEnd(s, 0)
  }

  /** The second alternative, `[^ ]+`: the length of the leading run of non-space characters. */
  function WordLength(s: string): (n: nat)
    ensures n <= |s|
    ensures forall i | 0 <= i < n :: s[i] != ' '
    ensures n < |s| ==> s[n] == ' '
  {
    if |s| > 0 && s[0] != ' ' then 1 + WordLength(s[1..]) else 0
  }

  /** The length of the match that starts at a non-space character: the first alternative if it applies, else the second. */
  function MatchLength(s: string): (n: nat)
    requires |s| > 0 && s[0] != ' '
    ensures 0 < n <= |s|
  {
    match QuotedMatchLength(s)
    case Some(e) => e
    case None => WordLength(s)
  }

  /** `Regex.Matches(s, ...)`: the matched texts, left to right; a space starts no match. */
  function Matches(s: string): (r: seq<string>)
    ensures |r| <= |s|
    ensures r == [] <==> forall i | 0 <= i < |s| :: s[i] == ' '
    decreases |s|
  {
    if |s| == 0 then []
    else if s[0] == ' ' then Matches(s[1..])
    else
      var n := MatchLength(s);
      [s[..n]] + Matches(s[n..])
  }

  /** The token list parsing works on: the matches in the trimmed parameter string. */
  function Tokenize(parameters: string): (r: seq<string>)
    ensures r == [] <==> Trim(parameters) == []
  {
    Matches(Trim(parameters))
  }

  /** No token is empty, and a token holds a space only when it is a quoted span, which ends in a quote. */
  lemma {:induction false} MatchesShape(s: string)
    ensures forall t | t in Matches(s) :: |t| > 0 && t[0] != ' '
    ensures forall t | t in Matches(s) :: ' ' in t ==> |t| > 2 && t[|t| - 1] == '"'
    decreases |s|
  {
    if |s| > 0 {
      if s[0] == ' ' {
        MatchesShape(s[1..]);
      } else {
        var n := MatchLength(s);
        MatchesShape(s[n..]);
        var t := s[..n];
        if QuotedMatchLength(s).None? {
          assert n == WordLength(s);
          assert ' ' !in t;
        }
      }
    }
  }

  /** Input made only of white space yields no tokens at all. */
  lemma BlankTokenizesToNothing(parameters: string)
    requires forall i | 0 <= i < |parameters| :: IsWhiteSpace(parameters[i])
    ensures Tokenize(parameters) == []
  {
    TrimStartAll(parameters, WhiteSpace);
  }

  /** A match starting a string whose first word holds no quote is exactly that word. */
  lemma {:induction false} PlainWordMatch(x: string, rest: string)
    requires |x| > 0 && ' ' !in x && '"' !in x
    requires rest == [] || rest[0] == ' '
    ensures MatchLength(x + rest) == |x|
  {
    var s := x + rest;
    assert forall i | 0 <= i < |x| :: s[i] == x[i];
    var k := KeyRunLength(s);
    assert QuotedSpanEnd(s, 0).None? by {
      assert s[0] == x[0];
    }
    if k < |s| && s[k] == '=' {
      if rest != [] {
        assert s[|x|] == ' ';
      }
      assert k < |x|;
      assert QuotedSpanEnd(s, k + 1).None? by {
        if k + 1 < |s| {
          assert k + 1 < |x| ==> s[k + 1] == x[k + 1];
        }
      }
    }
    assert QuotedMatchLength(s).None?;
    WordRun(x, rest);
  }

  lemma {:induction false} WordRun(x: string, rest: string)
    requires ' ' !in x
    requires rest == [] || rest[0] == ' '
    ensures WordLength(x + rest) == |x|
    decreases |x|
  {
    if |x| > 0 {
      assert (x + rest)[1..] == x[1..] + rest;
      WordRun(x[1..], rest);
    } else {
      assert x + rest == rest;
    }
  }

  /** A plain word followed by a space is matched as itself, and matching resumes after the space. */
  lemma {:induction false} PlainWordThen(x: string, tail: string)
    requires |x| > 0 && ' ' !in x && '"' !in x
    ensures Matches(x + " " + tail) == [x] + Matches(tail)
  {
    var rest := " " + tail;
    var s := x + rest;
    assert x + " " + tail == s;
    PlainWordMatch(x, rest);
    assert s[..|x|] == x;
    assert s[|x|..] == rest;
    assert rest[1..] == tail;
  }

  /** Words joined by single spaces split back into the same words, when no word holds a space or a quote. */
  lemma {:induction false} JoinedWordsRoundTrip(words: seq<string>)
    requires forall w | w in words :: |w| > 0 && ' ' !in w && '"' !in w
    ensures Matches(JoinSpace(words)) == words
  {
    if |words| == 1 {
      PlainWordMatch(words[0], "");
      assert words[0] + "" == words[0];
      assert words[0][|words[0]|..] == [];
    } else if |words| > 1 {
      assert words[0] in words;
      PlainWordThen(words[0], JoinSpace(words[1..]));
      JoinedWordsRoundTrip(words[1..]);
    }
  }
}
