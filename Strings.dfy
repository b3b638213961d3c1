/** The few System.String operations the codec relies on, on `seq<char>`. */
module Strings {

  /** `s.StartsWith(prefix)`, compared ordinally. */
  predicate StartsWith(s: string, prefix: string) {
    |prefix| <= |s| && s[..|prefix|] == prefix
  }

  /** `s.Contains(t)`: t occurs somewhere in s. */
  predicate Contains(s: string, t: string) {
    StartsWith(s, t) || (|s| > 0 && Contains(s[1..], t))
  }

  /**
   * `char.IsWhiteSpace`: the Unicode space, line and paragraph separators and
   * the control characters U+0009 to U+000D and U+0085.
   */
  predicate IsWhiteSpace(c: char) {
    || '\U{0009}' <= c <= '\U{000D}' || c == '\U{0020}' || c == '\U{0085}' || c == '\U{00A0}'
    || c == '\U{1680}' || '\U{2000}' <= c <= '\U{200A}' || c == '\U{2028}' || c == '\U{2029}'
    || c == '\U{202F}' || c == '\U{205F}' || c == '\U{3000}'
  }

  /**
   * The characters a trim removes: white space (`Trim()`), white space and
   * NUL (what `bool.TryParse` ignores around its literal), or one character
   * (`Trim(c)`).
   */
  datatype Strip = WhiteSpace | WhiteSpaceOrNull | Only(c: char)

  predicate Strips(k: Strip, x: char) {
    match k
    case WhiteSpace => IsWhiteSpace(x)
    case WhiteSpaceOrNull => IsWhiteSpace(x) || x == '\0'
    case Only(c) => x == c
  }

  /** `s.TrimStart(...)`: the leading characters `k` strips removed. */
  function TrimStart(s: string, k: Strip): (r: string)
    ensures |r| <= |s|
    ensures r != [] ==> r[|r| - 1] == s[|s| - 1]
    ensures r == [] || !Strips(k, r[0])
    ensures forall i | 0 <= i < |s| - |r| :: Strips(k, s[i])
  {
    if |s| > 0 && Strips(k, s[0]) then TrimStart(s[1..], k) else s
  }

  /** A text made only of stripped characters trims to nothing. */
  lemma {:induction false} TrimStartAll(s: string, k: Strip)
    requires forall i | 0 <= i < |s| :: Strips(k, s[i])
    ensures TrimStart(s, k) == []
    decreases |s|
  {
    if |s| > 0 {
      TrimStartAll(s[1..], k);
    }
  }

  /** `s.TrimEnd(...)`: the trailing characters `k` strips removed. */
  function TrimEnd(s: string, k: Strip): (r: string)
    ensures |r| <= |s|
    ensures r != [] ==> r[0] == s[0]
    ensures r == [] || !Strips(k, r[|r| - 1])
    ensures forall i | |r| <= i < |s| :: Strips(k, s[i])
  {
    if |s| > 0 && Strips(k, s[|s| - 1]) then TrimEnd(s[..|s| - 1], k) else s
  }

  /** `s.Trim(...)`: both ends stripped; what remains starts and ends with a kept character. */
  function TrimBoth(s: string, k: Strip): (r: string)
    ensures r == [] || (!Strips(k, r[0]) && !Strips(k, r[|r| - 1]))
  {
    TrimEnd(TrimStart(s, k), k)
  }

  /** Trimming text whose two ends are kept characters, with only stripped characters around it, gives the text back. */
  lemma {:induction false} TrimBothPadded(left: string, w: string, right: string, k: Strip)
    requires forall i | 0 <= i < |left| :: Strips(k, left[i])
    requires forall i | 0 <= i < |right| :: Strips(k, right[i])
    requires w != [] && !Strips(k, w[0]) && !Strips(k, w[|w| - 1])
    ensures TrimBoth(left + w + right, k) == w
  {
    assert left + w + right == left + (w + right);
    TrimStartPadded(left, w + right, k);
    TrimEndPadded(w, right, k);
  }

  lemma {:induction false} TrimStartPadded(left: string, s: string, k: Strip)
    requires forall i | 0 <= i < |left| :: Strips(k, left[i])
    requires s != [] && !Strips(k, s[0])
    ensures TrimStart(left + s, k) == s
    decreases |left|
  {
    if left == [] {
      assert left + s == s;
    } else {
      assert (left + s)[1..] == left[1..] + s;
      TrimStartPadded(left[1..], s, k);
    }
  }

  lemma {:induction false} TrimEndPadded(s: string, right: string, k: Strip)
    requires forall i | 0 <= i < |right| :: Strips(k, right[i])
    requires s != [] && !Strips(k, s[|s| - 1])
    ensures TrimEnd(s + right, k) == s
    decreases |right|
  {
    if right == [] {
      assert s + right == s;
    } else {
      var r := right[..|right| - 1];
      assert (s + right)[..|s + right| - 1] == s + r;
      TrimEndPadded(s, r, k);
    }
  }

  /** `Trim(c)` removes every end c at once: trimming again changes nothing. */
  lemma TrimCharIdempotent(s: string, c: char)
    ensures TrimChar(TrimChar(s, c), c) == TrimChar(s, c)
  {
    var t := TrimChar(s, c);
    if t != [] {
      TrimBothPadded([], t, [], Only(c));
      assert [] + t + [] == t;
    }
  }

  /** `s.Trim()`: white space removed from both ends. */
  function Trim(s: string): string {
    TrimBoth(s, WhiteSpace)
  }

  /** `s.Trim(c)`: every leading and trailing c removed. */
  function TrimChar(s: string, c: char): string {
    TrimBoth(s, Only(c))
  }

  /** A value wrapped in one pair of double quotes, `$"\"{v}\""`. */
  function Quote(v: string): string {
    "\"" + v + "\""
  }

  /** Exactly one pair of double quotes around the text: a quote at each end and none just inside them. */
  predicate QuotedOnce(w: string) {
    && |w| >= 2 && w[0] == '"' && w[|w| - 1] == '"'
    && (|w| > 2 ==> w[1] != '"' && w[|w| - 2] != '"')
  }

  /** Stripping a quote-wrapped text whose ends are not quotes removes exactly the wrapping pair. */
  lemma {:induction false} TrimQuoteWrapped(inner: string)
    requires inner != [] && inner[0] != '"' && inner[|inner| - 1] != '"'
    ensures TrimChar(Quote(inner), '"') == inner
  {
    var w := Quote(inner);
    var t := w[1..];
    assert t == inner + "\"";
    assert TrimStart(w, Only('"')) == t;
    assert t[..|t| - 1] == inner;
    assert TrimEnd(t, Only('"')) == TrimEnd(inner, Only('"'));
  }

  /** Re-quoting a trimmed value yields one pair of quotes, and trimming it again gives back the same text. */
  lemma {:induction false} QuoteTrimmed(v: string)
    ensures QuotedOnce(Quote(TrimChar(v, '"')))
    ensures TrimChar(Quote(TrimChar(v, '"')), '"') == TrimChar(v, '"')
  {
    var inner := TrimChar(v, '"');
    var w := Quote(inner);
    if inner == [] {
      assert w == "\"\"";
      assert TrimStart(w[1..], Only('"')) == TrimStart(w[2..], Only('"'));
      assert TrimStart(w, Only('"')) == [];
    } else {
      assert inner[0] != '"' && inner[|inner| - 1] != '"';
      assert w[1] == inner[0] && w[|w| - 2] == inner[|inner| - 1];
      TrimQuoteWrapped(inner);
    }
  }

  /** A `name=value` token names its flag unambiguously when neither name holds '='. */
  lemma AssignmentSplitsOnce(x: string, t: string, y: string, u: string)
    requires '=' !in x && '=' !in y
    requires x + "=" + t == y + "=" + u
    ensures x == y && t == u
  {
    var a := x + "=" + t;
    FirstEquals(x, t);
    FirstEquals(y, u);
    assert |x| == |y|;
    {
      forall k | 0 <= k < |x| ensures x[k] == y[k] {
        assert x[k] == a[k] == y[k];
      }
      assert x == y;
      assert t == a[|x| + 1..] == u;
    }
  }

  /** In `x=t` with no '=' in `x`, the first '=' sits right after `x`. */
  lemma FirstEquals(x: string, t: string)
    requires '=' !in x
    ensures (x + "=" + t)[|x|] == '='
    ensures forall k :: 0 <= k < |x| ==> (x + "=" + t)[k] != '='
  {
    forall k | 0 <= k < |x| ensures (x + "=" + t)[k] != '=' {
      assert (x + "=" + t)[k] == x[k];
    }
  }

  /** `string.Join(" ", parts)`. */
  function JoinSpace(parts: seq<string>): string {
    if |parts| == 0 then ""
    else if |parts| == 1 then parts[0]
    else parts[0] + " " + JoinSpace(parts[1..])
  }
}
