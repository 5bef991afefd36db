/**
 * The span that the regular expression `/\{.*\}/` (no flags) finds in a
 * string: `.` does not match a line terminator and `.*` is greedy, so the
 * match starts at the leftmost `{` that has a `}` after it on the same line
 * and runs to the last such `}`.
 */
module ErrorSpan {
  import opened Wrappers

  /** The characters `.` refuses to match in a JavaScript regular expression. */
  predicate IsLineTerminator(c: char) {
    c == '\n' || c == '\r' || c == '\U{2028}' || c == '\U{2029}'
  }

  /** `s[a..b]` is a match of `\{.*\}`: braces at both ends, no line terminator between. */
  predicate MatchesAt(s: string, a: nat, b: nat) {
    && a + 2 <= b <= |s|
    && s[a] == '{' && s[b - 1] == '}'
    && forall k :: a < k < b - 1 ==> !IsLineTerminator(s[k])
  }

  /** The first line terminator at or after `k`, or `|s|`. */
  function LineEnd(s: string, k: nat): (e: nat)
    requires k <= |s|
    ensures k <= e <= |s|
    ensures forall x :: k <= x < e ==> !IsLineTerminator(s[x])
    ensures e < |s| ==> IsLineTerminator(s[e])
    decreases |s| - k
  {
    if k == |s| || IsLineTerminator(s[k]) then k else LineEnd(s, k + 1)
  }

  /** The last `}` in `s[lo..hi]`, if any. */
  function LastClose(s: string, lo: nat, hi: nat): (r: Option<nat>)
    requires lo <= hi <= |s|
    ensures r.Some? ==> lo <= r.value < hi && s[r.value] == '}' && forall x :: r.value < x < hi ==> s[x] != '}'
    ensures r.None? ==> forall x :: lo <= x < hi ==> s[x] != '}'
    decreases hi - lo
  {
    if hi == lo then None
    else if s[hi - 1] == '}' then Some(hi - 1)
    else LastClose(s, lo, hi - 1)
  }

  /** The match the regular expression finds when it starts trying at position `i`. */
  function SpanFrom(s: string, i: nat): (r: Option<(nat, nat)>)
    requires i <= |s|
    ensures r.Some? ==> i <= r.value.0 && r.value.0 + 2 <= r.value.1 <= |s|
    decreases |s| - i
  {
    if i == |s| then None
    else if s[i] == '{' then
      match LastClose(s, i + 1, LineEnd(s, i + 1))
      case Some(c) => Some((i, c + 1))
      case None => SpanFrom(s, i + 1)
    else SpanFrom(s, i + 1)
  }

  /** `errorMessage.match(/\{.*\}/)`: the bounds of the matched text, if any. */
  function FindSpan(s: string): (r: Option<(nat, nat)>)
    ensures r.Some? ==> r.value.0 + 2 <= r.value.1 <= |s|
  {
    SpanFrom(s, 0)
  }

  /** A match never runs past the end of the line it starts on. */
  lemma MatchStaysOnLine(s: string, a: nat, b: nat)
    requires MatchesAt(s, a, b)
    ensures b - 1 < LineEnd(s, a + 1)
  {
  }

  lemma {:induction false} SpanFromIsLeftmostLongest(s: string, i: nat)
    requires i <= |s|
    ensures SpanFrom(s, i).None? ==> forall a: nat, b: nat :: i <= a ==> !MatchesAt(s, a, b)
    ensures SpanFrom(s, i).Some? ==>
              var (a, b) := SpanFrom(s, i).value;
              && i <= a && MatchesAt(s, a, b)
              && (forall a': nat, b': nat :: i <= a' < a ==> !MatchesAt(s, a', b'))
              && (forall b': nat :: b < b' ==> !MatchesAt(s, a, b'))
    decreases |s| - i
  {
    if i < |s| {
      SpanFromIsLeftmostLongest(s, i + 1);
      if s[i] == '{' {
        LongestFromBrace(s, i);
      } else {
        assert forall b: nat :: !MatchesAt(s, i, b);
      }
      assert forall a: nat, b: nat :: i <= a && MatchesAt(s, a, b) ==> a == i || i + 1 <= a;
    }
  }

  /** From a `{`, the last `}` on its line ends the longest match; with none there is no match. */
  lemma LongestFromBrace(s: string, i: nat)
    requires i < |s| && s[i] == '{'
    ensures var c := LastClose(s, i + 1, LineEnd(s, i + 1));
            && (c.None? ==> forall b: nat :: !MatchesAt(s, i, b))
            && (c.Some? ==> MatchesAt(s, i, c.value + 1) && forall b: nat :: c.value + 1 < b ==> !MatchesAt(s, i, b))
  {
    var c := LastClose(s, i + 1, LineEnd(s, i + 1));
    forall b: nat | MatchesAt(s, i, b) ensures c.Some? && b <= c.value + 1 {
      MatchStaysOnLine(s, i, b);
    }
  }

  /**
   * What the regular expression finds: nothing exactly when no substring
   * matches; otherwise a match that starts leftmost and, from there, is the
   * longest.
   */
  lemma FindSpanIsLeftmostLongest(s: string)
    ensures FindSpan(s).None? <==> forall a: nat, b: nat :: !MatchesAt(s, a, b)
    ensures FindSpan(s).Some? ==>
              var (a, b) := FindSpan(s).value;
              && MatchesAt(s, a, b)
              && (forall a': nat, b': nat :: a' < a ==> !MatchesAt(s, a', b'))
              && (forall b': nat :: b < b' ==> !MatchesAt(s, a, b'))
  {
    SpanFromIsLeftmostLongest(s, 0);
  }

  /** The leftmost-longest match is the one found. */
  lemma FindSpanIsUnique(s: string, a: nat, b: nat)
    requires MatchesAt(s, a, b)
    requires forall a': nat, b': nat :: a' < a ==> !MatchesAt(s, a', b')
    requires forall b': nat :: b < b' ==> !MatchesAt(s, a, b')
    ensures FindSpan(s) == Some((a, b))
  {
    FindSpanIsLeftmostLongest(s);
    var found := FindSpan(s).value;
    assert MatchesAt(s, found.0, found.1);
    assert found.0 == a;
    assert found.1 == b;
  }
}
