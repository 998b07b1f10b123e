/**
 * The two pieces of Rust's string library the application relies on:
 * substring search (`str::contains`) and trimming (`str::trim`).
 * Strings are sequences of Unicode scalar values, as Rust's `char`s are.
 */
module Text {

  /** `t` is a prefix of `s`. */
  predicate StartsWith(s: string, t: string) {
    |t| <= |s| && s[..|t|] == t
  }

  /** `s.contains(t)`: `t` occurs in `s` at some position; the empty string occurs everywhere. */
  predicate Contains(s: string, t: string)
    decreases |s|
  {
    StartsWith(s, t) || (|s| > 0 && Contains(s[1..], t))
  }

  /** Contains agrees with the positional definition of an occurrence. */
  lemma {:induction false} ContainsIffOccurs(s: string, t: string)
    ensures Contains(s, t) <==> exists i :: 0 <= i <= |s| && StartsWith(s[i..], t)
    decreases |s|
  {
    if StartsWith(s, t) {
      assert s[0..] == s;
    } else if |s| > 0 {
      ContainsIffOccurs(s[1..], t);
      if exists i :: 0 <= i <= |s| && StartsWith(s[i..], t) {
        var i :| 0 <= i <= |s| && StartsWith(s[i..], t);
        assert i != 0 by { assert s[0..] == s; }
        assert s[1..][i - 1..] == s[i..];
      }
      if exists j :: 0 <= j <= |s| - 1 && StartsWith(s[1..][j..], t) {
        var j :| 0 <= j <= |s| - 1 && StartsWith(s[1..][j..], t);
        assert s[1..][j..] == s[j + 1..];
      }
    } else {
      assert forall i :: 0 <= i <= |s| ==> s[i..] == s;
    }
  }

  /** Rust's `char::is_whitespace`: the Unicode White_Space property. */
  predicate IsWhitespace(c: char) {
    || ('\U{0009}' <= c <= '\U{000D}')
    || c == ' '
    || c == '\U{0085}'
    || c == '\U{00A0}'
    || c == '\U{1680}'
    || ('\U{2000}' <= c <= '\U{200A}')
    || c == '\U{2028}'
    || c == '\U{2029}'
    || c == '\U{202F}'
    || c == '\U{205F}'
    || c == '\U{3000}'
  }

  /** Every character of `s` is whitespace. */
  predicate IsBlank(s: string) {
    forall i :: 0 <= i < |s| ==> IsWhitespace(s[i])
  }

  /** Where the text starts once leading whitespace from position `i` on is skipped. */
  function SkipBlankForward(s: string, i: nat): (k: nat)
    requires i <= |s|
    ensures i <= k <= |s|
    ensures k == |s| || !IsWhitespace(s[k])
    decreases |s| - i
  {
    if i < |s| && IsWhitespace(s[i]) then SkipBlankForward(s, i + 1) else i
  }

  /** Where the text ends once trailing whitespace before position `j` is skipped. */
  function SkipBlankBackward(s: string, j: nat): (k: nat)
    requires j <= |s|
    ensures k <= j
    ensures k == 0 || !IsWhitespace(s[k - 1])
  {
    if j > 0 && IsWhitespace(s[j - 1]) then SkipBlankBackward(s, j - 1) else j
  }

  /** `s.trim()`: `s` without leading and trailing whitespace. */
  function Trim(s: string): (r: string)
    ensures |r| <= |s|
    ensures r == [] || (!IsWhitespace(r[0]) && !IsWhitespace(r[|r| - 1]))
  {
    var start, end := SkipBlankForward(s, 0), SkipBlankBackward(s, |s|);
    if start < end then s[start..end] else []
  }

  /** Everything skipped going forward is whitespace. */
  lemma {:induction false} SkippedForwardIsBlank(s: string, i: nat)
    requires i <= |s|
    ensures IsBlank(s[i..SkipBlankForward(s, i)])
    decreases |s| - i
  {
    if i < |s| && IsWhitespace(s[i]) {
      SkippedForwardIsBlank(s, i + 1);
      assert s[i..SkipBlankForward(s, i)] == [s[i]] + s[i + 1..SkipBlankForward(s, i + 1)];
    }
  }

  /** Everything skipped going backward is whitespace. */
  lemma {:induction false} SkippedBackwardIsBlank(s: string, j: nat)
    requires j <= |s|
    ensures IsBlank(s[SkipBlankBackward(s, j)..j])
    decreases j
  {
    if j > 0 && IsWhitespace(s[j - 1]) {
      SkippedBackwardIsBlank(s, j - 1);
      assert s[SkipBlankBackward(s, j)..j] == s[SkipBlankBackward(s, j - 1)..j - 1] + [s[j - 1]];
    }
  }

  /**
   * Trimming leaves nothing exactly when the text is blank, and otherwise leaves a piece of the
   * text that only whitespace surrounds.
   */
  lemma TrimEmptyIffBlank(s: string)
    ensures Trim(s) == [] <==> IsBlank(s)
    ensures exists i :: 0 <= i <= |s| - |Trim(s)| && s[i..i + |Trim(s)|] == Trim(s)
              && IsBlank(s[..i]) && IsBlank(s[i + |Trim(s)|..])
  {
    var start, end := SkipBlankForward(s, 0), SkipBlankBackward(s, |s|);
    var t := Trim(s);
    SkippedForwardIsBlank(s, 0);
    SkippedBackwardIsBlank(s, |s|);
    if start < end {
      assert t == s[start..end];
      assert s[..start] == s[0..start];
      assert s[start + |t|..] == s[end..|s|];
      assert !IsWhitespace(s[start]);
    } else {
      assert s == s[0..start];
      assert t == s[0..0] && s[..0] == [] && s[0 + |t|..] == s;
    }
  }
}
