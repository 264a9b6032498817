/**
 * String helpers shared by the caption, summary and file-name code:
 * JavaScript's `String.prototype.trim` and a substring test used to state
 * what a generated text contains.
 */
module Text {

  /**
   * The code points `String.prototype.trim` removes: the ECMAScript
   * WhiteSpace set (tab, vertical tab, form feed, space, no-break space,
   * zero width no-break space and the Unicode Zs category) together with
   * the LineTerminator set (line feed, carriage return, U+2028, U+2029).
   */
  predicate IsJsSpace(c: char)
  {
    || c == '\t' || c == '\n' || c == '\U{000B}' || c == '\U{000C}' || c == '\r'
    || c == ' ' || c == '\U{00A0}' || c == '\U{1680}'
    || ('\U{2000}' <= c <= '\U{200A}')
    || c == '\U{2028}' || c == '\U{2029}' || c == '\U{202F}' || c == '\U{205F}'
    || c == '\U{3000}' || c == '\U{FEFF}'
  }

  /** Every character of `s` is trimmable white space. */
  predicate AllSpace(s: string)
  {
    forall i :: 0 <= i < |s| ==> IsJsSpace(s[i])
  }

  /** `s` neither starts nor ends with trimmable white space. */
  predicate IsTrimmed(s: string)
  {
    s == [] || (!IsJsSpace(s[0]) && !IsJsSpace(s[|s| - 1]))
  }

  /** `s` with its leading white space removed. */
  function TrimStart(s: string): (r: string)
    ensures |r| <= |s|
  {
    if s != [] && IsJsSpace(s[0]) then TrimStart(s[1..]) else s
  }

  /** `TrimStart` removes a run of white space from the front and stops at the first other character. */
  lemma {:induction false} TrimStartSpec(s: string)
    ensures var r := TrimStart(s);
            && |r| <= |s| && r == s[|s| - |r|..]
            && AllSpace(s[..|s| - |r|])
            && (r == [] || !IsJsSpace(r[0]))
  {
    if s != [] && IsJsSpace(s[0]) {
      TrimStartSpec(s[1..]);
      var r := TrimStart(s);
      assert s[..|s| - |r|] == [s[0]] + s[1..][..|s| - 1 - |r|];
    }
  }

  /** `s` with its trailing white space removed. */
  function TrimEnd(s: string): (r: string)
    ensures |r| <= |s|
  {
    if s != [] && IsJsSpace(s[|s| - 1]) then TrimEnd(s[..|s| - 1]) else s
  }

  /** `TrimEnd` removes a run of white space from the back and stops at the last other character. */
  lemma {:induction false} TrimEndSpec(s: string)
    ensures var r := TrimEnd(s);
            && |r| <= |s| && r == s[..|r|]
            && AllSpace(s[|r|..])
            && (r == [] || !IsJsSpace(r[|r| - 1]))
  {
    if s != [] && IsJsSpace(s[|s| - 1]) {
      TrimEndSpec(s[..|s| - 1]);
      var r := TrimEnd(s);
      assert s[|r|..] == s[..|s| - 1][|r|..] + [s[|s| - 1]];
    }
  }

  /** `String.prototype.trim`: `s` without the white space at either end. */
  function Trim(s: string): (r: string)
    ensures |r| <= |s|
    ensures IsTrimmed(r)
  {
    TrimStartSpec(s);
    TrimEndSpec(TrimStart(s));
    TrimEnd(TrimStart(s))
  }

  /**
   * What `trim` returns: a string that neither starts nor ends with white
   * space, empty exactly when `s` is all white space, and equal to the
   * slice `s[k..k + |Trim(s)|]` where the `k` leading characters and the
   * ones after the slice are all white space.
   */
  lemma {:induction false} TrimSpec(s: string)
    ensures IsTrimmed(Trim(s))
    ensures Trim(s) == [] <==> AllSpace(s)
    ensures var r, k := Trim(s), |s| - |TrimStart(s)|;
            && k + |r| <= |s| && r == s[k..k + |r|]
            && AllSpace(s[..k]) && AllSpace(s[k + |r|..])
  {
    var front := TrimStart(s);
    TrimStartSpec(s);
    TrimEndSpec(front);
    var k := |s| - |front|;
    var r := TrimEnd(front);
    assert front == s[k..];
    assert s[k + |r|..] == front[|r|..];
    if r == [] {
      assert s == s[..k] + front;
    }
  }

  /** Trimming an already trimmed string changes nothing. */
  lemma {:induction false} TrimOfTrimmed(s: string)
    requires IsTrimmed(s)
    ensures Trim(s) == s
  {
  }

  /** `trim` is idempotent. */
  lemma {:induction false} TrimIdempotent(s: string)
    ensures Trim(Trim(s)) == Trim(s)
  {
    TrimSpec(s);
    TrimOfTrimmed(Trim(s));
  }

  /** `x` occurs in `s` starting at index `k`. */
  predicate ContainsAt(s: string, x: string, k: nat)
  {
    k + |x| <= |s| && s[k..k + |x|] == x
  }

  /** A string occurs at the end of anything it is appended to. */
  lemma ContainsAtEnd(p: string, x: string)
    ensures ContainsAt(p + x, x, |p|)
  {
  }

  /** An occurrence survives appending more text. */
  lemma ContainsExtended(p: string, x: string, k: nat, rest: string)
    requires ContainsAt(p, x, k)
    ensures ContainsAt(p + rest, x, k)
  {
  }

  /** Both halves of a middle part occur where they were placed. */
  lemma ContainsMiddleParts(p: string, x: string, y: string, z: string)
    ensures ContainsAt(p + (x + y) + z, x, |p|)
    ensures ContainsAt(p + (x + y) + z, y, |p| + |x|)
  {
  }

  /** `x` occurs somewhere in `s`. */
  ghost predicate Contains(s: string, x: string)
  {
    exists k: nat :: ContainsAt(s, x, k)
  }

  /** `s` ends with `x`. */
  predicate EndsWith(s: string, x: string)
  {
    |x| <= |s| && s[|s| - |x|..] == x
  }

  /** `s` starts with `x`. */
  predicate StartsWith(s: string, x: string)
  {
    |x| <= |s| && s[..|x|] == x
  }
}
