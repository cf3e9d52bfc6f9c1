/**
 * The few JavaScript string operations the login forms rely on:
 * `endsWith`, `trim` and `length` (which counts UTF-16 code units).
 * A Dafny `string` is a sequence of Unicode scalar values.
 */
module JsText {

  /** `s.endsWith(suffix)`: a case-sensitive suffix test. */
  predicate EndsWith(s: string, suffix: string)
  {
    |suffix| <= |s| && s[|s| - |suffix|..] == suffix
  }

  /** `s` ends with `suffix` exactly when it is some prefix followed by `suffix`. */
  lemma EndsWithIffConcat(s: string, suffix: string)
    ensures EndsWith(s, suffix) <==> exists p :: s == p + suffix
  {
    if EndsWith(s, suffix) {
      var p := s[..|s| - |suffix|];
      assert s == p + suffix;
    }
    if exists p :: s == p + suffix {
      var p :| s == p + suffix;
      assert s[|s| - |suffix|..] == suffix;
    }
  }

  /**
   * The characters `String.prototype.trim` removes: the ECMAScript WhiteSpace
   * set (TAB, VT, FF, ZWNBSP and every space separator) and the LineTerminator
   * set (LF, CR, LINE SEPARATOR, PARAGRAPH SEPARATOR).
   */
  const JsSpaces: set<char> := {
    '\t', '\n', '\U{000B}', '\U{000C}', '\r', ' ', '\U{00A0}', '\U{1680}',
    '\U{2000}', '\U{2001}', '\U{2002}', '\U{2003}', '\U{2004}', '\U{2005}',
    '\U{2006}', '\U{2007}', '\U{2008}', '\U{2009}', '\U{200A}',
    '\U{2028}', '\U{2029}', '\U{202F}', '\U{205F}', '\U{3000}', '\U{FEFF}'}

  predicate IsJsSpace(c: char)
  {
    c in JsSpaces
  }

  /** Every character of `s` is one `trim` removes (vacuously true of ""). */
  predicate IsBlank(s: string)
  {
    forall i :: 0 <= i < |s| ==> IsJsSpace(s[i])
  }

  /**
   * `s.trim()`: whitespace is dropped from both ends until each end is a
   * non-space character. The result is empty exactly when `s` is blank;
   * `TrimSlice` and `TrimmedEnds` state the rest of its meaning.
   */
  function Trim(s: string): (r: string)
    ensures |r| <= |s|
    ensures r == [] <==> IsBlank(s)
    decreases |s|
  {
    if s != [] && IsJsSpace(s[0]) then
      assert forall i :: 1 <= i < |s| ==> s[1..][i - 1] == s[i];
      Trim(s[1..])
    else if s != [] && IsJsSpace(s[|s| - 1]) then
      assert forall i :: 0 <= i < |s| - 1 ==> s[..|s| - 1][i] == s[i];
      Trim(s[..|s| - 1])
    else
      s
  }

  /** What `trim` leaves neither starts nor ends with whitespace. */
  lemma {:induction false} TrimmedEnds(s: string)
    ensures Trim(s) == [] || (!IsJsSpace(Trim(s)[0]) && !IsJsSpace(Trim(s)[|Trim(s)| - 1]))
    decreases |s|
  {
    if s != [] && IsJsSpace(s[0]) {
      TrimmedEnds(s[1..]);
    } else if s != [] && IsJsSpace(s[|s| - 1]) {
      TrimmedEnds(s[..|s| - 1]);
    }
  }

  /**
   * What `trim` leaves is a slice of `s` with only whitespace cut off on
   * either side; with `TrimmedEnds` this fixes the result uniquely.
   */
  lemma {:induction false} TrimSlice(s: string) returns (i: nat, j: nat)
    ensures i <= j <= |s|
    ensures Trim(s) == s[i..j]
    ensures IsBlank(s[..i]) && IsBlank(s[j..])
    decreases |s|
  {
    if s != [] && IsJsSpace(s[0]) {
      var t := s[1..];
      var i', j' := TrimSlice(t);
      i, j := i' + 1, j' + 1;
      assert t[i'..j'] == s[i..j];
      assert s[j..] == t[j'..];
      assert s[..i] == [s[0]] + t[..i'];
      BlankConcat([s[0]], t[..i']);
    } else if s != [] && IsJsSpace(s[|s| - 1]) {
      var t := s[..|s| - 1];
      i, j := TrimSlice(t);
      assert t[i..j] == s[i..j];
      assert t[..i] == s[..i];
      assert s[j..] == t[j..] + [s[|s| - 1]];
      BlankConcat(t[j..], [s[|s| - 1]]);
    } else {
      i, j := 0, |s|;
      assert s[i..j] == s;
    }
  }

  /** Two blank strings make a blank string. */
  lemma BlankConcat(a: string, b: string)
    requires IsBlank(a) && IsBlank(b)
    ensures IsBlank(a + b)
  {
    assert forall k :: |a| <= k < |a + b| ==> (a + b)[k] == b[k - |a|];
  }

  /** UTF-16 code units needed for one scalar value: two above the Basic Multilingual Plane. */
  function Utf16Units(c: char): nat
  {
    if c as int < 0x1_0000 then 1 else 2
  }

  /** `s.length` in JavaScript: the number of UTF-16 code units of `s`. */
  function Utf16Length(s: string): (n: nat)
    ensures |s| <= n <= 2 * |s|
  {
    if s == [] then 0 else Utf16Units(s[0]) + Utf16Length(s[1..])
  }

  /** `length` agrees with the number of characters exactly when none lies above the Basic Multilingual Plane. */
  lemma {:induction false} Utf16LengthBmp(s: string)
    ensures Utf16Length(s) == |s| <==> forall i :: 0 <= i < |s| ==> s[i] as int < 0x1_0000
  {
    if s != [] {
      Utf16LengthBmp(s[1..]);
      assert forall i :: 1 <= i < |s| ==> s[1..][i - 1] == s[i];
    }
  }
}
