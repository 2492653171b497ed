/**
 * The two JavaScript string operations the consultation form relies on:
 * `String.prototype.trim` and `s.replace(/\D/g, '')`.
 */
module JsString {

  /** The characters `trim` removes: ECMAScript WhiteSpace (including every space separator)
      and LineTerminator. */
  predicate IsJsWhitespace(c: char)
  {
    c == '\t' || c == '\n' || c == '\U{B}' || c == '\U{C}' || c == '\r' || c == ' ' ||
    c == '\U{A0}' || c == '\U{1680}' || ('\U{2000}' <= c <= '\U{200A}') ||
    c == '\U{2028}' || c == '\U{2029}' || c == '\U{202F}' || c == '\U{205F}' ||
    c == '\U{3000}' || c == '\U{FEFF}'
  }

  /** The characters `\d` matches (without the `u` flag): the ASCII digits. */
  predicate IsAsciiDigit(c: char)
  {
    '0' <= c <= '9'
  }

  predicate AllWhitespace(s: string)
  {
    forall k :: 0 <= k < |s| ==> IsJsWhitespace(s[k])
  }

  /** Number of leading whitespace characters. */
  function LeadingSpace(s: string): (n: nat)
    ensures n <= |s|
    ensures AllWhitespace(s[..n])
    ensures n < |s| ==> !IsJsWhitespace(s[n])
  {
    if s == [] || !IsJsWhitespace(s[0]) then 0
    else
      var n := 1 + LeadingSpace(s[1..]);
      assert s[..n] == [s[0]] + s[1..][..n - 1];
      n
  }

  /** Length of `s` once its trailing whitespace is dropped. */
  function EndWithoutSpace(s: string): (n: nat)
    ensures n <= |s|
    ensures AllWhitespace(s[n..])
    ensures n > 0 ==> !IsJsWhitespace(s[n - 1])
  {
    if s == [] || !IsJsWhitespace(s[|s| - 1]) then |s|
    else
      var n := EndWithoutSpace(s[..|s| - 1]);
      assert s[n..] == s[..|s| - 1][n..] + [s[|s| - 1]];
      n
  }

  /** `t` is what is left of `s` between `i` characters of whitespace in front and
      whitespace behind. */
  ghost predicate Strips(s: string, t: string, i: nat)
  {
    && i + |t| <= |s|
    && t == s[i..i + |t|]
    && (forall k :: 0 <= k < i ==> IsJsWhitespace(s[k]))
    && (forall k :: i + |t| <= k < |s| ==> IsJsWhitespace(s[k]))
  }

  /** `s.trim()`: the middle part of `s` left when whitespace is removed at both ends. */
  function Trim(s: string): (t: string)
    ensures exists i: nat :: Strips(s, t, i)
    ensures t != [] ==> !IsJsWhitespace(t[0]) && !IsJsWhitespace(t[|t| - 1])
    ensures t == [] <==> AllWhitespace(s)
  {
    var i := LeadingSpace(s);
    var rest := s[i..];
    var j := EndWithoutSpace(rest);
    var t := rest[..j];
    assert Strips(s, t, i) by {
      assert t == s[i..i + j];
      forall k | 0 <= k < i ensures IsJsWhitespace(s[k]) {
        assert s[..i][k] == s[k];
      }
      forall k | i + j <= k < |s| ensures IsJsWhitespace(s[k]) {
        assert rest[j..][k - i - j] == s[k];
      }
    }
    assert i < |s| ==> j > 0 by {
      assert i < |s| ==> !IsJsWhitespace(rest[0]);
      assert j == 0 ==> rest[j..] == rest;
    }
    assert t != [] ==> !IsJsWhitespace(rest[0]);
    t
  }

  /** A string with no whitespace at either end is its own trim. */
  lemma TrimOfTrimmed(s: string)
    requires s != [] && !IsJsWhitespace(s[0]) && !IsJsWhitespace(s[|s| - 1])
    ensures Trim(s) == s
  {
    var t := Trim(s);
    var i: nat :| Strips(s, t, i);
    assert i == 0;
    assert |t| == |s|;
  }

  /** `s.replace(/\D/g, '')`: the digits of `s`, in order. */
  function DigitsOnly(s: string): (d: string)
    ensures |d| <= |s|
    ensures forall k :: 0 <= k < |d| ==> IsAsciiDigit(d[k])
  {
    if s == [] then []
    else if IsAsciiDigit(s[0]) then [s[0]] + DigitsOnly(s[1..]) else DigitsOnly(s[1..])
  }

  /** Removing non-digits works piece by piece: the digits of `a + b` are the digits of `a`
      followed by the digits of `b`, so every digit is kept and the order is unchanged. */
  lemma {:induction false} DigitsOnlyAppend(a: string, b: string)
    ensures DigitsOnly(a + b) == DigitsOnly(a) + DigitsOnly(b)
  {
    if a != [] {
      assert (a + b)[1..] == a[1..] + b;
      DigitsOnlyAppend(a[1..], b);
    } else {
      assert a + b == b;
    }
  }

  /** One character: a digit is kept and anything else is dropped. */
  lemma DigitsOnlyOfChar(c: char)
    ensures DigitsOnly([c]) == (if IsAsciiDigit(c) then [c] else [])
  {
    assert [c][1..] == [];
  }

  /** A string made of digits only loses nothing. */
  lemma {:induction false} DigitsOnlyOfDigits(s: string)
    requires forall k :: 0 <= k < |s| ==> IsAsciiDigit(s[k])
    ensures DigitsOnly(s) == s
  {
    if s != [] {
      DigitsOnlyOfDigits(s[1..]);
    }
  }

  /** Whitespace holds no digits. */
  lemma {:induction false} DigitsOnlyOfWhitespace(s: string)
    requires AllWhitespace(s)
    ensures DigitsOnly(s) == []
  {
    if s != [] {
      assert IsJsWhitespace(s[0]);
      DigitsOnlyOfWhitespace(s[1..]);
    }
  }
}
