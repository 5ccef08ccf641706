/**
 * The string primitives the report engine relies on: `String.prototype.trim`
 * (over a simplified whitespace set) and the decimal rendering of a
 * non-negative integer inside a template literal, with its parser.
 */
module Text {
  import opened Wrappers

  /** Whitespace as far as `trim` is concerned (a subset of the ECMAScript set). */
  predicate IsSpace(c: char) {
    c == ' ' || c == '\t' || c == '\n' || c == '\r' || c == '\U{B}' || c == '\U{C}'
  }

  /** Drops the leading whitespace. */
  function TrimStart(s: string): (r: string)
    ensures |r| <= |s|
    ensures r == s[|s| - |r|..]
    ensures forall k :: 0 <= k < |s| - |r| ==> IsSpace(s[k])
    ensures r == [] || !IsSpace(r[0])
  {
    if s == [] || !IsSpace(s[0]) then s else TrimStart(s[1..])
  }

  /** Drops the trailing whitespace. */
  function TrimEnd(s: string): (r: string)
    ensures |r| <= |s|
    ensures r == s[..|r|]
    ensures forall k :: |r| <= k < |s| ==> IsSpace(s[k])
    ensures r == [] || !IsSpace(r[|r| - 1])
  {
    if s == [] || !IsSpace(s[|s| - 1]) then s else TrimEnd(s[..|s| - 1])
  }

  /**
   * `s.trim()`: the longest slice of `s` that neither starts nor ends with
   * whitespace, everything cut off on either side being whitespace.
   */
  function Trim(s: string): (r: string)
    ensures |r| <= |s|
    ensures r == [] || (!IsSpace(r[0]) && !IsSpace(r[|r| - 1]))
  {
    TrimEnd(TrimStart(s))
  }

  /** What `Trim` cuts off, at either end, is whitespace and nothing else. */
  lemma TrimIsSlice(s: string)
    ensures var i := |s| - |TrimStart(s)|;
      && i + |Trim(s)| <= |s|
      && Trim(s) == s[i..i + |Trim(s)|]
      && (forall k :: 0 <= k < i ==> IsSpace(s[k]))
      && (forall k :: i + |Trim(s)| <= k < |s| ==> IsSpace(s[k]))
  {
    var t := TrimStart(s);
    var r := TrimEnd(t);
    assert r == Trim(s);
    PrefixOfSuffix(s, t, r);
  }

  /**
   * A prefix `r` of a suffix `t` of `s`, followed in `t` by whitespace only,
   * is a slice of `s` followed in `s` by whitespace only.
   */
  lemma PrefixOfSuffix(s: string, t: string, r: string)
    requires |t| <= |s| && t == s[|s| - |t|..]
    requires |r| <= |t| && r == t[..|r|]
    requires forall k :: |r| <= k < |t| ==> IsSpace(t[k])
    ensures var i := |s| - |t|;
      && r == s[i..i + |r|]
      && (forall k :: i + |r| <= k < |s| ==> IsSpace(s[k]))
  {
    var i := |s| - |t|;
    forall k | i + |r| <= k < |s|
      ensures IsSpace(s[k])
    {
      assert s[k] == t[k - i];
    }
  }

  /** A string made only of whitespace trims to the empty string, and nothing else does. */
  lemma TrimEmptyIffBlank(s: string)
    ensures Trim(s) == [] <==> forall k :: 0 <= k < |s| ==> IsSpace(s[k])
  {
    var t := TrimStart(s);
    if Trim(s) == [] {
      // a non-blank first character left by TrimStart would survive TrimEnd
      assert t == [];
    }
  }

  /** A string with a non-blank character at each end is its own trim. */
  lemma TrimKeepsTrimmed(s: string)
    requires s != [] && !IsSpace(s[0]) && !IsSpace(s[|s| - 1])
    ensures Trim(s) == s
  {
    assert TrimStart(s) == s;
  }

  /** Trimming twice is trimming once. */
  lemma TrimIdempotent(s: string)
    ensures Trim(Trim(s)) == Trim(s)
  {
    if Trim(s) != [] {
      TrimKeepsTrimmed(Trim(s));
    }
  }

  // ---------------------------------------------------------------------------
  // String length as JavaScript counts it

  /** A character outside the Basic Multilingual Plane, which UTF-16 stores as a surrogate pair. */
  predicate IsAstral(c: char) {
    c as int >= 0x1_0000
  }

  /** The UTF-16 code units one character takes: two for a surrogate pair, one otherwise. */
  function CodeUnits(c: char): nat {
    if IsAstral(c) then 2 else 1
  }

  /**
   * `s.length`: the number of UTF-16 code units of `s`, not the number of
   * characters; every character takes one or two.
   */
  function Utf16Length(s: string): (n: nat)
    ensures |s| <= n <= 2 * |s|
  {
    if s == [] then 0 else CodeUnits(s[0]) + Utf16Length(s[1..])
  }

  /** The code units of two strings one after the other add up. */
  lemma {:induction false} Utf16LengthConcat(a: string, b: string)
    ensures Utf16Length(a + b) == Utf16Length(a) + Utf16Length(b)
    decreases |a|
  {
    if a == [] {
      assert a + b == b;
    } else {
      assert (a + b)[1..] == a[1..] + b;
      Utf16LengthConcat(a[1..], b);
    }
  }

  /**
   * The code units equal the characters exactly when no character of `s`
   * lies outside the Basic Multilingual Plane.
   */
  lemma {:induction false} Utf16LengthBounds(s: string)
    ensures (forall k :: 0 <= k < |s| ==> !IsAstral(s[k])) <==> Utf16Length(s) == |s|
    decreases |s|
  {
    if s != [] {
      Utf16LengthBounds(s[1..]);
      assert forall k :: 1 <= k < |s| ==> s[k] == s[1..][k - 1];
    }
  }

  /** A prefix and the rest split the code units of the whole between them. */
  lemma Utf16LengthSplit(s: string, i: nat)
    requires i <= |s|
    ensures Utf16Length(s[..i]) + Utf16Length(s[i..]) == Utf16Length(s)
  {
    var a, b := s[..i], s[i..];
    assert a + b == s;
    Utf16LengthConcat(a, b);
  }

  /** Trimming never adds code units. */
  lemma TrimUtf16Length(s: string)
    ensures Utf16Length(Trim(s)) <= Utf16Length(s)
  {
    var t := TrimStart(s);
    var r := TrimEnd(t);
    assert r == Trim(s);
    Utf16LengthSplit(s, |s| - |t|);
    Utf16LengthSplit(t, |r|);
  }

  // ---------------------------------------------------------------------------
  // Decimal digits

  predicate IsDigit(c: char) {
    '0' <= c <= '9'
  }

  predicate AllDigits(s: string) {
    forall k :: 0 <= k < |s| ==> IsDigit(s[k])
  }

  function DigitChar(d: nat): (c: char)
    requires d < 10
    ensures IsDigit(c)
  {
    "0123456789"[d]
  }

  function DigitValue(c: char): (d: nat)
    requires IsDigit(c)
    ensures d < 10
  {
    (c as int - '0' as int) as nat
  }

  lemma DigitRoundTrip(d: nat)
    requires d < 10
    ensures DigitValue(DigitChar(d)) == d
  {
  }

  /** `${n}` for a non-negative integer: its decimal digits, most significant first. */
  function ShowNat(n: nat): (r: string)
    ensures |r| >= 1
    ensures AllDigits(r)
    ensures r[0] == '0' ==> n == 0
    decreases n
  {
    if n < 10 then [DigitChar(n)] else ShowNat(n / 10) + [DigitChar(n % 10)]
  }

  /** The value of a string of decimal digits (the empty string is 0). */
  function DigitsValue(s: string): nat
    requires AllDigits(s)
  {
    if s == [] then 0 else 10 * DigitsValue(s[..|s| - 1]) + DigitValue(s[|s| - 1])
  }

  /** Reads back a rendered non-negative integer; anything but a non-empty digit string is None. */
  function ParseNat(s: string): (r: Option<nat>)
    ensures r.Some? <==> (|s| >= 1 && AllDigits(s))
  {
    if |s| >= 1 && AllDigits(s) then Some(DigitsValue(s)) else None
  }

  /** Rendering a number and reading it back gives the number. */
  lemma {:induction false} ShowNatRoundTrip(n: nat)
    ensures ParseNat(ShowNat(n)) == Some(n)
    decreases n
  {
    if n < 10 {
      DigitRoundTrip(n);
      var s := ShowNat(n);
      assert s == [DigitChar(n)];
      assert s[..0] == [];
      assert DigitsValue(s) == 10 * DigitsValue([]) + DigitValue(s[0]);
    } else {
      var p := ShowNat(n / 10);
      var s := ShowNat(n);
      ShowNatRoundTrip(n / 10);
      assert s[..|s| - 1] == p;
      DigitRoundTrip(n % 10);
    }
  }

  /** Distinct numbers render to distinct strings. */
  lemma ShowNatInjective(a: nat, b: nat)
    requires ShowNat(a) == ShowNat(b)
    ensures a == b
  {
    ShowNatRoundTrip(a);
    ShowNatRoundTrip(b);
  }
}
