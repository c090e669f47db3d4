/**
  The few pieces of Python's `str` and `int` that the client relies on:
  `str.strip()`, slicing, `"; ".join`, `str(int)`, `int(str)`, the `04d`
  format and the ordering `<` of strings (code point by code point).
  A Dafny `char` is a Unicode scalar value, as a Python `str` element is.
 */
module Text {
  import opened Wrappers

  /** `c.isspace()` for a single character. */
  predicate IsSpace(c: char)
  {
    c == ' ' || c == '\t' || c == '\n' || c == '\r' || c == '\U{000B}' || c == '\U{000C}'
    || ('\U{001C}' <= c <= '\U{001F}') || c == '\U{0085}' || c == '\U{00A0}' || c == '\U{1680}'
    || ('\U{2000}' <= c <= '\U{200A}') || c == '\U{2028}' || c == '\U{2029}' || c == '\U{202F}'
    || c == '\U{205F}' || c == '\U{3000}'
  }

  predicate AllSpace(s: string)
  {
    forall i :: 0 <= i < |s| ==> IsSpace(s[i])
  }

  /** The first position from `i` on that does not hold whitespace. */
  function SkipSpace(s: string, i: nat): (j: nat)
    requires i <= |s|
    ensures i <= j <= |s|
    ensures forall k :: i <= k < j ==> IsSpace(s[k])
    ensures j == |s| || !IsSpace(s[j])
    decreases |s| - i
  {
    if i < |s| && IsSpace(s[i]) then SkipSpace(s, i + 1) else i
  }

  /** The last position up to `j` that does not follow whitespace. */
  function SkipSpaceBack(s: string, j: nat): (i: nat)
    requires j <= |s|
    ensures i <= j
    ensures forall k :: i <= k < j ==> IsSpace(s[k])
    ensures i == 0 || !IsSpace(s[i - 1])
  {
    if j > 0 && IsSpace(s[j - 1]) then SkipSpaceBack(s, j - 1) else j
  }

  /** `s.lstrip()`: the suffix of `s` left once leading whitespace is gone. */
  function TrimStart(s: string): (t: string)
    ensures |t| <= |s| && t == s[|s| - |t|..]
    ensures AllSpace(s[..|s| - |t|])
    ensures t == [] || !IsSpace(t[0])
  {
    var j := SkipSpace(s, 0);
    assert forall k :: 0 <= k < j ==> s[..j][k] == s[k];
    s[j..]
  }

  /** `s.rstrip()`: the prefix of `s` left once trailing whitespace is gone. */
  function TrimEnd(s: string): (t: string)
    ensures |t| <= |s| && t == s[..|t|]
    ensures AllSpace(s[|t|..])
    ensures t == [] || !IsSpace(t[|t| - 1])
  {
    var i := SkipSpaceBack(s, |s|);
    assert forall k :: 0 <= k < |s| - i ==> s[i..][k] == s[i + k];
    s[..i]
  }

  /** `s.strip()`. */
  function Strip(s: string): string
  {
    TrimEnd(TrimStart(s))
  }

  /** `s.strip()` is a slice of `s`, starting where `s.lstrip()` starts. */
  lemma StripIsInfix(s: string)
    ensures var t, i := Strip(s), |s| - |TrimStart(s)|;
      0 <= i <= |s| - |t| && s[i..i + |t|] == t
  {
    var u := TrimStart(s);
    var i := |s| - |u|;
    var k := |TrimEnd(u)|;
    assert u == s[i..];
    SliceOfSuffix(s, i, k);
  }

  lemma SliceOfSuffix(s: string, i: nat, k: nat)
    requires i + k <= |s|
    ensures s[i..][..k] == s[i..i + k]
  {
  }

  /** What `s.strip()` cuts off on either side is whitespace. */
  lemma StripCutsSpace(s: string)
    ensures var t, i := Strip(s), |s| - |TrimStart(s)|;
      i + |t| <= |s| && AllSpace(s[..i]) && AllSpace(s[i + |t|..])
  {
    var u := TrimStart(s);
    var t := TrimEnd(u);
    var i := |s| - |u|;
    assert AllSpace(s[..i]);
    assert AllSpace(u[|t|..]);
    assert s[i + |t|..] == u[|t|..];
  }

  /** What `s.strip()` keeps neither starts nor ends with whitespace. */
  lemma StripEnds(s: string)
    ensures var t := Strip(s); t == [] || (!IsSpace(t[0]) && !IsSpace(t[|t| - 1]))
  {
    var u := TrimStart(s);
    var t := TrimEnd(u);
    if t != [] {
      assert t[0] == u[0];
    }
  }

  /** `s.strip()` is empty exactly when `s` is all whitespace. */
  lemma StripEmpty(s: string)
    ensures Strip(s) == [] <==> AllSpace(s)
  {
    var u := TrimStart(s);
    var t := TrimEnd(u);
    var i := |s| - |u|;
    if t == [] {
      assert AllSpace(s[..i]) && AllSpace(u) && s == s[..i] + u;
    } else {
      StripIsInfix(s);
      assert s[i] == s[i..i + |t|][0];
      StripEnds(s);
      AllSpaceSuffix(s, i);
    }
  }

  lemma AllSpaceSuffix(s: string, i: nat)
    requires i < |s| && !IsSpace(s[i])
    ensures !AllSpace(s)
  {
  }

  /** `s[:n]` for `n >= 0`. */
  function Take(s: string, n: nat): (t: string)
    ensures |t| <= n && |t| <= |s| && t == s[..|t|]
    ensures |s| >= n ==> |t| == n
    ensures |s| < n ==> t == s
  {
    if |s| <= n then s else s[..n]
  }

  /** `sep.join(parts)`. */
  function Join(sep: string, parts: seq<string>): string
  {
    if |parts| == 0 then ""
    else if |parts| == 1 then parts[0]
    else parts[0] + sep + Join(sep, parts[1..])
  }

  /** One more part is added after one more separator; a single part is itself. */
  lemma {:induction false} JoinAppend(sep: string, parts: seq<string>, part: string)
    ensures Join(sep, [part]) == part
    ensures |parts| > 0 ==> Join(sep, parts + [part]) == Join(sep, parts) + sep + part
    decreases |parts|
  {
    if |parts| > 1 {
      assert (parts + [part])[1..] == parts[1..] + [part];
      JoinAppend(sep, parts[1..], part);
      calc {
        Join(sep, parts + [part]);
        parts[0] + sep + Join(sep, parts[1..] + [part]);
        parts[0] + sep + (Join(sep, parts[1..]) + sep + part);
        Join(sep, parts) + sep + part;
      }
    }
  }

  predicate IsDigit(c: char)
  {
    '0' <= c <= '9'
  }

  predicate AllDigits(s: string)
  {
    forall i :: 0 <= i < |s| ==> IsDigit(s[i])
  }

  function DigitChar(d: nat): char
    requires d < 10
  {
    ['0', '1', '2', '3', '4', '5', '6', '7', '8', '9'][d]
  }

  function DigitOf(c: char): nat
    requires IsDigit(c)
  {
    (c as int - '0' as int) as nat
  }

  /** `str(n)` for `n >= 0`. */
  function NatToDecimal(n: nat): (s: string)
    ensures |s| > 0 && AllDigits(s)
  {
    if n < 10 then [DigitChar(n)] else NatToDecimal(n / 10) + [DigitChar(n % 10)]
  }

  function Abs(n: int): nat
  {
    if n < 0 then -n else n
  }

  /** `str(n)`. */
  function IntToDecimal(n: int): string
  {
    if n < 0 then "-" + NatToDecimal(Abs(n)) else NatToDecimal(Abs(n))
  }

  /** The value of a string of decimal digits, most significant first. */
  function DigitsValue(s: string): nat
    requires AllDigits(s)
  {
    if |s| == 0 then 0 else 10 * DigitsValue(s[..|s| - 1]) + DigitOf(s[|s| - 1])
  }

  /**
    The digits of a decimal `int()` argument after the sign: digits, where
    single underscores may separate two digits.
   */
  predicate WellFormedDigits(b: string)
  {
    && |b| > 0 && IsDigit(b[0]) && IsDigit(b[|b| - 1])
    && (forall i :: 0 <= i < |b| ==> IsDigit(b[i]) || b[i] == '_')
    && (forall i :: 0 < i < |b| ==> b[i - 1] == '_' ==> b[i] != '_')
  }

  function RemoveUnderscores(b: string): (d: string)
    requires forall i :: 0 <= i < |b| ==> IsDigit(b[i]) || b[i] == '_'
    ensures AllDigits(d)
    ensures AllDigits(b) ==> d == b
  {
    if |b| == 0 then []
    else if b[0] == '_' then RemoveUnderscores(b[1..])
    else [b[0]] + RemoveUnderscores(b[1..])
  }

  /** `int(b)` for an unsigned digit string, None where Python raises ValueError. */
  function ParseDigits(b: string): Option<nat>
  {
    if WellFormedDigits(b) then
      Some(DigitsValue(RemoveUnderscores(b)))
    else None
  }

  /**
    `int(s)` for a `str`: surrounding whitespace, an optional sign, then
    ASCII digits (Unicode digits of other scripts are not modelled).
   */
  function ParseInt(s: string): Option<int>
  {
    ParseSigned(Strip(s))
  }

  /** `int()` of a string that has no surrounding whitespace. */
  function ParseSigned(t: string): Option<int>
  {
    if |t| > 0 && t[0] == '-' then Negate(ParseDigits(t[1..]))
    else if |t| > 0 && t[0] == '+' then Widen(ParseDigits(t[1..]))
    else Widen(ParseDigits(t))
  }

  function Widen(n: Option<nat>): Option<int>
  {
    match n
    case None => None
    case Some(v) => Some(v)
  }

  function Negate(n: Option<nat>): Option<int>
  {
    match n
    case None => None
    case Some(v) => Some(0 - v)
  }

  lemma {:induction false} DigitsValueOfDecimal(n: nat)
    ensures DigitsValue(NatToDecimal(n)) == n
  {
    var s := NatToDecimal(n);
    if n >= 10 {
      DigitsValueOfDecimal(n / 10);
      assert s[..|s| - 1] == NatToDecimal(n / 10);
    }
  }

  /** Nothing to strip when neither end is whitespace. */
  lemma StripNoop(s: string)
    requires |s| > 0 && !IsSpace(s[0]) && !IsSpace(s[|s| - 1])
    ensures Strip(s) == s
  {
    assert TrimStart(s) == s;
  }

  /** A string of digits has no whitespace to strip. */
  lemma StripDigits(s: string)
    requires AllDigits(s)
    ensures Strip(s) == s
  {
    if |s| > 0 {
      assert IsDigit(s[0]) && IsDigit(s[|s| - 1]);
      StripNoop(s);
    }
  }

  /** `int(p)` for a plain digit string `p`. */
  lemma ParseDigitString(p: string)
    requires |p| > 0 && AllDigits(p)
    ensures ParseInt(p) == Some(DigitsValue(p))
  {
    ParseSignedDigits(p);
    StripDigits(p);
  }

  lemma ParseSignedDigits(p: string)
    requires |p| > 0 && AllDigits(p)
    ensures ParseSigned(p) == Some(DigitsValue(p))
  {
    DigitStringParses(p);
    assert IsDigit(p[0]);
  }

  /** `int("-" + p)` for a plain digit string `p`. */
  lemma ParseNegativeDigitString(p: string)
    requires |p| > 0 && AllDigits(p)
    ensures ParseInt("-" + p) == Some(0 - DigitsValue(p))
  {
    ParseSignedNegative(p);
    StripSigned(p);
  }

  lemma ParseSignedNegative(p: string)
    requires |p| > 0 && AllDigits(p)
    ensures ParseSigned("-" + p) == Some(0 - DigitsValue(p))
  {
    DigitStringParses(p);
    SignedMinus(p);
  }

  /** A leading '-' negates whatever the rest parses to. */
  lemma SignedMinus(p: string)
    ensures ParseSigned("-" + p) == Negate(ParseDigits(p))
  {
    var s := "-" + p;
    assert s[0] == '-' && s[1..] == p;
  }

  lemma DigitStringParses(p: string)
    requires |p| > 0 && AllDigits(p)
    ensures ParseDigits(p) == Some(DigitsValue(p))
  {
    assert WellFormedDigits(p);
    assert RemoveUnderscores(p) == p;
  }

  /** `int(str(n)) == n`. */
  lemma ParseIntOfDecimal(n: int)
    ensures ParseInt(IntToDecimal(n)) == Some(n)
  {
    var m := Abs(n);
    DigitsValueOfDecimal(m);
    if n < 0 {
      ParseNegativeDigitString(NatToDecimal(m));
    } else {
      ParseDigitString(NatToDecimal(m));
    }
  }

  lemma StripSigned(d: string)
    requires |d| > 0 && AllDigits(d)
    ensures Strip("-" + d) == "-" + d
  {
    var s := "-" + d;
    assert s[|s| - 1] == d[|d| - 1];
    assert IsDigit(d[|d| - 1]);
    StripNoop(s);
  }

  /** Left-pads `s` with '0' up to `width` characters. */
  function ZeroPad(s: string, width: nat): (t: string)
    ensures |t| == if |s| >= width then |s| else width
    decreases width - |s|
  {
    if |s| >= width then s else ZeroPad(['0'] + s, width)
  }

  /** `f"{n:04d}"`: sign first, then zeros up to a width of four. */
  function Format04d(n: int): string
  {
    if n < 0 then "-" + ZeroPad(NatToDecimal(Abs(n)), 3) else ZeroPad(NatToDecimal(Abs(n)), 4)
  }

  lemma {:induction false} LeadingZero(s: string)
    requires AllDigits(s)
    ensures DigitsValue(['0'] + s) == DigitsValue(s)
  {
    if |s| > 0 {
      var z := ['0'] + s;
      assert z[..|z| - 1] == ['0'] + s[..|s| - 1];
      LeadingZero(s[..|s| - 1]);
    }
  }

  lemma {:induction false} ZeroPadDigits(s: string, width: nat)
    requires |s| > 0 && AllDigits(s)
    ensures var t := ZeroPad(s, width);
      && AllDigits(t)
      && |t| > 0 && DigitsValue(t) == DigitsValue(s)
    decreases width - |s|
  {
    if |s| < width {
      LeadingZero(s);
      ZeroPadDigits(['0'] + s, width);
    }
  }

  /** `int(f"{n:04d}") == n`: the padding never changes the number. */
  lemma Format04dValue(n: int)
    ensures |Format04d(n)| >= 4
    ensures ParseInt(Format04d(n)) == Some(n)
  {
    if n < 0 {
      Format04dNegative(n);
    } else {
      Format04dNonNegative(n);
    }
  }

  lemma Format04dNonNegative(n: nat)
    ensures |Format04d(n)| >= 4
    ensures ParseInt(Format04d(n)) == Some(n)
  {
    var z := ZeroPad(NatToDecimal(n), 4);
    PaddedValue(n, 4);
    ParseDigitString(z);
  }

  lemma Format04dNegative(n: int)
    requires n < 0
    ensures |Format04d(n)| >= 4
    ensures ParseInt(Format04d(n)) == Some(n)
  {
    var m := Abs(n);
    var z := ZeroPad(NatToDecimal(m), 3);
    PaddedValue(m, 3);
    ParseNegativeDigitString(z);
  }

  /** Zero-padding `str(m)` gives digits that still read as `m`. */
  lemma PaddedValue(m: nat, width: nat)
    ensures var z := ZeroPad(NatToDecimal(m), width);
      |z| > 0 && AllDigits(z) && DigitsValue(z) == m
  {
    DigitsValueOfDecimal(m);
    ZeroPadDigits(NatToDecimal(m), width);
  }

  /** Python's `a < b` on strings: code-point lexicographic order. */
  predicate StrLt(a: string, b: string)
  {
    if |a| == 0 then |b| > 0
    else if |b| == 0 then false
    else if a[0] == b[0] then StrLt(a[1..], b[1..])
    else a[0] < b[0]
  }

  lemma {:induction false} StrLtIrreflexive(a: string)
    ensures !StrLt(a, a)
  {
    if |a| > 0 { StrLtIrreflexive(a[1..]); }
  }

  lemma {:induction false} StrLtTransitive(a: string, b: string, c: string)
    requires StrLt(a, b) && StrLt(b, c)
    ensures StrLt(a, c)
  {
    if |a| > 0 && |b| > 0 && |c| > 0 && a[0] == b[0] && b[0] == c[0] {
      StrLtTransitive(a[1..], b[1..], c[1..]);
    }
  }

  lemma {:induction false} StrLtTotal(a: string, b: string)
    requires a != b
    ensures StrLt(a, b) || StrLt(b, a)
  {
    if |a| > 0 && |b| > 0 && a[0] == b[0] {
      assert a == [a[0]] + a[1..] && b == [b[0]] + b[1..];
      StrLtTotal(a[1..], b[1..]);
    }
  }

  lemma {:induction false} StrLtAsymmetric(a: string, b: string)
    requires StrLt(a, b)
    ensures !StrLt(b, a)
  {
    if |a| > 0 && |b| > 0 && a[0] == b[0] {
      StrLtAsymmetric(a[1..], b[1..]);
    }
  }
}
