/**
 * The few Python text primitives the form logic leans on: `str.strip`,
 * `int(str)` in base 10, `str(int)`, and the regular-expression class `\d`.
 * Only ASCII digits are digits here, and `int()` ignores `_` separators.
 */
module PyText {
  import opened Wrappers

  /** A value stored in one of the source's `Dict[str, Any]` configuration maps. */
  datatype PyValue = PyInt(i: int) | PyStr(s: string) | PyNone

  /**
   * `str.isspace` for the ASCII and Latin-1 whitespace characters; no digit,
   * sign or `_` is whitespace, so stripping never eats into a number.
   */
  predicate IsSpace(c: char): (b: bool)
    ensures b ==> c != '+' && c != '-' && c != '_' && !('0' <= c <= '9')
  {
    c == ' ' || c == '\t' || c == '\n' || c == '\r' || c == '\U{0B}' || c == '\U{0C}'
    || ('\U{1C}' <= c <= '\U{1F}') || c == '\U{85}' || c == '\U{A0}'
  }

  predicate AllSpace(s: string) {
    forall i :: 0 <= i < |s| ==> IsSpace(s[i])
  }

  /** `str.lstrip()`: the suffix left after dropping leading whitespace. */
  function LStrip(s: string): (r: string)
    ensures |r| <= |s| && r == s[|s| - |r|..]
    ensures AllSpace(s[..|s| - |r|])
    ensures r != [] ==> !IsSpace(r[0])
  {
    if s != [] && IsSpace(s[0]) then LStrip(s[1..]) else s
  }

  /** `str.rstrip()`: the prefix left after dropping trailing whitespace. */
  function RStrip(s: string): (r: string)
    ensures |r| <= |s| && r == s[..|r|]
    ensures AllSpace(s[|r|..])
    ensures r != [] ==> !IsSpace(r[|r| - 1])
  {
    if s != [] && IsSpace(s[|s| - 1]) then RStrip(s[..|s| - 1]) else s
  }

  /** `str.strip()`. */
  function Strip(s: string): (r: string)
    ensures |r| <= |s|
    ensures r != [] ==> !IsSpace(r[0]) && !IsSpace(r[|r| - 1])
  {
    RStrip(LStrip(s))
  }

  /** Python's `not value or not value.strip()`: empty or whitespace only. */
  predicate IsBlank(s: string) {
    Strip(s) == []
  }

  /** Stripping removes exactly the surrounding whitespace: `Strip(s)` is a slice of `s` with only whitespace around it. */
  lemma StripIsSlice(s: string) returns (lo: nat)
    ensures lo + |Strip(s)| <= |s|
    ensures Strip(s) == s[lo..lo + |Strip(s)|]
    ensures AllSpace(s[..lo]) && AllSpace(s[lo + |Strip(s)|..])
  {
    lo := SliceAround(s, LStrip(s), RStrip(LStrip(s)));
  }

  /** A prefix `r` of a suffix `l` of `s`, with whitespace cut on both sides, is a slice of `s` between whitespace. */
  lemma SliceAround(s: string, l: string, r: string) returns (lo: nat)
    requires |l| <= |s| && l == s[|s| - |l|..] && AllSpace(s[..|s| - |l|])
    requires |r| <= |l| && r == l[..|r|] && AllSpace(l[|r|..])
    ensures lo == |s| - |l| && lo + |r| <= |s| && r == s[lo..lo + |r|]
    ensures AllSpace(s[..lo]) && AllSpace(s[lo + |r|..])
  {
    lo := |s| - |l|;
    assert s[lo..][..|r|] == s[lo..lo + |r|];
    var tail := s[lo + |r|..];
    forall i | 0 <= i < |tail|
      ensures IsSpace(tail[i])
    {
      assert tail[i] == l[|r|..][i];
    }
  }

  /** A value is blank exactly when every character of it is whitespace. */
  lemma BlankIffAllSpace(s: string)
    ensures IsBlank(s) <==> AllSpace(s)
  {
    var lo := StripIsSlice(s);
    if IsBlank(s) {
      forall i | 0 <= i < |s| ensures IsSpace(s[i]) {
        if i < lo { assert s[..lo][i] == s[i]; } else { assert s[lo..][i - lo] == s[i]; }
      }
    } else {
      var r := Strip(s);
      assert s[lo] == r[0];
    }
  }

  /** A value without whitespace at either end is its own stripped form. */
  lemma StripTrimmed(s: string)
    requires s != [] ==> !IsSpace(s[0]) && !IsSpace(s[|s| - 1])
    ensures Strip(s) == s
  {
  }

  predicate IsDigit(c: char) {
    '0' <= c <= '9'
  }

  /** The regular expression `\d*` (ASCII digits) matches the whole of `s`. */
  predicate AllDigits(s: string) {
    forall i :: 0 <= i < |s| ==> IsDigit(s[i])
  }

  function DigitValue(c: char): nat
    requires IsDigit(c)
  {
    (c as int) - ('0' as int)
  }

  function DigitChar(d: nat): (c: char)
    requires d < 10
    ensures IsDigit(c) && DigitValue(c) == d
  {
    ('0' as int + d) as char
  }

  /** The number a run of decimal digits denotes (leading zeros allowed, as `int()` allows them). */
  function DigitsValue(s: string): nat
    requires AllDigits(s)
  {
    if s == [] then 0 else DigitsValue(s[..|s| - 1]) * 10 + DigitValue(s[|s| - 1])
  }

  /** `str(n)` for a natural number. */
  function Decimal(n: nat): (r: string)
    ensures r != [] && AllDigits(r)
    ensures !IsSpace(r[0]) && !IsSpace(r[|r| - 1])
  {
    if n < 10 then [DigitChar(n)] else Decimal(n / 10) + [DigitChar(n % 10)]
  }

  lemma {:induction false} DecimalValue(n: nat)
    ensures DigitsValue(Decimal(n)) == n
  {
    if n >= 10 {
      var r := Decimal(n);
      assert r[..|r| - 1] == Decimal(n / 10);
      DecimalValue(n / 10);
    }
  }

  /** `str(i)` for any integer. */
  function IntToString(i: int): (r: string)
    ensures r != [] && !IsSpace(r[0]) && !IsSpace(r[|r| - 1])
  {
    if i < 0 then "-" + Decimal(-i) else Decimal(i)
  }

  /**
   * The digit part `int()` accepts: digits, where a single `_` may stand
   * between two of them (`"1_000"`).
   */
  predicate IntBody(s: string) {
    && s != [] && IsDigit(s[0]) && IsDigit(s[|s| - 1]) && DigitsOrUnderscores(s)
    && forall i :: 0 <= i < |s| - 1 && s[i] == '_' ==> IsDigit(s[i + 1])
  }

  predicate DigitsOrUnderscores(s: string) {
    forall i :: 0 <= i < |s| ==> IsDigit(s[i]) || s[i] == '_'
  }

  function DropUnderscores(s: string): (r: string)
    requires DigitsOrUnderscores(s)
    ensures AllDigits(r) && |r| <= |s|
    ensures AllDigits(s) ==> r == s
  {
    if s == [] then []
    else (if s[0] == '_' then [] else [s[0]]) + DropUnderscores(s[1..])
  }

  /**
   * `int(s)`: surrounding whitespace, an optional sign, then the digits;
   * `None` where Python raises `ValueError`.  Only ASCII digits are modelled.
   */
  function ParseInt(s: string): (r: Option<int>)
    ensures r.Some? ==> !IsBlank(s)
    ensures r.Some? && r.value < 0 ==> Strip(s)[0] == '-'
  {
    var t := Strip(s);
    if t != [] && (t[0] == '+' || t[0] == '-') then
      var body := t[1..];
      if IntBody(body) then
        var n := DigitsValue(DropUnderscores(body));
        Some(if t[0] == '-' then 0 - n else n)
      else None
    else if IntBody(t) then Some(DigitsValue(DropUnderscores(t)))
    else None
  }

  /** `int(str(i)) == i`. */
  lemma ParseIntToString(i: int)
    ensures ParseInt(IntToString(i)) == Some(i)
  {
    var n: nat := if i < 0 then -i else i;
    DecimalValue(n);
    if i < 0 {
      var t := IntToString(i);
      assert t[1..] == Decimal(n);
      ParseNegativeDigits(t);
    } else {
      ParseDigits(Decimal(n));
    }
  }

  /** A run of plain digits is read as the number it denotes. */
  lemma ParseDigits(s: string)
    requires s != [] && AllDigits(s)
    ensures ParseInt(s) == Some(DigitsValue(s))
  {
    StripTrimmed(s);
    DigitsAreIntBody(s);
    assert !(s[0] == '+' || s[0] == '-');
  }

  /** A minus sign before a run of digits is read as the negated number. */
  lemma ParseNegativeDigits(t: string)
    requires |t| >= 2 && t[0] == '-' && AllDigits(t[1..])
    ensures ParseInt(t) == Some(0 - DigitsValue(t[1..]))
  {
    assert IsDigit(t[1..][|t| - 2]);
    StripTrimmed(t);
    DigitsAreIntBody(t[1..]);
  }

  lemma DigitsAreIntBody(s: string)
    requires s != [] && AllDigits(s)
    ensures IntBody(s) && DropUnderscores(s) == s
  {
  }

  /** `int("")` raises. */
  lemma ParseEmpty()
    ensures ParseInt([]) == None
  {
    assert Strip([]) == [];
  }

  function Pow10(k: nat): nat {
    if k == 0 then 1 else 10 * Pow10(k - 1)
  }

  /** The last `width` decimal digits of `n`, zero-padded (`f"{n:0{width}d}"` for `n < 10^width`). */
  function Pad(n: nat, width: nat): (r: string)
    ensures |r| == width && AllDigits(r)
  {
    if width == 0 then [] else Pad(n / 10, width - 1) + [DigitChar(n % 10)]
  }

  lemma {:induction false} PadValue(n: nat, width: nat)
    requires n < Pow10(width)
    ensures DigitsValue(Pad(n, width)) == n
  {
    if width > 0 {
      var r := Pad(n, width);
      assert r[..|r| - 1] == Pad(n / 10, width - 1);
      PadValue(n / 10, width - 1);
    }
  }

  /** Reading a digit run and padding it back to its own width gives it back. */
  lemma {:induction false} PadDigitsValue(s: string)
    requires AllDigits(s)
    ensures DigitsValue(s) < Pow10(|s|)
    ensures Pad(DigitsValue(s), |s|) == s
  {
    if s != [] {
      var init := s[..|s| - 1];
      PadDigitsValue(init);
      var v := DigitsValue(s);
      assert v / 10 == DigitsValue(init) && v % 10 == DigitValue(s[|s| - 1]);
      assert DigitChar(v % 10) == s[|s| - 1];
      assert s == init + [s[|s| - 1]];
    }
  }
}
