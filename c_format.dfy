/**
 The `%lu` conversion of the C library's formatted output functions, as ISO C11
 section 7.21.6.1 defines it: an `unsigned long` argument is written in unsigned
 decimal notation; with no precision given the minimum number of digits is one,
 so the output has no leading zeros, and the value zero is written as "0".

 A reader for the same notation is defined beside it, so that the conversion can
 be shown to lose nothing (it reads back to the value it printed) and to be the
 only canonical spelling of a value.
 */
module CFormat {

  /** Unsigned 64-bit integers: the width of `unsigned long` on LP64 platforms. */
  newtype uint64 = x: int | 0 <= x < 0x1_0000_0000_0000_0000

  /** Signed 64-bit integers: the width of `long` (and of `time_t`) on LP64 platforms. */
  newtype int64 = x: int | -0x8000_0000_0000_0000 <= x < 0x8000_0000_0000_0000

  datatype Option<T> = None | Some(value: T)

  /**
   The value a signed `long` argument is taken to have when `%lu` reads it as
   `unsigned long`. ISO C11 section 7.16.1.1 allows that swap of signedness only
   for a value both types can hold, so for a non-negative argument the value is
   kept; for a negative argument C11 leaves the behaviour undefined (section
   7.21.6.1, paragraph 9), and this model assumes what LP64 platforms do: the
   same bit pattern, so the value modulo 2^64.
   */
  function AsUnsignedLong(t: int64): (u: uint64)
    ensures (u as int - t as int) % 0x1_0000_0000_0000_0000 == 0
    ensures t >= 0 ==> u as int == t as int
  {
    if t >= 0 then t as int as uint64 else (t as int + 0x1_0000_0000_0000_0000) as uint64
  }

  predicate IsDigit(c: char) {
    '0' <= c <= '9'
  }

  predicate AllDigits(s: string) {
    forall i :: 0 <= i < |s| ==> IsDigit(s[i])
  }

  /** At least one digit, and no leading zero unless the whole text is "0". */
  predicate IsCanonicalDecimal(s: string) {
    |s| >= 1 && AllDigits(s) && (s[0] == '0' ==> |s| == 1)
  }

  function DigitValue(c: char): (d: nat)
    requires IsDigit(c)
    ensures d < 10
  {
    c as int - '0' as int
  }

  function DigitChar(d: nat): (c: char)
    requires d < 10
    ensures IsDigit(c) && DigitValue(c) == d
  {
    ('0' as int + d) as char
  }

  /** The characters `%lu` writes for the value n. */
  function UnsignedDecimal(n: nat): (s: string)
    ensures IsCanonicalDecimal(s)
    ensures n < 10 <==> |s| == 1
    decreases n
  {
    if n < 10 then [DigitChar(n)] else UnsignedDecimal(n / 10) + [DigitChar(n % 10)]
  }

  /** The value of a string of decimal digits, most significant first. */
  function DigitsValue(s: string): nat
    requires AllDigits(s)
    decreases |s|
  {
    if s == [] then 0 else 10 * DigitsValue(s[..|s| - 1]) + DigitValue(s[|s| - 1])
  }

  /** Reads unsigned decimal notation back; leading zeros are accepted. */
  function ParseUnsignedDecimal(s: string): (r: Option<nat>)
    ensures r.Some? <==> |s| >= 1 && AllDigits(s)
  {
    if |s| >= 1 && AllDigits(s) then Some(DigitsValue(s)) else None
  }

  /** What `%lu` writes for an `unsigned long` argument. */
  function FormatLu(u: uint64): (s: string)
    ensures IsCanonicalDecimal(s)
  {
    UnsignedDecimal(u as nat)
  }

  /** Printing n and reading the text back gives n again. */
  lemma {:induction false} ParseUnsignedDecimalOfFormat(n: nat)
    ensures ParseUnsignedDecimal(UnsignedDecimal(n)) == Some(n)
    decreases n
  {
    var s := UnsignedDecimal(n);
    if n >= 10 {
      ParseUnsignedDecimalOfFormat(n / 10);
      assert s[..|s| - 1] == UnsignedDecimal(n / 10);
      assert DigitsValue(s) == 10 * (n / 10) + n % 10;
    } else {
      assert s[..0] == [];
    }
  }

  /** A string of digits whose value is zero is made of zeros only. */
  lemma {:induction false} ZeroValueDigits(s: string)
    requires AllDigits(s) && DigitsValue(s) == 0
    ensures forall i :: 0 <= i < |s| ==> s[i] == '0'
    decreases |s|
  {
    if s != [] {
      var p := s[..|s| - 1];
      ZeroValueDigits(p);
      forall i | 0 <= i < |s| ensures s[i] == '0' {
        if i < |s| - 1 { assert s[i] == p[i]; }
      }
    }
  }

  /** `%lu` writes the only canonical decimal spelling of a value. */
  lemma {:induction false} CanonicalDecimalIsFormat(s: string)
    requires IsCanonicalDecimal(s)
    ensures s == UnsignedDecimal(DigitsValue(s))
    decreases |s|
  {
    var n := DigitsValue(s);
    var p := s[..|s| - 1];
    var d := DigitValue(s[|s| - 1]);
    assert n == 10 * DigitsValue(p) + d;
    if |s| == 1 {
      assert p == [];
      assert [DigitChar(d)] == s;
    } else {
      assert p[0] == s[0];
      if DigitsValue(p) == 0 {
        ZeroValueDigits(p);
        assert false;
      }
      CanonicalDecimalIsFormat(p);
      assert n / 10 == DigitsValue(p) && n % 10 == d;
      assert s == p + [s[|s| - 1]];
    }
  }

  /** Different values are printed differently. */
  lemma FormatLuInjective(a: uint64, b: uint64)
    ensures FormatLu(a) == FormatLu(b) ==> a == b
  {
    ParseUnsignedDecimalOfFormat(a as nat);
    ParseUnsignedDecimalOfFormat(b as nat);
  }
}
