/**
 * Rust's `str::parse::<u16>()`, that is `u16::from_str` in radix 10: an
 * optional leading `+`, then one or more ASCII digits (leading zeros allowed),
 * denoting a value that fits in 16 bits.  A lone sign, a `-`, any other
 * character and a value above 65535 are errors; nothing is clamped.
 */
module DecimalU16 {

  /** Rust's `u16`. */
  newtype u16 = x: int | 0 <= x < 0x1_0000

  datatype Option<T> = None | Some(value: T)

  predicate IsDigit(c: char)
  {
    '0' <= c <= '9'
  }

  predicate AllDigits(s: string)
  {
    forall i :: 0 <= i < |s| ==> IsDigit(s[i])
  }

  function Pow10(k: nat): (p: nat)
    ensures p >= 1
  {
    if k == 0 then 1 else 10 * Pow10(k - 1)
  }

  function DigitValue(c: char): (d: nat)
    requires IsDigit(c)
    ensures d < 10
  {
    (c as int) - ('0' as int)
  }

  function DigitChar(d: nat): (c: char)
    requires d < 10
    ensures IsDigit(c) && DigitValue(c) == d
  {
    ('0' as int + d) as char
  }

  /** The number a string of decimal digits denotes, most significant digit
      first; it is below 10 to the power of the number of digits. */
  function DigitsValue(s: string): (n: nat)
    requires AllDigits(s)
    ensures n < Pow10(|s|)
    decreases |s|
  {
    if s == [] then 0
    else
      var m := DigitsValue(s[..|s| - 1]);
      var d := DigitValue(s[|s| - 1]);
      assert m * 10 + d < Pow10(|s|) by {
        assert m <= Pow10(|s| - 1) - 1;
        assert m * 10 <= Pow10(|s| - 1) * 10 - 10;
      }
      m * 10 + d
  }

  /** The digits after the optional leading `+`. */
  function Magnitude(s: string): (m: string)
    ensures s == m || s == ['+'] + m
  {
    if s != [] && s[0] == '+' then s[1..] else s
  }

  /** `u16::from_str`.  `None` stands for every `ParseIntError` kind. */
  function ParseU16(s: string): (r: Option<u16>)
    ensures r.Some? ==> s != [] && s != "+"
    ensures r.Some? ==> forall i :: 0 <= i < |s| ==> IsDigit(s[i]) || (i == 0 && s[i] == '+')
    ensures s != [] && s[0] == '-' ==> r == None
    ensures s != [] && AllDigits(s) ==> (r.Some? <==> DigitsValue(s) < 0x1_0000)
  {
    var m := Magnitude(s);
    if m != [] && AllDigits(m) && DigitsValue(m) < 0x1_0000
    then Some(DigitsValue(m) as u16)
    else None
  }

  /** The shortest decimal numeral of `n`: no leading zero except for 0. */
  function Decimal(n: nat): (s: string)
    ensures s != [] && AllDigits(s) && DigitsValue(s) == n
    ensures (s[0] == '0') == (n == 0)
  {
    if n < 10 then [DigitChar(n)]
    else
      var p := Decimal(n / 10);
      var s := p + [DigitChar(n % 10)];
      assert s[..|s| - 1] == p;
      s
  }

  /** `s` without its leading zeros, keeping at least one digit. */
  function StripLeadingZeros(s: string): (t: string)
    decreases |s|
  {
    if |s| > 1 && s[0] == '0' then StripLeadingZeros(s[1..]) else s
  }

  function Zeros(k: nat): (z: string)
    ensures |z| == k && AllDigits(z)
  {
    if k == 0 then [] else ['0'] + Zeros(k - 1)
  }

  /** A leading zero does not change the value of a numeral. */
  lemma {:induction false} LeadingZeroValue(s: string)
    requires AllDigits(s)
    ensures AllDigits(['0'] + s) && DigitsValue(['0'] + s) == DigitsValue(s)
    decreases |s|
  {
    var z := ['0'] + s;
    assert AllDigits(z) by {
      forall i | 0 <= i < |z| ensures IsDigit(z[i]) {
        if i > 0 { assert z[i] == s[i - 1]; }
      }
    }
    if s != [] {
      var p := s[..|s| - 1];
      assert z[..|z| - 1] == ['0'] + p;
      LeadingZeroValue(p);
    }
  }

  /** Any number of leading zeros does not change the value of a numeral. */
  lemma {:induction false} LeadingZerosValue(k: nat, s: string)
    requires AllDigits(s)
    ensures AllDigits(Zeros(k) + s) && DigitsValue(Zeros(k) + s) == DigitsValue(s)
    decreases k
  {
    if k > 0 {
      LeadingZerosValue(k - 1, s);
      assert Zeros(k) + s == ['0'] + (Zeros(k - 1) + s);
      LeadingZeroValue(Zeros(k - 1) + s);
    } else {
      assert Zeros(k) + s == s;
    }
  }

  /** Parsing accepts the decimal numeral of every 16-bit value, with an
      optional `+` and any number of leading zeros, and gives the value back. */
  lemma ParseU16Decimal(n: u16, plus: bool, k: nat)
    ensures ParseU16((if plus then "+" else "") + Zeros(k) + Decimal(n as nat)) == Some(n)
  {
    var d := Zeros(k) + Decimal(n as nat);
    LeadingZerosValue(k, Decimal(n as nat));
    var sign: string := if plus then "+" else "";
    var s := sign + d;
    assert sign + Zeros(k) + Decimal(n as nat) == s;
    assert d != [] && DigitsValue(d) == n as nat;
    assert Magnitude(s) == d by {
      if plus { assert s == ['+'] + d; } else { assert s == d; assert IsDigit(d[0]); }
    }
  }

  /** A numeral whose first digit is not zero denotes at least 10 to the
      power of its length less one; in particular a positive value. */
  lemma {:induction false} NonZeroLeadValue(s: string)
    requires s != [] && AllDigits(s) && s[0] != '0'
    ensures DigitsValue(s) >= Pow10(|s| - 1)
    decreases |s|
  {
    if |s| > 1 {
      NonZeroLeadValue(s[..|s| - 1]);
    }
  }

  lemma {:induction false} Pow10Monotone(i: nat, j: nat)
    requires i <= j
    ensures Pow10(i) <= Pow10(j)
    decreases j
  {
    if i < j {
      Pow10Monotone(i, j - 1);
    }
  }

  /** Whether an all-digit input parses follows from its length: up to four
      digits always fit in 16 bits, while six or more significant digits
      never do and are rejected rather than clamped. */
  lemma ParseU16Length(s: string)
    requires s != [] && AllDigits(s)
    ensures |s| <= 4 ==> ParseU16(s).Some?
    ensures |s| >= 6 && s[0] != '0' ==> ParseU16(s) == None
  {
    if |s| <= 4 {
      Pow10Monotone(|s|, 4);
      assert Pow10(4) == 10000;
    }
    if |s| >= 6 && s[0] != '0' {
      NonZeroLeadValue(s);
      Pow10Monotone(5, |s| - 1);
      assert Pow10(5) == 100000;
    }
  }

  /** A numeral without redundant leading zeros is the shortest numeral of
      its value: decimal numerals are unique. */
  lemma {:induction false} DecimalUnique(s: string)
    requires s != [] && AllDigits(s) && (s[0] != '0' || |s| == 1)
    ensures Decimal(DigitsValue(s)) == s
    decreases |s|
  {
    if |s| > 1 {
      var p := s[..|s| - 1];
      NonZeroLeadValue(p);
      DecimalUnique(p);
      var n := DigitsValue(s);
      assert n / 10 == DigitsValue(p) && n % 10 == DigitValue(s[|s| - 1]);
      assert DigitChar(DigitValue(s[|s| - 1])) == s[|s| - 1];
      assert s == p + [s[|s| - 1]];
    } else {
      assert DigitChar(DigitValue(s[0])) == s[0];
    }
  }

  /** Stripping leading zeros keeps the value. */
  lemma {:induction false} StripLeadingZerosValue(s: string)
    requires s != [] && AllDigits(s)
    ensures var t := StripLeadingZeros(s);
      t != [] && AllDigits(t) && (t[0] != '0' || |t| == 1) && DigitsValue(t) == DigitsValue(s)
    decreases |s|
  {
    if |s| > 1 && s[0] == '0' {
      StripLeadingZerosValue(s[1..]);
      assert s == ['0'] + s[1..];
      LeadingZeroValue(s[1..]);
    }
  }

  /** Everything parsing accepts is, after the optional `+` and the leading
      zeros, the decimal numeral of the value it returns. */
  lemma ParseU16Canonical(s: string, n: u16)
    requires ParseU16(s) == Some(n)
    ensures StripLeadingZeros(Magnitude(s)) == Decimal(n as nat)
  {
    var m := Magnitude(s);
    StripLeadingZerosValue(m);
    DecimalUnique(StripLeadingZeros(m));
  }
}
