/**
 * The number formatting the disassembler relies on: an integer inserted into
 * a stream after `std::hex` (lowercase base-16 digits, no prefix, no leading
 * zeros), `std::to_string` on a non-negative integer (base-10 digits), and
 * `std::setfill(c) << std::setw(w)`, which pads the next string on the left.
 */
module TextFormat {

  /** The digit characters either base writes (lowercase for 10 to 15). */
  predicate IsDigitChar(c: char)
  {
    '0' <= c <= '9' || 'a' <= c <= 'f'
  }

  predicate AllDigitChars(s: string)
  {
    forall i | 0 <= i < |s| :: IsDigitChar(s[i])
  }

  /** A digit character of base `base`: its value is below the base. */
  predicate IsDigitOf(c: char, base: nat)
  {
    IsDigitChar(c) && DigitValue(c) < base
  }

  predicate AllDigitsOf(s: string, base: nat)
  {
    forall i | 0 <= i < |s| :: IsDigitOf(s[i], base)
  }

  /** The digits of base 10 are exactly the characters '0' to '9'. */
  lemma DecimalDigitChars(c: char)
    ensures IsDigitOf(c, 10) <==> '0' <= c <= '9'
  {
  }

  /** The value of one digit character. */
  function DigitValue(c: char): (v: nat)
    requires IsDigitChar(c)
    ensures v < 0x10
  {
    if c <= '9' then c as int - '0' as int else c as int - 'a' as int + 10
  }

  /** The character written for a digit; DigitValue reads it back. */
  function DigitChar(d: nat): (c: char)
    requires d < 0x10
    ensures IsDigitChar(c) && DigitValue(c) == d
  {
    if d < 10 then ('0' as int + d) as char else ('a' as int + d - 10) as char
  }

  /** `n` written in base `base`, most significant digit first, without leading zeros. */
  function Numeral(n: nat, base: nat): (s: string)
    requires 2 <= base <= 0x10
    ensures 1 <= |s| && AllDigitsOf(s, base)
    decreases n
  {
    if n < base then [DigitChar(n)]
    else
      DivMod(n, base);
      var init, last := Numeral(n / base, base), DigitChar(n % base);
      assert IsDigitOf(last, base);
      init + [last]
  }

  /** A numeral of at least two digits is the numeral of `n / base` followed by the digit of `n % base`. */
  lemma NumeralLast(n: nat, base: nat)
    requires 2 <= base <= 0x10 && n >= base
    ensures var s := Numeral(n, base);
      && s[..|s| - 1] == Numeral(n / base, base)
      && s[|s| - 1] == DigitChar(n % base)
  {
    DivMod(n, base);
    var s := Numeral(n, base);
    assert s == Numeral(n / base, base) + [DigitChar(n % base)];
  }

  /** Euclidean division by a base of at least 2. */
  lemma DivMod(n: nat, base: nat)
    requires 2 <= base
    ensures n == base * (n / base) + n % base
    ensures 0 <= n % base < base
    ensures n >= base ==> 1 <= n / base < n
  {
    if n >= base {
      MulMonotone(n / base, 2, base);
    }
  }

  /** `os << std::hex << n`. */
  function Hex(n: nat): string
  {
    Numeral(n, 0x10)
  }

  /** `std::to_string(n)` for a non-negative `n`. */
  function Decimal(n: nat): string
  {
    Numeral(n, 10)
  }

  /** The value a string of digits denotes in base `base`. */
  function NumeralValue(s: string, base: nat): nat
    requires AllDigitChars(s)
    decreases |s|
  {
    if s == [] then 0 else NumeralValue(s[..|s| - 1], base) * base + DigitValue(s[|s| - 1])
  }

  function Pow(base: nat, k: nat): (p: nat)
    ensures base >= 1 ==> p >= 1
  {
    if k == 0 then 1 else base * Pow(base, k - 1)
  }

  /** Reading a numeral back gives the number that was written. */
  lemma {:induction false} NumeralRoundTrip(n: nat, base: nat)
    requires 2 <= base <= 0x10
    ensures NumeralValue(Numeral(n, base), base) == n
    decreases n
  {
    if n >= base {
      var s := Numeral(n, base);
      DivMod(n, base);
      NumeralLast(n, base);
      NumeralRoundTrip(n / base, base);
      assert NumeralValue(s, base) == (n / base) * base + n % base;
    }
  }

  /** Two numbers print the same only if they are equal. */
  lemma NumeralInjective(m: nat, n: nat, base: nat)
    requires 2 <= base <= 0x10
    requires Numeral(m, base) == Numeral(n, base)
    ensures m == n
  {
    NumeralRoundTrip(m, base);
    NumeralRoundTrip(n, base);
  }

  /** No leading zeros: the first digit is '0' exactly when the number is 0, and then it is alone. */
  lemma {:induction false} NumeralNoLeadingZero(n: nat, base: nat)
    requires 2 <= base <= 0x10
    ensures Numeral(n, base)[0] == '0' <==> n == 0
    ensures n == 0 ==> Numeral(n, base) == "0"
    decreases n
  {
    if n >= base {
      NumeralNoLeadingZero(n / base, base);
      assert Numeral(n, base)[0] == Numeral(n / base, base)[0];
    }
  }

  lemma DivBelowPow(n: nat, base: nat, k: nat)
    requires 2 <= base && 1 <= k
    ensures n / base < Pow(base, k - 1) <==> n < Pow(base, k)
  {
    var p := Pow(base, k - 1);
    assert Pow(base, k) == base * p;
    var q, r := n / base, n % base;
    assert n == base * q + r && r < base;
    if q < p {
      assert q <= p - 1;
      assert base * q <= base * (p - 1) by { MulMonotone(base, q, p - 1); }
    } else {
      assert base * p <= base * q by { MulMonotone(base, p, q); }
    }
  }

  lemma MulMonotone(a: nat, x: nat, y: nat)
    requires x <= y
    ensures a * x <= a * y
  {
  }

  lemma PowAtLeastBase(base: nat, k: nat)
    requires 2 <= base && 1 <= k
    ensures Pow(base, 1) == base && Pow(base, k) >= base
  {
    assert Pow(base, k) == base * Pow(base, k - 1);
    MulMonotone(base, 1, Pow(base, k - 1));
  }

  /** A numeral of at least two digits is the numeral of `n / base` and one more digit. */
  lemma NumeralStep(n: nat, base: nat)
    requires 2 <= base <= 0x10 && n >= base
    ensures |Numeral(n, base)| == |Numeral(n / base, base)| + 1 && n / base < n
  {
    DivMod(n, base);
  }

  /** A numeral has at most `k` digits exactly when the number is below base^k. */
  lemma {:induction false} NumeralLength(n: nat, base: nat, k: nat)
    requires 2 <= base <= 0x10 && 1 <= k
    ensures |Numeral(n, base)| <= k <==> n < Pow(base, k)
    decreases n
  {
    if n < base {
      PowAtLeastBase(base, k);
    } else if k == 1 {
      NumeralStep(n, base);
      PowAtLeastBase(base, 1);
    } else {
      NumeralStep(n, base);
      NumeralLength(n / base, base, k - 1);
      DivBelowPow(n, base, k);
    }
  }

  /** `std::setfill(fill) << std::setw(width) << s`: `s` padded on the left to `width` characters. */
  function PadLeft(s: string, width: nat, fill: char): (r: string)
    ensures |r| == if |s| < width then width else |s|
    ensures r[|r| - |s|..] == s
    ensures forall i | 0 <= i < |r| - |s| :: r[i] == fill
  {
    if |s| < width then seq(width - |s|, _ => fill) + s else s
  }

  /** Leading '0' characters do not change the value of a numeral. */
  lemma {:induction false} LeadingZerosKeepValue(zeros: string, s: string, base: nat)
    requires forall i | 0 <= i < |zeros| :: zeros[i] == '0'
    requires AllDigitChars(s)
    ensures AllDigitChars(zeros + s)
    ensures NumeralValue(zeros + s, base) == NumeralValue(s, base)
    decreases |s|, |zeros|
  {
    var t := zeros + s;
    assert AllDigitChars(t) by {
      forall i | 0 <= i < |t| ensures IsDigitChar(t[i]) {
        if i < |zeros| { assert t[i] == zeros[i]; } else { assert t[i] == s[i - |zeros|]; }
      }
    }
    if s == [] {
      if zeros != [] {
        assert t == zeros;
        LeadingZerosKeepValue(zeros[..|zeros| - 1], [], base);
        assert zeros[..|zeros| - 1] + [] == t[..|t| - 1];
      }
    } else {
      assert t[..|t| - 1] == zeros + s[..|s| - 1];
      assert t[|t| - 1] == s[|s| - 1];
      LeadingZerosKeepValue(zeros, s[..|s| - 1], base);
    }
  }

  /** The line number of a listing: `std::setfill('0') << std::setw(4) << std::to_string(line)`. */
  function LineNumber(line: nat): string
  {
    PadLeft(Decimal(line), 4, '0')
  }

  /**
   * Below 10000 a line number is exactly four digits that read back as the
   * line; from 10000 on it is the plain decimal numeral.
   */
  lemma LineNumberDigits(line: nat)
    ensures forall i | 0 <= i < |LineNumber(line)| :: '0' <= LineNumber(line)[i] <= '9'
    ensures line < 10000 ==>
      |LineNumber(line)| == 4 && AllDigitChars(LineNumber(line)) && NumeralValue(LineNumber(line), 10) == line
    ensures line >= 10000 ==> LineNumber(line) == Decimal(line)
  {
    var digits := Decimal(line);
    NumeralLength(line, 10, 4);
    assert Pow(10, 4) == 10000;
    var s := LineNumber(line);
    forall i | 0 <= i < |s| ensures '0' <= s[i] <= '9' {
      if i >= |s| - |digits| {
        assert s[i] == digits[i - (|s| - |digits|)];
        DecimalDigitChars(s[i]);
      }
    }
    if line < 10000 {
      NumeralRoundTrip(line, 10);
      var zeros := s[..|s| - |digits|];
      assert s == zeros + digits;
      LeadingZerosKeepValue(zeros, digits, 10);
    }
  }
}
