/** Decimal numbers in canonical form: an integer and the largest thousand-power suffix. */
module Quantity {
  import opened Wrappers
  import opened Division
  import opened Text

  const TWO_128 := 0x1_0000_0000_0000_0000_0000_0000_0000_0000
  const I32_MIN := -0x8000_0000
  const I32_MAX := 0x7FFF_FFFF
  const MAX_DIGITS := 38

  function Pow10(k: nat): (p: nat)
    ensures 1 <= p
  {
    if k == 0 then 1 else 10 * Pow10(k - 1)
  }

  // ---------------------------------------------------------------- what a number's text means

  /** `digits` times ten to the `exp`, with a sign. */
  datatype Number = Number(negative: bool, digits: nat, exp: int)

  function IndexOfE(s: string): (n: nat)
    ensures n <= |s|
  {
    if s == "" || s[0] == 'e' || s[0] == 'E' then 0 else IndexOfE(s[1..]) + 1
  }

  predicate AllDigits(s: string) { forall c | c in s :: IsDigit(c) }

  /** `parse::<i32>`: digits after an optional sign, in range. */
  function ParseI32(s: string): Option<int> {
    var signed := s != "" && (s[0] == '-' || s[0] == '+');
    var digits := if signed then s[1..] else s;
    if digits == "" || !AllDigits(digits) then None
    else
      var n := if signed && s[0] == '-' then 0 - Digits(digits) else Digits(digits);
      if I32_MIN <= n <= I32_MAX then Some(n) else None
  }

  function TrimZeros(s: string): string { if s != "" && s[0] == '0' then TrimZeros(s[1..]) else s }

  /** A text cut into its sign, digits before and after the point, and exponent. */
  datatype Parts = Parts(negative: bool, whole: string, fraction: string, exp: Option<int>)

  function PartsOf(text: string): Parts {
    var negative := text != "" && text[0] == '-';
    var unsigned := if negative then text[1..] else text;
    var e := IndexOfE(unsigned);
    var mantissa := unsigned[..e];
    var exp := if e < |unsigned| then ParseI32(unsigned[e + 1..]) else Some(0);
    match SplitOnce(mantissa, '.')
    case Some(cut) => Parts(negative, cut.0, cut.1, exp)
    case None => Parts(negative, mantissa, "", exp)
  }

  function Significant(p: Parts): string { TrimZeros(p.whole + p.fraction) }

  /** The number a text stands for, if it is one this code takes. */
  function NumberOf(text: string): Option<Number> {
    var p := PartsOf(text);
    var digits := Significant(p);
    if p.exp.None? then None
    else if digits == "" then Some(Number(p.negative, 0, 0))
    else if |digits| > MAX_DIGITS || !AllDigits(digits) || Digits(digits) >= TWO_128 then None
    else if p.exp.value - |p.fraction| < I32_MIN then None
    else Some(Number(p.negative, Digits(digits), p.exp.value - |p.fraction|))
  }

  // ---------------------------------------------------------------- canonical form

  /** Without trailing zeros. */
  function Normal(digits: nat, exp: int): (nat, int)
    requires digits > 0
  {
    if digits % 10 == 0 then Normal(digits / 10, exp + 1) else (digits, exp)
  }

  /** An amount of thousand-powers: `unit` is one of -9, -6, ..., 18. */
  datatype Amount = Amount(negative: bool, amount: nat, unit: int)

  function CeilDiv(a: nat, b: nat): nat
    requires b > 0
  {
    (a + b - 1) / b
  }

  /** The unit of a number with this exponent. */
  function UnitOf(exp: int): int { if exp / 3 * 3 < 18 then exp / 3 * 3 else 18 }

  /** What is denoted: `digits` times ten to the `exp`, in units of ten to the `unit`. */
  predicate IsMultiple(digits: nat, exp: int, unit: int) {
    unit <= exp || digits % Pow10(unit - exp) == 0
  }

  function InUnits(digits: nat, exp: int, unit: int): int {
    if unit <= exp then digits * Pow10(exp - unit) else digits / Pow10(unit - exp)
  }

  function Canonical(n: Number): Amount {
    if n.digits == 0 then Amount(false, 0, 0)
    else
      var (m, exp) := Normal(n.digits, n.exp);
      if exp < -9 then Amount(n.negative, CeilDiv(m, Pow10(-9 - exp)), -9)
      else Amount(n.negative, m * Pow10(exp - UnitOf(exp)), UnitOf(exp))
  }

  // ---------------------------------------------------------------- powers of ten

  lemma {:induction false} Pow10Add(a: nat, b: nat)
    ensures Pow10(a + b) == Pow10(a) * Pow10(b)
  {
    if a > 0 {
      Pow10Add(a - 1, b);
      MulAssoc(10, Pow10(a - 1), Pow10(b));
    }
  }

  lemma MulAssoc(a: int, b: int, c: int)
    ensures a * b * c == a * (b * c)
  {
  }

  lemma ExactDiv(x: nat, d: nat, q: nat)
    requires d > 0 && x == d * q
    ensures x / d == q && x % d == 0
  {
    DivIs(x, d, q, 0);
  }

  /** A number that does not end in zero is a multiple of no power of ten. */
  lemma NoFactor(m: nat, k: nat)
    requires m % 10 != 0 && k > 0
    ensures m % Pow10(k) != 0
  {
    var p, q := Pow10(k - 1), m / Pow10(k);
    if m % Pow10(k) == 0 {
      assert m == Pow10(k) * q == 10 * p * q;
      MulAssoc(10, p, q);
      ExactDiv(m, 10, p * q);
    }
  }

  // ---------------------------------------------------------------- normal form

  lemma {:induction false} NormalIs(digits: nat, exp: int)
    requires digits > 0
    ensures var (m, x) := Normal(digits, exp); m % 10 != 0 && exp <= x && digits == m * Pow10(x - exp)
  {
    if digits % 10 == 0 {
      NormalIs(digits / 10, exp + 1);
      var (m, x) := Normal(digits / 10, exp + 1);
      assert digits == 10 * (m * Pow10(x - exp - 1));
      assert Pow10(x - exp) == 10 * Pow10(x - exp - 1);
      MulSwap(10, m, Pow10(x - exp - 1));
    } else {
      assert Pow10(0) == 1;
    }
  }

  lemma MulSwap(a: int, b: int, c: int)
    ensures a * (b * c) == b * (a * c)
  {
  }

  /** Zeros on the end change neither what a number is a multiple of nor how many. */
  lemma ZerosDoNotMatter(m: nat, x: int, exp: int, unit: int)
    requires m % 10 != 0 && exp <= x
    ensures IsMultiple(m * Pow10(x - exp), exp, unit) <==> unit <= x
    ensures unit <= x ==> InUnits(m * Pow10(x - exp), exp, unit) == m * Pow10(x - unit)
  {
    var p := Pow10(x - exp);
    if unit <= exp {
      Pow10Add(x - exp, exp - unit);
      MulAssoc(m, p, Pow10(exp - unit));
    } else if unit <= x {
      Pow10Add(unit - exp, x - unit);
      var a, b := Pow10(unit - exp), Pow10(x - unit);
      assert m * p == m * (a * b);
      MulSwap(m, a, b);
      ExactDiv(m * p, a, m * b);
    } else {
      Pow10Add(x - exp, unit - x);
      NoFactor(m, unit - x);
      MultipleOfBoth(m, p, Pow10(unit - x));
    }
  }

  lemma MultipleOfBoth(m: nat, p: nat, q: nat)
    requires p > 0 && q > 0 && m % q != 0
    ensures p * q > 0 && (m * p) % (p * q) != 0
  {
    var k, r := m / q, m % q;
    assert m == q * k + r;
    assert p * r < p * q;
    assert m * p == p * q * k + p * r by {
      assert m * p == (q * k + r) * p == q * k * p + r * p;
      assert q * k * p == p * q * k;
    }
    DivIs(m * p, p * q, k, p * r);
    assert p * r > 0;
  }

  /** The least integer not below a quotient. */
  predicate IsCeil(c: nat, a: nat, b: nat) { a <= c * b < a + b }

  lemma CeilDivIsCeil(a: nat, b: nat)
    requires b > 0
    ensures IsCeil(CeilDiv(a, b), a, b)
  {
    var x := a + b - 1;
    assert x == b * (x / b) + x % b;
    assert (x / b) * b == b * (x / b);
  }

  lemma CeilScales(c: nat, a: nat, b: nat, p: nat)
    requires IsCeil(c, a, b) && p > 0
    ensures IsCeil(c, a * p, b * p)
  {
    assert a * p <= c * b * p < (a + b) * p;
    assert c * b * p == c * (b * p) && (a + b) * p == a * p + b * p;
  }

  // ---------------------------------------------------------------- what canonical form denotes

  /** The unit is the largest thousand-power, up to ten to the eighteen, that leaves an integer. */
  ghost predicate IsLargestUnit(digits: nat, exp: int, unit: int) {
    && -9 <= unit <= 18 && unit % 3 == 0 && IsMultiple(digits, exp, unit)
    && forall u | unit < u <= 18 && u % 3 == 0 :: !IsMultiple(digits, exp, u)
  }

  lemma UnitIsLargest(x: int)
    requires -9 <= x
    ensures var u := UnitOf(x); -9 <= u <= 18 && u % 3 == 0 && u <= x && forall v | u < v <= 18 && v % 3 == 0 :: x < v
  {
  }

  /**
   * Exact with the largest unit for a multiple of one nano; otherwise the least multiple of a
   * nano not below it in magnitude.
   */
  lemma CanonicalDenotes(n: Number)
    requires n.digits > 0
    ensures var q := Canonical(n);
            && q.negative == n.negative
            && if IsMultiple(n.digits, n.exp, -9) then
                 IsLargestUnit(n.digits, n.exp, q.unit) && q.amount == InUnits(n.digits, n.exp, q.unit)
               else q.unit == -9 && n.exp < -9 && IsCeil(q.amount, n.digits, Pow10(-9 - n.exp))
  {
    var (m, x) := Normal(n.digits, n.exp);
    NormalIs(n.digits, n.exp);
    ZerosDoNotMatter(m, x, n.exp, -9);
    hide IsMultiple, InUnits, IsCeil, CeilDiv;
    if -9 <= x {
      UnitIsLargest(x);
      ZerosDoNotMatter(m, x, n.exp, UnitOf(x));
      forall u | UnitOf(x) < u <= 18 && u % 3 == 0 ensures !IsMultiple(n.digits, n.exp, u) {
        ZerosDoNotMatter(m, x, n.exp, u);
      }
    } else {
      CeilDivIsCeil(m, Pow10(-9 - x));
      CeilScales(CeilDiv(m, Pow10(-9 - x)), m, Pow10(-9 - x), Pow10(x - n.exp));
      Pow10Add(-9 - x, x - n.exp);
    }
  }

  /** Two spellings of one value; zero has no sign. */
  predicate SameValue(a: Number, b: Number) {
    && (a.digits > 0 && b.digits > 0 ==> a.negative == b.negative)
    && if a.exp >= b.exp then a.digits * Pow10(a.exp - b.exp) == b.digits else a.digits == b.digits * Pow10(b.exp - a.exp)
  }

  lemma {:induction false} NormalIgnoresZeros(digits: nat, exp: int, k: nat)
    requires digits > 0
    ensures digits * Pow10(k) > 0 && Normal(digits * Pow10(k), exp) == Normal(digits, exp + k)
    decreases k
  {
    if k > 0 {
      NormalIgnoresZeros(digits, exp + 1, k - 1);
      MulSwap(digits, 10, Pow10(k - 1));
      ExactDiv(digits * Pow10(k), 10, digits * Pow10(k - 1));
    }
  }

  /** Equal values in any spelling have one canonical form. */
  lemma CanonicalIsUnique(a: Number, b: Number)
    requires SameValue(a, b)
    ensures Canonical(a) == Canonical(b)
  {
    assert a.digits == 0 <==> b.digits == 0;
    if a.digits > 0 {
      if a.exp >= b.exp {
        NormalIgnoresZeros(a.digits, b.exp, a.exp - b.exp);
      } else {
        NormalIgnoresZeros(b.digits, a.exp, b.exp - a.exp);
      }
    }
  }

  /** Above the nano, one canonical form is one value. */
  lemma CanonicalIsExact(a: Number, b: Number)
    requires IsMultiple(a.digits, a.exp, -9) && IsMultiple(b.digits, b.exp, -9)
    ensures Canonical(a) == Canonical(b) <==> SameValue(a, b)
  {
    if SameValue(a, b) {
      CanonicalIsUnique(a, b);
    } else if Canonical(a) == Canonical(b) {
      assert a.digits == 0 <==> b.digits == 0 by {
        CanonicalIsZero(a);
        CanonicalIsZero(b);
      }
      if a.digits > 0 {
        CanonicalIsNormal(a);
        CanonicalIsNormal(b);
        SameNormal(a, b);
      }
    }
  }

  lemma CanonicalIsZero(n: Number)
    requires IsMultiple(n.digits, n.exp, -9)
    ensures Canonical(n).amount == 0 <==> n.digits == 0
  {
    if n.digits > 0 {
      var (m, x) := Normal(n.digits, n.exp);
      NormalIs(n.digits, n.exp);
      ZerosDoNotMatter(m, x, n.exp, -9);
      ScaledIsLarge(m, Pow10(x - UnitOf(x)));
    }
  }

  /** An exact canonical form gives the normal form back. */
  lemma CanonicalIsNormal(n: Number)
    requires n.digits > 0 && IsMultiple(n.digits, n.exp, -9)
    ensures var q := Canonical(n); q.amount > 0 && Normal(q.amount, q.unit) == Normal(n.digits, n.exp) && q.negative == n.negative
  {
    var (m, x) := Normal(n.digits, n.exp);
    NormalIs(n.digits, n.exp);
    ZerosDoNotMatter(m, x, n.exp, -9);
    NormalIgnoresZeros(m, UnitOf(x), x - UnitOf(x));
  }

  lemma SameNormal(a: Number, b: Number)
    requires a.digits > 0 && b.digits > 0 && a.negative == b.negative && Normal(a.digits, a.exp) == Normal(b.digits, b.exp)
    ensures SameValue(a, b)
  {
    var (m, x) := Normal(a.digits, a.exp);
    NormalIs(a.digits, a.exp);
    NormalIs(b.digits, b.exp);
    if a.exp >= b.exp {
      Pow10Add(x - a.exp, a.exp - b.exp);
      MulAssoc(m, Pow10(x - a.exp), Pow10(a.exp - b.exp));
    } else {
      Pow10Add(x - b.exp, b.exp - a.exp);
      MulAssoc(m, Pow10(x - b.exp), Pow10(b.exp - a.exp));
    }
  }

  // ---------------------------------------------------------------- text of a canonical form

  function Digit(d: nat): char
    requires d < 10
  {
    "0123456789"[d]
  }

  function Decimal(n: nat): (s: string)
    ensures s != "" && AllDigits(s) && Digits(s) == n
  {
    if n < 10 then
      assert [Digit(n)][..0] == "";
      [Digit(n)]
    else
      var s := Decimal(n / 10) + [Digit(n % 10)];
      assert s[..|s| - 1] == Decimal(n / 10);
      s
  }

  predicate IsUnit(unit: int) { -9 <= unit <= 18 && unit % 3 == 0 }

  function Suffix(unit: int): string {
    match unit
    case -9 => "n" case -6 => "u" case -3 => "m" case 0 => "" case 3 => "k" case 6 => "M"
    case 9 => "G" case 12 => "T" case 15 => "P" case _ => "E"
  }

  function Render(a: Amount): string { (if a.negative then "-" else "") + Decimal(a.amount) + Suffix(a.unit) }

  /** The unit a quantity's last character names, if it is not a digit. */
  function UnitAt(c: char): Option<int> {
    match c
    case 'n' => Some(-9) case 'u' => Some(-6) case 'm' => Some(-3) case 'k' => Some(3) case 'M' => Some(6)
    case 'G' => Some(9) case 'T' => Some(12) case 'P' => Some(15) case 'E' => Some(18) case _ => None
  }

  lemma SuffixNamesUnit(unit: int)
    requires IsUnit(unit)
    ensures if unit == 0 then Suffix(unit) == "" else |Suffix(unit)| == 1 && UnitAt(Suffix(unit)[0]) == Some(unit)
  {
  }

  lemma DigitNamesNone(c: char)
    requires IsDigit(c)
    ensures UnitAt(c) == None && c != '-'
  {
  }

  /** Reads a quantity's text. */
  function ReadBack(s: string): Option<Amount> {
    var negative := s != "" && s[0] == '-';
    var rest := if negative then s[1..] else s;
    if rest == "" then None
    else
      var unit := UnitAt(rest[|rest| - 1]);
      var digits := if unit.Some? then rest[..|rest| - 1] else rest;
      if digits == "" || !AllDigits(digits) then None
      else Some(Amount(negative, Digits(digits), if unit.Some? then unit.value else 0))
  }

  lemma RestReadsBack(rest: string, digits: string, suffix: string, negative: bool, unit: int)
    requires digits != "" && AllDigits(digits) && rest == digits + suffix
    requires if unit == 0 then suffix == "" else |suffix| == 1 && UnitAt(suffix[0]) == Some(unit)
    ensures ReadBack((if negative then "-" else "") + rest) == Some(Amount(negative, Digits(digits), unit))
  {
    assert IsDigit(digits[0]) && IsDigit(digits[|digits| - 1]);
    DigitNamesNone(digits[0]);
    DigitNamesNone(digits[|digits| - 1]);
    hide UnitAt, IsDigit, AllDigits;
    var s := (if negative then "-" else "") + rest;
    assert rest[0] == digits[0];
    assert negative ==> s[1..] == rest;
    assert !negative ==> s == rest;
    if unit == 0 {
      assert rest == digits;
    } else {
      assert rest[|rest| - 1] == suffix[0] && rest[..|rest| - 1] == digits;
    }
  }

  /** The text says which amount it is. */
  lemma RenderReadsBack(a: Amount)
    requires IsUnit(a.unit)
    ensures ReadBack(Render(a)) == Some(a)
  {
    var d, suffix := Decimal(a.amount), Suffix(a.unit);
    SuffixNamesUnit(a.unit);
    hide Suffix, UnitAt, ReadBack, Decimal;
    assert Render(a) == (if a.negative then "-" else "") + (d + suffix);
    RestReadsBack(d + suffix, d, suffix, a.negative, a.unit);
  }

  lemma CanonicalHasUnit(n: Number)
    ensures IsUnit(Canonical(n).unit)
  {
    if n.digits > 0 {
      CanonicalDenotes(n);
    }
  }

  // ---------------------------------------------------------------- the computation

  /** `checked_pow`. */
  function CheckedPow(k: nat): Option<nat> { if Pow10(k) < TWO_128 then Some(Pow10(k)) else None }

  lemma {:induction false} TrimmedStarts(s: string)
    ensures TrimZeros(s) != "" ==> TrimZeros(s)[0] != '0'
  {
    if s != "" && s[0] == '0' {
      TrimmedStarts(s[1..]);
    }
  }

  lemma {:induction false} DigitsPositive(s: string)
    requires s != "" && AllDigits(s) && s[0] != '0'
    ensures Digits(s) > 0
  {
    assert IsDigit(s[|s| - 1]) && IsDigit(s[0]);
    if |s| > 1 {
      DigitsPositive(s[..|s| - 1]);
    } else {
      assert s[..0] == "";
    }
  }

  /** The canonical text, exactly if the text is a number and its amount fits 128 bits. */
  method CanonicalDecimal(text: string) returns (r: Option<string>)
    ensures r.Some? <==> NumberOf(text).Some? && Canonical(NumberOf(text).value).amount < TWO_128
    ensures r.Some? ==> r.value == Render(Canonical(NumberOf(text).value))
    ensures r.Some? ==> ReadBack(r.value) == Some(Canonical(NumberOf(text).value))
  {
    var p := PartsOf(text);
    if p.exp.None? {
      return None;
    }
    var digits := Significant(p);
    if digits == "" {
      RenderReadsBack(Amount(false, 0, 0));
      return Some(Render(Amount(false, 0, 0)));
    }
    if |digits| > MAX_DIGITS || !AllDigits(digits) || Digits(digits) >= TWO_128 {
      return None;
    }
    if p.exp.value - |p.fraction| < I32_MIN {
      return None;
    }
    ghost var n := NumberOf(text).value;
    TrimmedStarts(p.whole + p.fraction);
    DigitsPositive(digits);
    var a := Reduce(p.negative, Digits(digits), p.exp.value - |p.fraction|);
    if a.None? {
      return None;
    }
    CanonicalHasUnit(n);
    RenderReadsBack(a.value);
    return Some(Render(a.value));
  }

  /** Strips trailing zeros. */
  method Strip(digits: nat, from: int) returns (m: nat, exp: int)
    requires digits > 0
    ensures (m, exp) == Normal(digits, from) && 0 < m <= digits
  {
    m, exp := digits, from;
    while m % 10 == 0
      invariant 0 < m <= digits && Normal(m, exp) == Normal(digits, from)
      decreases m
    {
      m, exp := m / 10, exp + 1;
    }
  }

  /** Rounds up to a nano. */
  method RoundUp(m: nat, shift: nat) returns (c: nat)
    requires 0 < m < TWO_128
    ensures c == CeilDiv(m, Pow10(shift)) && c < TWO_128
  {
    hide Pow10;
    CeilIsSmall(m, Pow10(shift));
    var div := CheckedPow(shift);
    if div.Some? {
      c := CeilDiv(m, div.value);
    } else {
      CeilIsOne(m, Pow10(shift));
      c := 1;
    }
  }

  lemma MulMono(a: nat, b: nat, c: nat)
    requires a <= b
    ensures a * c <= b * c
  {
    assert b * c - a * c == (b - a) * c;
  }

  /** A quotient is below what its dividend is below a multiple of. */
  lemma DivBelow(x: nat, d: nat, n: nat)
    requires 0 < d && x < n * d
    ensures x / d < n
  {
    var q := x / d;
    assert q * d <= x;
    if n <= q {
      MulMono(n, q, d);
    }
  }

  lemma CeilIsSmall(a: nat, b: nat)
    requires 0 < a && 0 < b
    ensures CeilDiv(a, b) <= a
  {
    MulMono(1, b, a);
    assert (a + 1) * b == a * b + b && 1 * a == a && b * a == a * b;
    DivBelow(a + b - 1, b, a + 1);
  }

  method Reduce(negative: bool, digits: nat, from: int) returns (a: Option<Amount>)
    requires 0 < digits < TWO_128
    ensures var c := Canonical(Number(negative, digits, from));
            if c.amount < TWO_128 then a == Some(c) else a == None
  {
    var m, exp := Strip(digits, from);
    if exp < -9 {
      m := RoundUp(m, -9 - exp);
      exp := -9;
    }
    var unit := UnitOf(exp);
    var scale := CheckedPow(exp - unit);
    ScaledIsLarge(m, Pow10(exp - unit));
    if scale.None? || m * scale.value >= TWO_128 {
      return None;
    }
    return Some(Amount(negative, m * scale.value, unit));
  }

  lemma ScaledIsLarge(m: nat, p: nat)
    ensures m >= 1 ==> m * p >= p
  {
  }

  lemma CeilIsOne(a: nat, b: nat)
    requires 0 < a < b
    ensures CeilDiv(a, b) == 1
  {
    DivIs(a + b - 1, b, 1, a - 1);
  }
}
