/** The arbitrary-precision arithmetic the toolchain borrows from
    java.math: BigInteger division (which truncates toward zero), BigDecimal
    values as an unscaled integer and a scale, their arithmetic, comparison
    and HALF_EVEN division, and the string conversions the parser
    (`new BigInteger(s)`, `new BigDecimal(s)`) and the generator
    (`toString`) rely on. */
module Numbers {
  import opened Outcomes

  function Abs(x: int): nat {
    if x < 0 then -x else x
  }

  function Max(a: nat, b: nat): nat {
    if a < b then b else a
  }

  function Pow10(n: nat): (r: nat)
    ensures r >= 1
  {
    if n == 0 then 1 else 10 * Pow10(n - 1)
  }

  lemma {:induction false} Pow10Add(a: nat, b: nat)
    ensures Pow10(a + b) == Pow10(a) * Pow10(b)
  {
    if b > 0 {
      Pow10Add(a, b - 1);
      assert Pow10(a + b) == 10 * Pow10(a + b - 1);
    }
  }

  // ---------------------------------------------------------------------
  // BigInteger.divide

  /** The quotient BigInteger.divide computes: rounded toward zero. */
  function TruncDiv(a: int, b: int): int
    requires b != 0
  {
    var m := Abs(a) / Abs(b);
    if (a < 0) == (b < 0) then m else -m
  }

  /** Truncating division: the product q * b lies between 0 and a, and it
      misses a by less than one divisor. These two facts determine q. */
  lemma TruncDivTruncates(a: int, b: int)
    requires b != 0
    ensures var q := TruncDiv(a, b);
      (0 <= q * b <= a || a <= q * b <= 0) && Abs(a - q * b) < Abs(b)
  {
    Euclid(Abs(a), Abs(b));
    ProductBounds(a, b, TruncDiv(a, b), Abs(a) / Abs(b), Abs(a) % Abs(b));
  }

  /** Euclidean division of naturals: quotient times divisor plus remainder. */
  lemma Euclid(x: nat, y: nat)
    requires y > 0
    ensures x == (x / y) * y + x % y && x % y < y
  {
  }

  /** The bounds for a quotient given as +-m, where |a| is m times |b| plus
      a remainder below |b|, the sign following the operands' signs. */
  lemma ProductBounds(a: int, b: int, q: int, m: nat, rem: nat)
    requires b != 0
    requires Abs(a) == m * Abs(b) + rem && rem < Abs(b)
    requires q == if (a < 0) == (b < 0) then m else -(m as int)
    ensures (0 <= q * b <= a || a <= q * b <= 0) && Abs(a - q * b) < Abs(b)
  {
    SignedProduct(m, b, (a < 0) == (b < 0));
    TruncationGap(a, b, q * b, m * Abs(b), rem);
  }

  /** The linear half of the argument: a product that is +-p, where |a| is
      p plus a remainder below |b|, lies between 0 and a. */
  lemma TruncationGap(a: int, b: int, qb: int, p: nat, rem: nat)
    requires Abs(a) == p + rem && rem < Abs(b)
    requires a >= 0 ==> qb == p
    requires a < 0 ==> qb == -(p as int)
    ensures (0 <= qb <= a || a <= qb <= 0) && Abs(a - qb) < Abs(b)
  {
  }

  /** The product of +-m and b, by the signs involved. */
  lemma SignedProduct(m: nat, b: int, same: bool)
    ensures var q: int := if same then m else -(m as int);
      q * b == (if same == (b >= 0) then m * Abs(b) else -(m * Abs(b)))
  {
    var q: int := if same then m else -(m as int);
    if b < 0 {
      assert m * b == -(m * Abs(b));
      if !same {
        assert q * b == -(m * b);
      }
    } else if !same {
      assert q * b == -(m * b);
    }
  }

  // ---------------------------------------------------------------------
  // HALF_EVEN rounding

  /** n / d rounded to the nearest integer, ties to the even neighbour, the
      way RoundingMode.HALF_EVEN rounds a quotient. */
  function RoundHalfEven(n: int, d: int): (q: int)
    requires d != 0
    ensures 2 * Abs(q * d - n) <= Abs(d)
    ensures 2 * Abs(q * d - n) == Abs(d) ==> q % 2 == 0
  {
    RoundMagnitude(n, d);
    var k := RoundedMagnitude(n, d);
    if (n < 0) == (d < 0) then k else -(k as int)
  }

  /** |n| / |d| rounded half-even. */
  function RoundedMagnitude(n: int, d: int): nat
    requires d != 0
  {
    RoundedNat(Abs(n), Abs(d))
  }

  function RoundedNat(a: nat, d: nat): nat
    requires d > 0
  {
    var m := a / d;
    var rem := a % d;
    if 2 * rem > d || (2 * rem == d && m % 2 == 1) then m + 1 else m
  }

  lemma RoundedNatGap(a: nat, d: nat)
    requires d > 0
    ensures var k := RoundedNat(a, d);
      2 * Abs(k * d - a) <= d && (2 * Abs(k * d - a) == d ==> k % 2 == 0)
  {
    var m := a / d;
    var rem := a % d;
    var k := RoundedNat(a, d);
    assert a == m * d + rem;
    if k == m {
      assert k * d - a == -(rem as int);
    } else {
      assert k * d == m * d + d;
      assert k * d - a == d - rem;
    }
  }

  lemma RoundMagnitude(n: int, d: int)
    requires d != 0
    ensures var k := RoundedMagnitude(n, d);
      var q: int := if (n < 0) == (d < 0) then k else -(k as int);
      2 * Abs(q * d - n) <= Abs(d) && (2 * Abs(q * d - n) == Abs(d) ==> q % 2 == 0)
  {
    var k := RoundedMagnitude(n, d);
    RoundedNatGap(Abs(n), Abs(d));
    var gap: int := k * Abs(d) - Abs(n);
    var same := (n < 0) == (d < 0);
    SignedProduct(k, d, same);
    var q: int := if same then k else -(k as int);
    assert q * d - n == gap || q * d - n == -gap;
    assert q % 2 == 0 <==> k % 2 == 0;
  }

  // ---------------------------------------------------------------------
  // BigDecimal

  /** A BigDecimal: the number unscaled / 10^scale. Equality of the datatype
      is BigDecimal.equals, which compares the scale as well as the value
      (1.0 and 1.00 are not equal). Every BigDecimal the toolchain makes has a
      scale of zero or more. */
  datatype Decimal = Decimal(unscaled: int, scale: nat)

  ghost function Value(d: Decimal): real {
    d.unscaled as real / Pow10(d.scale) as real
  }

  /** The unscaled value of d written at the larger scale s. */
  function Align(d: Decimal, s: nat): int
    requires d.scale <= s
  {
    d.unscaled * Pow10(s - d.scale)
  }

  lemma AlignValue(d: Decimal, s: nat)
    requires d.scale <= s
    ensures Align(d, s) as real / Pow10(s) as real == Value(d)
  {
    Pow10Add(d.scale, s - d.scale);
    CancelCommon(d.unscaled, Pow10(d.scale), Pow10(s - d.scale), Pow10(s));
  }

  lemma CancelCommon(x: int, a: nat, b: nat, ab: nat)
    requires a > 0 && b > 0 && ab == a * b
    ensures (x * b) as real / ab as real == x as real / a as real
  {
    var u := x as real;
    var ar := a as real;
    var br := b as real;
    assert (x * b) as real == u * br;
    assert (a * b) as real == ar * br;
    assert (u * br) / (ar * br) == u / ar;
  }

  /** BigDecimal.add: the exact sum, at the larger of the two scales. */
  function DecAdd(a: Decimal, b: Decimal): (r: Decimal)
    ensures r.scale == Max(a.scale, b.scale)
    ensures Value(r) == Value(a) + Value(b)
  {
    var s := Max(a.scale, b.scale);
    AlignValue(a, s);
    AlignValue(b, s);
    SumOverCommon(Align(a, s), Align(b, s), Pow10(s));
    Decimal(Align(a, s) + Align(b, s), s)
  }

  /** BigDecimal.subtract: the exact difference, at the larger scale. */
  function DecSub(a: Decimal, b: Decimal): (r: Decimal)
    ensures r.scale == Max(a.scale, b.scale)
    ensures Value(r) == Value(a) - Value(b)
  {
    var s := Max(a.scale, b.scale);
    AlignValue(a, s);
    AlignValue(b, s);
    DifferenceOverCommon(Align(a, s), Align(b, s), Pow10(s));
    Decimal(Align(a, s) - Align(b, s), s)
  }

  lemma DifferenceOverCommon(x: int, y: int, p: nat)
    requires p > 0
    ensures (x - y) as real / p as real == x as real / p as real - y as real / p as real
  {
  }

  lemma SumOverCommon(x: int, y: int, p: nat)
    requires p > 0
    ensures (x + y) as real / p as real == x as real / p as real + y as real / p as real
  {
  }

  /** BigDecimal.multiply: the exact product, at the sum of the scales. */
  function DecMul(a: Decimal, b: Decimal): (r: Decimal)
    ensures r.scale == a.scale + b.scale
    ensures Value(r) == Value(a) * Value(b)
  {
    Pow10Add(a.scale, b.scale);
    ProductOverProduct(a.unscaled, b.unscaled, Pow10(a.scale), Pow10(b.scale));
    Decimal(a.unscaled * b.unscaled, a.scale + b.scale)
  }

  lemma ProductOverProduct(x: int, y: int, p: nat, q: nat)
    requires p > 0 && q > 0
    ensures (x * y) as real / (p * q) as real == (x as real / p as real) * (y as real / q as real)
  {
  }

  /** BigDecimal.compareTo: the sign of a - b, ignoring the scales. */
  function DecCompare(a: Decimal, b: Decimal): (c: int)
    ensures -1 <= c <= 1
    ensures c < 0 <==> Value(a) < Value(b)
    ensures c == 0 <==> Value(a) == Value(b)
  {
    var s := Max(a.scale, b.scale);
    AlignValue(a, s);
    AlignValue(b, s);
    CompareOverCommon(Align(a, s), Align(b, s), Pow10(s));
    var diff := Align(a, s) - Align(b, s);
    if diff < 0 then -1 else if diff == 0 then 0 else 1
  }

  lemma CompareOverCommon(x: int, y: int, p: nat)
    requires p > 0
    ensures x < y <==> x as real / p as real < y as real / p as real
    ensures x == y <==> x as real / p as real == y as real / p as real
  {
  }

  /** BigDecimal.divide(divisor, 1, HALF_EVEN): the quotient at scale 1. In
      integers, the unscaled result q approximates N / D, where N / D is
      ten times the exact quotient: it is within half a unit, and a tie
      goes to the even q. Division by zero raises ArithmeticException in
      Java and is excluded here; the interpreter checks for it first. */
  function DecDivide(a: Decimal, b: Decimal): (r: Decimal)
    requires b.unscaled != 0
    ensures r.scale == 1
    ensures var n := a.unscaled * Pow10(b.scale + 1);
            var d := b.unscaled * Pow10(a.scale);
            2 * Abs(r.unscaled * d - n) <= Abs(d) &&
            (2 * Abs(r.unscaled * d - n) == Abs(d) ==> r.unscaled % 2 == 0)
  {
    Decimal(RoundHalfEven(a.unscaled * Pow10(b.scale + 1), b.unscaled * Pow10(a.scale)), 1)
  }

  // ---------------------------------------------------------------------
  // Decimal digits and the string conversions

  predicate IsDigit(c: char) {
    '0' <= c <= '9'
  }

  predicate AllDigits(s: string) {
    forall i :: 0 <= i < |s| ==> IsDigit(s[i])
  }

  function DigitChar(d: nat): (c: char)
    requires d < 10
    ensures IsDigit(c) && c as int - '0' as int == d
  {
    ('0' as int + d) as char
  }

  /** BigInteger.toString of a non-negative number: its decimal digits, with
      no leading zero. */
  function NatToString(n: nat): (s: string)
    ensures |s| >= 1 && AllDigits(s)
    ensures n > 0 ==> s[0] != '0'
  {
    if n < 10 then [DigitChar(n)] else NatToString(n / 10) + [DigitChar(n % 10)]
  }

  /** BigInteger.toString. */
  function IntToString(i: int): string {
    if i < 0 then "-" + NatToString(-i) else NatToString(i)
  }

  /** The number a string of decimal digits denotes. */
  function DigitsValue(s: string): nat
    requires AllDigits(s)
  {
    if s == [] then 0 else DigitsValue(s[..|s| - 1]) * 10 + (s[|s| - 1] as int - '0' as int)
  }

  lemma {:induction false} NatToStringValue(n: nat)
    ensures DigitsValue(NatToString(n)) == n
  {
    if n >= 10 {
      var s := NatToString(n);
      assert s[..|s| - 1] == NatToString(n / 10);
      NatToStringValue(n / 10);
    }
  }

  /** new BigInteger(s): an optional sign, then one or more decimal digits;
      anything else raises NumberFormatException (None). */
  function ParseBigInteger(s: string): Option<int> {
    if |s| > 0 && (s[0] == '-' || s[0] == '+') then
      if |s| > 1 && AllDigits(s[1..]) then
        Some(if s[0] == '-' then 0 - DigitsValue(s[1..]) else DigitsValue(s[1..]))
      else None
    else if |s| > 0 && AllDigits(s) then Some(DigitsValue(s))
    else None
  }

  /** Reading back what BigInteger.toString writes gives the same number. */
  lemma ParseIntToString(i: int)
    ensures ParseBigInteger(IntToString(i)) == Some(i)
  {
    var s := IntToString(i);
    if i < 0 {
      NatToStringValue(-i);
      assert s[0] == '-' && s[1..] == NatToString(-i);
      assert DigitsValue(s[1..]) == -i;
    } else {
      NatToStringValue(i);
      assert s == NatToString(i) && IsDigit(s[0]);
    }
  }

  /** The position of the first c in s, or |s| when there is none. */
  function IndexOf(s: string, c: char): (k: nat)
    ensures k <= |s|
    ensures k < |s| ==> s[k] == c
    ensures forall j :: 0 <= j < k ==> s[j] != c
  {
    if s == [] then 0 else if s[0] == c then 0 else 1 + IndexOf(s[1..], c)
  }

  /** new BigDecimal(s) for the plain notation: an optional sign, digits, and
      at most one '.', with at least one digit in all. The unscaled value is
      the digits read without the point and the scale is the number of
      digits after it ("1.50" is 150 at scale 2). */
  function ParseBigDecimal(s: string): Option<Decimal> {
    var signed := |s| > 0 && (s[0] == '-' || s[0] == '+');
    var body := if signed then s[1..] else s;
    var dot := IndexOf(body, '.');
    var whole := body[..dot];
    var fraction := if dot < |body| then body[dot + 1..] else "";
    if AllDigits(whole) && AllDigits(fraction) && |whole| + |fraction| > 0 then
      var u := DigitsValue(whole + fraction);
      Some(Decimal(if signed && s[0] == '-' then 0 - u else u, |fraction|))
    else None
  }

  function Zeros(n: nat): (s: string)
    ensures |s| == n && AllDigits(s)
  {
    if n == 0 then "" else "0" + Zeros(n - 1)
  }

  /** BigDecimal.toString for a scale of zero or more: plain notation while
      the adjusted exponent (the exponent of the leading digit) is at least
      -6, scientific notation ("1E-7") below that. */
  function DecimalToString(d: Decimal): string {
    var digits := NatToString(Abs(d.unscaled));
    var sign := if d.unscaled < 0 then "-" else "";
    var adjusted := (|digits| - 1) - d.scale;
    if d.scale == 0 then sign + digits
    else if adjusted >= -6 then
      if |digits| > d.scale then
        sign + digits[..|digits| - d.scale] + "." + digits[|digits| - d.scale..]
      else
        sign + "0." + Zeros(d.scale - |digits|) + digits
    else
      sign + digits[..1] + (if |digits| > 1 then "." + digits[1..] else "") + "E" + IntToString(adjusted)
  }
}
