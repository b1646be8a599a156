/**
 * `java.math.BigDecimal` as far as the pipeline uses it: an unscaled
 * integer and a scale, exact multiplication and addition, comparison with
 * zero, `setScale(2, RoundingMode.HALF_UP)` and the `BigDecimal(String)`
 * constructor without exponent notation.
 */
module Decimals {
  import opened JavaLang

  /** The number unscaled / 10^scale. */
  datatype Decimal = Decimal(unscaled: int, scale: nat)

  function Pow10(n: nat): (p: nat)
    ensures p >= 1
  {
    if n == 0 then 1 else 10 * Pow10(n - 1)
  }

  lemma {:induction false} Pow10Add(a: nat, b: nat)
    ensures Pow10(a + b) == Pow10(a) * Pow10(b)
  {
    if a > 0 {
      Pow10Add(a - 1, b);
      Shift10(Pow10(a - 1), Pow10(b));
    }
  }

  lemma Shift10(p: nat, q: nat)
    ensures (10 * p) * q == 10 * (p * q)
  {
  }

  function Abs(n: int): nat {
    if n < 0 then -n else n
  }

  /** The exact numeric value of a decimal. */
  ghost function Real(d: Decimal): real {
    d.unscaled as real / Pow10(d.scale) as real
  }

  /** `BigDecimal.ZERO`. */
  const Zero: Decimal := Decimal(0, 0)

  /** `BigDecimal.valueOf(long)`. */
  function OfInt(n: int): (d: Decimal)
    ensures Real(d) == n as real
  {
    Decimal(n, 0)
  }

  lemma DivTimesDiv(x: real, y: real, z: real, w: real)
    requires y > 0.0 && w > 0.0
    ensures (x / y) * (z / w) == (x * z) / (y * w)
  {
    var a, b := x / y, z / w;
    assert a * y == x;
    assert b * w == z;
    assert (a * b) * (y * w) == (a * y) * (b * w);
  }

  lemma CancelFactor(x: real, p: real, q: real)
    requires p > 0.0 && q > 0.0
    ensures (x * q) / (q * p) == x / p
  {
    var a := x / p;
    assert a * p == x;
    assert a * (q * p) == (a * p) * q;
  }

  lemma SumOver(x: real, y: real, p: real)
    requires p > 0.0
    ensures x / p + y / p == (x + y) / p
  {
    var a, b := x / p, y / p;
    assert a * p == x;
    assert b * p == y;
    assert (a + b) * p == a * p + b * p;
  }

  lemma CastMul(a: int, b: int)
    ensures (a * b) as real == a as real * b as real
  {
  }

  /** Appending k zeros to the unscaled value and k to the scale keeps the value. */
  lemma Rescale(u: int, s: nat, k: nat)
    ensures Real(Decimal(u * Pow10(k), s + k)) == Real(Decimal(u, s))
  {
    Pow10Add(k, s);
    CastMul(u, Pow10(k));
    CastMul(Pow10(k), Pow10(s));
    CancelFactor(u as real, Pow10(s) as real, Pow10(k) as real);
  }

  /** `a.multiply(b)`: exact, of scale a.scale + b.scale. */
  function Multiply(a: Decimal, b: Decimal): (r: Decimal)
    ensures r.scale == a.scale + b.scale
    ensures Real(r) == Real(a) * Real(b)
  {
    ProductValue(a.unscaled, a.scale, b.unscaled, b.scale);
    Decimal(a.unscaled * b.unscaled, a.scale + b.scale)
  }

  lemma ProductValue(u: int, s: nat, v: int, t: nat)
    ensures Real(Decimal(u * v, s + t)) == Real(Decimal(u, s)) * Real(Decimal(v, t))
  {
    Pow10Add(s, t);
    ScaledProduct(u, v, Pow10(s), Pow10(t), Pow10(s + t));
  }

  /** The value of a product of decimals, with the powers of ten as plain numbers. */
  lemma ScaledProduct(u: int, v: int, p: nat, q: nat, pq: nat)
    requires p >= 1 && q >= 1 && pq == p * q
    ensures (u * v) as real / pq as real == (u as real / p as real) * (v as real / q as real)
  {
    CastMul(u, v);
    CastMul(p, q);
    DivTimesDiv(u as real, p as real, v as real, q as real);
  }

  /** `a.add(b)`: exact, of scale max(a.scale, b.scale). */
  function Add(a: Decimal, b: Decimal): (r: Decimal)
    ensures r.scale == if a.scale < b.scale then b.scale else a.scale
    ensures Real(r) == Real(a) + Real(b)
  {
    var s := if a.scale < b.scale then b.scale else a.scale;
    var ka, kb := s - a.scale, s - b.scale;
    Rescale(a.unscaled, a.scale, ka);
    Rescale(b.unscaled, b.scale, kb);
    SumOver((a.unscaled * Pow10(ka)) as real, (b.unscaled * Pow10(kb)) as real, Pow10(s) as real);
    Decimal(a.unscaled * Pow10(ka) + b.unscaled * Pow10(kb), s)
  }

  /** `d.compareTo(BigDecimal.ZERO) == 0`; blind to the scale. */
  predicate IsZero(d: Decimal)
    ensures IsZero(d) <==> Real(d) == 0.0
  {
    d.unscaled == 0
  }

  /** `d.compareTo(BigDecimal.ZERO) < 0`. */
  predicate IsNegative(d: Decimal)
    ensures IsNegative(d) <==> Real(d) < 0.0
  {
    d.unscaled < 0
  }

  /**
   * n / 100 is d rounded to two places the HALF_UP way: no farther than half
   * a cent from d's value, and on a tie the neighbour away from zero.
   */
  predicate HalfUpRounds(d: Decimal, n: int) {
    var p := Pow10(d.scale);
    var err := Abs(n * p - 100 * d.unscaled);
    2 * err <= p && (2 * err == p ==> Abs(n * p) > Abs(100 * d.unscaled))
  }

  /** m / p rounded to the nearest integer, halves upwards. */
  function RoundQuotient(m: nat, p: nat): (q: nat)
    requires p >= 1
    ensures 2 * Abs(q * p - m) <= p
    ensures 2 * Abs(q * p - m) == p ==> q * p > m
    ensures q >= 1 <==> 2 * m >= p
  {
    var q0, r := m / p, m % p;
    QuotientParts(m, p);
    if 2 * r >= p then
      NextMultiple(q0, p);
      q0 + 1
    else
      MultipleAtLeast(q0, p);
      q0
  }

  lemma QuotientParts(m: nat, p: nat)
    requires p >= 1
    ensures m == (m / p) * p + m % p && 0 <= m % p < p
  {
  }

  lemma NextMultiple(a: nat, p: nat)
    ensures (a + 1) * p == a * p + p
  {
  }

  lemma MultipleAtLeast(a: nat, p: nat)
    ensures a >= 1 ==> a * p >= p
    ensures a == 0 ==> a * p == 0
  {
    if a >= 1 {
      assert a * p == (a - 1) * p + p;
    }
  }

  lemma ScaleRounding(u: int, n: int, p: nat, q: nat)
    requires p >= 1
    requires n == (if u < 0 then -(q as int) else q)
    requires 2 * Abs(q * p - Abs(u)) <= p
    requires 2 * Abs(q * p - Abs(u)) == p ==> q * p > Abs(u)
    ensures 2 * Abs(n * (100 * p) - 100 * u) <= 100 * p
    ensures 2 * Abs(n * (100 * p) - 100 * u) == 100 * p ==> Abs(n * (100 * p)) > Abs(100 * u)
  {
    assert n * (100 * p) - 100 * u == 100 * (n * p - u);
    assert n * (100 * p) == 100 * (n * p);
    if u < 0 {
      assert n * p == -(q * p);
      assert n * p - u == -(q * p - Abs(u));
    }
    assert Abs(n * p - u) == Abs(q * p - Abs(u));
    assert Abs(n * p) == q * p;
  }

  /** `d.setScale(2, RoundingMode.HALF_UP)`. */
  function SetScale2HalfUp(d: Decimal): (r: Decimal)
    ensures r.scale == 2
    ensures HalfUpRounds(d, r.unscaled)
    ensures d.scale <= 2 ==> Real(r) == Real(d)
  {
    if d.scale <= 2 then
      var k := 2 - d.scale;
      Rescale(d.unscaled, d.scale, k);
      Pow10Add(k, d.scale);
      assert (d.unscaled * Pow10(k)) * Pow10(d.scale) == d.unscaled * (Pow10(k) * Pow10(d.scale));
      Decimal(d.unscaled * Pow10(k), 2)
    else
      var p := Pow10(d.scale - 2);
      var q := RoundQuotient(Abs(d.unscaled), p);
      var n: int := if d.unscaled < 0 then -(q as int) else q;
      ScaleRounding(d.unscaled, n, p, q);
      Pow10Add(2, d.scale - 2);
      assert Pow10(d.scale) == 100 * p;
      Decimal(n, 2)
  }

  /**
   * Rounding to cents gives a negative number exactly when the value is at
   * most -0.005: -0.004 rounds to 0.00, -0.005 to -0.01.
   */
  lemma RoundedNegativeIff(d: Decimal)
    ensures IsNegative(SetScale2HalfUp(d)) <==> 200 * d.unscaled + Pow10(d.scale) <= 0
  {
    if d.scale <= 2 {
      var k := 2 - d.scale;
      Pow10Add(k, d.scale);
      assert Pow10(d.scale) <= 100 by {
        assert Pow10(k) * Pow10(d.scale) == 100;
      }
      assert d.unscaled * Pow10(k) < 0 <==> d.unscaled < 0;
    } else {
      Pow10Add(2, d.scale - 2);
    }
  }

  lemma RoundingExamples()
    ensures SetScale2HalfUp(Decimal(-4, 3)) == Decimal(0, 2)
    ensures SetScale2HalfUp(Decimal(-5, 3)) == Decimal(-1, 2)
    ensures SetScale2HalfUp(Decimal(12345, 3)) == Decimal(1235, 2)
    ensures SetScale2HalfUp(Decimal(5, 0)) == Decimal(500, 2)
  {
    assert Pow10(1) == 10;
    assert Pow10(2) == 100;
  }

  /** The position of the first '.', or |s| when there is none. */
  function DotIndex(s: string): (i: nat)
    ensures i <= |s|
    ensures forall j :: 0 <= j < i ==> s[j] != '.'
    ensures i < |s| ==> s[i] == '.'
  {
    if |s| == 0 then 0 else if s[0] == '.' then 0 else 1 + DotIndex(s[1..])
  }

  /**
   * `new BigDecimal(s)` without an exponent part: an optional sign, digits
   * with at most one '.', at least one digit. The scale is the number of
   * digits after the point. `None` stands for NumberFormatException.
   */
  function ParseDecimal(s: string): (r: Option<Decimal>)
    ensures r.Some? ==> |s| > 0
  {
    if |s| > 0 && (s[0] == '-' || s[0] == '+') then ParseUnsigned(s[1..], s[0] == '-')
    else ParseUnsigned(s, false)
  }

  /** The part after the sign: digits around at most one '.', at least one digit. */
  function ParseUnsigned(body: string, negative: bool): (r: Option<Decimal>)
    ensures r.Some? ==> |body| > 0
  {
    var dot := DotIndex(body);
    Assemble(body[..dot], if dot < |body| then body[dot + 1..] else "", negative)
  }

  /** The number written by the digits before and after the point, or None when they are not all digits. */
  function Assemble(whole: string, fraction: string, negative: bool): (r: Option<Decimal>)
    ensures r.Some? ==> |whole| + |fraction| > 0
  {
    if |whole| + |fraction| == 0 || !AllDigits(whole) || !AllDigits(fraction) then None
    else
      var magnitude: int := DigitsValue(whole + fraction);
      Some(Decimal(if negative then -magnitude else magnitude, |fraction|))
  }

  /** The sign `new BigDecimal` accepts in front of the digits. */
  predicate SignText(sign: string) {
    sign == "" || sign == "+" || sign == "-"
  }

  /** The number a sign and a magnitude denote. */
  function Signed(sign: string, magnitude: nat): int {
    if sign == "-" then -(magnitude as int) else magnitude
  }

  /** A sign is read off, and the rest parsed as unsigned. */
  lemma ParseSign(sign: string, body: string)
    requires SignText(sign)
    requires sign == "" ==> |body| == 0 || IsDigit(body[0]) || body[0] == '.'
    ensures ParseDecimal(sign + body) == ParseUnsigned(body, sign == "-")
  {
    if sign == "" {
      assert sign + body == body;
    } else {
      assert (sign + body)[1..] == body;
    }
  }

  /**
   * Every string `new BigDecimal` accepts is a sign, digits, and perhaps a
   * point and more digits; the lemmas below give the result of each form.
   */
  lemma ParseDecimalAccepts(s: string) returns (sign: string, w: string, f: string, dotted: bool)
    requires ParseDecimal(s).Some?
    ensures SignText(sign) && AllDigits(w) && AllDigits(f) && |w| + |f| > 0
    ensures dotted ==> s == sign + w + "." + f
    ensures !dotted ==> f == "" && s == sign + w
  {
    var body;
    sign, body := SignSplit(s);
    w, f, dotted := UnsignedAccepts(body, sign == "-");
    if dotted {
      Associate(sign, w, f);
    }
  }

  /** The optional sign of an accepted text and the unsigned part after it. */
  lemma SignSplit(s: string) returns (sign: string, body: string)
    requires ParseDecimal(s).Some?
    ensures SignText(sign) && s == sign + body
    ensures ParseUnsigned(body, sign == "-").Some?
  {
    if s[0] == '-' || s[0] == '+' {
      sign, body := s[..1], s[1..];
      assert sign == "-" <==> s[0] == '-';
    } else {
      sign, body := "", s;
    }
  }

  lemma Associate(a: string, b: string, c: string)
    ensures a + (b + "." + c) == a + b + "." + c
  {
  }

  /** The digits before and after the point of an accepted unsigned part. */
  lemma UnsignedAccepts(body: string, negative: bool) returns (w: string, f: string, dotted: bool)
    requires ParseUnsigned(body, negative).Some?
    ensures AllDigits(w) && AllDigits(f) && |w| + |f| > 0
    ensures dotted ==> body == w + "." + f
    ensures !dotted ==> f == "" && body == w
  {
    var dot := DotIndex(body);
    w := body[..dot];
    dotted := dot < |body|;
    f := if dotted then body[dot + 1..] else "";
    if dotted {
      assert body == w + "." + f;
    } else {
      assert body == w;
    }
  }

  /** A point after digits that hold none. */
  lemma DotAfterDigits(w: string, rest: string)
    requires AllDigits(w)
    ensures DotIndex(w + "." + rest) == |w|
  {
    var s := w + "." + rest;
    assert s[|w|] == '.';
    assert forall j :: 0 <= j < |w| ==> s[j] == w[j];
  }

  lemma NoDotInDigits(w: string)
    requires AllDigits(w)
    ensures DotIndex(w) == |w|
  {
  }

  /** With a point: the digits on both sides make the unscaled value, those after it the scale. */
  lemma UnsignedFraction(w: string, f: string, negative: bool)
    requires AllDigits(w) && AllDigits(f) && |w| + |f| > 0
    ensures AllDigits(w + f)
    ensures ParseUnsigned(w + "." + f, negative)
      == Some(Decimal(if negative then -(DigitsValue(w + f) as int) else DigitsValue(w + f), |f|))
  {
    var body := w + "." + f;
    AllDigitsAppend(w, f);
    DotAfterDigits(w, f);
    assert body[..|w|] == w;
    assert body[|w| + 1..] == f;
  }

  lemma ParseDecimalFraction(sign: string, w: string, f: string)
    requires SignText(sign) && AllDigits(w) && AllDigits(f) && |w| + |f| > 0
    ensures AllDigits(w + f)
    ensures ParseDecimal(sign + w + "." + f) == Some(Decimal(Signed(sign, DigitsValue(w + f)), |f|))
  {
    var body := w + "." + f;
    assert sign + w + "." + f == sign + body;
    assert |w| == 0 ==> body[0] == '.';
    assert |w| > 0 ==> body[0] == w[0];
    ParseSign(sign, body);
    UnsignedFraction(w, f, sign == "-");
  }

  /** Without a point: an integer of scale 0. */
  lemma ParseDecimalWhole(sign: string, w: string)
    requires SignText(sign) && AllDigits(w) && |w| > 0
    ensures ParseDecimal(sign + w) == Some(Decimal(Signed(sign, DigitsValue(w)), 0))
  {
    assert IsDigit(w[0]);
    ParseSign(sign, w);
    UnsignedWhole(w, sign == "-");
  }

  lemma UnsignedWhole(w: string, negative: bool)
    requires AllDigits(w) && |w| > 0
    ensures ParseUnsigned(w, negative)
      == Some(Decimal(if negative then -(DigitsValue(w) as int) else DigitsValue(w), 0))
  {
    UnsignedNoPoint(w, negative);
    AssembleWhole(w, negative);
  }

  lemma UnsignedNoPoint(w: string, negative: bool)
    requires AllDigits(w)
    ensures ParseUnsigned(w, negative) == Assemble(w, "", negative)
  {
    NoDotInDigits(w);
    assert w[..|w|] == w;
  }

  lemma AssembleWhole(w: string, negative: bool)
    requires AllDigits(w) && |w| > 0
    ensures Assemble(w, "", negative) == Some(Decimal(if negative then -(DigitsValue(w) as int) else DigitsValue(w), 0))
  {
    assert w + "" == w;
  }

  lemma AllDigitsAppend(w: string, f: string)
    requires AllDigits(w) && AllDigits(f)
    ensures AllDigits(w + f)
  {
    assert forall i :: 0 <= i < |w + f| ==> (w + f)[i] == if i < |w| then w[i] else f[i - |w|];
  }

  /** Digits written after digits: the first part counts |f| places higher. */
  lemma {:induction false} DigitsValueAppend(w: string, f: string)
    requires AllDigits(w) && AllDigits(f)
    ensures AllDigits(w + f)
    ensures DigitsValue(w + f) == DigitsValue(w) * Pow10(|f|) + DigitsValue(f)
  {
    AllDigitsAppend(w, f);
    if |f| == 0 {
      assert w + f == w;
    } else {
      var init, c := f[..|f| - 1], f[|f| - 1];
      DigitsValueAppend(w, init);
      assert (w + f)[..|w + f| - 1] == w + init;
      assert (w + f)[|w + f| - 1] == c;
      ShiftDigit(DigitsValue(w), Pow10(|init|), DigitsValue(init), c as int - '0' as int);
    }
  }

  lemma ShiftDigit(a: nat, p: nat, b: nat, d: int)
    ensures (a * p + b) * 10 + d == a * (10 * p) + (b * 10 + d)
  {
  }

  /** The parsed number is the whole digits plus the fraction digits over 10^|f|, with the sign. */
  lemma ParsedValue(sign: string, w: string, f: string)
    requires SignText(sign) && AllDigits(w) && AllDigits(f) && |w| + |f| > 0
    ensures ParseDecimal(sign + w + "." + f).Some?
    ensures Real(ParseDecimal(sign + w + "." + f).value)
      == Signed(sign, 1) as real * (DigitsValue(w) as real + DigitsValue(f) as real / Pow10(|f|) as real)
  {
    ParseDecimalFraction(sign, w, f);
    FractionValue(sign, w, f);
  }

  lemma FractionValue(sign: string, w: string, f: string)
    requires AllDigits(w) && AllDigits(f)
    ensures AllDigits(w + f)
    ensures Real(Decimal(Signed(sign, DigitsValue(w + f)), |f|))
      == Signed(sign, 1) as real * (DigitsValue(w) as real + DigitsValue(f) as real / Pow10(|f|) as real)
  {
    DigitsValueAppend(w, f);
    var a, b, m := DigitsValue(w), DigitsValue(f), DigitsValue(w + f);
    SignedValue(Decimal(Signed(sign, m), |f|), sign, m, a, b);
  }

  lemma SignedValue(d: Decimal, sign: string, m: nat, a: nat, b: nat)
    requires d == Decimal(Signed(sign, m), d.scale) && m == a * Pow10(d.scale) + b
    ensures Real(d) == Signed(sign, 1) as real * (a as real + b as real / Pow10(d.scale) as real)
  {
    var p := Pow10(d.scale);
    var sgn := Signed(sign, 1);
    assert Signed(sign, m) == sgn * m by {
      if sign == "-" {
        assert sgn == -1;
      } else {
        assert sgn == 1;
      }
    }
    WholeAndFraction(Signed(sign, m), sgn, a, b, p);
  }

  lemma WholeAndFraction(n: int, sgn: int, a: nat, b: nat, p: nat)
    requires p >= 1 && (sgn == 1 || sgn == -1) && n == sgn * (a * p + b)
    ensures n as real / p as real == sgn as real * (a as real + b as real / p as real)
  {
    var x, pr := (a * p + b) as real, p as real;
    assert x == a as real * pr + b as real;
    assert n as real == sgn as real * x;
    assert x / pr == a as real + b as real / pr;
  }

  lemma ParseExamples()
    ensures ParseDecimal("-0.004") == Some(Decimal(-4, 3))
    ensures ParseDecimal("19.99") == Some(Decimal(1999, 2))
    ensures ParseDecimal("+7") == Some(Decimal(7, 0))
    ensures ParseDecimal("1.2.3") == None
    ensures ParseDecimal("-") == None
    ensures ParseDecimal("abc") == None
  {
    ParseNegativeFraction();
    ParseCents();
    ParsePlusSign();
    ParseRejects();
  }

  lemma ParseNegativeFraction()
    ensures ParseDecimal("-0.004") == Some(Decimal(-4, 3))
  {
    assert "-0.004"[1..] == "0.004";
    assert DotIndex("0.004") == 1;
    assert "0.004"[..1] + "0.004"[2..] == "0004";
    assert DigitsValue("0004") == 4 by {
      assert "0004"[..3] == "000";
      assert "000"[..2] == "00";
      assert "00"[..1] == "0";
      assert "0"[..0] == "";
    }
  }

  lemma ParseCents()
    ensures ParseDecimal("19.99") == Some(Decimal(1999, 2))
  {
    assert DotIndex("19.99") == 2;
    assert "19.99"[..2] + "19.99"[3..] == "1999";
    assert DigitsValue("1999") == 1999 by {
      assert "1999"[..3] == "199";
      assert "199"[..2] == "19";
      assert "19"[..1] == "1";
      assert "1"[..0] == "";
    }
  }

  lemma ParsePlusSign()
    ensures ParseDecimal("+7") == Some(Decimal(7, 0))
  {
    assert "+7"[1..] == "7";
    assert DotIndex("7") == 1;
    assert DigitsValue("7") == 7 by {
      assert "7"[..0] == "";
    }
  }

  lemma ParseRejects()
    ensures ParseDecimal("1.2.3") == None
    ensures ParseDecimal("-") == None
    ensures ParseDecimal("abc") == None
  {
    assert DotIndex("1.2.3") == 1;
    assert !AllDigits("1.2.3"[2..]) by {
      assert "1.2.3"[2..][1] == '.';
    }
    assert !IsDigit("abc"[0]);
  }
}
