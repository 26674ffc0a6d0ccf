/** The whole seconds a refusal tells its caller to wait. They are computed in
    floating point, from the duration as a binary64 number of seconds (IEEE 754), and
    for long waits that number has no room for the last nanoseconds. */
module Seconds {
  import opened Common

  // --- binary64, as far as it matters here ---

  // The integer nearest to num/den, the even one of two equally near.
  function Nearest(num: int, den: int): int
    requires den > 0
  {
    Rounded(num / den, num % den, den)
  }

  // The same, given the quotient and the remainder.
  function Rounded(q: int, r: int, den: int): int {
    if 2 * r < den then q else if 2 * r > den then q + 1 else if q % 2 == 0 then q else q + 1
  }

  function CeilDiv(num: int, den: int): int
    requires den > 0
  {
    -(-num / den)
  }

  // The e with 2^e <= n < 2^(e+1).
  function Exponent(n: nat): nat
    requires n >= 1
  {
    if n == 1 then 0 else 1 + Exponent(n / 2)
  }

  // The least j from the given one on with n * 2^j >= a second's nanoseconds: then
  // 2^-j <= n/10^9 < 2^(1-j).
  function Shift(n: nat, j: nat): nat
    requires 1 <= n && (j > 0 ==> n * Pow2(j - 1) < SECOND)
    decreases SECOND - n * Pow2(j)
  {
    if n * Pow2(j) >= SECOND then j else Shift(n, j + 1)
  }

  // A double with exponent e is a multiple of 2^(e-52). So n/10^9 rounds to
  // Fraction(n) / 2^(52+j), where j is Shift(n, 0), and that added to sec seconds to
  // Sum(sec, n) / 2^(52-e), where e is Exponent(sec).
  function Fraction(n: nat): int
    requires 1 <= n
  {
    Nearest(n * Pow2(52 + Shift(n, 0)), SECOND)
  }

  function Sum(sec: nat, n: nat): int
    requires 1 <= sec && 1 <= n
  {
    Nearest(sec * Pow2(52 + Shift(n, 0)) + Fraction(n), Pow2(Exponent(sec) + Shift(n, 0)))
  }

  // 2^63 nanoseconds are fewer seconds than this.
  const LONGEST := 0x4_0000_0000

  // int(math.Ceil(d.Seconds())) for a wait that is not over.
  function HintSeconds(d: nat): int
    requires d < LONGEST * SECOND
  {
    var sec, n := d / SECOND, d % SECOND;
    if n == 0 then sec
    else if sec == 0 then CeilDiv(Fraction(n), Pow2(52 + Shift(n, 0)))
    else CeilDiv(Sum(sec, n), Pow2(Max(52 - Exponent(sec), 0)))
  }

  // --- powers of two ---

  lemma {:induction false} Pow2Add(a: nat, b: nat)
    ensures Pow2(a + b) == Pow2(a) * Pow2(b)
  {
    if b > 0 {
      Pow2Add(a, b - 1);
      assert Pow2(a) * (2 * Pow2(b - 1)) == 2 * (Pow2(a) * Pow2(b - 1));
    }
  }

  lemma {:induction false} Pow2Grows(a: nat, b: nat)
    requires a <= b
    ensures Pow2(a) <= Pow2(b)
    decreases b
  {
    if a < b {
      Pow2Grows(a, b - 1);
    }
  }

  lemma Pow2Values()
    ensures Pow2(24) == 0x100_0000 && Pow2(30) == 0x4000_0000 && Pow2(31) == 0x8000_0000
    ensures Pow2(29) == 0x2000_0000 && Pow2(34) == LONGEST && Pow2(52) == 0x10_0000_0000_0000
  {
    assert Pow2(10) == 1024;
    Pow2Add(10, 10);
    Pow2Add(20, 4);
    Pow2Add(20, 10);
    Pow2Add(24, 5);
    Pow2Add(30, 1);
    Pow2Add(30, 4);
    Pow2Add(30, 20);
    Pow2Add(50, 2);
    assert Pow2(4) == 16 && Pow2(5) == 32 && Pow2(2) == 4 && Pow2(1) == 2;
  }

  lemma {:induction false} ExponentIs(n: nat)
    requires n >= 1
    ensures Pow2(Exponent(n)) <= n < 2 * Pow2(Exponent(n))
  {
    if n > 1 {
      ExponentIs(n / 2);
    }
  }

  lemma ExponentBelow(n: nat, e: nat)
    requires 1 <= n < Pow2(e)
    ensures Exponent(n) < e
  {
    ExponentIs(n);
    if Exponent(n) >= e {
      Pow2Grows(e, Exponent(n));
    }
  }

  lemma {:induction false} ShiftIs(n: nat, j: nat)
    requires 1 <= n && (j > 0 ==> n * Pow2(j - 1) < SECOND)
    ensures n * Pow2(Shift(n, j)) >= SECOND
    decreases SECOND - n * Pow2(j)
  {
    if n * Pow2(j) < SECOND {
      ShiftIs(n, j + 1);
    }
  }

  // --- rounding ---

  lemma NearestShift(a: int, y: int, u: int)
    requires u > 0 && a % 2 == 0
    ensures Nearest(a * u + y, u) == a + Nearest(y, u)
  {
    ShiftQuotient(a, y, u);
    ShiftRounding(a, y / u, y % u, u);
  }

  lemma ShiftRounding(a: int, q: int, r: int, u: int)
    requires a % 2 == 0
    ensures Rounded(a + q, r, u) == a + Rounded(q, r, u)
  {
  }

  lemma ShiftQuotient(a: int, y: int, u: int)
    requires u > 0
    ensures (a * u + y) / u == a + y / u && (a * u + y) % u == y % u
  {
    var q, r := y / u, y % u;
    assert y == q * u + r;
    Spread(a, q, u);
    Divides(a * u + y, u, a + q, r);
  }

  lemma Spread(a: int, q: int, u: int)
    ensures (a + q) * u == a * u + q * u
  {
  }

  lemma NearestAtMost(num: int, den: int, h: int)
    requires den > 0 && num <= h * den
    ensures Nearest(num, den) <= h
  {
    var q := num / den;
    assert num == q * den + num % den;
    assert (q - h) * den == q * den - h * den;
    Multiple(q - h, den);
  }

  lemma NearestAtLeast(num: int, den: int, h: int)
    requires den > 0 && num >= h * den
    ensures Nearest(num, den) >= h
  {
    var q := num / den;
    assert num == q * den + num % den;
    assert (q - h) * den == q * den - h * den;
    Multiple(q - h, den);
  }

  lemma NearestZeroIff(y: int, u: int)
    requires u > 0 && y >= 0
    ensures Nearest(y, u) == 0 <==> 2 * y <= u
  {
    var q := y / u;
    assert y == q * u + y % u;
    if q >= 1 {
      assert q * u >= u;
    }
  }

  lemma CeilOfSum(a: int, r: int, v: int)
    requires v > 0 && 0 <= r <= v
    ensures CeilDiv(a * v + r, v) == a + if r == 0 then 0 else 1
  {
    if r == 0 {
      Divides(-(a * v + r), v, -a, 0);
    } else {
      assert -(a * v + r) == (-a - 1) * v + (v - r);
      Divides(-(a * v + r), v, -a - 1, v - r);
    }
  }

  // --- what the hint comes to ---

  // Half a unit of the sum's last place, as a fraction of a second: a wait of sec
  // whole seconds loses its n nanoseconds if they are no more than that.
  predicate Lost(sec: nat, n: nat) {
    sec >= 1 && n * Pow2(Max(53 - Exponent(sec), 0)) <= SECOND
  }

  // The powers of two at work: the fraction's, the sum's, and between them.
  lemma Units(n: nat, e: nat)
    requires 1 <= n < SECOND && e <= 51
    ensures var j := Shift(n, 0);
            && Pow2(52 + j) == Pow2(e + j) * Pow2(52 - e) == Pow2(j) * Pow2(52)
            && Pow2(53 - e) == 2 * Pow2(52 - e) && n * Pow2(j) >= SECOND
            && Pow2(e + j) >= 2 && Pow2(e + j) % 2 == 0
            && (Pow2(e + j) >= 2 * SECOND || Pow2(e + j) < 2 * Pow2(52))
  {
    var j := Shift(n, 0);
    ShiftIs(n, 0);
    HalfUnit(n, e, j);
    hide Shift;
    Pow2Add(e + j, 52 - e);
    Pow2Add(j, 52);
    assert Pow2(53 - e) == 2 * Pow2(52 - e);
    Pow2Values();
    hide Pow2;
    if e + j >= 31 {
      Pow2Grows(31, e + j);
    } else {
      Pow2Grows(e + j, 30);
    }
  }

  // Rounding n/10^9 itself does not decide it.
  lemma FractionLostIff(n: nat, e: nat)
    requires 1 <= n < SECOND && e <= 51
    ensures 2 * Fraction(n) <= Pow2(e + Shift(n, 0)) <==> n * Pow2(53 - e) <= SECOND
  {
    hide Pow2, Shift, Nearest;
    var j := Shift(n, 0);
    Units(n, e);
    HalfLostIff(n, Pow2(j), Pow2(52 + j), Pow2(e + j), Pow2(52 - e), Pow2(52));
  }

  // The same of numbers: n/10^9 is n * p rounded by 10^9, the unit u is even.
  lemma HalfLostIff(n: int, b: int, p: int, u: int, v: int, top: int)
    requires n >= 1 && v >= 1 && top >= 1 && p == u * v && p == b * top && n * b >= SECOND
    requires u >= 2 && u % 2 == 0
    requires u >= 2 * SECOND || u < 2 * top
    ensures 2 * Nearest(n * p, SECOND) <= u <==> n * (2 * v) <= SECOND
  {
    hide Nearest;
    var h := u / 2;
    Regroup(n, v, u);
    Regroup(n, b, top);
    Doubled(n, v);
    if 2 * (n * v) <= SECOND {
      BelowHalf(n * v, u, h);
      NearestAtMost(n * p, SECOND, h);
    } else if u >= 2 * SECOND {
      AboveHalf(n * v, u, h);
      NearestAtLeast(n * p, SECOND, h + 1);
    } else {
      Scale(n * b, SECOND, top);
      NearestAtLeast(n * p, SECOND, top);
    }
  }

  lemma Regroup(n: int, v: int, u: int)
    ensures n * (u * v) == (n * v) * u && n * (v * u) == (n * v) * u
  {
  }

  lemma Doubled(n: int, v: int)
    ensures n * (2 * v) == 2 * (n * v)
  {
  }

  lemma Scale(x: int, y: int, q: int)
    requires x >= y && q >= 0
    ensures x * q >= y * q
  {
    assert (x - y) * q >= 0;
    assert (x - y) * q == x * q - y * q;
  }

  // The unit is even: a fraction of a second takes at least one doubling.
  lemma HalfUnit(n: nat, e: nat, j: nat)
    requires 1 <= n < SECOND && j == Shift(n, 0)
    ensures j >= 1 && Pow2(e + j) % 2 == 0 && Pow2(e + j) == 2 * (Pow2(e + j) / 2)
  {
    ShiftIs(n, 0);
    assert Pow2(0) == 1;
    assert Pow2(e + j) == 2 * Pow2(e + j - 1);
  }

  lemma BelowHalf(nv: int, u: int, h: int)
    requires u == 2 * h && u > 0 && nv >= 0 && 2 * nv <= SECOND
    ensures nv * u <= h * SECOND
  {
    assert nv * u == (2 * nv) * h;
    assert (SECOND - 2 * nv) * h >= 0;
    assert (SECOND - 2 * nv) * h == SECOND * h - (2 * nv) * h;
  }

  lemma AboveHalf(nv: int, u: int, h: int)
    requires u == 2 * h && u >= 2 * SECOND && 2 * nv >= SECOND + 1
    ensures nv * u >= (h + 1) * SECOND
  {
    assert nv * u == (2 * nv) * h;
    assert (2 * nv - SECOND - 1) * h >= 0;
    assert (2 * nv - SECOND - 1) * h == (2 * nv) * h - SECOND * h - h;
  }

  lemma SmallExponent(sec: nat)
    requires 1 <= sec < LONGEST
    ensures Exponent(sec) <= 33
  {
    Pow2Values();
    ExponentBelow(sec, 34);
  }

  lemma {:induction false} SumIs(sec: nat, n: nat)
    requires 1 <= sec < LONGEST && 1 <= n < SECOND
    ensures Exponent(sec) <= 33
    ensures CeilDiv(Sum(sec, n), Pow2(52 - Exponent(sec))) == if Lost(sec, n) then sec else sec + 1
  {
    SmallExponent(sec);
    var e, j := Exponent(sec), Shift(n, 0);
    var u, v := Pow2(e + j), Pow2(52 - e);
    Pow2Add(e + j, 52 - e);
    FractionLostIff(n, e);
    FractionFits(n);
    assert v == 2 * Pow2(51 - e);
    hide Pow2, Shift, Exponent, Fraction, Nearest;
    RoundedSum(sec, Fraction(n), u, v, Pow2(51 - e));
  }

  lemma FractionFits(n: nat)
    requires 1 <= n < SECOND
    ensures 0 <= Fraction(n) <= Pow2(52 + Shift(n, 0))
  {
    var p := Pow2(52 + Shift(n, 0));
    hide Pow2, Shift;
    assert (SECOND - n) * p >= 0;
    assert (SECOND - n) * p == SECOND * p - n * p;
    assert n * p >= 0;
    NearestAtMost(n * p, SECOND, p);
    NearestAtLeast(n * p, SECOND, 0);
  }

  lemma RoundedSum(sec: nat, y: int, u: int, v: int, half: int)
    requires u > 0 && v == 2 * half && half > 0 && 0 <= y <= u * v
    ensures CeilDiv(Nearest(sec * (u * v) + y, u), v) == if 2 * y <= u then sec else sec + 1
  {
    var r := Nearest(y, u);
    NearestZeroIff(y, u);
    assert v * u == u * v;
    NearestAtMost(y, u, v);
    NearestAtLeast(y, u, 0);
    hide Nearest, CeilDiv;
    Regroup(sec, v, u);
    assert sec * v == 2 * (sec * half);
    NearestShift(sec * v, y, u);
    CeilOfSum(sec, r, v);
  }

  lemma OneSecondMore(n: nat)
    requires 1 <= n < SECOND
    ensures CeilDiv(Fraction(n), Pow2(52 + Shift(n, 0))) == 1
  {
    var p := Pow2(52 + Shift(n, 0));
    Pow2Add(Shift(n, 0), 52);
    ShiftIs(n, 0);
    FractionFits(n);
    Pow2Values();
    Regroup(n, Pow2(Shift(n, 0)), Pow2(52));
    Scale(n * Pow2(Shift(n, 0)), SECOND, Pow2(52));
    NearestAtLeast(n * p, SECOND, Pow2(52));
    hide Pow2, Shift, Nearest, Fraction;
    CeilOfSum(0, Fraction(n), p);
  }

  // The hint is the wait in seconds, rounded up - unless its nanoseconds are lost.
  lemma HintSecondsIs(d: nat)
    requires d < LONGEST * SECOND
    ensures var sec, n := d / SECOND, d % SECOND;
            HintSeconds(d) == if n == 0 || Lost(sec, n) then sec else sec + 1
  {
    var sec, n := d / SECOND, d % SECOND;
    assert d == sec * SECOND + n;
    if n != 0 && sec == 0 {
      OneSecondMore(n);
    } else if n != 0 {
      SumIs(sec, n);
    }
  }

  // The caller who waits as long as told comes back no earlier than the end, if and
  // only if no nanoseconds were lost; and it is never told a second too many.
  lemma HintCoversIff(now: int, until: int)
    requires 0 <= until - now < LONGEST * SECOND
    ensures var d := until - now; var told := now + HintSeconds(d) * SECOND;
            && (told >= until <==> d % SECOND == 0 || !Lost(d / SECOND, d % SECOND))
            && told < until + SECOND
  {
    var d: nat := until - now;
    HintSecondsIs(d);
    hide HintSeconds, Lost;
    assert d == d / SECOND * SECOND + d % SECOND;
  }

  // So every wait below 2^24 seconds, some 194 days, is covered.
  lemma ShortWaitIsCovered(now: int, until: int)
    requires 0 <= until - now < 0x100_0000 * SECOND
    ensures until <= now + HintSeconds(until - now) * SECOND < until + SECOND
  {
    var d: nat := until - now;
    var sec, n := d / SECOND, d % SECOND;
    assert d == sec * SECOND + n;
    HintCoversIff(now, until);
    hide HintSeconds, Lost;
    if n != 0 {
      NothingLost(sec, n);
    }
  }

  lemma NothingLost(sec: nat, n: nat)
    requires sec < 0x100_0000 && n >= 1
    ensures !Lost(sec, n)
  {
    if sec >= 1 {
      Pow2Values();
      ExponentBelow(sec, 24);
      Pow2Grows(30, 53 - Exponent(sec));
      hide Pow2, Exponent;
      NotLost(n, Pow2(53 - Exponent(sec)));
    }
  }

  lemma NotLost(n: nat, p: int)
    requires n >= 1 && p > SECOND
    ensures n * p > SECOND
  {
    assert (n - 1) * p >= 0;
  }

  // And that is where it ends: one nanosecond more than 2^24 seconds is told as 2^24.
  lemma LongWaitFallsShort(now: int)
    ensures var until := now + 0x100_0000 * SECOND + 1;
            now + HintSeconds(until - now) * SECOND < until
  {
    var d: nat := 0x100_0000 * SECOND + 1;
    assert d / SECOND == 0x100_0000 && d % SECOND == 1;
    Pow2Values();
    ExponentIs(0x100_0000);
    ExponentAt24();
    HintCoversIff(now, now + d);
    assert Lost(0x100_0000, 1);
  }

  lemma ExponentAt24()
    ensures Exponent(0x100_0000) == 24
  {
    Pow2Values();
    ExponentBelow(0x100_0000, 25);
    ExponentIs(0x100_0000);
    if Exponent(0x100_0000) < 24 {
      Pow2Grows(Exponent(0x100_0000) + 1, 24);
    }
  }
}
