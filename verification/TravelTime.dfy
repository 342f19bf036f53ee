/** traffic_attr_rescue.c: the integer square root and the time a train needs from a standing start. */
module TravelTime {

  // ---------- the square root ----------

  predicate IsRoot(r: int, x: int) {
    r >= 0 && r * r <= x < (r + 1) * (r + 1)
  }

  lemma Squares(a: int, b: int)
    requires 0 <= a < b
    ensures (a + 1) * (a + 1) <= b * b && a * a < b * b
  {
    var d := b - a - 1;
    assert b * b == (a + 1) * (a + 1) + 2 * d * (a + 1) + d * d;
  }

  lemma RootMonotone(r: int, x: int, s: int, y: int)
    requires IsRoot(r, x) && IsRoot(s, y) && x <= y
    ensures r <= s
  {
    if s < r {
      Squares(s, r);
    }
  }

  lemma RootUnique(r: int, s: int, x: int)
    requires IsRoot(r, x) && IsRoot(s, x)
    ensures r == s
  {
    RootMonotone(r, x, s, x);
    RootMonotone(s, x, r, x);
  }

  lemma {:induction false} RootExists(x: nat)
    ensures exists r :: IsRoot(r, x)
  {
    if x == 0 {
      assert IsRoot(0, 0);
    } else {
      RootExists(x - 1);
      var r :| IsRoot(r, x - 1);
      assert IsRoot(if x < (r + 1) * (r + 1) then r else r + 1, x);
    }
  }

  ghost function Root(x: nat): (r: nat)
    ensures IsRoot(r, x)
  {
    RootExists(x);
    var r :| IsRoot(r, x);
    r
  }

  /** State of the digit loop: `s` holds the binary digits of the root above `q` / 2, and `q` is the weight
      below which the digits are still open. */
  predicate Digits(x0: int, x: int, res: int, bit: int, s: int, q: int) {
    0 <= s && 1 <= q && s + q <= 0x1_0000_0000 && res == s * q && x == x0 - s * s && 0 <= x && x0 < (s + q) * (s + q) &&
    (q == 1 || q % 2 == 0) && bit == (q / 2) * (q / 2)
  }

  /** Powers of two, the weights of the digits. */
  function Pow2(k: nat): (p: nat)
    ensures p >= 1
  {
    if k == 0 then 1 else 2 * Pow2(k - 1)
  }

  /** Skipping a digit that is too large. */
  lemma SkipDigit(x0: int, bit: int, k: nat)
    requires Digits(x0, x0, 0, bit, 0, Pow2(k)) && bit > x0
    ensures k > 0 && Digits(x0, x0, 0, bit / 4, 0, Pow2(k - 1))
  {
    Quarter(k);
    Even(k - 1);
    SkipHalf(x0, Pow2(k - 1));
  }

  lemma SkipHalf(x0: int, p: int)
    requires 0 <= x0 < p * p && 1 <= p <= 0x1_0000_0000 && (p == 1 || p % 2 == 0) && p * p / 4 == (p / 2) * (p / 2)
    ensures Digits(x0, x0, 0, p * p / 4, 0, p)
  {
  }

  lemma Quarter(k: nat)
    ensures k > 0 ==> (Pow2(k) / 2) * (Pow2(k) / 2) / 4 == (Pow2(k - 1) / 2) * (Pow2(k - 1) / 2)
    ensures k > 0 ==> Pow2(k) / 2 == Pow2(k - 1) && Pow2(k) == 2 * Pow2(k - 1)
    ensures k == 0 ==> Pow2(k) / 2 == 0
  {
    if k > 1 {
      var p := Pow2(k - 2);
      assert Pow2(k) / 2 == 2 * p && (2 * p) * (2 * p) == 4 * (p * p);
    }
  }

  lemma Expand(s: int, p: int)
    ensures (s + p) * (s + p) == s * s + 2 * (s * p) + p * p
    ensures (s + 2 * p) * (s + 2 * p) == s * s + 4 * (s * p) + 4 * (p * p)
    ensures (s + p) * p == s * p + p * p && s * (2 * p) == 2 * (s * p)
  {
  }

  /** Deciding one digit of weight `p`. */
  lemma DecideDigit(x0: int, x: int, res: int, bit: int, s: int, p: int)
    requires Digits(x0, x, res, bit, s, 2 * p) && p >= 1 && (p == 1 || p % 2 == 0) && p * p / 4 == (p / 2) * (p / 2)
    ensures res % 2 == 0 && res + bit < 0x1_0000_0000_0000_0000
    ensures if x >= res + bit then Digits(x0, x - (res + bit), res / 2 + bit, bit / 4, s + p, p)
            else Digits(x0, x, res / 2, bit / 4, s, p)
  {
    Expand(s, p);
    assert (s + p) + p == s + 2 * p;
    assert 2 * p / 2 == p;
    DigitFits(s, p);
  }

  lemma NextDigit(x0: int, x: int, res: int, bit: int, s: int, k: nat)
    requires Digits(x0, x, res, bit, s, Pow2(k)) && k > 0
    ensures res % 2 == 0 && res + bit < 0x1_0000_0000_0000_0000
    ensures if x >= res + bit then Digits(x0, x - (res + bit), res / 2 + bit, bit / 4, s + Pow2(k - 1), Pow2(k - 1))
            else Digits(x0, x, res / 2, bit / 4, s, Pow2(k - 1))
  {
    Quarter(k);
    Even(k - 1);
    DecideDigit(x0, x, res, bit, s, Pow2(k - 1));
  }

  lemma {:induction false} Even(k: nat)
    ensures Pow2(k) == 1 || Pow2(k) % 2 == 0
  {
    if k > 0 {
      Doubled(Pow2(k - 1));
    }
  }

  lemma Doubled(x: int)
    ensures (2 * x) % 2 == 0
  {
  }

  lemma DigitFits(s: int, p: int)
    requires 0 <= s && 1 <= p && s + 2 * p <= 0x1_0000_0000
    ensures 2 * (s * p) + p * p < 0x1_0000_0000_0000_0000
  {
    Expand(s, p);
    NotNegative(s);
    Squares(s + p, 0x1_0000_0000);
  }

  lemma NotNegative(s: int)
    ensures s * s >= 0 && (s >= 1 ==> s * s >= 1)
  {
  }

  /** attr_isqrt_u64. */
  method Isqrt(x0: int) returns (res: int)
    requires 0 <= x0 < 0x1_0000_0000_0000_0000
    ensures IsRoot(res, x0)
  {
    var x := x0;
    res := 0;
    var bit := 0x4000_0000_0000_0000;
    ghost var s: nat, k: nat := 0, 32;
    assert Pow2(32) == 0x1_0000_0000 by {
      Pow2Of32();
    }
    while bit > x
      invariant x == x0 && Digits(x0, x0, 0, bit, 0, Pow2(k))
      decreases k
    {
      SkipDigit(x0, bit, k);
      bit := bit / 4;
      k := k - 1;
    }
    while bit != 0
      invariant Digits(x0, x, res, bit, s, Pow2(k))
      decreases k
    {
      Quarter(k);
      NextDigit(x0, x, res, bit, s, k);
      if x >= res + bit {
        x := x - (res + bit);
        res := res / 2 + bit;
        s := s + Pow2(k - 1);
      } else {
        res := res / 2;
      }
      bit := bit / 4;
      k := k - 1;
    }
    LastDigit(x0, x, res, s, k);
  }

  lemma Pow2Of32()
    ensures Pow2(32) == 0x1_0000_0000
  {
    assert Pow2(8) == 256;
    assert Pow2(16) == 65536;
    assert Pow2(24) == 0x100_0000;
  }

  lemma LastDigit(x0: int, x: int, res: int, s: int, k: nat)
    requires Digits(x0, x, res, 0, s, Pow2(k))
    ensures IsRoot(res, x0)
  {
    if k > 0 {
      Quarter(k);
      NotNegative(Pow2(k - 1));
    }
  }

  // ---------- the travel time ----------

  /** A conversion to int32_t. */
  function Wrap32(x: int): int {
    (x + 0x8000_0000) % 0x1_0000_0000 - 0x8000_0000
  }

  /** The distance it takes to reach cruising speed `v` with acceleration `a`, as the code has it. */
  function AccelDist(v: int, a: int): int
    requires a > 0
  {
    Wrap32(v * v / (2 * a))
  }

  /** The square of the time for `d` at acceleration `a`; the product wraps around at 64 bits. */
  function SquareTime(a: int, d: int): (r: int)
    requires a > 0
    ensures 0 <= r < 0x1_0000_0000_0000_0000
  {
    var x := (2_000_000_000_000 * d) % 0x1_0000_0000_0000_0000;
    QuotientBelow(x, a);
    x / a
  }

  lemma QuotientBelow(x: int, a: int)
    requires x >= 0 && a > 0
    ensures 0 <= x / a <= x
  {
    Quotient(x, a);
    if a > 1 {
      Scale(1, a, x / a + 1);
    }
  }

  /** The time for `d` in microseconds. */
  ghost function LaunchTime(v: int, a: int, d: int): int
    requires v > 0 && a > 0 && d >= 0
  {
    var dAccel := AccelDist(v, a);
    if d >= dAccel then v * 1_000_000 / a + (d - dAccel) * 1_000_000 / v
    else Root(SquareTime(a, d))
  }

  /** Speed, acceleration and distance are positive int32 values and their difference is one. */
  predicate Defined(v: int, a: int, d: int) {
    0 < v <= 0x7FFF_FFFF && 0 < a <= 0x7FFF_FFFF && 0 <= d <= 0x7FFF_FFFF && d - AccelDist(v, a) <= 0x7FFF_FFFF
  }

  /** attr_travel_time_from_launch_us. */
  method TravelTimeFromLaunch(v: int, a: int, d: int) returns (ok: bool, dt: int)
    requires v > 0 && a > 0 && d >= 0 ==> Defined(v, a, d)
    ensures ok == (v > 0 && a > 0 && d >= 0)
    ensures ok ==> dt == LaunchTime(v, a, d)
  {
    if d < 0 || a <= 0 || v <= 0 {
      return false, 0;
    }
    ok := true;
    var dAccel := Wrap32(v * v / (2 * a));
    if d >= dAccel {
      dt := v * 1_000_000 / a + (d - dAccel) * 1_000_000 / v;
    } else {
      dt := Isqrt(SquareTime(a, d));
      RootUnique(dt, Root(SquareTime(a, d)), SquareTime(a, d));
    }
  }

  lemma Scale(x: int, y: int, a: int)
    requires x <= y && a > 0
    ensures x * a <= y * a
  {
  }

  lemma Cancel(x: int, y: int, a: int)
    requires x * a < y * a && a > 0
    ensures x < y
  {
    if x >= y {
      Scale(y, x, a);
    }
  }

  lemma SquareLe(x: int, y: int)
    requires x * x <= y * y && y >= 0
    ensures x <= y
  {
    if y < x {
      Squares(y, x);
    }
  }

  lemma Quotient(x: int, a: int)
    requires 0 <= x && a > 0
    ensures 0 <= x / a && (x / a) * a <= x < (x / a + 1) * a
  {
    assert x == (x / a) * a + x % a;
    assert (x / a + 1) * a == (x / a) * a + a;
  }

  lemma Quotients(x: int, y: int, a: int)
    requires 0 <= x <= y && a > 0
    ensures 0 <= x / a <= y / a && (x / a) * a <= x < (x / a + 1) * a
  {
    Quotient(x, a);
    Quotient(y, a);
    Cancel(x / a, y / a + 1, a);
  }

  lemma Largest(r: int, x: int, a: int)
    requires a > 0 && x >= 0 && r * a <= x
    ensures r <= x / a
  {
    Quotient(x, a);
    Cancel(r, x / a + 1, a);
  }

  /** The last distance whose product fits 64 bits. */
  const LAST: int := 9_223_372

  lemma WrapBelow(x: int)
    requires x >= 0
    ensures Wrap32(x) <= x
  {
  }

  lemma SmallProduct(d: int)
    requires 0 <= d <= LAST
    ensures (2_000_000_000_000 * d) % 0x1_0000_0000_0000_0000 == 2_000_000_000_000 * d
  {
  }

  /** Before cruising speed is reached the time is below that of the whole acceleration. */
  lemma AccelBound(v: int, a: int, d: int)
    requires v > 0 && a > 0 && 0 <= d <= LAST && d < AccelDist(v, a)
    ensures LaunchTime(v, a, d) <= v * 1_000_000 / a
  {
    NotNegative(v);
    Quotient(v * v, 2 * a);
    WrapBelow(v * v / (2 * a));
    SmallProduct(d);
    Quotient(2_000_000_000_000 * d, a);
    var sq := 2_000_000_000_000 * d / a;
    assert LaunchTime(v, a, d) == Root(sq);
    RootTimes(v, a, d, v * v / (2 * a), Root(sq), sq);
    Largest(Root(sq), v * 1_000_000, a);
  }

  lemma RootTimes(v: int, a: int, d: int, n: int, r: int, sq: int)
    requires v > 0 && a > 0 && 0 <= d < n && n * (2 * a) <= v * v && sq * a <= 2_000_000_000_000 * d && r >= 0 &&
             r * r <= sq
    ensures r * a <= v * 1_000_000
  {
    Scale(r * r, sq, a);
    Scale(r * r * a, 2_000_000_000_000 * d, a);
    Scale(d, n, 2 * a);
    Rearrange(v, a, d, r);
    SquareLe(r * a, v * 1_000_000);
  }

  lemma Rearrange(v: int, a: int, d: int, r: int)
    ensures (r * a) * (r * a) == (r * r * a) * a
    ensures (v * 1_000_000) * (v * 1_000_000) == 1_000_000_000_000 * (v * v)
    ensures (2_000_000_000_000 * d) * a == 1_000_000_000_000 * (d * (2 * a))
  {
  }

  /** `q` is `x` divided by `y`, rounded down. */
  predicate IsQuotient(q: int, x: int, y: int) {
    q * y <= x < (q + 1) * y
  }

  /** Whether the train still accelerates at `d`: the square of its speed there, 2 * a * d, is more than one unit of
      distance below that of its cruising speed. */
  predicate Accelerates(v: int, a: int, d: int) {
    (d + 1) * (2 * a) <= v * v
  }

  /** The whole microseconds of the square root of 2 * d / a. */
  predicate IsAccelTime(a: int, d: int, time: int) {
    time >= 0 && time * time * a <= 2_000_000_000_000 * d < (time + 1) * (time + 1) * a
  }

  /** The whole microseconds of v / a, and those of the rest of the distance at speed `v`. */
  ghost predicate IsCruiseTime(v: int, a: int, d: int, time: int) {
    exists n, t :: IsQuotient(n, v * v, 2 * a) && IsQuotient(t, v * 1_000_000, a) &&
      IsQuotient(time - t, (d - n) * 1_000_000, v)
  }

  lemma RootTime(a: int, d: int, sq: int, r: int)
    requires a > 0 && IsQuotient(sq, 2_000_000_000_000 * d, a) && IsRoot(r, sq)
    ensures IsAccelTime(a, d, r)
  {
    Scale(r * r, sq, a);
    Scale(sq + 1, (r + 1) * (r + 1), a);
  }

  /** Where nothing overflows the time is that of a constant acceleration up to cruising speed and of cruising from
      there, rounded down to microseconds. */
  lemma TimeIsExact(v: int, a: int, d: int)
    requires v > 0 && a > 0 && d >= 0 && v * v / (2 * a) <= 0x7FFF_FFFF
    ensures Accelerates(v, a, d) && d <= 9_223_372 ==> IsAccelTime(a, d, LaunchTime(v, a, d))
    ensures !Accelerates(v, a, d) ==> IsCruiseTime(v, a, d, LaunchTime(v, a, d))
  {
    var n := v * v / (2 * a);
    NotNegative(v);
    Quotient(v * v, 2 * a);
    if Accelerates(v, a, d) {
      Largest(d + 1, v * v, 2 * a);
      if d <= 9_223_372 {
        SmallProduct(d);
        Quotient(2_000_000_000_000 * d, a);
        RootTime(a, d, SquareTime(a, d), LaunchTime(v, a, d));
      }
    } else {
      Cancel(n, d + 1, 2 * a);
      Quotient(v * 1_000_000, a);
      Quotient((d - n) * 1_000_000, v);
      assert IsQuotient(n, v * v, 2 * a) && IsQuotient(v * 1_000_000 / a, v * 1_000_000, a);
    }
  }

  /** Between two distances with no overflow the time does not decrease, even across the boundary between
      acceleration and cruise. */
  lemma LaterIsLonger(v: int, a: int, d: int, e: int)
    requires v > 0 && a > 0 && 0 <= d <= e && (e < AccelDist(v, a) ==> e <= LAST) && (d < AccelDist(v, a) ==> d <= LAST)
    ensures LaunchTime(v, a, d) <= LaunchTime(v, a, e)
  {
    var n := AccelDist(v, a);
    if e < n {
      SquareGrows(a, d, e);
      RootMonotone(Root(SquareTime(a, d)), SquareTime(a, d), Root(SquareTime(a, e)), SquareTime(a, e));
    } else if d >= n {
      Quotients((d - n) * 1_000_000, (e - n) * 1_000_000, v);
    } else {
      AccelBound(v, a, d);
      Quotient((e - n) * 1_000_000, v);
    }
  }

  lemma SquareGrows(a: int, d: int, e: int)
    requires a > 0 && 0 <= d <= e <= LAST
    ensures SquareTime(a, d) <= SquareTime(a, e)
  {
    SmallProduct(d);
    SmallProduct(e);
    Quotients(2_000_000_000_000 * d, 2_000_000_000_000 * e, a);
  }

  ghost predicate Monotone(v: int, a: int, limit: int)
    requires v > 0 && a > 0
  {
    forall d, e :: 0 <= d <= e <= limit ==> LaunchTime(v, a, d) <= LaunchTime(v, a, e)
  }

  /** A number more than three times as large has a larger root. */
  lemma RootGap(r: int, x: int, s: int, y: int)
    requires IsRoot(r, x) && IsRoot(s, y) && x >= 3 * y + 1
    ensures r > s
  {
    NotNegative(s);
    if s >= 1 {
      Scale(1, s, s);
    }
    assert (s + 1) * (s + 1) == s * s + 2 * s + 1;
    if r <= s {
      SquareLess(r, s);
    }
  }

  lemma SquareLess(r: int, s: int)
    requires 0 <= r <= s
    ensures (r + 1) * (r + 1) <= (s + 1) * (s + 1)
  {
    if r < s {
      Squares(r + 1, s + 1);
    }
  }

  lemma QuotientGap(big: int, small: int, a: int)
    requires 0 <= small && a > 0 && big >= 3 * small + a
    ensures big / a >= 3 * (small / a) + 1
  {
    var y := small / a;
    Quotient(small, a);
    assert (3 * y + 1) * a == 3 * (y * a) + a;
    Largest(3 * y + 1, big, a);
  }

  /** At the first distance whose product overflows while the train still accelerates, the time drops. */
  lemma OverflowDrops(v: int, a: int)
    requires v > 0 && 0 < a <= 0x7FFF_FFFF && 9_223_373 < AccelDist(v, a)
    ensures LaunchTime(v, a, 9_223_372) > LaunchTime(v, a, 9_223_373)
  {
    var big, small := 18_446_744_000_000_000_000, 1_926_290_448_384;
    assert 2_000_000_000_000 * 9_223_372 == big && big % 0x1_0000_0000_0000_0000 == big;
    assert (2_000_000_000_000 * 9_223_373) % 0x1_0000_0000_0000_0000 == small;
    QuotientGap(big, small, a);
    Quotient(big, a);
    Quotient(small, a);
    RootGap(Root(big / a), big / a, Root(small / a), small / a);
  }

  /** The travel time is non-decreasing up to a distance exactly if the train cruises by then, or no product
      up to there overflows. */
  lemma MonotoneExactly(v: int, a: int, limit: int)
    requires Defined(v, a, limit)
    ensures Monotone(v, a, limit) <==> !(LAST < limit && LAST + 1 < AccelDist(v, a))
  {
    if LAST < limit && LAST + 1 < AccelDist(v, a) {
      OverflowDrops(v, a);
      assert !(LaunchTime(v, a, 9_223_372) <= LaunchTime(v, a, 9_223_373));
    } else {
      forall d, e | 0 <= d <= e <= limit ensures LaunchTime(v, a, d) <= LaunchTime(v, a, e) {
        LaterIsLonger(v, a, d, e);
      }
    }
  }

  /** No speed in the program's table exceeds 365 mm/s and no acceleration is below 37 mm/s^2, so a train is at
      cruising speed within 1801 mm, and its time never decreases. */
  lemma TableMonotone(v: int, a: int)
    requires 0 < v <= 365 && 37 <= a <= 0x7FFF_FFFF
    ensures 0 <= AccelDist(v, a) <= 1800 && Monotone(v, a, 0x7FFF_FFFF)
  {
    TableDistance(v, a);
    MonotoneExactly(v, a, 0x7FFF_FFFF);
  }

  lemma TableDistance(v: int, a: int)
    requires 0 < v <= 365 && 37 <= a
    ensures 0 <= AccelDist(v, a) <= 1800
  {
    var n := v * v / (2 * a);
    Scale(v, 365, v);
    Quotient(v * v, 2 * a);
    if n > 0 {
      Scale(74, 2 * a, n);
    }
  }

  /** The formula itself does not keep the order for every pair of 32-bit arguments. */
  lemma DropExample()
    ensures LaunchTime(10_000, 1, 9_223_373) < LaunchTime(10_000, 1, 9_223_372)
  {
    assert AccelDist(10_000, 1) == 50_000_000;
    OverflowDrops(10_000, 1);
  }
}
