/**
  Smart dimming of the AMS968HH01 AMOLED panel.

  Nine gamma points per colour channel (V255 down to V3) are stored as factory
  offsets (MTP). The driver decodes them into voltages, interpolates between
  them, picks the gray level nearest a target luminance, and encodes the voltage
  of that level as a register code again. All of it is fixed point.
*/
module PanelGamma {

  newtype byte = x: int | 0 <= x < 256

  const ONE := 4194304            // 2^22, the fixed-point unit
  const VREF_L := 28521267        // 6.8 V
  const VREF_H := 6291456         // 1.5 V
  const MAX_LEVEL := 255

  /** The calibrated level of each point, V255 first; index 9 stands for black. */
  const POINTS := [255, 203, 151, 87, 51, 35, 23, 11, 3, 0]

  /** Where each point's register byte sits; V255's is its low byte. */
  const POINT_REG := [7, 6, 5, 4, 3, 2, 1, 0, 8]

  /** How far VT lies under the upper reference, in its six-hundredths, by factory code. */
  const VT_COEFF := [0, 12, 24, 36, 48, 60, 72, 84, 96, 108, 138, 148, 158, 168, 178, 186]

  /** C's integer division, which truncates. */
  function TruncDiv(a: int, b: int): int
    requires b != 0
  {
    if a >= 0 then a / b else -((-a) / b)
  }

  /** What a 32-bit signed integer keeps of x. */
  function ToS32(x: int): (r: int)
    ensures -0x8000_0000 <= r < 0x8000_0000
  {
    (x + 0x8000_0000) % 0x1_0000_0000 - 0x8000_0000
  }

  function Clamp(x: int, lo: int, hi: int): int {
    if x < lo then lo else if x > hi then hi else x
  }

  /** span * num / den, in 22-bit fixed point; the shift rounds down. */
  function Scale(span: int, num: nat, den: nat): int
    requires den > 0
  {
    span * (num * ONE / den) / ONE
  }

  // ---------- the decoded curve ----------

  type Mtp = s: seq<byte> | |s| == 11 witness [0, 0, 0, 0, 0, 0, 0, 0, 0, 0, 0]

  /** The factory offset of point k: sign and magnitude, V255's sign in a byte of its own. */
  function Offset(mtp: Mtp, k: nat): (off: int)
    requires k < 9
    ensures if k == 0 then -255 <= off <= 255 else -127 <= off <= 127
  {
    var m := mtp[POINT_REG[k]] as int;
    if k == 0 then
      if mtp[9] != 0 then -m else m
    else if m >= 0x80 then -(m - 0x80) else m
  }

  function Vt(mtp: Mtp): int {
    VREF_L - Scale(VREF_L, VT_COEFF[mtp[10] as int % 16], 600)
  }

  /** The voltage a point is placed below: VT for V203 to V11, VREF_L for V3. */
  function Top(k: nat, vt: int): int {
    if k < 8 then vt else VREF_L
  }

  /** The voltage a given fraction of the way down from `top` to the point above. */
  function Below(top: int, prev: int, off: int): int
    requires -127 <= off <= 127
  {
    top - Scale(top - prev, 64 + 0x80 + off, 320)
  }

  /** The decoded voltage of point k; point 9 is V0. */
  function Point(mtp: Mtp, k: nat): int
    requires k < 10
    decreases k
  {
    if k == 0 then VREF_L - Scale(VREF_L - VREF_H, 129 + 0x100 + Offset(mtp, 0), 640)
    else if k == 9 then VREF_L
    else Below(Top(k, Vt(mtp)), Point(mtp, k - 1), Offset(mtp, k))
  }

  /** A fraction of at most 1 of a span stays inside it, whatever the span's sign. */
  lemma ScaleInSpan(span: int, num: nat, den: nat)
    requires 0 < den && num <= den
    ensures span >= 0 ==> 0 <= Scale(span, num, den) <= span
    ensures span <= 0 ==> span <= Scale(span, num, den) <= 0
  {
    var r := num * ONE / den;
    DivBound(num * ONE, den, ONE) by {
      Monotone(num, den, ONE);
    }
    if span >= 0 {
      Monotone(0, r, span);
      Monotone(r, ONE, span);
    } else {
      Monotone(0, r, -span);
      Monotone(r, ONE, -span);
    }
  }

  lemma DivBound(a: nat, b: nat, c: nat)
    requires b > 0 && a <= b * c
    ensures 0 <= a / b <= c
  {
    Cancel(a / b, c + 1, b);
  }

  lemma Cancel(x: int, y: int, c: int)
    requires c > 0
    ensures x * c < y * c <==> x < y
  {
  }

  /** A point's factory byte is sign and magnitude; V255 has nine bits, its sign in a byte of its own. */
  lemma OffsetDecodes(mtp: Mtp, k: nat, off: int)
    requires 1 <= k <= 8 && -127 <= off <= 127
    requires mtp[if k == 8 then 8 else 7 - k] as int == if off < 0 then 128 - off else off
    ensures Offset(mtp, k) == off
  {
  }

  lemma TopOffsetDecodes(mtp: Mtp, off: int)
    requires -255 <= off <= 255 && mtp[7] as int == (if off < 0 then -off else off)
    requires off != 0 ==> (mtp[9] != 0 <==> off < 0)
    ensures Offset(mtp, 0) == off
  {
  }

  /** Scaling a span of either sign is exact up to the last unit and the fixed point. */
  lemma ScaleNear(span: int, num: nat, den: nat)
    requires 0 < den
    ensures var d, size := span * num - Scale(span, num, den) * den, if span < 0 then -span else span;
            -size * den < d * ONE + ONE && (d - den) * ONE <= size * den
  {
    var size := if span < 0 then -span else span;
    if span >= 0 {
      ScaleBounds(span, num, den);
      Monotone(0, size, den);
    } else {
      NegativeScale(size, num, den);
    }
  }

  lemma NegativeScale(size: int, num: nat, den: nat)
    requires 0 < den && size > 0
    ensures var d := -size * num - Scale(-size, num, den) * den;
            -size * den < d * ONE + ONE && (d - den) * ONE <= size * den
  {
    var r := num * ONE / den;
    var s := Scale(-size, num, den);
    InnerBounds(size, num, r, den);
    assert s * ONE <= -size * r < s * ONE + ONE;
    NegativeOuter(size, r, s, den);
    Distribute(size, -size, num);
    NegativeLinear(s * den, size * (r * den), size * num, size * den, den, -size * num);
  }

  lemma NegativeOuter(size: int, r: nat, s: int, den: nat)
    requires s * ONE <= -size * r < s * ONE + ONE
    ensures (s * den) * ONE <= -(size * (r * den)) <= (s * den) * ONE + ONE * den
  {
    Associate(size, r, den);
    Monotone(s * ONE, -size * r, den);
    Monotone(-size * r, s * ONE + ONE, den);
    Distribute(s * ONE, ONE, den);
    Associate(s, ONE, den);
    Associate(s, den, ONE);
    assert (-size * r) * den == -((size * r) * den);
  }

  lemma NegativeLinear(z: int, sx: int, sn: int, sd: int, den: int, neg: int)
    requires neg == -sn && z * ONE <= -sx <= z * ONE + ONE * den && sx <= sn * ONE <= sx + sd && sd >= 0
    ensures -sd < (neg - z) * ONE + ONE && (neg - z - den) * ONE <= sd
  {
  }

  /**
    Where a point lies: 192 + offset parts in 320 of the way from its top to the
    point above, V255 385 + offset parts in 640 of the way between the references,
    VT its coefficient's parts in 600 below the upper one; up to one unit, and
    what the fixed point loses.
  */
  lemma PointNear(mtp: Mtp, k: nat)
    requires k < 9
    ensures var top, den := if k == 0 then VREF_L else Top(k, Vt(mtp)), if k == 0 then 640 else 320;
            var span := top - if k == 0 then VREF_H else Point(mtp, k - 1);
            var num := (if k == 0 then 385 else 192) + Offset(mtp, k);
            -3394 < span * num - (top - Point(mtp, k)) * den < den + 3394
  {
    hide Scale;
    if k == 0 {
      ScaleNear(VREF_L - VREF_H, 385 + Offset(mtp, 0), 640);
    } else {
      PointInRange(mtp, k - 1);
      VtRange(mtp);
      ScaleNear(Top(k, Vt(mtp)) - Point(mtp, k - 1), 192 + Offset(mtp, k), 320);
    }
  }

  ghost predicate Ordered(mtp: Mtp) {
    && VREF_H <= Point(mtp, 0)
    && (forall k :: 1 <= k <= 9 ==> Point(mtp, k - 1) <= Point(mtp, k))
    && Point(mtp, 7) <= Vt(mtp) <= VREF_L
    && Point(mtp, 9) == VREF_L
  }

  lemma VtRange(mtp: Mtp)
    ensures VREF_H < 19679676 <= Vt(mtp) <= VREF_L
  {
    ScaleInSpan(VREF_L, VT_COEFF[mtp[10] as int % 16], 600);
    assert VT_COEFF[mtp[10] as int % 16] <= 186;
    ScaleMonotone(VREF_L, VT_COEFF[mtp[10] as int % 16], 186, 600);
    assert Scale(VREF_L, 186, 600) == 8841591;
  }

  lemma ScaleMonotone(span: nat, num: nat, num': nat, den: nat)
    requires 0 < den && num <= num'
    ensures Scale(span, num, den) <= Scale(span, num', den)
  {
    DivMonotone(num * ONE, num' * ONE, den);
    var r, r' := num * ONE / den, num' * ONE / den;
    assert span * r <= span * r';
    DivMonotone(span * r, span * r', ONE);
  }

  lemma DivMonotone(a: int, b: int, c: nat)
    requires c > 0 && a <= b
    ensures a / c <= b / c
  {
    Cancel(a / c, b / c + 1, c);
  }

  /** One point lies between the point above it and its top. */
  lemma PointBetween(mtp: Mtp, k: nat)
    requires 1 <= k <= 8
    ensures var t := Top(k, Vt(mtp)); var p := Point(mtp, k - 1);
            (p <= t ==> p <= Point(mtp, k) <= t) && (p >= t ==> t <= Point(mtp, k) <= p)
  {
    ScaleInSpan(Top(k, Vt(mtp)) - Point(mtp, k - 1), 64 + 0x80 + Offset(mtp, k), 320);
  }

  lemma {:induction false} PointsBelowVt(mtp: Mtp, k: nat)
    requires k <= 7 && Point(mtp, 0) <= Vt(mtp)
    ensures Point(mtp, k) <= Vt(mtp)
  {
    if k > 0 {
      PointsBelowVt(mtp, k - 1);
      PointBetween(mtp, k);
    }
  }

  /** One step of the order, from a point to the next. */
  lemma StepUp(mtp: Mtp, k: nat)
    requires 1 <= k <= 9 && Point(mtp, 0) <= Vt(mtp)
    ensures Point(mtp, k - 1) <= Point(mtp, k)
  {
    VtRange(mtp);
    if k <= 7 {
      PointsBelowVt(mtp, k - 1);
      PointBetween(mtp, k);
    } else {
      PointsBelowVt(mtp, 7);
      PointBetween(mtp, 8);
    }
  }

  /** The decoded curve is ordered exactly when V255 is not above VT. */
  lemma CurveOrdered(mtp: Mtp)
    ensures Ordered(mtp) <==> Point(mtp, 0) <= Vt(mtp)
  {
    if Point(mtp, 0) <= Vt(mtp) {
      forall k | 1 <= k <= 9
        ensures Point(mtp, k - 1) <= Point(mtp, k)
      {
        StepUp(mtp, k);
      }
      VtRange(mtp);
      PointsBelowVt(mtp, 7);
      FirstAboveVrefH(mtp);
    } else if Ordered(mtp) {
      Climb(mtp, 7);
    }
  }

  lemma FirstAboveVrefH(mtp: Mtp)
    ensures VREF_H <= Point(mtp, 0)
  {
    ScaleInSpan(VREF_L - VREF_H, 129 + 0x100 + Offset(mtp, 0), 640);
  }

  lemma {:induction false} Climb(mtp: Mtp, k: nat)
    requires k <= 9 && Ordered(mtp)
    ensures Point(mtp, 0) <= Point(mtp, k)
  {
    if k > 0 {
      Climb(mtp, k - 1);
    }
  }

  lemma ExampleVoltages(mtp: Mtp)
    requires mtp[7] == 255 && mtp[9] == 1 && mtp[10] == 15
    ensures Point(mtp, 0) == 24005837 && Vt(mtp) == 19679676
  {
    assert Scale(22229811, 130, 640) == 4515430;
    assert Scale(VREF_L, 186, 600) == 8841591;
  }

  /** Factory bytes that put V255 above VT: the decoded curve is not ordered. */
  lemma UnorderedExample()
    ensures exists mtp: Mtp :: !Ordered(mtp)
  {
    var mtp: Mtp := [0, 0, 0, 0, 0, 0, 0, 255, 0, 1, 15];
    ExampleVoltages(mtp);
    CurveOrdered(mtp);
  }

  function Curve(mtp: Mtp): (v: seq<int>)
    ensures |v| == 10 && forall k :: 0 <= k < 10 ==> v[k] == Point(mtp, k)
  {
    seq(10, k requires 0 <= k < 10 => Point(mtp, k))
  }

  // ---------- interpolation between the points ----------

  /** The segment of a gray level: the first point at or below it. */
  function Segment(level: nat, from: nat := 1): (k: nat)
    requires 1 <= from <= 9 && (from > 1 ==> level < POINTS[from - 1])
    ensures from <= k <= 9 && POINTS[k] <= level && (k > 1 ==> level < POINTS[k - 1])
    decreases 9 - from
  {
    if level >= POINTS[from] then from else Segment(level, from + 1)
  }

  function Interpolate(v: seq<int>, k: nat, level: nat): int
    requires |v| == 10 && 1 <= k <= 9
  {
    v[k - 1] + TruncDiv((v[k] - v[k - 1]) * (POINTS[k - 1] - level), POINTS[k - 1] - POINTS[k])
  }

  /** The voltage at level g, interpolated inside its segment. */
  function GrayV(v: seq<int>, level: nat): int
    requires |v| == 10 && level <= MAX_LEVEL
  {
    Interpolate(v, Segment(level), level)
  }

  predicate Ascending(v: seq<int>) {
    forall i, j :: 0 <= i <= j < |v| ==> v[i] <= v[j]
  }

  lemma PointsDescend(i: nat, j: nat)
    requires i < j <= 9
    ensures POINTS[i] > POINTS[j]
  {
    if i + 1 < j {
      PointsDescend(i, j - 1);
    }
  }

  lemma SegmentAtPoint(k: nat)
    requires 1 <= k <= 9
    ensures Segment(POINTS[k]) == k
  {
    var s := Segment(POINTS[k]);
    if s < k {
      PointsDescend(s, k);
    } else if k < s - 1 {
      PointsDescend(k, s - 1);
    }
  }

  /** The interpolation passes exactly through every gamma point, whatever the curve. */
  lemma GrayAtPoint(v: seq<int>, k: nat)
    requires |v| == 10 && k <= 9
    ensures GrayV(v, POINTS[k]) == v[k]
  {
    hide TruncDiv;
    if k == 0 {
      assert Segment(255) == 1;
      ZeroStep(v[1] - v[0], POINTS[0] - POINTS[1]);
    } else {
      SegmentAtPoint(k);
      hide Segment;
      FullStep(v[k] - v[k - 1], POINTS[k - 1] - POINTS[k]);
    }
  }

  lemma ExactDiv(d: nat, n: nat)
    requires n > 0
    ensures d * n / n == d
  {
    Cancel(d, d * n / n + 1, n);
    Cancel(d * n / n, d + 1, n);
  }

  lemma ZeroStep(d: int, n: nat)
    requires n > 0
    ensures TruncDiv(d * 0, n) == 0
  {
    assert d * 0 == 0;
    ExactDiv(0, n);
  }

  lemma FullStep(d: int, n: nat)
    requires n > 0
    ensures TruncDiv(d * n, n) == d
  {
    if d >= 0 {
      ExactDiv(d, n);
    } else {
      assert d * n == -((-d) * n);
      ExactDiv(-d, n);
    }
  }

  lemma PartStep(d: nat, x: nat, y: nat, n: nat)
    requires x <= y <= n && n > 0
    ensures 0 <= TruncDiv(d * x, n) <= TruncDiv(d * y, n) <= d
  {
    Monotone(0, x, d);
    Monotone(x, y, d);
    Monotone(y, n, d);
    DivMonotone(0, d * x, n);
    DivMonotone(d * x, d * y, n);
    DivMonotone(d * y, d * n, n);
    ExactDiv(d, n);
  }

  /**
    Between two points the voltage is linear: n times the voltage at a level is
    the weighted sum of the two ends', up to less than n, and the rounding is
    always towards the end of the brighter level.
  */
  lemma GrayIsLinear(v: seq<int>, k: nat, level: nat)
    requires |v| == 10 && 1 <= k <= 9 && POINTS[k] <= level <= POINTS[k - 1]
    ensures var n := POINTS[k - 1] - POINTS[k];
            var exact := v[k - 1] * (level - POINTS[k]) + v[k] * (POINTS[k - 1] - level);
            (v[k - 1] <= v[k] ==> exact - n < n * GrayV(v, level) <= exact) &&
            (v[k] <= v[k - 1] ==> exact <= n * GrayV(v, level) < exact + n)
  {
    hide TruncDiv, GrayV;
    PointsDescend(k - 1, k);
    var n, x := POINTS[k - 1] - POINTS[k], POINTS[k - 1] - level;
    assert level - POINTS[k] == n - x;
    if x == 0 {
      GrayAtPoint(v, k - 1);
      assert v[k] * 0 == 0;
      Commute(v[k - 1], n);
    } else {
      SegmentOf(k, level);
      assert GrayV(v, level) == v[k - 1] + TruncDiv((v[k] - v[k - 1]) * x, n) by {
        InterpolateAt(v, k, level);
      }
      WeightedSum(v[k - 1], v[k], x, n, GrayV(v, level));
    }
  }

  lemma Commute(a: int, b: int)
    ensures a * b == b * a
  {
  }

  lemma SegmentOf(k: nat, level: nat)
    requires 1 <= k <= 9 && POINTS[k] <= level < POINTS[k - 1]
    ensures Segment(level) == k
  {
    var i := Segment(level);
    if i < k {
      if i < k - 1 {
        PointsDescend(i, k - 1);
      }
    } else if k < i - 1 {
      PointsDescend(k, i - 1);
    }
  }

  lemma InterpolateAt(v: seq<int>, k: nat, level: nat)
    requires |v| == 10 && level <= MAX_LEVEL && 1 <= k <= 9 && Segment(level) == k
    ensures POINTS[k - 1] > POINTS[k]
    ensures GrayV(v, level) ==
            v[k - 1] + TruncDiv((v[k] - v[k - 1]) * (POINTS[k - 1] - level), POINTS[k - 1] - POINTS[k])
  {
    hide TruncDiv, Segment;
    PointsDescend(k - 1, k);
  }

  lemma WeightedSum(a: int, b: int, x: int, n: nat, g: int)
    requires 0 < x <= n && g == a + TruncDiv((b - a) * x, n)
    ensures a <= b ==> a * (n - x) + b * x - n < n * g <= a * (n - x) + b * x
    ensures b <= a ==> a * (n - x) + b * x <= n * g < a * (n - x) + b * x + n
  {
    var d, q := (b - a) * x, TruncDiv((b - a) * x, n);
    TruncBounds(d, n);
    Monotone(0, if a <= b then b - a else a - b, x);
    assert a <= b ==> d >= 0;
    assert b <= a ==> d <= 0 by {
      assert (a - b) * x == -d;
    }
    assert a * (n - x) + b * x == a * n + d by {
      Distribute(n, -x, a);
      Distribute(b, -a, x);
    }
    assert n * g == a * n + n * q by {
      Distribute(a, q, n);
    }
  }

  lemma TruncBounds(d: int, n: nat)
    requires n > 0
    ensures d >= 0 ==> d - n < n * TruncDiv(d, n) <= d
    ensures d <= 0 ==> d <= n * TruncDiv(d, n) < d + n
  {
  }

  lemma SegmentAntitone(a: nat, b: nat)
    requires a <= b <= MAX_LEVEL
    ensures Segment(b) <= Segment(a)
  {
    var i, j := Segment(a), Segment(b);
    if i < j - 1 {
      PointsDescend(i, j - 1);
    }
  }

  lemma GrayInSegment(v: seq<int>, a: nat)
    requires |v| == 10 && Ascending(v) && a <= MAX_LEVEL
    ensures v[Segment(a) - 1] <= GrayV(v, a) <= v[Segment(a)]
  {
    hide TruncDiv, Segment;
    var i := Segment(a);
    PartStep(v[i] - v[i - 1], POINTS[i - 1] - a, POINTS[i - 1] - a, POINTS[i - 1] - POINTS[i]);
  }

  /** On an ordered curve a brighter level never has a higher voltage. */
  lemma GrayAntitone(v: seq<int>, a: nat, b: nat)
    requires |v| == 10 && Ascending(v) && a <= b <= MAX_LEVEL
    ensures v[0] <= GrayV(v, b) <= GrayV(v, a) <= v[9]
  {
    hide TruncDiv, Segment;
    var i, j := Segment(a), Segment(b);
    SegmentAntitone(a, b);
    GrayInSegment(v, a);
    GrayInSegment(v, b);
    if i == j {
      PartStep(v[i] - v[i - 1], POINTS[i - 1] - b, POINTS[i - 1] - a, POINTS[i - 1] - POINTS[i]);
    }
  }

  /** The order of the decoded points, for any two of them. */
  lemma CurveAscends(mtp: Mtp)
    requires Point(mtp, 0) <= Vt(mtp)
    ensures Ascending(Curve(mtp))
  {
    forall i, j | 0 <= i <= j < 10
      ensures Point(mtp, i) <= Point(mtp, j)
    {
      StepsUp(mtp, i, j);
    }
  }

  lemma {:induction false} StepsUp(mtp: Mtp, i: nat, j: nat)
    requires i <= j <= 9 && Point(mtp, 0) <= Vt(mtp)
    ensures Point(mtp, i) <= Point(mtp, j)
  {
    if i < j {
      StepsUp(mtp, i, j - 1);
      StepUp(mtp, j);
    }
  }

  /** Every gray level of a decoded panel lies between the reference voltages, antitone in the level. */
  lemma PanelVoltages(mtp: Mtp, a: nat, b: nat)
    requires Point(mtp, 0) <= Vt(mtp) && a <= b <= MAX_LEVEL
    ensures VREF_H <= GrayV(Curve(mtp), b) <= GrayV(Curve(mtp), a) <= VREF_L
  {
    CurveAscends(mtp);
    FirstAboveVrefH(mtp);
    GrayAntitone(Curve(mtp), a, b);
  }

  // ---------- encoding ----------

  /** The signed code offsets of a step: R G B of V255 to V11. */
  type CodeOffsets = s: seq<int> | |s| == 24 && forall i :: 0 <= i < 24 ==> -128 <= s[i] < 128
    witness seq(24, _ => 0)

  type Levels = s: seq<nat> | |s| == 9 && forall k :: 0 <= k < 9 ==> s[k] <= MAX_LEVEL
    witness [0, 0, 0, 0, 0, 0, 0, 0, 0]

  /** How far `volt` lies below `top`, against the distance of `bottom`, in 64 bits. */
  function Fraction(top: int, bottom: int, volt: int, den: nat): int {
    if top > bottom then TruncDiv((top - volt) * den, top - bottom) else 0
  }

  /** The nominal code under the fraction: 129 parts of 640 for V255, 64 of 320 for the others. */
  function Base(k: nat): nat { if k == 0 then 129 else 64 }

  function Den(k: nat): (den: nat)
    ensures den > 0
  {
    if k == 0 then 640 else 320
  }

  function MaxCode(k: nat): nat { if k == 0 then 0x1ff else 0xff }

  /** The ends of the range that point k's code divides. */
  function Upper(k: nat, vt: int): int { if k == 0 then VREF_L else Top(k, vt) }

  function Lower(v: seq<int>, gray: Levels, k: nat): int
    requires |v| == 10 && k < 9
  {
    if k == 0 then VREF_H else GrayV(v, gray[k - 1])
  }

  function CodeFraction(v: seq<int>, vt: int, gray: Levels, k: nat): int
    requires |v| == 10 && k < 9
  {
    Fraction(Upper(k, vt), Lower(v, gray, k), GrayV(v, gray[k]), Den(k))
  }

  function CodeOffset(offsets: CodeOffsets, c: nat, k: nat): (off: int)
    requires c < 3 && k < 9
    ensures -128 <= off < 128
  {
    if k < 8 then offsets[3 * k + c] else 0
  }

  /** The code of point k, computed in 32 bits from a 64-bit quotient, before it is split into bytes. */
  function Code(v: seq<int>, vt: int, gray: Levels, offsets: CodeOffsets, c: nat, k: nat): (code: int)
    requires |v| == 10 && c < 3 && k < 9
    ensures 0 <= code <= MaxCode(k)
  {
    Clamp(ToS32(CodeFraction(v, vt, gray, k) - Base(k) + CodeOffset(offsets, c, k)), 0, MaxCode(k))
  }

  function Codes(v: seq<int>, vt: int, gray: Levels, offsets: CodeOffsets, c: nat): (codes: seq<int>)
    requires |v| == 10 && c < 3
    ensures |codes| == 9 && forall k :: 0 <= k < 9 ==> codes[k] == Code(v, vt, gray, offsets, c, k)
  {
    seq(9, k requires 0 <= k < 9 => Code(v, vt, gray, offsets, c, k))
  }

  /** Truncating before an addition changes nothing after it. */
  lemma Truncated(x: int, y: int)
    ensures ToS32(ToS32(x) + y) == ToS32(x + y)
    ensures ToS32(0) == 0
  {
    var q := (x + 0x8000_0000) / 0x1_0000_0000;
    assert ToS32(x) == x - 0x1_0000_0000 * q;
    Wraps(x + y + 0x8000_0000, -q);
  }

  lemma Wraps(x: int, n: int)
    ensures (x + 0x1_0000_0000 * n) % 0x1_0000_0000 == x % 0x1_0000_0000
  {
  }

  /** The first n codes as register bytes: V255's ninth bit has a byte of its own. */
  ghost predicate Packed(b: seq<byte>, codes: seq<int>, n: nat) {
    && |b| == 11 && |codes| == 9 && n <= 9
    && (forall k :: 0 <= k < n ==> b[POINT_REG[k]] as int == codes[k] % 256)
    && (n > 0 ==> b[9] == if codes[0] > 0xff then 0x80 else 0)
  }

  lemma PackOne(before: seq<byte>, after: seq<byte>, codes: seq<int>, k: nat)
    requires k < 9 && Packed(before, codes, k) && |after| == 11
    requires after[POINT_REG[k]] as int == codes[k] % 256
    requires after[9] == if k == 0 then (if codes[0] > 0xff then 0x80 else 0) else before[9]
    requires forall i :: 0 <= i < 9 && i != POINT_REG[k] ==> after[i] == before[i]
    ensures Packed(after, codes, k + 1)
  {
    forall i | 0 <= i < k
      ensures after[POINT_REG[i]] as int == codes[i] % 256
    {
      assert 0 <= POINT_REG[i] < 9 && POINT_REG[i] != POINT_REG[k];
    }
  }

  /** The code of point k in a channel's register bytes. */
  function Unpack(b: seq<byte>, k: nat): int
    requires |b| == 11 && k < 9
  {
    b[POINT_REG[k]] as int + if k == 0 && b[9] != 0 then 0x100 else 0
  }

  const CALIBRATED: Levels := [255, 203, 151, 87, 51, 35, 23, 11, 3]

  lemma Distribute(a: int, b: int, c: int)
    ensures (a + b) * c == a * c + b * c
  {
  }

  lemma Associate(a: int, b: int, c: int)
    ensures a * b * c == a * (b * c)
  {
  }

  /** What rounding down twice leaves of span * num / den, in whole numbers. */
  lemma ScaleBounds(span: nat, num: nat, den: nat)
    requires 0 < den
    ensures var s := Scale(span, num, den);
            0 <= s && s * den <= span * num && (span * num - s * den - den) * ONE <= span * den
  {
    var r := num * ONE / den;
    var s := span * r / ONE;
    Monotone(0, r, span);
    OuterBounds(span, r, s, den);
    InnerBounds(span, num, r, den);
    LinearBounds(s * den, span * (r * den), span * num, span * den, den);
  }

  lemma OuterBounds(span: nat, r: nat, s: nat, den: nat)
    requires s * ONE <= span * r < s * ONE + ONE
    ensures (s * den) * ONE <= span * (r * den) <= (s * den) * ONE + ONE * den
  {
    Associate(span, r, den);
    Monotone(s * ONE, span * r, den);
    Monotone(span * r, s * ONE + ONE, den);
    Distribute(s * ONE, ONE, den);
    Associate(s, ONE, den);
    Associate(s, den, ONE);
  }

  lemma InnerBounds(span: nat, num: nat, r: nat, den: nat)
    requires r * den <= num * ONE < r * den + den
    ensures span * (r * den) <= span * num * ONE <= span * (r * den) + span * den
  {
    Monotone(r * den, num * ONE, span);
    Monotone(num * ONE, r * den + den, span);
    Distribute(r * den, den, span);
    Associate(span, num, ONE);
  }

  lemma LinearBounds(z: int, sx: int, sn: int, sd: int, den: int)
    requires z * ONE <= sx <= z * ONE + ONE * den && sx <= sn * ONE <= sx + sd
    ensures z <= sn && (sn - z - den) * ONE <= sd
  {
  }

  /**
    Decoding a code and encoding it again loses at most one code, as long as the
    span is long enough for the fixed point.
  */
  lemma Reencode(span: nat, num: nat, den: nat)
    requires 0 < span && 0 < den && num <= den
    requires den * span + den * ONE < span * ONE
    ensures num - 1 <= TruncDiv(Scale(span, num, den) * den, span) <= num
  {
    ScaleBounds(span, num, den);
    hide Scale;
    var s := Scale(span, num, den);
    Distribute(num, -1, span);
    Monotone(0, s, den);
    LinearReencode(s * den, span * num, span * den, den, span);
    QuotientBetween(s * den, span, num);
  }

  lemma LinearReencode(z: int, sn: int, sd: int, den: int, span: int)
    requires (sn - z - den) * ONE <= sd && sd + den * ONE < span * ONE
    ensures sn - span < z
  {
  }

  lemma Monotone(a: int, b: int, c: nat)
    requires a <= b
    ensures a * c <= b * c
  {
  }

  lemma QuotientBetween(a: nat, b: nat, q: nat)
    requires b > 0 && b * q - b < a <= b * q
    ensures q - 1 <= a / b <= q
  {
    var p := a / b;
    assert p * b <= a < p * b + b;
    Distribute(q, 1, b);
    Distribute(p, 2, b);
    Cancel(p, q + 1, b);
    Cancel(q, p + 2, b);
  }

  /** The gap that point k divides. */
  function Gap(mtp: Mtp, k: nat): int
    requires 1 <= k <= 8
  {
    Top(k, Vt(mtp)) - Point(mtp, k - 1)
  }

  lemma TopRoundTrip(mtp: Mtp)
    ensures var f := Fraction(VREF_L, VREF_H, Point(mtp, 0), 640);
            129 + 0x100 + Offset(mtp, 0) - 1 <= f <= 129 + 0x100 + Offset(mtp, 0)
  {
    Reencode(VREF_L - VREF_H, 129 + 0x100 + Offset(mtp, 0), 640);
  }

  /** What num parts in 320 lose when the fixed point cannot hold num / 5. */
  function Lost(num: nat): nat { if num % 5 == 0 then 0 else 1 }

  /** A gap of which num parts in 320 come back as num or num - 1. */
  predicate Divides(gap: int, num: nat) {
    gap > 0 && (gap * num - Lost(num)) % 320 + Lost(num) <= gap
  }

  /** The fixed-point fraction num / 320, exactly. */
  lemma Reciprocal(num: nat)
    ensures 5 * (num * ONE / 320) == 65536 * num - num % 5
  {
    var a, b := num / 5, num % 5;
    assert num * ONE == 320 * (65536 * a + 13107 * b) + 64 * b;
    Quotient(num * ONE, 320, 65536 * a + 13107 * b);
  }

  lemma Quotient(a: int, b: int, q: int)
    requires b > 0 && q * b <= a < q * b + b
    ensures a / b == q
  {
    Distribute(q, 1, b);
    Distribute(a / b, 1, b);
    Cancel(q, a / b + 1, b);
    Cancel(a / b, q + 1, b);
  }

  /** A short gap is scaled as if exactly, less the part lost. */
  lemma ShortScale(gap: nat, num: nat)
    requires 1 <= gap <= 320 && num > 0
    ensures Scale(gap, num, 320) == (gap * num - Lost(num)) / 320
  {
    var r, t := num * ONE / 320, (gap * num - Lost(num)) / 320;
    Reciprocal(num);
    FiveTimes(gap, num, r);
    if num % 5 > 0 {
      Monotone(1, num % 5, gap);
    }
    Monotone(num % 5, 4, gap);
    ShortLinear(gap * r, gap * num, gap * (num % 5), Lost(num), t, (gap * num - Lost(num)) % 320);
    Quotient(gap * r, ONE, t);
  }

  lemma FiveTimes(gap: nat, num: nat, r: nat)
    requires 5 * r == 65536 * num - num % 5
    ensures 5 * (gap * r) == 65536 * (gap * num) - gap * (num % 5)
  {
    Associate(gap, r, 5);
    Associate(gap, num, 65536);
    Distribute(65536 * num, -(num % 5), gap);
  }

  lemma ShortLinear(x: int, n: int, gb: int, e: int, t: int, m: int)
    requires 5 * x == 65536 * n - gb && n - e == 320 * t + m && 0 <= m < 320
    requires (e == 0 && gb == 0) || (e == 1 && 1 <= gb <= 1280)
    ensures t * ONE <= x < t * ONE + ONE
  {
  }

  /** Scaling a gap of any length and dividing back: at most num, and num - 1 at least exactly if it divides. */
  lemma ReencodeExactly(gap: nat, num: nat)
    requires gap > 0 && 0 < num <= 320
    ensures var f := TruncDiv(Scale(gap, num, 320) * 320, gap);
            0 <= f <= num && (num - 1 <= f <==> Divides(gap, num))
  {
    if gap <= 320 {
      ShortScale(gap, num);
      hide Scale;
      var e := Lost(num);
      var s, m := Scale(gap, num, 320), (gap * num - e) % 320;
      Monotone(1, num, gap);
      Monotone(0, (gap * num - e) / 320, 320);
      assert s * 320 == gap * num - e - m && 0 <= s * 320;
      Distribute(num, -1, gap);
      ShortQuotient(s * 320, gap, num, e + m);
    } else {
      assert (gap * num - Lost(num)) % 320 < 320;
      Reencode(gap, num, 320);
      ScaleBounds(gap, num, 320);
    }
  }

  lemma ShortQuotient(a: nat, b: nat, q: nat, rest: nat)
    requires b > 0 && a == b * q - rest
    ensures 0 <= a / b <= q && (q - 1 <= a / b <==> rest <= b)
  {
    var p := a / b;
    assert p * b <= a < p * b + b;
    Distribute(q, -1, b);
    Distribute(p, 1, b);
    Cancel(p, q + 1, b);
    Distribute(q, 1, b);
    Cancel(q - 1, p + 1, b);
    Cancel(p, q - 1, b);
  }

  lemma LowerRoundTrip(mtp: Mtp, k: nat)
    requires 1 <= k <= 8
    ensures var num := 64 + 0x80 + Offset(mtp, k);
            var f := Fraction(Top(k, Vt(mtp)), Point(mtp, k - 1), Point(mtp, k), 320);
            0 <= f <= num && (Gap(mtp, k) <= 0 ==> f == 0) && (num - 1 <= f <==> Divides(Gap(mtp, k), num))
  {
    if Gap(mtp, k) > 0 {
      ReencodeExactly(Gap(mtp, k), 64 + 0x80 + Offset(mtp, k));
    }
  }

  /**
    The round trip: the calibrated gray levels with no code offsets encode to the
    nominal code plus the factory offset, or one less, exactly at V255, at points
    whose gap divides, and at points with the least factory offset (their sum is
    1, and the clamp at 0 hides any loss).
  */
  lemma RoundTrip(mtp: Mtp, offsets: CodeOffsets, c: nat, k: nat)
    requires c < 3 && k < 9 && forall i :: 0 <= i < 24 ==> offsets[i] == 0
    ensures var sum := (if k == 0 then 0x100 else 0x80) + Offset(mtp, k);
            var code := Code(Curve(mtp), Vt(mtp), CALIBRATED, offsets, c, k);
            (code == sum || code == sum - 1) <==>
              (k == 0 || Offset(mtp, k) == -127 || Divides(Gap(mtp, k), 192 + Offset(mtp, k)))
  {
    hide Scale, TruncDiv, Fraction, GrayV, Point, Vt, Divides;
    var v := Curve(mtp);
    assert CALIBRATED[k] == POINTS[k];
    GrayAtPoint(v, k);
    if k == 0 {
      TopRoundTrip(mtp);
    } else {
      assert CALIBRATED[k - 1] == POINTS[k - 1];
      GrayAtPoint(v, k - 1);
      LowerRoundTrip(mtp, k);
    }
  }

  /** So every factory offset survives a gap of 318 or more; at 317 the offset 22 does not. */
  lemma LongGapsDivide(gap: int, num: nat)
    ensures gap >= 318 ==> Divides(gap, num)
    ensures !Divides(317, 192 + 22)
  {
    assert (317 * 214 - 1) % 320 == 317;
    if gap >= 320 {
      RemainderBound(gap * num - Lost(num));
    } else if gap >= 318 {
      RemainderBound(gap * num - Lost(num));
      AlmostFull(gap, num, (gap * num - Lost(num)) / 320, (gap * num - Lost(num)) % 320);
    }
  }

  lemma RemainderBound(x: int)
    ensures x == 320 * (x / 320) + x % 320 && 0 <= x % 320 < 320
  {
  }

  lemma AlmostFull(gap: int, num: nat, q: int, m: nat)
    requires 318 <= gap <= 319 && gap * num - Lost(num) == 320 * q + m && m < 320
    ensures m + Lost(num) <= gap
  {
    var j := num - q - 1;
    FiveFold(num, 32 * j);
    FiveFold(num, 64 * j);
    hide Lost;
    if gap == 318 {
      TwoShort(num, j, m, Lost(num));
    } else {
      OneShort(num, j, m, Lost(num));
    }
  }

  lemma TwoShort(num: nat, j: int, m: int, e: int)
    requires 2 * num + e + m == 320 * j + 320 && 0 <= m < 320 && 0 <= e <= 1 && (num == 160 * j ==> e == 0)
    ensures m + e <= 318
  {
    var half := 160 * j + 160 - num;
    assert e + m == 2 * half && (half == 160 ==> e == 0);
  }

  lemma OneShort(num: nat, j: int, m: int, e: int)
    requires num + e + m == 320 * j + 320 && 0 <= m < 320 && 0 <= e <= 1 && (num == 320 * j ==> e == 0)
    ensures m + e <= 319
  {
  }

  lemma FiveFold(num: nat, j: int)
    ensures num == 5 * j ==> Lost(num) == 0
    ensures Lost(num) <= 1
  {
  }

  const SHORT_GAP_MTP: Mtp := [224, 255, 255, 255, 255, 255, 255, 14, 0, 1, 14]

  lemma ShortGapVoltages()
    ensures Point(SHORT_GAP_MTP, 6) == 20059650 && Point(SHORT_GAP_MTP, 7) == 20059868
    ensures Vt(SHORT_GAP_MTP) == 20059960
  {
    var mtp := SHORT_GAP_MTP;
    assert Scale(22229811, 371, 640) == 12886340;
    assert Scale(VREF_L, 178, 600) == 8461307;
    assert Vt(mtp) == 20059960 && Point(mtp, 0) == 15634927;
    assert Offset(mtp, 1) == -127 && Scale(4425033, 65, 320) == 898834;
    assert Point(mtp, 1) == 19161126;
    assert Offset(mtp, 2) == -127 && Scale(898834, 65, 320) == 182575;
    assert Point(mtp, 2) == 19877385;
    assert Offset(mtp, 3) == -127 && Scale(182575, 65, 320) == 37085;
    assert Point(mtp, 3) == 20022875;
    assert Offset(mtp, 4) == -127 && Scale(37085, 65, 320) == 7532;
    assert Point(mtp, 4) == 20052428;
    assert Offset(mtp, 5) == -127 && Scale(7532, 65, 320) == 1529;
    assert Point(mtp, 5) == 20058431;
    assert Offset(mtp, 6) == -127 && Scale(1529, 65, 320) == 310;
    assert Point(mtp, 6) == 20059650;
    assert Offset(mtp, 7) == -96 && Scale(310, 96, 320) == 92;
    assert Point(mtp, 7) == 20059868;
  }

  /** Such gaps occur: factory bytes with a gap of 310 whose code at V11 comes back two lower. */
  lemma ShortGapExample(offsets: CodeOffsets, c: nat)
    requires c < 3 && forall i :: 0 <= i < 24 ==> offsets[i] == 0
    ensures Gap(SHORT_GAP_MTP, 7) == 310
    ensures Code(Curve(SHORT_GAP_MTP), Vt(SHORT_GAP_MTP), CALIBRATED, offsets, c, 7) ==
            0x80 + Offset(SHORT_GAP_MTP, 7) - 2
  {
    hide Scale, GrayV, Point, Vt;
    var v := Curve(SHORT_GAP_MTP);
    ShortGapVoltages();
    GrayAtPoint(v, 6);
    GrayAtPoint(v, 7);
    assert offsets[3 * 7 + c] == 0;
  }

  /** The round trip in register bytes, V255's nine bits included. */
  lemma RoundTripBytes(mtp: Mtp, offsets: CodeOffsets, c: nat, b: seq<byte>, k: nat)
    requires c < 3 && k < 9 && forall i :: 0 <= i < 24 ==> offsets[i] == 0
    requires Packed(b, Codes(Curve(mtp), Vt(mtp), CALIBRATED, offsets, c), 9)
    ensures var sum := (if k == 0 then 0x100 else 0x80) + Offset(mtp, k);
            (Unpack(b, k) == sum || Unpack(b, k) == sum - 1) <==>
              (k == 0 || Offset(mtp, k) == -127 || Divides(Gap(mtp, k), 192 + Offset(mtp, k)))
  {
    hide Code, Divides, Curve, Gap, Vt, Offset;
    RoundTrip(mtp, offsets, c, k);
  }

  /**
    For a voltage inside the range, with no code offset: the code is not clamped
    exactly if the voltage is at most 1 - Base / Den of the range above the
    bottom and, except for V255, not at the bottom. Decoding it then gives a
    voltage at or above the encoded one, off by less than one code and the
    fixed-point error.
  */
  lemma EncodeError(v: seq<int>, vt: int, gray: Levels, offsets: CodeOffsets, c: nat, k: nat)
    requires |v| == 10 && c < 3 && k < 9 && CodeOffset(offsets, c, k) == 0
    requires Lower(v, gray, k) <= GrayV(v, gray[k]) <= Upper(k, vt) && Lower(v, gray, k) < Upper(k, vt)
    ensures var top, span, volt := Upper(k, vt), Upper(k, vt) - Lower(v, gray, k), GrayV(v, gray[k]);
            var code := Code(v, vt, gray, offsets, c, k);
            var volt' := top - Scale(span, code + Base(k), Den(k));
            var inside := Base(k) * span <= (top - volt) * Den(k) && (k > 0 ==> volt > top - span);
            (code + Base(k) == CodeFraction(v, vt, gray, k) <==> inside) &&
            (inside ==> volt <= volt' &&
                        (volt' - volt) * Den(k) * ONE < span * ONE + span * Den(k) + Den(k) * ONE)
  {
    hide Scale, GrayV, Lower, Upper;
    var top, span, volt := Upper(k, vt), Upper(k, vt) - Lower(v, gray, k), GrayV(v, gray[k]);
    FractionInside(span, top - volt, k);
    QuotientError(span, top - volt, Den(k));
    assert CodeFraction(v, vt, gray, k) == (top - volt) * Den(k) / span;
  }

  /** A step's code offset moves one code, that of its colour and point, and no other; V3 has none. */
  lemma OffsetShifts(v: seq<int>, vt: int, gray: Levels, offsets: CodeOffsets, none: CodeOffsets, c: nat, k: nat)
    requires |v| == 10 && c < 3 && k < 9 && forall i :: 0 <= i < 24 ==> none[i] == 0
    requires 0 < Code(v, vt, gray, none, c, k) < if k == 0 then 0x1ff else 0xff
    ensures var max := if k == 0 then 0x1ff else 0xff;
            Code(v, vt, gray, offsets, c, k) ==
            Clamp(Code(v, vt, gray, none, c, k) + if k < 8 then offsets[3 * k + c] else 0, 0, max)
  {
    hide CodeFraction;
  }

  lemma FractionInside(span: nat, d: nat, k: nat)
    requires 0 < span && d <= span
    ensures Base(k) <= d * Den(k) / span <==> Base(k) * span <= d * Den(k)
    ensures d * Den(k) / span <= Den(k) && (d * Den(k) / span == Den(k) <==> d == span)
  {
    hide Base, Den;
    Monotone(0, d, Den(k));
    Monotone(d, span, Den(k));
    DivBound(d * Den(k), span, Den(k));
    QuotientAtLeast(d * Den(k), span, Base(k));
    QuotientAtLeast(d * Den(k), span, Den(k));
    Cancel(d, span, Den(k));
  }

  lemma QuotientAtLeast(a: nat, b: nat, q: int)
    requires b > 0
    ensures q <= a / b <==> q * b <= a
  {
    Distribute(a / b, 1, b);
    Cancel(a / b, q, b);
    Cancel(a / b + 1, q, b);
    Cancel(q, a / b + 1, b);
  }

  lemma QuotientError(span: nat, d: nat, den: nat)
    requires d <= span && 0 < span && 0 < den
    ensures var f := d * den / span;
            var s := Scale(span, f, den);
            0 <= f <= den && s <= d && (d - s) * den * ONE < span * ONE + span * den + den * ONE
  {
    Monotone(0, d, den);
    Monotone(d, span, den);
    DivBound(d * den, span, den);
    var f := d * den / span;
    ScaleBounds(span, f, den);
    hide Scale;
    var s := Scale(span, f, den);
    ErrorBound(span, d, den, f, s);
  }

  lemma ErrorBound(span: nat, d: nat, den: nat, f: nat, s: int)
    requires 0 < den && f * span <= d * den < f * span + span
    requires s * den <= span * f && (span * f - s * den - den) * ONE <= span * den
    ensures s <= d && (d - s) * den * ONE < span * ONE + span * den + den * ONE
  {
    Cancel(d, s, den);
    Distribute(d, -s, den);
    LinearEncode(s * den, d * den, span * f, span * den, den, span);
  }

  lemma LinearEncode(z: int, dd: int, sf: int, sd: int, den: int, span: int)
    requires (sf - z - den) * ONE <= sd && dd < sf + span
    ensures (dd - z) * ONE < span * ONE + sd + den * ONE
  {
  }

  // ---------- the 64-bit quotient in 32 bits ----------

  /** Whatever the block, every decoded point lies between the references. */
  lemma {:induction false} PointInRange(mtp: Mtp, k: nat)
    requires k < 10
    ensures VREF_H <= Point(mtp, k) <= VREF_L
  {
    if k == 0 {
      ScaleInSpan(VREF_L - VREF_H, 129 + 0x100 + Offset(mtp, 0), 640);
    } else if k < 9 {
      PointInRange(mtp, k - 1);
      PointBetween(mtp, k);
      VtRange(mtp);
    }
  }

  /** Interpolation stays between the two ends, in either order. */
  lemma StepBetween(d: int, x: nat, n: nat)
    requires x <= n && n > 0
    ensures d >= 0 ==> 0 <= TruncDiv(d * x, n) <= d
    ensures d <= 0 ==> d <= TruncDiv(d * x, n) <= 0
  {
    if d >= 0 {
      PartStep(d, x, x, n);
    } else {
      PartStep(-d, x, x, n);
      assert d * x == -((-d) * x);
    }
  }

  /** A gray level lies between the two points around it, in either order. */
  lemma GrayBetween(v: seq<int>, level: nat)
    requires |v| == 10 && level <= MAX_LEVEL
    ensures var lo, hi := v[Segment(level) - 1], v[Segment(level)];
            lo <= GrayV(v, level) <= hi || hi <= GrayV(v, level) <= lo
  {
    hide TruncDiv, Segment;
    var i := Segment(level);
    PointsDescend(i - 1, i);
    StepBetween(v[i] - v[i - 1], POINTS[i - 1] - level, POINTS[i - 1] - POINTS[i]);
  }

  /** So does every gray level, also on a curve that is not ordered. */
  lemma GrayInRange(mtp: Mtp, level: nat)
    requires level <= MAX_LEVEL
    ensures VREF_H <= GrayV(Curve(mtp), level) <= VREF_L
  {
    hide Segment, Point, GrayV;
    var i := Segment(level);
    PointInRange(mtp, i - 1);
    PointInRange(mtp, i);
    GrayBetween(Curve(mtp), level);
  }

  /** A quotient over a divisor of at least m. */
  lemma QuotientSize(a: int, span: nat, m: nat, bound: int)
    requires 0 <= bound && -bound * m <= a <= bound * m && 0 < m <= span
    ensures -bound <= TruncDiv(a, span) <= bound
  {
    Monotone(m, span, bound);
    DivBound(if a >= 0 then a else -a, span, bound);
  }

  /** The length of the range that point k's code divides. */
  function Span(mtp: Mtp, gray: Levels, k: nat): int
    requires k < 9
  {
    Upper(k, Vt(mtp)) - Lower(Curve(mtp), gray, k)
  }

  /** Storing the quotient in 32 bits loses nothing: the code is the clamped fraction. */
  predicate Exact(mtp: Mtp, gray: Levels, offsets: CodeOffsets, c: nat, k: nat)
    requires c < 3 && k < 9
  {
    Code(Curve(mtp), Vt(mtp), gray, offsets, c, k) ==
    Clamp(CodeFraction(Curve(mtp), Vt(mtp), gray, k) - Base(k) + CodeOffset(offsets, c, k), 0, MaxCode(k))
  }

  lemma FittingExact(mtp: Mtp, gray: Levels, offsets: CodeOffsets, c: nat, k: nat)
    requires c < 3 && k < 9 && -2147000000 <= CodeFraction(Curve(mtp), Vt(mtp), gray, k) <= 2147000000
    ensures Exact(mtp, gray, offsets, c, k)
  {
    hide CodeFraction, Vt;
  }

  lemma LongSpanExact(mtp: Mtp, gray: Levels, offsets: CodeOffsets, c: nat, k: nat)
    requires c < 3 && k < 9 && (k == 0 || Span(mtp, gray, k) <= 0 || Span(mtp, gray, k) >= 4)
    ensures Exact(mtp, gray, offsets, c, k)
  {
    hide GrayV, Point, Vt, TruncDiv;
    var v, span := Curve(mtp), Span(mtp, gray, k);
    VtRange(mtp);
    GrayInRange(mtp, gray[k]);
    if span >= 4 {
      QuotientSize((Upper(k, Vt(mtp)) - GrayV(v, gray[k])) * Den(k), span, if k == 0 then VREF_L - VREF_H else 4,
                   if k == 0 then 640 else 1778384880);
    }
  }

  // How close to the upper reference the points can come when VT lies on it.
  const LEAST_GAPS := [4515430, 917196, 186305, 37843, 7686, 1561, 317, 64, 13]

  lemma LeastGapStep(k: nat)
    requires 1 <= k <= 8
    ensures Scale(LEAST_GAPS[k - 1], 65, 320) == LEAST_GAPS[k]
  {
  }

  lemma ScaleGrows(span: nat, span': nat, num: nat, den: nat)
    requires 0 < den && span <= span'
    ensures Scale(span, num, den) <= Scale(span', num, den)
  {
    Monotone(span, span', num * ONE / den);
    DivMonotone(span * (num * ONE / den), span' * (num * ONE / den), ONE);
  }

  lemma FirstBelowVref(mtp: Mtp)
    ensures VREF_L - Point(mtp, 0) >= 4515430
  {
    ScaleMonotone(VREF_L - VREF_H, 130, 129 + 0x100 + Offset(mtp, 0), 640);
    assert Scale(VREF_L - VREF_H, 130, 640) == 4515430;
  }

  /** A point that hangs from the upper reference keeps its share of the gap. */
  lemma KeepsGap(mtp: Mtp, k: nat, gap: nat)
    requires 1 <= k <= 8 && Top(k, Vt(mtp)) == VREF_L && VREF_L - Point(mtp, k - 1) >= gap
    ensures VREF_L - Point(mtp, k) >= Scale(gap, 65, 320)
  {
    hide Scale;
    ScaleGrows(gap, VREF_L - Point(mtp, k - 1), 65, 320);
    ScaleMonotone(VREF_L - Point(mtp, k - 1), 65, 64 + 0x80 + Offset(mtp, k), 320);
  }

  lemma {:induction false} FarFromVref(mtp: Mtp, k: nat)
    requires k <= 8 && Vt(mtp) == VREF_L
    ensures VREF_L - Point(mtp, k) >= LEAST_GAPS[k]
  {
    hide Point, Vt, Scale;
    if k == 0 {
      FirstBelowVref(mtp);
    } else {
      FarFromVref(mtp, k - 1);
      KeepsGap(mtp, k, LEAST_GAPS[k - 1]);
      LeastGapStep(k);
    }
  }

  lemma LowVt(mtp: Mtp)
    ensures Vt(mtp) == VREF_L || Vt(mtp) <= VREF_L - 570424
  {
    var num := VT_COEFF[mtp[10] as int % 16];
    if num > 0 {
      assert num >= 12;
      ScaleMonotone(VREF_L, 12, num, 600);
      assert Scale(VREF_L, 12, 600) == 570424;
    }
  }

  lemma {:induction false} FarBelowVt(mtp: Mtp, k: nat)
    requires k <= 7 && Vt(mtp) <= VREF_L - 570424
    ensures VREF_L - Point(mtp, k) >= 570424
  {
    hide Point, Vt;
    if k == 0 {
      FirstBelowVref(mtp);
    } else {
      FarBelowVt(mtp, k - 1);
      PointBetween(mtp, k);
    }
  }

  /** No coded point is nearer to the upper reference than 13 units. */
  lemma GapLeast(mtp: Mtp, k: nat)
    requires k <= 8
    ensures VREF_L - Point(mtp, k) >= 13
  {
    hide Point, Vt;
    LowVt(mtp);
    if Vt(mtp) == VREF_L {
      FarFromVref(mtp, k);
    } else if k <= 7 {
      FarBelowVt(mtp, k);
    } else {
      FarBelowVt(mtp, 7);
      KeepsGap(mtp, 8, 570424);
      assert Scale(570424, 65, 320) == 115867;
    }
  }

  /** The range of V3's code is empty or at least 4 units long, whatever the levels. */
  lemma LastSpan(mtp: Mtp, level: nat)
    requires level <= MAX_LEVEL
    ensures var gap := VREF_L - GrayV(Curve(mtp), level); gap == 0 || gap >= 4
  {
    hide Segment;
    var v, i := Curve(mtp), Segment(level);
    GapLeast(mtp, 8);
    if level >= 3 {
      assert i <= 8;
      GapLeast(mtp, i - 1);
      GapLeast(mtp, i);
      hide GrayV;
      GrayBetween(v, level);
    } else {
      assert i == 9 && Point(mtp, 9) == VREF_L;
      hide TruncDiv;
      ThirdsDown(VREF_L - v[8], 3 - level);
    }
  }

  lemma ThirdsDown(d: nat, x: nat)
    requires d >= 13 && x <= 3
    ensures TruncDiv(d * x, 3) == d || d - TruncDiv(d * x, 3) >= 4
  {
    if x == 3 {
      ExactDiv(d, 3);
    } else {
      Monotone(x, 2, d);
      Monotone(0, x, d);
    }
  }

  // levels in order

  lemma {:induction false} PointsAboveVt(mtp: Mtp, k: nat)
    requires k <= 8 && Point(mtp, 0) >= Vt(mtp)
    ensures Point(mtp, k) >= Vt(mtp)
  {
    hide Point, Vt;
    if k > 0 {
      PointsAboveVt(mtp, k - 1);
      PointBetween(mtp, k);
      PointInRange(mtp, k - 1);
      VtRange(mtp);
    }
  }

  /** If V255 is above VT, so is every level a point can have down to V3: the ranges under VT are empty. */
  lemma UnorderedAboveVt(mtp: Mtp, level: nat)
    requires Point(mtp, 0) >= Vt(mtp) && 3 <= level <= MAX_LEVEL
    ensures GrayV(Curve(mtp), level) >= Vt(mtp)
  {
    hide Point, Vt, GrayV, Segment;
    var i := Segment(level);
    PointsAboveVt(mtp, i - 1);
    PointsAboveVt(mtp, i);
    GrayBetween(Curve(mtp), level);
  }

  /** On an ordered curve a level from 11 up is not above VT, and one from 4 up not far above it. */
  lemma LevelNearVt(mtp: Mtp, level: nat)
    requires Point(mtp, 0) <= Vt(mtp) && 4 <= level <= MAX_LEVEL
    ensures level >= 11 ==> GrayV(Curve(mtp), level) <= Vt(mtp)
    ensures (GrayV(Curve(mtp), level) - Vt(mtp)) * 320 <= 1972781755
  {
    hide Point, Vt;
    var v := Curve(mtp);
    PointsBelowVt(mtp, 7);
    if level >= 11 {
      hide GrayV;
      CurveAscends(mtp);
      GrayAntitone(v, 11, level);
      GrayAtPoint(v, 7);
    } else {
      assert Segment(level) == 8;
      hide TruncDiv;
      LastStep(mtp);
      PartStep(v[8] - v[7], 11 - level, 7, 8);
      SevenEighths(v[8] - v[7]);
      VtRange(mtp);
      FarAboveVt(VREF_L - v[7], v[8] - v[7], VREF_L - Vt(mtp), TruncDiv((v[8] - v[7]) * 7, 8));
    }
  }

  lemma SevenEighths(d: nat)
    ensures 8 * TruncDiv(d * 7, 8) <= 7 * d
  {
  }

  /** V3 takes at most 255 parts in 320 of what V11 leaves. */
  lemma LastStep(mtp: Mtp)
    ensures var x, d := VREF_L - Point(mtp, 7), Point(mtp, 8) - Point(mtp, 7);
            0 <= d && 0 <= x && 320 * d <= 255 * x + 2016
  {
    hide Scale;
    var x := VREF_L - Point(mtp, 7);
    PointInRange(mtp, 7);
    PointBetween(mtp, 8);
    ScaleMonotone(x, 65, 64 + 0x80 + Offset(mtp, 8), 320);
    ScaleBounds(x, 65, 320);
  }

  lemma FarAboveVt(x: int, d: int, y: int, q: int)
    requires 320 * d <= 255 * x + 2016 && 8 * q <= 7 * d && 0 <= y <= x && y <= 8841591
    ensures (q - (x - y)) * 320 <= 1972781755
  {
  }

  /**
    What the levels of points V203 to V11 must satisfy: from 11 up and in order,
    the fraction is one; from 4 up and in order, it fits in 32 bits at least.
  */
  lemma OrderedFraction(mtp: Mtp, gray: Levels, k: nat)
    requires 1 <= k <= 7 && 4 <= gray[k] <= gray[k - 1]
    ensures -1972781755 <= CodeFraction(Curve(mtp), Vt(mtp), gray, k) <= 320
    ensures gray[k] >= 11 ==> 0 <= CodeFraction(Curve(mtp), Vt(mtp), gray, k) <= 320
  {
    hide Point, Vt, GrayV, TruncDiv;
    var v, vt, span := Curve(mtp), Vt(mtp), Span(mtp, gray, k);
    if span > 0 {
      if Point(mtp, 0) > vt {
        UnorderedAboveVt(mtp, gray[k - 1]);
        assert false;
      }
      CurveAscends(mtp);
      GrayAntitone(v, gray[k], gray[k - 1]);
      LevelNearVt(mtp, gray[k]);
      var d := vt - GrayV(v, gray[k]);
      if d >= 0 {
        PartQuotient(d, span);
      } else {
        QuotientSize(d * 320, span, 1, 1972781755);
        NegativeQuotient(d * 320, span);
      }
    }
  }

  lemma PartQuotient(d: nat, span: nat)
    requires d <= span && span > 0
    ensures 0 <= TruncDiv(d * 320, span) <= 320
  {
    Monotone(d, span, 320);
    DivBound(d * 320, span, 320);
  }

  lemma NegativeQuotient(a: int, b: nat)
    requires a <= 0 && b > 0
    ensures TruncDiv(a, b) <= 0
  {
  }

  /**
    For every factory block and code offset the code is the clamped fraction,
    without wrap-around: always at V255 and V3; at the points between if the
    level is at least 4 and not above that of the point before; and otherwise if
    the range is empty or at least 4 units long.
  */
  lemma CodeExact(mtp: Mtp, gray: Levels, offsets: CodeOffsets, c: nat, k: nat)
    requires c < 3 && k < 9
    ensures k == 0 || k == 8 || 4 <= gray[k] <= gray[k - 1] || Span(mtp, gray, k) <= 0 || Span(mtp, gray, k) >= 4 ==>
              Exact(mtp, gray, offsets, c, k)
  {
    if k == 8 {
      LastSpan(mtp, gray[7]);
    }
    hide GrayV, Point, Vt, CodeFraction, Exact;
    if k == 0 || Span(mtp, gray, k) <= 0 || Span(mtp, gray, k) >= 4 {
      LongSpanExact(mtp, gray, offsets, c, k);
    } else if 1 <= k <= 7 && 4 <= gray[k] <= gray[k - 1] {
      OrderedFraction(mtp, gray, k);
      FittingExact(mtp, gray, offsets, c, k);
    }
  }

  /**
    So for a step whose levels do not increase from V255 to V11, with V11 at level
    4 or above, no quotient of any panel wraps.
  */
  lemma OrderedLevelsExact(mtp: Mtp, gray: Levels, offsets: CodeOffsets, c: nat)
    requires c < 3 && gray[7] >= 4 && forall k :: 1 <= k <= 7 ==> gray[k] <= gray[k - 1]
    ensures forall k :: 0 <= k < 9 ==> Exact(mtp, gray, offsets, c, k)
  {
    hide Exact, Span;
    forall k | 0 <= k < 9
      ensures Exact(mtp, gray, offsets, c, k)
    {
      if 1 <= k <= 7 {
        LevelsDescend(gray, k);
      }
      CodeExact(mtp, gray, offsets, c, k);
    }
  }

  lemma {:induction false} LevelsDescend(gray: Levels, k: nat)
    requires 1 <= k <= 7 && forall k :: 1 <= k <= 7 ==> gray[k] <= gray[k - 1]
    ensures gray[7] <= gray[k]
    decreases 7 - k
  {
    if k < 7 {
      LevelsDescend(gray, k + 1);
    }
  }

  lemma NextPoint(mtp: Mtp, k: nat, prev: int, top: int, num: nat, next: int)
    requires 1 <= k <= 8 && Point(mtp, k - 1) == prev && Top(k, Vt(mtp)) == top
    requires 192 + Offset(mtp, k) == num && next == top - Scale(top - prev, num, 320)
    ensures Point(mtp, k) == next
  {
    hide Scale, Vt;
  }

  /** Level 3 is too low: in order, but V11 at level 3 wraps to the greatest code instead of 0. */
  lemma LowLevelWraps(gray: Levels, offsets: CodeOffsets, c: nat)
    requires c < 3 && gray[6] == 23 && gray[7] == 3
    ensures var mtp: Mtp := [255, 255, 255, 255, 255, 255, 255, 130, 255, 1, 15];
            CodeFraction(Curve(mtp), Vt(mtp), gray, 7) == -2254605760 &&
            Code(Curve(mtp), Vt(mtp), gray, offsets, c, 7) == 255 && !Exact(mtp, gray, offsets, c, 7)
  {
    hide Point, Vt, GrayV, ToS32;
    var mtp: Mtp := [255, 255, 255, 255, 255, 255, 255, 130, 255, 1, 15];
    LowLevelVoltages(mtp);
    GrayAtPoint(Curve(mtp), 6);
    GrayAtPoint(Curve(mtp), 8);
    WrapsUp(-2254605760, CodeOffset(offsets, c, 7));
  }

  lemma WrapsUp(f: int, off: int)
    requires f == -2254605760 && -128 <= off < 128
    ensures ToS32(f - 64 + off) > 255
  {
  }

  lemma WrapsDown(f: int, off: int)
    requires f == 2312760000 && -128 <= off < 128
    ensures ToS32(f - 64 + off) < 0
  {
  }

  lemma LowLevelVoltages(mtp: Mtp)
    requires mtp == [255, 255, 255, 255, 255, 255, 255, 130, 255, 1, 15]
    ensures Vt(mtp) == 19679676 && Point(mtp, 6) == 19679675 && Point(mtp, 8) == 26725319
  {
    assert Scale(22229811, 255, 640) == 8857190 && Scale(VREF_L, 186, 600) == 8841591;
    LowLevelChain(mtp);
  }

  lemma LowLevelChain(mtp: Mtp)
    requires Vt(mtp) == 19679676 && Point(mtp, 0) == 19664077 && forall k :: 1 <= k <= 8 ==> Offset(mtp, k) == -127
    ensures Point(mtp, 6) == 19679675 && Point(mtp, 8) == 26725319
  {
    hide Vt, Point, Offset;
    assert Scale(15599, 65, 320) == 3168 && Scale(3168, 65, 320) == 643 && Scale(643, 65, 320) == 130;
    assert Scale(130, 65, 320) == 26 && Scale(26, 65, 320) == 5 && Scale(5, 65, 320) == 1;
    assert Scale(1, 65, 320) == 0 && Scale(8841591, 65, 320) == 1795948;
    hide Scale;
    NextPoint(mtp, 1, 19664077, 19679676, 65, 19676508);
    NextPoint(mtp, 2, 19676508, 19679676, 65, 19679033);
    NextPoint(mtp, 3, 19679033, 19679676, 65, 19679546);
    NextPoint(mtp, 4, 19679546, 19679676, 65, 19679650);
    NextPoint(mtp, 5, 19679650, 19679676, 65, 19679671);
    NextPoint(mtp, 6, 19679671, 19679676, 65, 19679675);
    NextPoint(mtp, 7, 19679675, 19679676, 65, 19679676);
    NextPoint(mtp, 8, 19679676, 28521267, 65, 26725319);
  }

  /** Levels out of order wrap too: a point at level 255 after one at level 10 gets code 0 instead of 255. */
  lemma UnorderedLevelsWrap(gray: Levels, offsets: CodeOffsets, c: nat, k: nat)
    requires c < 3 && 1 <= k <= 7 && gray[k - 1] == 10 && gray[k] == 255
    ensures var mtp: Mtp := [82, 255, 219, 255, 110, 255, 255, 64, 114, 0, 2];
            CodeFraction(Curve(mtp), Vt(mtp), gray, k) == 2312760000 &&
            Code(Curve(mtp), Vt(mtp), gray, offsets, c, k) == 0 && !Exact(mtp, gray, offsets, c, k)
  {
    hide Point, Vt, ToS32, GrayV;
    var mtp: Mtp := [82, 255, 219, 255, 110, 255, 255, 64, 114, 0, 2];
    UnorderedVoltages(mtp);
    LevelTen(Curve(mtp));
    GrayAtPoint(Curve(mtp), 0);
    WrapsDown(2312760000, CodeOffset(offsets, c, k));
  }

  lemma LevelTen(v: seq<int>)
    requires |v| == 10 && v[7] == 27374143 && v[8] == 27424330
    ensures GrayV(v, 10) == 27380416
  {
    assert Segment(10) == 8;
  }

  lemma UnorderedVoltages(mtp: Mtp)
    requires mtp == [82, 255, 219, 255, 110, 255, 255, 64, 114, 0, 2]
    ensures Vt(mtp) == 27380418 && Point(mtp, 0) == 12925668
    ensures Point(mtp, 7) == 27374143 && Point(mtp, 8) == 27424330
  {
    assert Scale(22229811, 449, 640) == 15595599 && Scale(VREF_L, 24, 600) == 1140849;
    UnorderedChain(mtp);
  }

  lemma UnorderedChain(mtp: Mtp)
    requires Vt(mtp) == 27380418 && Point(mtp, 0) == 12925668
    requires Offset(mtp, 1) == Offset(mtp, 2) == Offset(mtp, 4) == Offset(mtp, 6) == -127
    requires Offset(mtp, 3) == 110 && Offset(mtp, 5) == -91 && Offset(mtp, 7) == 82 && Offset(mtp, 8) == 114
    ensures Point(mtp, 7) == 27374143 && Point(mtp, 8) == 27424330
  {
    hide Vt, Point, Offset;
    assert Scale(14454750, 65, 320) == 2936121 && Scale(2936121, 65, 320) == 596399;
    assert Scale(596399, 302, 320) == 562851 && Scale(562851, 65, 320) == 114329;
    assert Scale(114329, 101, 320) == 36085 && Scale(36085, 65, 320) == 7329;
    assert Scale(7329, 274, 320) == 6275 && Scale(1147124, 306, 320) == 1096937;
    hide Scale;
    NextPoint(mtp, 1, 12925668, 27380418, 65, 24444297);
    NextPoint(mtp, 2, 24444297, 27380418, 65, 26784019);
    NextPoint(mtp, 3, 26784019, 27380418, 302, 26817567);
    NextPoint(mtp, 4, 26817567, 27380418, 65, 27266089);
    NextPoint(mtp, 5, 27266089, 27380418, 101, 27344333);
    NextPoint(mtp, 6, 27344333, 27380418, 65, 27373089);
    NextPoint(mtp, 7, 27373089, 27380418, 274, 27374143);
    NextPoint(mtp, 8, 27374143, 28521267, 306, 27424330);
  }

  /** The quotient of a voltage in a range of this length is stored unchanged. */
  predicate Fits(top: int, span: nat, volt: int) {
    var f := Fraction(top, top - span, volt, 320);
    ToS32(f) == f
  }

  /** Among all voltages between the references, 4 is the least length of a range in which no quotient wraps. */
  lemma SpanFits(span: nat)
    requires 1 <= span <= VREF_L - VREF_H
    ensures (forall top, volt :: VREF_H <= top - span && top <= VREF_L && VREF_H <= volt <= VREF_L ==>
                                   Fits(top, span, volt)) <==>
            span >= 4
  {
    hide TruncDiv;
    if span >= 4 {
      forall top, volt | VREF_H <= top - span && top <= VREF_L && VREF_H <= volt <= VREF_L
        ensures Fits(top, span, volt)
      {
        QuotientSize((top - volt) * 320, span, 4, 1778384880);
      }
    } else {
      WideQuotient(span);
      assert !Fits(VREF_L, span, VREF_H);
    }
  }

  lemma WideQuotient(span: nat)
    requires 1 <= span <= 3
    ensures TruncDiv((VREF_L - VREF_H) * 320, span) >= 0x8000_0000
  {
  }

  // ---------- choosing gray levels ----------

  /** A luminance table: level 0 is black and every level is brighter than the last. */
  type Luminance = s: seq<nat> | |s| == 256 && s[0] == 0 && forall i, j :: 0 <= i < j < 256 ==> s[i] < s[j]
    witness seq(256, i => i)

  function Dist(a: int, b: int): nat {
    if a < b then b - a else a - b
  }

  /** g is the least level whose luminance is nearest lum. */
  ghost predicate Nearest(curve: Luminance, lum: nat, g: nat) {
    && g <= MAX_LEVEL
    && (forall i :: 0 <= i < 256 ==> Dist(curve[g], lum) <= Dist(curve[i], lum))
    && (forall i :: 0 <= i < g ==> Dist(curve[g], lum) < Dist(curve[i], lum))
  }

  /** A brighter target never picks a darker level; equal targets pick the same one. */
  lemma NearestMonotone(curve: Luminance, lum: nat, lum': nat, g: nat, g': nat)
    requires lum <= lum' && Nearest(curve, lum, g) && Nearest(curve, lum', g')
    ensures g <= g'
  {
    assert Dist(curve[g'], lum') <= Dist(curve[g], lum');
  }

  /** The luminance each point aims at, against a step's base. */
  const COEFF := [4194304, 2568710, 1359562, 415494, 131788, 58660, 23786, 4871, 298]

  /** A step's targets fit 32 bits exactly for bases below 1024; the brightest step's is 360. */
  lemma TargetsFit(base: nat)
    ensures (forall k :: 0 <= k < 9 ==> COEFF[k] * base < 0x1_0000_0000) <==> base < 1024
  {
    if base < 1024 {
      forall k | 0 <= k < 9
        ensures COEFF[k] * base < 0x1_0000_0000
      {
        Monotone(COEFF[k], 4194304, base);
      }
    } else {
      assert COEFF[0] * base >= 4194304 * 1024;
    }
  }

  // ---------- the driver's loops ----------

  class Channel {
    const v: array<int>
    var vt: int

    constructor ()
      ensures fresh(v) && v.Length == 10
    {
      v := new int[10](_ => 0);
      vt := 0;
    }

    /** Decodes a channel's factory bytes into its point voltages. */
    method Init(mtp: Mtp)
      requires v.Length == 10
      modifies this, v
      ensures v[..] == Curve(mtp) && vt == Vt(mtp)
    {
      hide Scale, Below;
      var off := if mtp[9] != 0 then -(mtp[7] as int) else mtp[7] as int;
      v[0] := VREF_L - Scale(VREF_L - VREF_H, 129 + 0x100 + off, 640);
      vt := VREF_L - Scale(VREF_L, VT_COEFF[mtp[10] as int % 16], 600);

      // entry 8, the last but one, hangs from the upper reference instead of VT
      var k := 1;
      while k < 9
        invariant 1 <= k <= 9 && vt == Vt(mtp)
        invariant forall i :: 0 <= i < k ==> v[i] == Point(mtp, i)
      {
        var top := if k < 8 then vt else VREF_L;
        var m := mtp[POINT_REG[k]] as int;
        off := if m >= 0x80 then -(m % 0x80) else m;
        v[k] := Below(top, v[k - 1], off);
        k := k + 1;
      }
      v[9] := VREF_L;
    }

    /** Level g's interpolated voltage; the search always ends at a point. */
    method GrayVoltage(level: nat) returns (volt: int)
      requires v.Length == 10 && level <= MAX_LEVEL
      ensures volt == GrayV(v[..], level)
    {
      hide TruncDiv, Interpolate;
      var k := 1;
      while level < POINTS[k]
        invariant 1 <= k <= 9 && (k > 1 ==> level < POINTS[k - 1])
        invariant Segment(level) == Segment(level, k)
        decreases 9 - k
      {
        k := k + 1;
      }
      volt := Between(k, level);
    }

    /** Linear between point k - 1 and point k. */
    method Between(k: nat, level: nat) returns (volt: int)
      requires v.Length == 10 && 1 <= k <= 9
      ensures volt == Interpolate(v[..], k, level)
    {
      hide TruncDiv;
      var hi, lo := POINTS[k - 1], POINTS[k];
      volt := v[k - 1] + TruncDiv((v[k] - v[k - 1]) * (hi - level), hi - lo);
    }

    /** The code of one point; the quotient is stored in 32 bits before the subtraction. */
    method PointCode(gray: Levels, offsets: CodeOffsets, c: nat, k: nat) returns (code: int)
      requires v.Length == 10 && c < 3 && k < 9
      ensures code == Code(v[..], vt, gray, offsets, c, k)
    {
      hide TruncDiv, GrayV, ToS32;
      var top, bottom := VREF_L, VREF_H;
      code := 0;
      if k > 0 {
        if k < 8 {
          top := vt;
        }
        bottom := GrayVoltage(gray[k - 1]);
      }
      if top > bottom {
        var volt := GrayVoltage(gray[k]);
        code := ToS32(TruncDiv((top - volt) * (if k > 0 then 320 else 640), top - bottom));
      }
      Truncated(CodeFraction(v[..], vt, gray, k), CodeOffset(offsets, c, k) - Base(k));
      if k == 0 {
        code := Clamp(ToS32(code - 129 + offsets[c]), 0, 0x1ff);
      } else if k < 8 {
        code := Clamp(ToS32(code - 64 + offsets[3 * k + c]), 0, 0xff);
      } else {
        code := Clamp(ToS32(code - 64), 0, 0xff);
      }
    }

    /** Encodes one channel's gray levels as 11 register bytes. */
    method Encode(gray: Levels, offsets: CodeOffsets, c: nat, reg: array<byte>)
      requires v.Length == 10 && reg.Length == 11 && reg as object != v && c < 3
      modifies reg
      ensures Packed(reg[..], Codes(v[..], vt, gray, offsets, c), 9) && reg[10] == 0
    {
      hide Code;
      ghost var vs := v[..];
      ghost var codes := Codes(vs, vt, gray, offsets, c);
      forall i | 0 <= i < 11 {
        reg[i] := 0;
      }
      var k := 0;
      while k < 9
        invariant 0 <= k <= 9 && reg[10] == 0 && Packed(reg[..], codes, k)
        invariant v[..] == vs
      {
        var code := PointCode(gray, offsets, c, k);
        ghost var before := reg[..];
        if k == 0 {
          reg[9] := if code > 0xff then 0x80 else 0;
        }
        reg[POINT_REG[k]] := (code % 256) as byte;
        PackOne(before, reg[..], codes, k);
        k := k + 1;
      }
    }
  }

  /** The nearest level, by linear search; ties go down. */
  method NearestGray(curve: Luminance, lum: nat) returns (g: nat)
    ensures Nearest(curve, lum, g)
  {
    var i := 1;
    while i <= MAX_LEVEL
      invariant 1 <= i <= MAX_LEVEL + 1
      invariant curve[i - 1] <= lum
    {
      if curve[i] > lum {
        g := if lum - curve[i - 1] <= curve[i] - lum then i - 1 else i;
        return;
      }
      i := i + 1;
    }
    g := MAX_LEVEL;
  }

  /**
    What a step shows at each point: near[k] is nearest to COEFF[k] * base and does
    not increase with k; gray[k] adds the k-th offset, kept inside 1..255.
  */
  method ChooseGray(curve: Luminance, base: nat, grayOffset: seq<int>) returns (near: seq<nat>, gray: seq<nat>)
    requires |grayOffset| == 9
    ensures |near| == 9 && forall k :: 0 <= k < 9 ==> Nearest(curve, COEFF[k] * base, near[k])
    ensures forall i, k :: 0 <= i <= k < 9 ==> near[k] <= near[i]
    ensures |gray| == 9 && forall k :: 0 <= k < 9 ==> gray[k] == Clamp(near[k] + grayOffset[k], 1, MAX_LEVEL)
  {
    hide Nearest;
    near, gray := [], [];
    var k := 0;
    while k < 9
      invariant 0 <= k <= 9 && |near| == |gray| == k
      invariant forall i :: 0 <= i < k ==> Nearest(curve, COEFF[i] * base, near[i])
      invariant forall i :: 0 <= i < k ==> gray[i] == Clamp(near[i] + grayOffset[i], 1, MAX_LEVEL)
    {
      var g := NearestGray(curve, COEFF[k] * base);
      near := near + [g];
      gray := gray + [Clamp(g + grayOffset[k], 1, MAX_LEVEL)];
      k := k + 1;
    }
    NearOrder(curve, base, near);
  }

  /** Dimmer points get gray levels that are no brighter. */
  lemma NearOrder(curve: Luminance, base: nat, near: seq<nat>)
    requires |near| == 9 && forall k :: 0 <= k < 9 ==> Nearest(curve, COEFF[k] * base, near[k])
    ensures forall i, k :: 0 <= i <= k < 9 ==> near[k] <= near[i]
  {
    hide Nearest;
    forall i, j | 0 <= i <= j < 9
      ensures near[j] <= near[i]
    {
      CoeffDescend(i, j);
      Monotone(COEFF[j], COEFF[i], base);
      NearestMonotone(curve, COEFF[j] * base, COEFF[i] * base, near[j], near[i]);
    }
  }

  lemma CoeffDescend(i: nat, j: nat)
    requires i <= j < 9
    ensures COEFF[j] <= COEFF[i]
  {
    if i + 1 < j {
      CoeffDescend(i, j - 1);
    }
  }
}
