/** Python's `round`, in exact arithmetic: to the nearest multiple, ties to the even one. */
module Rounding {

  function HalfEven(x: real): int {
    var f, d := x.Floor, x - x.Floor as real;
    if d < 0.5 || (d == 0.5 && f % 2 == 0) then f else f + 1
  }

  /** `round(x, p)` with `scale == 10 ** p`. */
  function RoundTo(x: real, scale: real): real
    requires scale > 0.0
  {
    HalfEven(x * scale) as real / scale
  }

  /** `x` is a whole number of units of size `1 / scale`. */
  predicate OnGrid(x: real, scale: real) {
    x * scale == (x * scale).Floor as real
  }

  // ----- Arithmetic -----

  lemma {:induction false} MulMonotone(a: real, b: real, s: real)
    requires s >= 0.0 && a <= b
    ensures a * s <= b * s
  {
    assert 0.0 <= (b - a) * s;
  }

  lemma {:induction false} DivCancels(a: real, s: real)
    requires s > 0.0
    ensures a / s * s == a && a * s / s == a
  {
  }

  lemma {:induction false} DivUndoes(x: real, y: real, s: real)
    requires s > 0.0 && y == x * s
    ensures y / s == x
  {
  }

  lemma {:induction false} DivMonotone(a: real, b: real, s: real)
    requires s > 0.0 && a <= b
    ensures a / s <= b / s
  {
  }

  lemma {:induction false} DivOfDifference(a: real, b: real, s: real)
    requires s > 0.0
    ensures (a - b) / s == a / s - b / s
  {
    DivCancels(a - b, s);
    DivCancels(a, s);
    DivCancels(b, s);
    var gap := (a - b) / s - (a / s - b / s);
    assert gap * s == 0.0;
    assert gap == 0.0;
  }

  // ----- Rounding to whole numbers -----

  lemma {:induction false} HalfEvenIsNear(x: real)
    ensures -0.5 <= HalfEven(x) as real - x <= 0.5
  {
  }

  lemma {:induction false} HalfEvenIsMonotone(x: real, y: real)
    requires x <= y
    ensures HalfEven(x) <= HalfEven(y)
  {
    assert x.Floor <= y.Floor;
  }

  lemma {:induction false} HalfEvenKeepsWhole(x: real)
    requires x == x.Floor as real
    ensures HalfEven(x) as real == x
  {
  }

  // ----- Rounding to a grid -----

  /** Rounding is off by at most half a unit. */
  lemma {:induction false} RoundingError(x: real, scale: real)
    requires scale > 0.0
    ensures -0.5 / scale <= RoundTo(x, scale) - x <= 0.5 / scale
  {
    hide HalfEven;
    var r, y := HalfEven(x * scale) as real, x * scale;
    assert RoundTo(x, scale) == r / scale;
    HalfEvenIsNear(x * scale);
    DivUndoes(x, y, scale);
    DivOfDifference(r, y, scale);
    DivMonotone(-0.5, r - y, scale);
    DivMonotone(r - y, 0.5, scale);
  }

  lemma {:induction false} RoundingIsMonotone(x: real, y: real, scale: real)
    requires scale > 0.0 && x <= y
    ensures RoundTo(x, scale) <= RoundTo(y, scale)
  {
    hide HalfEven;
    MulMonotone(x, y, scale);
    HalfEvenIsMonotone(x * scale, y * scale);
    DivMonotone(HalfEven(x * scale) as real, HalfEven(y * scale) as real, scale);
    assert RoundTo(x, scale) == HalfEven(x * scale) as real / scale;
    assert RoundTo(y, scale) == HalfEven(y * scale) as real / scale;
  }

  /** Multiples of the unit are fixed points. */
  lemma {:induction false} RoundingKeepsGrid(x: real, scale: real)
    requires scale > 0.0 && OnGrid(x, scale)
    ensures RoundTo(x, scale) == x
  {
    HalfEvenKeepsWhole(x * scale);
    DivUndoes(x, HalfEven(x * scale) as real, scale);
  }

  /** Rounding never carries a number below a multiple of the unit that it meets, nor above one. */
  lemma {:induction false} RoundingRespectsGrid(x: real, t: real, scale: real)
    requires scale > 0.0 && OnGrid(t, scale)
    ensures t <= x ==> t <= RoundTo(x, scale)
    ensures x <= t ==> RoundTo(x, scale) <= t
  {
    hide RoundTo;
    RoundingKeepsGrid(t, scale);
    if t <= x { RoundingIsMonotone(t, x, scale); }
    if x <= t { RoundingIsMonotone(x, t, scale); }
  }

  lemma {:induction false} HalfEvenAtHalf(n: int)
    ensures HalfEven(n as real + 0.5) == if n % 2 == 0 then n else n + 1
  {
    assert (n as real + 0.5).Floor == n;
  }

  /** What is half way between two multiples goes to the even one, up or down. */
  lemma {:induction false} TiesGoToEven(n: int, scale: real)
    requires scale > 0.0
    ensures RoundTo((n as real + 0.5) / scale, scale) == (if n % 2 == 0 then n else n + 1) as real / scale
  {
    hide HalfEven;
    HalfEvenAtHalf(n);
    var x := n as real + 0.5;
    DivCancels(x, scale);
    RoundsScaled(x / scale, scale, x);
  }

  lemma {:induction false} RoundsScaled(x: real, scale: real, y: real)
    requires scale > 0.0 && x * scale == y
    ensures RoundTo(x, scale) == HalfEven(y) as real / scale
  {
    hide HalfEven;
    assert HalfEven(x * scale) == HalfEven(y);
  }

  /** What comes out is a multiple of the unit. */
  lemma {:induction false} RoundedIsOnGrid(x: real, scale: real)
    requires scale > 0.0
    ensures OnGrid(RoundTo(x, scale), scale)
  {
    hide HalfEven, OnGrid;
    var r := HalfEven(x * scale) as real;
    DivCancels(r, scale);
    WholeIsOnGrid(r / scale, HalfEven(x * scale), scale);
  }

  lemma {:induction false} WholeIsOnGrid(x: real, n: int, scale: real)
    requires scale > 0.0 && x * scale == n as real
    ensures OnGrid(x, scale)
  {
    assert (n as real).Floor == n;
  }
}
