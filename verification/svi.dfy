/** Integer square root and the flat volatility surface (svi.ts). */
module Svi {

  const ONE := 1_000_000_000_000_000_000

  /** Newton's step never falls below the root. */
  lemma StaysAbove(v: nat, x: nat)
    requires x > 0
    ensures var y := (x + v / x) / 2; (y + 1) * (y + 1) > v
  {
    var q := v / x;
    var y := (x + q) / 2;
    Remainder(v, x);
    assert x * (q + 1) > v;
    MeanSquare(x, q + 1);
    var s := x + (q + 1);
    assert s <= 2 * (y + 1);
    SquareGrows(s, 2 * (y + 1));
    assert (2 * (y + 1)) * (2 * (y + 1)) == 4 * ((y + 1) * (y + 1));
  }

  lemma Remainder(v: nat, x: nat)
    requires x > 0
    ensures (v / x) * x <= v < (v / x) * x + x && v / x >= 0
  {
  }

  lemma MeanSquare(a: nat, b: nat)
    ensures (a + b) * (a + b) >= 4 * (a * b)
  {
    assert (a + b) * (a + b) - 4 * (a * b) == (a - b) * (a - b);
    NonnegativeSquare(a - b);
  }

  lemma NonnegativeSquare(x: int)
    ensures x * x >= 0
  {
  }

  lemma SquareGrows(a: nat, b: nat)
    requires a <= b
    ensures a * a <= b * b
  {
    assert b * b == a * a + (b - a) * (a + b);
    Product(b - a, a + b);
  }

  lemma Product(a: nat, b: nat)
    ensures a * b >= 0
  {
  }

  /** When the step does not descend, x is not above the root. */
  lemma NotAbove(v: nat, x: nat)
    requires x > 0 && (x + v / x) / 2 >= x
    ensures x * x <= v
  {
    var q := v / x;
    Remainder(v, x);
    assert q >= x;
    Scaled(x, q, x);
  }

  lemma Scaled(a: nat, b: nat, c: nat)
    requires a <= b
    ensures a * c <= b * c
  {
    assert b * c == a * c + (b - a) * c;
    Product(b - a, c);
  }

  lemma ScaledInt(a: int, b: int, c: nat)
    requires a <= b
    ensures a * c <= b * c
  {
    assert b * c == a * c + (b - a) * c;
    Product(b - a, c);
  }

  /** The integer root of the value is at most x. */
  ghost predicate Above(x: nat, value: nat) { (x + 1) * (x + 1) > value }

  function Newton(value: nat, x: nat): (y: nat)
    requires x > 0
    ensures Above(y, value)
  {
    StaysAbove(value, x);
    Remainder(value, x);
    (x + value / x) / 2
  }

  lemma FirstStep(value: nat)
    requires value >= 2
    ensures Above(value, value) && (value + 1) / 2 == Newton(value, value)
  {
    assert value / value == 1;
    Scaled(1, value + 1, value + 1);
  }

  lemma AbovePositive(x: nat, value: nat)
    requires Above(x, value) && value >= 1
    ensures x > 0
  {
  }

  lemma Done(value: nat, x: nat)
    requires x > 0 && Newton(value, x) >= x && Above(x, value)
    ensures x * x <= value < (x + 1) * (x + 1)
  {
    NotAbove(value, x);
  }

  lemma Small(value: nat)
    requires value < 2
    ensures value * value <= value < (value + 1) * (value + 1)
  {
  }

  /** Newton's iteration from above ends at the integer square root, for every value. */
  method IntegerSqrt(value: nat) returns (x: nat)
    ensures x * x <= value < (x + 1) * (x + 1)
  {
    if value < 2 {
      Small(value);
      return value;
    }
    x := value;
    var y := (x + 1) / 2;
    FirstStep(value);
    hide Newton, Above;
    while y < x
      invariant x > 0 && Above(x, value) && y == Newton(value, x)
      decreases x
    {
      AbovePositive(y, value);
      x := y;
      y := Newton(value, x);
    }
    Done(value, x);
  }

  ghost predicate IsSqrt(x: nat, value: nat) { x * x <= value < (x + 1) * (x + 1) }

  /** The description leaves no choice. */
  lemma SqrtIsUnique(x: nat, y: nat, value: nat)
    requires IsSqrt(x, value) && IsSqrt(y, value)
    ensures x == y
  {
    if x < y { SquareGrows(x + 1, y); }
    if y < x { SquareGrows(y + 1, x); }
  }

  // ------------------------------------------------------------------ the flat surface

  function FlatA(iv: nat, tau: nat): nat { (((iv * iv) / ONE) * tau) / ONE }

  function Ratio(a: nat, tau: nat): int
    requires tau > 0
  {
    (a * ONE) / tau
  }

  lemma FloorBounds(a: nat, d: nat)
    requires d > 0
    ensures 0 <= a / d && (a / d) * d <= a && a < (a / d) * d + d
  {
  }

  /** What the fixed-point multiplies and divides lose. */
  lemma RatioBounds(iv: nat, tau: nat)
    requires tau > 0
    ensures var r := Ratio(FlatA(iv, tau), tau);
            0 <= r && r * ONE <= iv * iv && r * ONE * tau > (iv * iv - 2 * ONE) * tau - ONE * ONE
  {
    var sq := iv * iv;
    var ivSq := sq / ONE;
    FloorBounds(sq, ONE);
    var p := ivSq * tau;
    Product(ivSq, tau);
    var a := p / ONE;
    FloorBounds(p, ONE);
    var w := a * ONE;
    var r := w / tau;
    FloorBounds(w, tau);
    assert (ivSq + 1) * tau == p + tau;
    assert r <= ivSq by { if r > ivSq { Scaled(ivSq + 1, r, tau); } }
    Scaled(r, ivSq, ONE);
    LowerBound(sq, ivSq, p, a, w, r, tau);
  }

  lemma LowerBound(sq: nat, ivSq: nat, p: nat, a: nat, w: nat, r: nat, tau: nat)
    requires tau > 0 && p == ivSq * tau && w == a * ONE && sq < ivSq * ONE + ONE && p < w + ONE && w < r * tau + tau
    ensures r * ONE * tau > (sq - 2 * ONE) * tau - ONE * ONE
  {
    var rt := r * tau;
    assert r * ONE * tau == rt * ONE;
    assert rt > p - ONE - tau;
    assert rt * ONE > (p - ONE - tau) * ONE;
    var pOne := ivSq * ONE;
    assert p * ONE == pOne * tau;
    ScaledInt(sq + 1 - ONE, pOne, tau);
    assert (sq + 1 - ONE) * tau == sq * tau + tau - ONE * tau;
    assert (sq - 2 * ONE) * tau == sq * tau - 2 * (ONE * tau);
  }

  /** flatSviVol(flatIvSviParams(iv)) never exceeds iv and falls short only by the rounding of three
      fixed-point operations: (vol + 1)^2 > iv^2 - 2*10^18 - 10^36/tau, here multiplied by tau. */
  method FlatSviVol(iv: nat, tau: nat) returns (vol: nat)
    requires iv > 0 && tau > 0
    ensures vol <= iv
    ensures (vol + 1) * (vol + 1) * tau > (iv * iv - 2 * ONE) * tau - ONE * ONE
  {
    var a := FlatA(iv, tau);
    var ratio := Ratio(a, tau);
    RatioBounds(iv, tau);
    vol := IntegerSqrt(ratio * ONE);
    assert (iv + 1) * (iv + 1) == iv * iv + 2 * iv + 1;
    if vol > iv { SquareGrows(iv + 1, vol); }
    Scaled(ratio * ONE, (vol + 1) * (vol + 1), tau);
  }
}
