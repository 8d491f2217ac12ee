/** Number formatting as the core uses it: `Number(x.toFixed(d))` on exact reals. */
module Numbers {

  function Abs(x: real): (r: real)
    ensures r >= 0.0 && (r == x || r == -x)
  {
    if x < 0.0 then -x else x
  }

  function Pow10(d: nat): (r: nat)
    ensures r >= 1
  {
    if d == 0 then 1 else 10 * Pow10(d - 1)
  }

  /** The number of 10^-d steps `x.toFixed(d)` writes: the nearest integer to x * 10^d,
      ties away from zero (toFixed rounds the magnitude and keeps the sign). */
  function Units(x: real, d: nat): (n: int)
    ensures x >= 0.0 ==> n >= 0
    ensures x <= 0.0 ==> n <= 0
  {
    var s := Pow10(d) as real;
    if x < 0.0 then -((-x * s + 0.5).Floor) else (x * s + 0.5).Floor
  }

  /** `Number(x.toFixed(d))`. On exact decimals this is what `toFixed` computes; its
      binary representation error is not modelled. */
  function RoundTo(x: real, d: nat): (r: real)
    ensures x >= 0.0 ==> r >= 0.0
    ensures x <= 0.0 ==> r <= 0.0
  {
    Units(x, d) as real / Pow10(d) as real
  }

  lemma ScaleMonotone(x: real, y: real, s: real)
    requires x <= y && s > 0.0
    ensures x * s <= y * s && x / s <= y / s
  {
  }

  /** A count out of a positive total, as a percentage, lies between 0 and 100. */
  lemma ShareBounds(c: nat, n: nat)
    requires 0 < n && c <= n
    ensures 0.0 <= c as real / n as real * 100.0 <= 100.0
  {
    ScaleMonotone(0.0, c as real, n as real);
    ScaleMonotone(c as real, n as real, n as real);
  }

  lemma UnitsMonotone(x: real, y: real, d: nat)
    requires x <= y
    ensures Units(x, d) <= Units(y, d)
  {
    var s := Pow10(d) as real;
    ScaleMonotone(x, y, s);
    if y < 0.0 {
      ScaleMonotone(-y, -x, s);
    }
  }

  /** Rounding never reverses the order of two numbers. */
  lemma RoundToMonotone(x: real, y: real, d: nat)
    requires x <= y
    ensures RoundTo(x, d) <= RoundTo(y, d)
  {
    UnitsMonotone(x, y, d);
    ScaleMonotone(Units(x, d) as real, Units(y, d) as real, Pow10(d) as real);
  }

  /** A whole number is left alone by rounding to any number of decimals. */
  lemma RoundToWhole(n: int, d: nat)
    ensures RoundTo(n as real, d) == n as real
  {
    var s := Pow10(d);
    if n >= 0 {
      assert (n as real) * (s as real) == (n * s) as real;
      assert ((n as real) * (s as real) + 0.5).Floor == n * s;
    } else {
      assert -(n as real) * (s as real) == (-n * s) as real;
      assert (-(n as real) * (s as real) + 0.5).Floor == -n * s;
    }
    assert Units(n as real, d) == n * s;
    assert (n * s) as real == (n as real) * (s as real);
  }
}
