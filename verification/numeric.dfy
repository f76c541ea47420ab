/**
 Small numeric vocabulary shared by every component of the simulation:
 the `min`/`max`/clamp idiom the source writes inline everywhere, on both
 Python ints and floats (modelled as Dafny `int` and exact `real`), and the
 `Option` datatype that stands for Python's `None`.
 */
module Numeric {

  /** Python's `None` or a value. */
  datatype Option<+T> = None | Some(value: T)

  /** A Python call that either returns a value or raises an exception. */
  datatype Result<+T, +E> = Ok(value: T) | Err(error: E)

  function MinReal(a: real, b: real): (r: real)
    ensures r <= a && r <= b
    ensures r == a || r == b
  {
    if a <= b then a else b
  }

  function MaxReal(a: real, b: real): (r: real)
    ensures r >= a && r >= b
    ensures r == a || r == b
  {
    if a >= b then a else b
  }

  function MinInt(a: int, b: int): (r: int)
    ensures r <= a && r <= b
    ensures r == a || r == b
  {
    if a <= b then a else b
  }

  function MaxInt(a: int, b: int): (r: int)
    ensures r >= a && r >= b
    ensures r == a || r == b
  {
    if a >= b then a else b
  }

  /** Python's `abs` on a float. */
  function AbsReal(v: real): (r: real)
    ensures r >= 0.0 && (r == v || r == -v)
  {
    if v < 0.0 then -v else v
  }

  /** `max(lo, min(v, hi))`, the clamp the source spells out on every axis.
      When the interval is empty (`lo > hi`) the lower bound wins. */
  function ClampReal(lo: real, hi: real, v: real): (r: real)
    ensures lo <= hi ==> lo <= r <= hi
    ensures lo <= v <= hi ==> r == v
    ensures v < lo ==> r == lo
    ensures lo <= hi && hi < v ==> r == hi
    ensures hi < lo ==> r == lo
  {
    MaxReal(lo, MinReal(v, hi))
  }

  /** Integer version of `ClampReal`. */
  function ClampInt(lo: int, hi: int, v: int): (r: int)
    ensures lo <= hi ==> lo <= r <= hi
    ensures lo <= v <= hi ==> r == v
    ensures v < lo ==> r == lo
    ensures lo <= hi && hi < v ==> r == hi
  {
    MaxInt(lo, MinInt(v, hi))
  }

  /** Multiplying by a non-negative factor preserves order. */
  lemma MulMonotone(x: real, y: real, z: real)
    requires 0.0 <= x && y <= z
    ensures x * y <= x * z
  {
    MulNonNegative(x, z - y);
    assert x * (z - y) == x * z - x * y;
  }

  lemma MulNonNegative(x: real, y: real)
    requires 0.0 <= x && 0.0 <= y
    ensures 0.0 <= x * y
  {
  }

  /** Dividing a non-negative value by a factor of at least 1 shrinks it. */
  lemma DivideByAtLeastOne(z: real, f: real)
    requires z >= 0.0 && f >= 1.0
    ensures 0.0 <= z / f <= z
  {
    var q := z / f;
    assert q * f == z;
    assert q >= 0.0;
    assert q * 1.0 <= q * f;
  }

  /** A fraction `u` of `d` lies between 0 and `d`. */
  lemma ScaledFraction(d: real, u: real)
    requires 0.0 <= u <= 1.0
    ensures 0.0 <= d ==> 0.0 <= d * u <= d
    ensures d <= 0.0 ==> d <= d * u <= 0.0
  {
    if 0.0 <= d {
      MulMonotone(d, 0.0, u);
      MulMonotone(d, u, 1.0);
    } else {
      var e := -d;
      MulMonotone(e, 0.0, u);
      MulMonotone(e, u, 1.0);
      assert d * u == -(e * u);
    }
  }

  /** `random.uniform(a, b)` is `a + (b - a) * random()` with `random()` in
      [0, 1]; the draw `u` stands for that `random()` value. */
  function Uniform(a: real, b: real, u: real): (r: real)
    requires 0.0 <= u <= 1.0
    ensures a <= b ==> a <= r <= b
    ensures b <= a ==> b <= r <= a
  {
    var d := b - a;
    ScaledFraction(d, u);
    var offset := d * u;
    assert b <= a ==> d <= 0.0;
    assert a <= b ==> 0.0 <= offset <= d;
    assert b <= a ==> d <= offset <= 0.0;
    a + offset
  }
}
