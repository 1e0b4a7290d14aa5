/** Linear mapping between two ranges of values (src/utils/map_range.py). */
module Ranges {
  import opened Py

  /** map_range(x, X_min, X_max, Y_min, Y_max): the source divides the input
      range by the output range and then divides by that ratio, so it raises
      ZeroDivisionError when either range is empty. Otherwise the result is
      the point of the output range at the same relative position. */
  function MapRange(x: real, xMin: real, xMax: real, yMin: real, yMax: real): (r: Result<real>)
    ensures r.Err? <==> (yMax == yMin || xMax == xMin)
    ensures r.Err? ==> r.error == ZeroDivisionError
    ensures r.Ok? ==> r.value == yMin + (x - xMin) * Slope(xMin, xMax, yMin, yMax)
  {
    var xRange := xMax - xMin;
    var yRange := yMax - yMin;
    if yRange == 0.0 then Err(ZeroDivisionError)
    else
      var ratio := xRange / yRange;
      if ratio == 0.0 then Err(ZeroDivisionError)
      else
        var y := yMin + (x - xMin) / ratio;
        DivByRatio(x - xMin, xRange, yRange);
        Ok(y)
  }

  /** How much the output moves per unit of input. */
  function Slope(xMin: real, xMax: real, yMin: real, yMax: real): real
    requires xMax != xMin
  {
    (yMax - yMin) / (xMax - xMin)
  }

  lemma DivByRatio(a: real, xr: real, yr: real)
    requires xr != 0.0 && yr != 0.0
    ensures a / (xr / yr) == a * (yr / xr)
  {
    var q := xr / yr;
    var p := yr / xr;
    assert q * yr == xr;
    assert p * xr == yr;
    assert q * p == 1.0 by {
      assert q * p * xr == q * yr;
    }
    assert a / q == a * p by {
      assert (a * p) * q == a;
    }
  }

  /** The slopes of a mapping and of its inverse multiply to one. */
  lemma SlopeInverse(xMin: real, xMax: real, yMin: real, yMax: real)
    requires xMax != xMin && yMax != yMin
    ensures Slope(xMin, xMax, yMin, yMax) * Slope(yMin, yMax, xMin, xMax) == 1.0
  {
    var dx, dy := xMax - xMin, yMax - yMin;
    var k, j := dy / dx, dx / dy;
    assert k * dx == dy;
    assert j * dy == dx;
    assert (k * j) * dy == k * (j * dy);
    Cancel(k * j, 1.0, dy);
  }

  lemma Cancel(a: real, b: real, c: real)
    requires c != 0.0 && a * c == b * c
    ensures a == b
  {
    assert (a - b) * c == 0.0;
  }

  /** A quotient is positive exactly when both operands have the same sign. */
  lemma QuotientSign(a: real, b: real)
    requires a != 0.0 && b != 0.0
    ensures a / b > 0.0 <==> (a > 0.0 <==> b > 0.0)
  {
    var q := a / b;
    assert q * b == a;
    if q > 0.0 {
      if b > 0.0 { assert q * b > 0.0; } else { assert q * -b > 0.0; }
    } else {
      assert q != 0.0;
      if b > 0.0 { assert -q * b > 0.0; } else { assert -q * -b > 0.0; }
    }
  }

  /** The lower end of the input range goes to the lower end of the output range. */
  lemma MapsMinToMin(xMin: real, xMax: real, yMin: real, yMax: real)
    requires xMax != xMin && yMax != yMin
    ensures MapRange(xMin, xMin, xMax, yMin, yMax) == Ok(yMin)
  {
  }

  /** The upper end of the input range goes to the upper end of the output range. */
  lemma MapsMaxToMax(xMin: real, xMax: real, yMin: real, yMax: real)
    requires xMax != xMin && yMax != yMin
    ensures MapRange(xMax, xMin, xMax, yMin, yMax) == Ok(yMax)
  {
    var k := Slope(xMin, xMax, yMin, yMax);
    assert (xMax - xMin) * k == yMax - yMin;
  }

  /** Mapping back with the ranges swapped returns the original value. */
  lemma RoundTrip(x: real, xMin: real, xMax: real, yMin: real, yMax: real)
    requires xMax != xMin && yMax != yMin
    ensures MapRange(x, xMin, xMax, yMin, yMax).Ok?
    ensures MapRange(MapRange(x, xMin, xMax, yMin, yMax).value, yMin, yMax, xMin, xMax) == Ok(x)
  {
    var k := Slope(xMin, xMax, yMin, yMax);
    var j := Slope(yMin, yMax, xMin, xMax);
    SlopeInverse(xMin, xMax, yMin, yMax);
    var y := MapRange(x, xMin, xMax, yMin, yMax).value;
    var d := x - xMin;
    var e := d * k;
    assert y == yMin + e;
    assert y - yMin == e;
    assert e * j == d * (k * j);
    var back := MapRange(y, yMin, yMax, xMin, xMax);
    assert back.value == xMin + (y - yMin) * j;
    assert (y - yMin) * j == e * j;
    MulOne(d, k * j);
    assert back.value == x;
  }

  lemma MulOne(a: real, p: real)
    requires p == 1.0
    ensures a * p == a
  {
  }

  /** Multiplying by a positive factor keeps the order. */
  lemma MulMono(a1: real, a2: real, k: real)
    requires a1 <= a2 && k > 0.0
    ensures a1 * k <= a2 * k
  {
    assert a2 * k - a1 * k == (a2 - a1) * k;
  }

  /** When both ranges point the same way the mapping is increasing. */
  lemma Increasing(x1: real, x2: real, xMin: real, xMax: real, yMin: real, yMax: real)
    requires (xMax > xMin && yMax > yMin) || (xMax < xMin && yMax < yMin)
    requires x1 <= x2
    ensures MapRange(x1, xMin, xMax, yMin, yMax).value <= MapRange(x2, xMin, xMax, yMin, yMax).value
  {
    var k := Slope(xMin, xMax, yMin, yMax);
    QuotientSign(yMax - yMin, xMax - xMin);
    var d1, d2 := x1 - xMin, x2 - xMin;
    MulMono(d1, d2, k);
    assert MapRange(x1, xMin, xMax, yMin, yMax).value == yMin + d1 * k;
    assert MapRange(x2, xMin, xMax, yMin, yMax).value == yMin + d2 * k;
  }

  /** When the ranges point opposite ways the mapping is decreasing. */
  lemma Decreasing(x1: real, x2: real, xMin: real, xMax: real, yMin: real, yMax: real)
    requires (xMax > xMin && yMax < yMin) || (xMax < xMin && yMax > yMin)
    requires x1 <= x2
    ensures MapRange(x1, xMin, xMax, yMin, yMax).value >= MapRange(x2, xMin, xMax, yMin, yMax).value
  {
    var k := Slope(xMin, xMax, yMin, yMax);
    QuotientSign(yMax - yMin, xMax - xMin);
    var d1, d2 := x1 - xMin, x2 - xMin;
    MulMono(d1, d2, -k);
    assert d1 * -k == -(d1 * k);
    assert d2 * -k == -(d2 * k);
    assert MapRange(x1, xMin, xMax, yMin, yMax).value == yMin + d1 * k;
    assert MapRange(x2, xMin, xMax, yMin, yMax).value == yMin + d2 * k;
  }
}
