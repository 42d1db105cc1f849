/**
 * Flooded cross-sectional area under a uniformly sloped floodplain.
 *
 * Unobstructed water of height h floods a right triangle of height h and
 * base h/s. A vertical wall whose base sits at height b replaces the
 * triangle's hypotenuse above b, so while it holds (b < h <= t) the area
 * only grows linearly in h. Every protection topology of the simulator is
 * built from these two rules.
 */
module Geometry {

  /** Unobstructed flood wedge: 0.5 * h^2 / s. */
  function Triangle(h: real, s: real): real
    requires s != 0.0
  {
    0.5 * (1.0 / s) * (h * h)
  }

  /** Area behind a wall with base b: the wedge up to b plus the strip (h - b) * b / s above it. */
  function WallBand(h: real, b: real, s: real): real
    requires s != 0.0
  {
    0.5 * b * b * (1.0 / s) + (h - b) * b * (1.0 / s)
  }

  /** One wall on the band (b, t]: the band rule inside it, the unobstructed wedge elsewhere. */
  function WallArea(h: real, b: real, t: real, s: real): real
    requires s != 0.0
  {
    if h > b && h <= t then WallBand(h, b, s) else Triangle(h, s)
  }

  /** Normalising volume of a region: the wedge flooded when the water reaches the city height. */
  function NormalisingVolume(cityHeight: real, s: real): (v: real)
    requires s != 0.0 && cityHeight != 0.0
    ensures v != 0.0
    ensures v == Triangle(cityHeight, s)
  {
    ProductNonZero(0.5 * cityHeight, 1.0 / s);
    ProductNonZero(0.5 * cityHeight * (1.0 / s), cityHeight);
    0.5 * cityHeight * (1.0 / s) * cityHeight
  }

  lemma InversePositive(s: real)
    requires s > 0.0
    ensures 1.0 / s > 0.0
  {
  }

  lemma ProductNonZero(x: real, y: real)
    requires x != 0.0 && y != 0.0
    ensures x * y != 0.0
  {
  }

  /** A common non-zero factor of numerator and denominator cancels. */
  lemma CancelFactor(a: real, x: real, c: real, y: real)
    requires c != 0.0 && y != 0.0
    ensures a * (c * x) / (c * y) == a * x / y
  {
    var q := a * x / y;
    assert a * x == q * y;
    assert a * (c * x) == c * (a * x);
    assert a * (c * x) == q * (c * y);
    ProductNonZero(c, y);
  }

  /** Two wedges on the same slope are in the ratio of their squared heights. */
  lemma TriangleRatio(cf: real, h: real, z: real, s: real)
    requires s != 0.0 && z != 0.0
    ensures Triangle(z, s) != 0.0
    ensures cf * Triangle(h, s) / Triangle(z, s) == cf * (h * h) / (z * z)
  {
    var v := NormalisingVolume(z, s);
    var k := 0.5 * (1.0 / s);
    var zz := z * z;
    assert v == k * zz;
    assert k != 0.0 && zz != 0.0;
    CancelFactor(cf, h * h, k, zz);
  }

  lemma PositiveProduct(x: real, y: real)
    requires x > 0.0 && y > 0.0
    ensures x * y > 0.0
  {
  }

  lemma MulLe(x: real, y: real, k: real)
    requires x <= y && k >= 0.0
    ensures x * k <= y * k
  {
  }

  lemma SquareLe(x: real, y: real)
    requires 0.0 <= x <= y
    ensures x * x <= y * y
  {
    MulLe(x, y, x);
    MulLe(x, y, y);
  }

  /** The area a wall saves is the wedge it cuts off: 0.5 * (h - b)^2 / s. */
  lemma WallBandGap(h: real, b: real, s: real)
    requires s != 0.0
    ensures Triangle(h, s) - WallBand(h, b, s) == 0.5 * (1.0 / s) * ((h - b) * (h - b))
  {
    var k := 1.0 / s;
    calc {
      Triangle(h, s) - WallBand(h, b, s);
      0.5 * k * (h * h) - (0.5 * b * b * k + (h - b) * b * k);
      0.5 * k * (h * h - 2.0 * h * b + b * b);
      0.5 * k * ((h - b) * (h - b));
    }
  }

  /** The band rule never exceeds the unobstructed wedge. */
  lemma WallBandBelowTriangle(h: real, b: real, s: real)
    requires s > 0.0
    ensures WallBand(h, b, s) <= Triangle(h, s)
  {
    WallBandGap(h, b, s);
    InversePositive(s);
    MulLe(0.0, (h - b) * (h - b), 0.5 * (1.0 / s));
  }

  /** A wall never increases the area; inside its band it saves exactly 0.5 * (h - b)^2 / s. */
  lemma WallAreaBelowTriangle(h: real, b: real, t: real, s: real)
    requires s > 0.0
    ensures WallArea(h, b, t, s) <= Triangle(h, s)
    ensures h > b && h <= t ==> Triangle(h, s) - WallArea(h, b, t, s) == 0.5 * (1.0 / s) * ((h - b) * (h - b))
    ensures !(h > b && h <= t) ==> WallArea(h, b, t, s) == Triangle(h, s)
  {
    WallBandGap(h, b, s);
    WallBandBelowTriangle(h, b, s);
  }

  /** The wedge grows with the water for h >= 0. */
  lemma TriangleMonotone(h1: real, h2: real, s: real)
    requires s > 0.0 && 0.0 <= h1 <= h2
    ensures Triangle(h1, s) <= Triangle(h2, s)
  {
    SquareLe(h1, h2);
    InversePositive(s);
    MulLe(h1 * h1, h2 * h2, 0.5 * (1.0 / s));
  }

  /** The band rule grows linearly with slope b / s >= 0. */
  lemma WallBandMonotone(h1: real, h2: real, b: real, s: real)
    requires s > 0.0 && b >= 0.0 && h1 <= h2
    ensures WallBand(h1, b, s) <= WallBand(h2, b, s)
  {
    InversePositive(s);
    MulLe(0.0, b, 1.0 / s);
    MulLe(h1 - b, h2 - b, b * (1.0 / s));
  }

  /** At its base the band rule meets the wedge. */
  lemma WallBandAtBase(b: real, s: real)
    requires s != 0.0
    ensures WallBand(b, b, s) == Triangle(b, s)
  {
  }

  /** For h >= 0 and a wall base b >= 0 the one-wall area is non-decreasing in h. */
  lemma WallAreaMonotone(h1: real, h2: real, b: real, t: real, s: real)
    requires s > 0.0 && b >= 0.0 && 0.0 <= h1 <= h2
    ensures WallArea(h1, b, t, s) <= WallArea(h2, b, t, s)
  {
    WallAreaBelowTriangle(h1, b, t, s);
    TriangleMonotone(h1, h2, s);
    if h2 > b && h2 <= t {
      if h1 > b {
        WallBandMonotone(h1, h2, b, s);
      } else {
        TriangleMonotone(h1, b, s);
        WallBandAtBase(b, s);
        WallBandMonotone(b, h2, b, s);
      }
    }
  }

  /**
   * Edge conventions of one wall. The base b belongs to the unobstructed
   * branch and the area leaves it continuously (linearly, with slope b/s);
   * the top t belongs to the band, and just above t the area jumps back up
   * to the wedge, by 0.5 * (t - b)^2 / s.
   */
  lemma WallAreaEdges(b: real, t: real, s: real)
    requires s > 0.0 && b < t
    ensures WallArea(b, b, t, s) == Triangle(b, s)
    ensures forall h :: b < h <= t ==> WallArea(h, b, t, s) - WallArea(b, b, t, s) == (h - b) * b * (1.0 / s)
    ensures Triangle(t, s) - WallArea(t, b, t, s) == 0.5 * (1.0 / s) * ((t - b) * (t - b))
    ensures forall h :: h > t ==> WallArea(h, b, t, s) == Triangle(h, s)
  {
    WallBandAtBase(b, s);
    WallBandGap(t, b, s);
  }
}
