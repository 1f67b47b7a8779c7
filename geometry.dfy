/** Points of the plane and the affine maps a contraction-mapping row describes. */
module Geometry {

  /** A point `(x, y)`; the engine only ever builds new points, never updates one. */
  datatype Point = Point(x: real, y: real) {

    /** The image of this point under the affine map
        `(x, y) |-> (a*x + b*y + e, c*x + d*y + f)` whose coefficients are the
        first six entries `a b c d e f` of `m`; a seventh entry (the weight)
        takes no part. */
    function Times(m: seq<real>): (r: Point)
      requires |m| >= CoefficientCount
      ensures r.x == m[0] * x + m[1] * y + m[4]
      ensures r.y == m[2] * x + m[3] * y + m[5]
    {
      Point(m[0] * x + m[1] * y + m[4], m[2] * x + m[3] * y + m[5])
    }
  }

  /** Where every engine starts: the default `Point` is `(0, 0)`. */
  const Origin := Point(0.0, 0.0)

  /** A row `a b c d e f [p]` needs at least the six coefficients to be applied. */
  const CoefficientCount := 6

  /** The affine combination `(1 - t)*p + t*q`. */
  function Mix(p: Point, q: Point, t: real): Point
  {
    Point((1.0 - t) * p.x + t * q.x, (1.0 - t) * p.y + t * q.y)
  }

  /** The origin is sent to the translation part `(e, f)` of the map. */
  lemma TimesOrigin(m: seq<real>)
    requires |m| >= CoefficientCount
    ensures Origin.Times(m) == Point(m[4], m[5])
  {
  }

  /** `Times` is affine: it maps an affine combination of two points to the
      same combination of their images. */
  lemma TimesPreservesMix(m: seq<real>, p: Point, q: Point, t: real)
    requires |m| >= CoefficientCount
    ensures Mix(p, q, t).Times(m) == Mix(p.Times(m), q.Times(m), t)
  {
    var mx, ip, iq := Mix(p, q, t), p.Times(m), q.Times(m);
    AffineRowMix(m[0], m[1], m[4], p.x, p.y, q.x, q.y, t);
    AffineRowMix(m[2], m[3], m[5], p.x, p.y, q.x, q.y, t);
    assert mx.Times(m).x == (1.0 - t) * ip.x + t * iq.x;
    assert mx.Times(m).y == (1.0 - t) * ip.y + t * iq.y;
  }

  /** One coordinate of an affine map, `k*x + l*y + o`, commutes with the
      combination `(1 - t)*p + t*q`. */
  lemma AffineRowMix(k: real, l: real, o: real, px: real, py: real, qx: real, qy: real, t: real)
    ensures k * ((1.0 - t) * px + t * qx) + l * ((1.0 - t) * py + t * qy) + o
         == (1.0 - t) * (k * px + l * py + o) + t * (k * qx + l * qy + o)
  {
  }

  /** The weight entry of a seven-entry row has no effect on the map. */
  lemma TimesIgnoresWeight(m: seq<real>, w: real, p: Point)
    requires |m| == CoefficientCount
    ensures p.Times(m + [w]) == p.Times(m)
  {
  }

  /** The map `(0, 0, 0, 0, 1, 2)` sends the origin to `(1, 2)`. */
  lemma TranslationSendsOriginToOffset()
    ensures Origin.Times([0.0, 0.0, 0.0, 0.0, 1.0, 2.0]) == Point(1.0, 2.0)
  {
  }
}
