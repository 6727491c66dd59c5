/** `Box2`, the axis-aligned box of the minifier, identical in both variants
    (minify230/minifier.py:8-22, combiner230/minifier.py:11-25), and the componentwise
    min/max update both `minify` loops apply to it. */
module Box {

  /** The (u, v) part of a pixel-space texcoord, the only part a box reads. */
  datatype Vec2 = Vec2(x: real, y: real)

  datatype Box2 = Box2(min: Vec2, max: Vec2)

  /** `Box2.width`. */
  function Width(b: Box2): real {
    b.max.x - b.min.x
  }

  /** `Box2.height`. */
  function Height(b: Box2): real {
    b.max.y - b.min.y
  }

  /** `Box2.__contains__`: both components lie between min and max. */
  predicate Contains(b: Box2, p: Vec2) {
    b.min.x <= p.x <= b.max.x && b.min.y <= p.y <= b.max.y
  }

  /** `outer` reaches at least as far as `inner` on every side. */
  predicate Encloses(outer: Box2, inner: Box2) {
    outer.min.x <= inner.min.x && outer.min.y <= inner.min.y && inner.max.x <= outer.max.x && inner.max.y <= outer.max.y
  }

  function Min(a: real, b: real): real {
    if a <= b then a else b
  }

  function Max(a: real, b: real): real {
    if a >= b then a else b
  }

  /** `Box2(p, p)`: the box of one point. */
  function PointBox(p: Vec2): (b: Box2)
    ensures Contains(b, p) && Width(b) == 0.0 && Height(b) == 0.0
    ensures forall c: Box2 :: Contains(c, p) ==> Encloses(c, b)
  {
    Box2(p, p)
  }

  /** `box.min = (min(...), min(...)); box.max = (max(...), max(...))`: the least box that
      encloses `b` and contains `p`. */
  function Extend(b: Box2, p: Vec2): (r: Box2)
    ensures Encloses(r, b) && Contains(r, p)
    ensures forall c: Box2 :: Encloses(c, b) && Contains(c, p) ==> Encloses(c, r)
    ensures r.min.x == b.min.x || r.min.x == p.x
    ensures r.min.y == b.min.y || r.min.y == p.y
    ensures r.max.x == b.max.x || r.max.x == p.x
    ensures r.max.y == b.max.y || r.max.y == p.y
  {
    Box2(Vec2(Min(b.min.x, p.x), Min(b.min.y, p.y)), Vec2(Max(b.max.x, p.x), Max(b.max.y, p.y)))
  }

  /** A box grows under Extend exactly when the point lies outside it. */
  lemma ExtendKeepsBoxIffContained(b: Box2, p: Vec2)
    ensures Extend(b, p) == b <==> Contains(b, p)
  {
  }

  /** Every point of a box lies within `Width` and `Height` of its minimum corner. */
  lemma OffsetsWithinSize(b: Box2, p: Vec2)
    requires Contains(b, p)
    ensures 0.0 <= p.x - b.min.x <= Width(b) && 0.0 <= p.y - b.min.y <= Height(b)
    ensures 0.0 <= b.max.y - p.y <= Height(b)
  {
  }

  /** `math.ceil`: the least integer not below `r`. */
  function Ceil(r: real): (n: int)
    ensures r <= n as real < r + 1.0
  {
    if r.Floor as real == r then r.Floor else r.Floor + 1
  }
}
