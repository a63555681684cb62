/** Vectors, rays and quads of the spatial grid, with float32 read as real. */
module Geometry {
  import opened CellMath
  import opened Options

  datatype Vector3f = Vector3f(x: real, y: real, z: real)

  function Add(a: Vector3f, b: Vector3f): Vector3f {
    Vector3f(a.x + b.x, a.y + b.y, a.z + b.z)
  }

  function Sub(a: Vector3f, b: Vector3f): Vector3f {
    Vector3f(a.x - b.x, a.y - b.y, a.z - b.z)
  }

  function Mul(a: Vector3f, s: real): Vector3f {
    Vector3f(a.x * s, a.y * s, a.z * s)
  }

  function Dot(a: Vector3f, b: Vector3f): real {
    a.x * b.x + a.y * b.y + a.z * b.z
  }

  predicate EqualWithEpsilon(a: real, b: real, epsilon: real) {
    Abs(a - b) <= epsilon
  }

  predicate InRangeWithEpsilon(value: real, min: real, max: real, epsilon: real) {
    value + epsilon >= min && value - epsilon <= max
  }

  datatype Ray = Ray(from: Vector3f, to: Vector3f) {
    predicate Vertical() {
      from.x == to.x && from.z == to.z
    }
  }

  /** Distance along a ray, with the infinity the search starts from. */
  datatype Distance = Finite(t: real) | Infinite {
    predicate Less(other: Distance) {
      Finite? && (other.Infinite? || t < other.t)
    }
  }

  const MERGE_EPSILON := 0.6
  const HIT_EPSILON := 0.0001
  const MERGE_RATE := 0.2

  /** What a quad looks like at one moment: the extents are half sizes, the normal is implicit. */
  datatype Shape = Shape(center: Vector3f, extents: Vector3f, normal: Vector3f) {

    function MinPoint(): Vector3f {
      Sub(center, extents)
    }

    function MaxPoint(): Vector3f {
      Add(center, extents)
    }

    predicate NonNegative() {
      extents.x >= 0.0 && extents.y >= 0.0 && extents.z >= 0.0
    }

    predicate Contains(p: Vector3f, epsilon: real) {
      && InRangeWithEpsilon(p.x, MinPoint().x, MaxPoint().x, epsilon)
      && InRangeWithEpsilon(p.y, MinPoint().y, MaxPoint().y, epsilon)
      && InRangeWithEpsilon(p.z, MinPoint().z, MaxPoint().z, epsilon)
    }

    /** Where along the ray the quad's plane is crossed, if it is crossed between the ray's ends. */
    function Crossing(r: Ray): Option<real> {
      var denominator := Dot(normal, Sub(r.to, r.from));
      if denominator == 0.0 then None
      else
        var t := (Dot(normal, center) - Dot(normal, r.from)) / denominator;
        if 0.0 <= t <= 1.0 then Some(t) else None
    }

    function IntersectQuad(r: Ray): Option<real> {
      HitWithin(r, HIT_EPSILON)
    }

    /** The same test with another tolerance on the bounds; 0 gives the exact bounds. */
    function HitWithin(r: Ray, epsilon: real): Option<real> {
      match Crossing(r)
      case None => None
      case Some(t) =>
        if Contains(Add(r.from, Mul(Sub(r.to, r.from), t)), epsilon) then Some(t) else None
    }

    predicate Overlaps(other: Shape) {
      && MinPoint().x < other.MaxPoint().x && other.MinPoint().x < MaxPoint().x
      && MinPoint().z < other.MaxPoint().z && other.MinPoint().z < MaxPoint().z
    }

    /** The shape this quad takes when `other` is merged into it; the normal stays. */
    function Merge(other: Shape): Shape {
      Shape(Add(center, Mul(Sub(other.center, center), MERGE_RATE)),
            Add(extents, Mul(Sub(other.extents, extents), MERGE_RATE)),
            normal)
    }
  }

  function UpRay(c: Vector3f): Ray {
    Ray(c, Vector3f(c.x, c.y + (MERGE_EPSILON + 1.0), c.z))
  }

  function DownRay(c: Vector3f): Ray {
    Ray(c, Vector3f(c.x, c.y - (MERGE_EPSILON + 1.0), c.z))
  }

  /** The bounds are half an extent to either side of the centre, on each axis. */
  lemma Bounds(s: Shape)
    ensures s.MinPoint() == Vector3f(s.center.x - s.extents.x, s.center.y - s.extents.y, s.center.z - s.extents.z)
    ensures s.MaxPoint() == Vector3f(s.center.x + s.extents.x, s.center.y + s.extents.y, s.center.z + s.extents.z)
  {
  }

  /** The point that a share `t` of the way along a ray leads to. */
  function PointAt(r: Ray, t: real): Vector3f {
    Vector3f(r.from.x + t * (r.to.x - r.from.x), r.from.y + t * (r.to.y - r.from.y), r.from.z + t * (r.to.z - r.from.z))
  }

  /** The point is within `epsilon` of all six bounds. */
  predicate WithinBounds(s: Shape, p: Vector3f, epsilon: real) {
    && s.center.x - s.extents.x - epsilon <= p.x <= s.center.x + s.extents.x + epsilon
    && s.center.y - s.extents.y - epsilon <= p.y <= s.center.y + s.extents.y + epsilon
    && s.center.z - s.extents.z - epsilon <= p.z <= s.center.z + s.extents.z + epsilon
  }

  /** The point lies in the plane of the quad. */
  predicate InPlane(s: Shape, p: Vector3f) {
    s.normal.x * (p.x - s.center.x) + s.normal.y * (p.y - s.center.y) + s.normal.z * (p.z - s.center.z) == 0.0
  }

  /** The ray does not run along the plane of the quad. */
  predicate Crosses(s: Shape, r: Ray) {
    s.normal.x * (r.to.x - r.from.x) + s.normal.y * (r.to.y - r.from.y) + s.normal.z * (r.to.z - r.from.z) != 0.0
  }

  lemma Scaled(n: real, f: real, d: real, c: real, t: real)
    ensures n * (f + t * d - c) == n * f - n * c + t * (n * d)
  {
  }

  lemma QuotientIs(a: real, b: real, t: real)
    requires b != 0.0
    ensures t == a / b <==> t * b == a
  {
  }

  lemma PlaneAt(s: Shape, r: Ray, t: real)
    requires Crosses(s, r)
    ensures var d := Sub(r.to, r.from);
      Dot(s.normal, d) != 0.0
      && (InPlane(s, PointAt(r, t)) <==> t == (Dot(s.normal, s.center) - Dot(s.normal, r.from)) / Dot(s.normal, d))
  {
    var n, c, f, d := s.normal, s.center, r.from, Sub(r.to, r.from);
    Scaled(n.x, f.x, d.x, c.x, t);
    Scaled(n.y, f.y, d.y, c.y, t);
    Scaled(n.z, f.z, d.z, c.z, t);
    QuotientIs(Dot(n, c) - Dot(n, f), Dot(n, d), t);
    assert t * Dot(n, d) == t * (n.x * d.x) + t * (n.y * d.y) + t * (n.z * d.z);
  }

  lemma PointIs(r: Ray, t: real)
    ensures PointAt(r, t) == Add(r.from, Mul(Sub(r.to, r.from), t))
  {
  }

  lemma BoundsIff(s: Shape, p: Vector3f, epsilon: real)
    ensures s.Contains(p, epsilon) <==> WithinBounds(s, p, epsilon)
  {
  }

  /** The point at `t` is between the ray's ends, in the quad's plane, and within the tolerance of all six bounds; a ray along
      the plane meets nothing. */
  predicate Meets(s: Shape, r: Ray, t: real, epsilon: real) {
    Crosses(s, r) && 0.0 <= t <= 1.0 && InPlane(s, PointAt(r, t)) && WithinBounds(s, PointAt(r, t), epsilon)
  }

  /** That is when a ray hits a quad. */
  lemma HitIff(s: Shape, r: Ray, epsilon: real, t: real)
    ensures s.HitWithin(r, epsilon) == Some(t) <==> Meets(s, r, t, epsilon)
  {
    hide InPlane, WithinBounds, Shape.Contains, PointAt;
    if Crosses(s, r) {
      PlaneAt(s, r, t);
      PointIs(r, t);
      BoundsIff(s, PointAt(r, t), epsilon);
    }
  }

  /** The quad test itself allows for a tolerance of a ten-thousandth. */
  lemma IntersectIff(s: Shape, r: Ray, t: real)
    ensures s.IntersectQuad(r) == Some(t) <==> Meets(s, r, t, 0.0001)
  {
    HitIff(s, r, 0.0001, t);
  }

  /** A vertical ray through the bounds of a flat quad hits it where it crosses the quad's height. */
  lemma FlatHit(s: Shape, r: Ray, t: real)
    requires s.NonNegative() && s.normal.x == 0.0 && s.normal.z == 0.0 && s.normal.y != 0.0
    requires r.Vertical() && s.center.x - s.extents.x <= r.from.x <= s.center.x + s.extents.x
    requires s.center.z - s.extents.z <= r.from.z <= s.center.z + s.extents.z
    requires r.from.y != r.to.y && 0.0 <= t <= 1.0 && r.from.y + t * (r.to.y - r.from.y) == s.center.y
    ensures Meets(s, r, t, 0.0) && s.HitWithin(r, 0.0) == Some(t) == s.IntersectQuad(r)
  {
    hide Shape.HitWithin, Shape.IntersectQuad;
    HitIff(s, r, 0.0, t);
    IntersectIff(s, r, t);
    assert PointAt(r, t) == Vector3f(r.from.x, s.center.y, r.from.z);
    assert s.normal.y * (r.to.y - r.from.y) != 0.0;
  }

  /** Two quads overlap if and only if on both horizontal axes the centres are closer than the half sizes add up to. */
  lemma OverlapIff(a: Shape, b: Shape)
    ensures a.Overlaps(b) <==>
      Abs(a.center.x - b.center.x) < a.extents.x + b.extents.x && Abs(a.center.z - b.center.z) < a.extents.z + b.extents.z
  {
  }

  /** A merge moves every bound a fifth of the way to the other quad's bound. */
  lemma MergeBounds(a: Shape, b: Shape)
    ensures var m := a.Merge(b);
      && m.MinPoint().x == 0.8 * a.MinPoint().x + 0.2 * b.MinPoint().x
      && m.MaxPoint().x == 0.8 * a.MaxPoint().x + 0.2 * b.MaxPoint().x
      && m.MinPoint().y == 0.8 * a.MinPoint().y + 0.2 * b.MinPoint().y
      && m.MaxPoint().y == 0.8 * a.MaxPoint().y + 0.2 * b.MaxPoint().y
      && m.MinPoint().z == 0.8 * a.MinPoint().z + 0.2 * b.MinPoint().z
      && m.MaxPoint().z == 0.8 * a.MaxPoint().z + 0.2 * b.MaxPoint().z
      && m.normal == a.normal
    ensures a.NonNegative() && b.NonNegative() ==> a.Merge(b).NonNegative()
  {
  }

  /** Overlapping quads keep overlapping their own merge, and the merge has an interior. */
  lemma MergeOverlap(a: Shape, b: Shape)
    requires a.NonNegative() && b.NonNegative() && a.Overlaps(b)
    ensures var m := a.Merge(b);
      && m.Overlaps(m)
      && m.MinPoint().x <= a.MaxPoint().x && a.MinPoint().x <= m.MaxPoint().x
      && m.MinPoint().z <= a.MaxPoint().z && a.MinPoint().z <= m.MaxPoint().z
  {
    MergeBounds(a, b);
  }

  /** A merge reaches the other centre only if it started there. */
  lemma MergeCentre(a: Shape, b: Shape)
    ensures a.Merge(b).center == b.center <==> a.center == b.center
  {
    assert a.Merge(b).center.x - b.center.x == 0.8 * (a.center.x - b.center.x);
    assert a.Merge(b).center.y - b.center.y == 0.8 * (a.center.y - b.center.y);
    assert a.Merge(b).center.z - b.center.z == 0.8 * (a.center.z - b.center.z);
  }

  lemma SelfMerge(a: Shape)
    ensures a.Merge(a) == a
  {
  }

  /** A vertical ray can only hit a quad whose normal has a vertical part. */
  lemma VerticalHit(a: Shape, r: Ray, epsilon: real)
    requires r.Vertical() && a.HitWithin(r, epsilon).Some?
    ensures a.normal.y != 0.0
    ensures InRangeWithEpsilon(r.from.x, a.MinPoint().x, a.MaxPoint().x, epsilon)
    ensures InRangeWithEpsilon(r.from.z, a.MinPoint().z, a.MaxPoint().z, epsilon)
  {
    var d := Sub(r.to, r.from);
    assert Dot(a.normal, d) == a.normal.y * d.y;
    var t := a.Crossing(r).value;
    assert Mul(d, t).x == 0.0 && Mul(d, t).z == 0.0;
  }

  /** A loosened bound never loses a hit, and never moves it. */
  lemma LooserHit(a: Shape, r: Ray, tight: real, loose: real)
    requires tight <= loose && a.HitWithin(r, tight).Some?
    ensures a.HitWithin(r, loose) == a.HitWithin(r, tight)
  {
  }

  /** A ray that starts in a quad's own centre hits it at distance zero. */
  lemma HitOwnCentre(a: Shape, r: Ray)
    requires a.NonNegative() && r.from == a.center && Dot(a.normal, Sub(r.to, r.from)) != 0.0
    ensures a.IntersectQuad(r) == Some(0.0)
  {
    assert a.Crossing(r) == Some(0.0);
    assert Add(r.from, Mul(Sub(r.to, r.from), 0.0)) == a.center;
  }
}
