/** The shooting-zone detector (`CoordinateTriangle`): two triangles on the
    field, each tested with the area-sum point-in-triangle rule, each with
    its own remembered flag.

    The detector object is modelled as an immutable record; a check returns
    the updated record together with its answer. */
module Zones {
  import opened RealMath

  datatype Point = Point(x: real, y: real)

  datatype Triangle = Triangle(a: Point, b: Point, c: Point)

  /** Absolute tolerance of the area comparison and of the degeneracy guard. */
  const Epsilon: real := 0.000000001

  /** The detector's fields: the vertex coordinates of both zones (the third
      vertex of each zone reuses the first vertex's y) and the two flags. */
  datatype ShootZones = ShootZones(
    x1: real, y1: real, x2: real, y2: real, x3: real,
    x6: real, y6: real, x7: real, y7: real, x8: real,
    inFront: bool, inBack: bool)

  /** A freshly constructed detector: the field defaults and both flags off. */
  const DefaultZones: ShootZones :=
    ShootZones(15.5, 127.5, 72.0, 72.0, 128.5,
               51.0, 1.5, 72.0, 23.0, 93.0,
               false, false)

  function FrontTriangle(z: ShootZones): Triangle
  {
    Triangle(Point(z.x1, z.y1), Point(z.x2, z.y2), Point(z.x3, z.y1))
  }

  function BackTriangle(z: ShootZones): Triangle
  {
    Triangle(Point(z.x6, z.y6), Point(z.x7, z.y7), Point(z.x8, z.y6))
  }

  /** Twice the signed area of the triangle (a, b, c): the cross product of
      the edges a->b and a->c. */
  function Cross(a: Point, b: Point, c: Point): real
  {
    (b.x - a.x) * (c.y - a.y) - (c.x - a.x) * (b.y - a.y)
  }

  /** The shoelace area of the triangle (a, b, c). */
  function TriangleArea(a: Point, b: Point, c: Point): (area: real)
    ensures area >= 0.0
    ensures area == 0.0 <==> Cross(a, b, c) == 0.0
  {
    Abs(Cross(a, b, c)) / 2.0
  }

  function MainArea(t: Triangle): real
  {
    TriangleArea(t.a, t.b, t.c)
  }

  /** The areas of the three triangles the query point cuts the zone into. */
  function SubAreaSum(t: Triangle, p: Point): real
  {
    TriangleArea(p, t.b, t.c) + TriangleArea(t.a, p, t.c) + TriangleArea(t.a, t.b, p)
  }

  /** The three signed sub-areas always add up to the signed main area,
      wherever the point lies. */
  lemma CrossSplit(t: Triangle, p: Point)
    ensures Cross(p, t.b, t.c) + Cross(t.a, p, t.c) + Cross(t.a, t.b, p) == Cross(t.a, t.b, t.c)
  {
  }

  /** The sub-area sum never falls short of the main area, so the
      tolerance test `|sum - main| < Epsilon` is the one-sided test
      `sum - main < Epsilon`. */
  lemma SubAreaSumAtLeastMain(t: Triangle, p: Point)
    ensures SubAreaSum(t, p) >= MainArea(t)
  {
    CrossSplit(t, p);
  }

  /** The membership rule of both zone checks, for one triangle and one
      point. A triangle whose area is below Epsilon matches no point. */
  function Classify(t: Triangle, p: Point): (inside: bool)
    ensures MainArea(t) < Epsilon ==> !inside
    ensures inside <==> MainArea(t) >= Epsilon && SubAreaSum(t, p) - MainArea(t) < Epsilon
  {
    SubAreaSumAtLeastMain(t, p);
    var main := MainArea(t);
    if main < Epsilon then false
    else Abs(SubAreaSum(t, p) - main) < Epsilon
  }

  /** `checkIfRobotInFrontShootArea`: classifies the robot position against
      the front triangle and stores the answer in the front flag only. */
  function CheckFront(z: ShootZones, robot: Point): (r: (ShootZones, bool))
    ensures r.0.inFront == r.1
    ensures r.0 == z.(inFront := r.1)
    ensures r.1 == Classify(FrontTriangle(z), robot)
  {
    var inside := Classify(FrontTriangle(z), robot);
    (z.(inFront := inside), inside)
  }

  /** `checkIfRobotInBackShootArea`: the same rule against the back triangle,
      storing the answer in the back flag only. */
  function CheckBack(z: ShootZones, robot: Point): (r: (ShootZones, bool))
    ensures r.0.inBack == r.1
    ensures r.0 == z.(inBack := r.1)
    ensures r.1 == Classify(BackTriangle(z), robot)
  {
    var inside := Classify(BackTriangle(z), robot);
    (z.(inBack := inside), inside)
  }

  /** `isInFrontShootArea`: the last stored front answer. */
  function IsInFrontShootArea(z: ShootZones): bool
  {
    z.inFront
  }

  /** `isInBackShootArea`: the last stored back answer. */
  function IsInBackShootArea(z: ShootZones): bool
  {
    z.inBack
  }

  /** Each getter reports what the latest check of its own zone returned,
      whatever checks of the other zone happened in between. */
  lemma GettersReportLastCheck(z: ShootZones, p: Point, q: Point)
    ensures IsInFrontShootArea(CheckFront(z, p).0) == CheckFront(z, p).1
    ensures IsInBackShootArea(CheckBack(z, p).0) == CheckBack(z, p).1
    ensures IsInFrontShootArea(CheckBack(CheckFront(z, p).0, q).0) == Classify(FrontTriangle(z), p)
    ensures IsInBackShootArea(CheckFront(CheckBack(z, p).0, q).0) == Classify(BackTriangle(z), p)
  {
  }

  /** The point `a + s (b - a) + u (c - a)`. With s, u >= 0 and s + u <= 1
      these are exactly the points of the closed triangle, vertices and
      edges included. */
  function Combine(t: Triangle, s: real, u: real): Point
  {
    Point(t.a.x + s * (t.b.x - t.a.x) + u * (t.c.x - t.a.x),
          t.a.y + s * (t.b.y - t.a.y) + u * (t.c.y - t.a.y))
  }

  predicate InUnitSimplex(s: real, u: real)
  {
    s >= 0.0 && u >= 0.0 && s + u <= 1.0
  }

  /** A point of the closed triangle, given by its barycentric weights. */
  ghost predicate InClosedTriangle(t: Triangle, p: Point)
  {
    exists s, u :: InUnitSimplex(s, u) && Combine(t, s, u) == p
  }

  /** The signed sub-areas of a combination point are the weights times the
      signed main area. */
  lemma CombineSubCrosses(t: Triangle, s: real, u: real)
    ensures Cross(Combine(t, s, u), t.b, t.c) == (1.0 - s - u) * Cross(t.a, t.b, t.c)
    ensures Cross(t.a, Combine(t, s, u), t.c) == s * Cross(t.a, t.b, t.c)
    ensures Cross(t.a, t.b, Combine(t, s, u)) == u * Cross(t.a, t.b, t.c)
  {
  }

  /** For a point of the closed triangle the sub-areas add up to the main
      area exactly. */
  lemma {:induction false} ClosedTriangleSumsExactly(t: Triangle, s: real, u: real)
    requires InUnitSimplex(s, u)
    ensures SubAreaSum(t, Combine(t, s, u)) == MainArea(t)
  {
    var p := Combine(t, s, u);
    var d := Cross(t.a, t.b, t.c);
    CombineSubCrosses(t, s, u);
    WeightedAbsSum(1.0 - s - u, s, u, d);
    assert Abs(Cross(p, t.b, t.c)) + Abs(Cross(t.a, p, t.c)) + Abs(Cross(t.a, t.b, p)) == Abs(d);
  }

  /** Scaling one value by three weights that sum to one splits its
      magnitude into the three scaled magnitudes. */
  lemma WeightedAbsSum(w0: real, w1: real, w2: real, d: real)
    requires w0 >= 0.0 && w1 >= 0.0 && w2 >= 0.0 && w0 + w1 + w2 == 1.0
    ensures Abs(w0 * d) + Abs(w1 * d) + Abs(w2 * d) == Abs(d)
  {
    if d >= 0.0 {
      MulNonneg(w0, d);
      MulNonneg(w1, d);
      MulNonneg(w2, d);
      assert w0 * d + w1 * d + w2 * d == (w0 + w1 + w2) * d;
    } else {
      var e := -d;
      MulNonneg(w0, e);
      MulNonneg(w1, e);
      MulNonneg(w2, e);
      assert w0 * d == -(w0 * e) && w1 * d == -(w1 * e) && w2 * d == -(w2 * e);
      assert w0 * e + w1 * e + w2 * e == (w0 + w1 + w2) * e;
    }
  }

  /** Every point of the closed triangle (edges and vertices included) is
      reported inside, unless the triangle is degenerate. */
  lemma ClosedTriangleClassifiedInside(t: Triangle, p: Point)
    requires InClosedTriangle(t, p)
    ensures Classify(t, p) <==> MainArea(t) >= Epsilon
  {
    var s, u :| InUnitSimplex(s, u) && Combine(t, s, u) == p;
    ClosedTriangleSumsExactly(t, s, u);
  }

  /** Cramer's rule for the barycentric weights of `p`, before dividing by
      the main cross product. */
  lemma CramerIdentity(t: Triangle, p: Point)
    ensures Cross(t.a, p, t.c) * (t.b.x - t.a.x) + Cross(t.a, t.b, p) * (t.c.x - t.a.x)
         == Cross(t.a, t.b, t.c) * (p.x - t.a.x)
    ensures Cross(t.a, p, t.c) * (t.b.y - t.a.y) + Cross(t.a, t.b, p) * (t.c.y - t.a.y)
         == Cross(t.a, t.b, t.c) * (p.y - t.a.y)
  {
  }

  lemma DivideThrough(y: real, z: real, d: real, e1: real, e2: real, f: real)
    requires d != 0.0 && y * e1 + z * e2 == d * f
    ensures (y / d) * e1 + (z / d) * e2 == f
  {
    assert (y / d) * e1 + (z / d) * e2 == (y * e1 + z * e2) / d;
  }

  /** Three signed sub-areas of one sign give barycentric weights in the
      unit simplex. */
  lemma WeightsInSimplex(x: real, y: real, z: real)
    requires x + y + z != 0.0
    requires (x >= 0.0 && y >= 0.0 && z >= 0.0) || (x <= 0.0 && y <= 0.0 && z <= 0.0)
    ensures InUnitSimplex(y / (x + y + z), z / (x + y + z))
  {
    var d := x + y + z;
    if d > 0.0 {
      PositiveWeights(y, z, d);
    } else {
      NegateQuotient(y, d);
      NegateQuotient(z, d);
      PositiveWeights(-y, -z, -d);
    }
  }

  lemma PositiveWeights(y: real, z: real, d: real)
    requires d > 0.0 && y >= 0.0 && z >= 0.0 && y + z <= d
    ensures InUnitSimplex(y / d, z / d)
  {
    assert y / d + z / d == (y + z) / d;
    FractionBounds(y, d);
    FractionBounds(z, d);
    FractionBounds(y + z, d);
  }

  /** Conversely, a point whose sub-areas add up to the main area exactly
      lies in the closed triangle: the area-sum rule with no tolerance is
      precisely closed-triangle membership. */
  lemma ExactSumInClosedTriangle(t: Triangle, p: Point)
    requires MainArea(t) > 0.0
    requires SubAreaSum(t, p) == MainArea(t)
    ensures InClosedTriangle(t, p)
  {
    var x, y, z := Cross(p, t.b, t.c), Cross(t.a, p, t.c), Cross(t.a, t.b, p);
    var d := Cross(t.a, t.b, t.c);
    CrossSplit(t, p);
    assert Abs(x) + Abs(y) + Abs(z) == Abs(d);
    SameSignFromAbsSum(x, y, z);
    WeightsInSimplex(x, y, z);
    var s, u := y / d, z / d;
    CramerIdentity(t, p);
    DivideThrough(y, z, d, t.b.x - t.a.x, t.c.x - t.a.x, p.x - t.a.x);
    DivideThrough(y, z, d, t.b.y - t.a.y, t.c.y - t.a.y, p.y - t.a.y);
    CombineHits(t, p, s, u);
  }

  /** Magnitudes add up exactly only when no two terms have opposite
      signs. */
  lemma SameSignFromAbsSum(x: real, y: real, z: real)
    requires Abs(x) + Abs(y) + Abs(z) == Abs(x + y + z)
    ensures (x >= 0.0 && y >= 0.0 && z >= 0.0) || (x <= 0.0 && y <= 0.0 && z <= 0.0)
  {
  }

  /** Weights that reproduce the offset of `p` from the first vertex along
      both axes name `p` as a combination point. */
  lemma CombineHits(t: Triangle, p: Point, s: real, u: real)
    requires s * (t.b.x - t.a.x) + u * (t.c.x - t.a.x) == p.x - t.a.x
    requires s * (t.b.y - t.a.y) + u * (t.c.y - t.a.y) == p.y - t.a.y
    ensures Combine(t, s, u) == p
  {
  }

  /** Neither default zone is degenerate, so both checks can report true;
      the front zone's vertex at the field centre is inside it, and a
      field corner is in neither zone. */
  lemma DefaultZonesUsable()
    ensures MainArea(FrontTriangle(DefaultZones)) == 3135.75
    ensures MainArea(BackTriangle(DefaultZones)) == 451.5
    ensures CheckFront(DefaultZones, Point(72.0, 72.0)).1
    ensures CheckBack(DefaultZones, Point(72.0, 10.0)).1
    ensures !CheckFront(DefaultZones, Point(0.0, 0.0)).1
    ensures !CheckBack(DefaultZones, Point(0.0, 0.0)).1
  {
    assert Cross(Point(15.5, 127.5), Point(72.0, 72.0), Point(128.5, 127.5)) == 6271.5;
    assert Cross(Point(51.0, 1.5), Point(72.0, 23.0), Point(93.0, 1.5)) == -903.0;
  }
}
