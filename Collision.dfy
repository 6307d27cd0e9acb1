/**
 * The FP3.0 collision data types: axis-aligned boxes and their overlap test,
 * the segment ray cast, contact feature identifiers with their 32-bit key,
 * and the manifold point and manifold objects with their deep copies.
 */
module Collision {
  import opened Math2D

  /** An unsigned 8-bit value, as C#'s byte. */
  newtype Byte = x: int | 0 <= x < 256

  /** Collision.NullFeature: the largest byte value (UCHAR_MAX). */
  const NullFeature: Byte := 255

  /** Settings.MaxManifoldPoints, the capacity of a manifold's point array. */
  const MaxManifoldPoints: nat := 2

  /** Settings.FLT_EPSILON, the single-precision machine epsilon. */
  const FltEpsilon: real := 0.0000001192092896

  /** The tolerance k_slop of TestSegment. */
  const KSlop: real := 100.0 * FltEpsilon

  // ---------------------------------------------------------------------------
  // Axis-aligned bounding boxes
  // ---------------------------------------------------------------------------

  datatype AABB = AABB(lowerBound: Vec2, upperBound: Vec2)

  /** Collision.TestOverlap: the two gaps between the boxes, compared component by component. */
  predicate TestOverlap(a: AABB, b: AABB)
  {
    var d1 := Sub(b.lowerBound, a.upperBound);
    var d2 := Sub(a.lowerBound, b.upperBound);
    if d1.x > 0.0 || d1.y > 0.0 then false
    else if d2.x > 0.0 || d2.y > 0.0 then false
    else true
  }

  /** AABB.IsValid: the bounds are sorted in both components. */
  predicate IsValid(a: AABB)
  {
    var d := Sub(a.upperBound, a.lowerBound);
    d.x >= 0.0 && d.y >= 0.0
  }

  /** The point p lies in the closed box a. */
  predicate Contains(a: AABB, p: Vec2)
  {
    a.lowerBound.x <= p.x <= a.upperBound.x && a.lowerBound.y <= p.y <= a.upperBound.y
  }

  /**
   * The boxes overlap exactly when each one's lower bound is not beyond the
   * other's upper bound, in both components; so the test is symmetric.
   */
  lemma OverlapCharacterized(a: AABB, b: AABB)
    ensures TestOverlap(a, b) <==>
      (b.lowerBound.x <= a.upperBound.x && b.lowerBound.y <= a.upperBound.y &&
       a.lowerBound.x <= b.upperBound.x && a.lowerBound.y <= b.upperBound.y)
    ensures TestOverlap(a, b) == TestOverlap(b, a)
  {
  }

  /** IsValid holds exactly when upper is at least lower in both components, and then the box overlaps itself. */
  lemma ValidOverlapsItself(a: AABB)
    ensures IsValid(a) <==> (a.lowerBound.x <= a.upperBound.x && a.lowerBound.y <= a.upperBound.y)
    ensures IsValid(a) ==> TestOverlap(a, a)
  {
  }

  /** Two valid boxes pass TestOverlap exactly when some point lies in both. */
  lemma OverlapIffCommonPoint(a: AABB, b: AABB)
    requires IsValid(a) && IsValid(b)
    ensures TestOverlap(a, b) <==> exists p :: Contains(a, p) && Contains(b, p)
  {
    if TestOverlap(a, b) {
      var p := Vec2(Max(a.lowerBound.x, b.lowerBound.x), Max(a.lowerBound.y, b.lowerBound.y));
      assert Contains(a, p) && Contains(b, p);
    }
    if exists p :: Contains(a, p) && Contains(b, p) {
      var p :| Contains(a, p) && Contains(b, p);
      OverlapCharacterized(a, b);
    }
  }

  // ---------------------------------------------------------------------------
  // Contact identifiers
  // ---------------------------------------------------------------------------

  /** The four feature indices that identify a contact point, one byte each. */
  datatype Features = Features(flip: Byte, incidentEdge: Byte, incidentVertex: Byte, referenceEdge: Byte)

  /** ContactID: an explicit-layout struct whose Features and uint Key share the same four bytes. */
  datatype ContactID = ContactID(features: Features)

  /**
   * ContactID.Key read through the overlay: the four feature bytes in field
   * order, as a little-endian unsigned 32-bit integer.
   */
  function Key(id: ContactID): int
  {
    var f := id.features;
    f.flip as int + 256 * (f.incidentEdge as int + 256 * (f.incidentVertex as int + 256 * f.referenceEdge as int))
  }

  /** Writing Key through the overlay: the features that a 32-bit key splits into, low byte first. */
  function ContactOfKey(k: int): ContactID
    requires 0 <= k < 0x1_0000_0000
  {
    var k1 := k / 256;
    var k2 := k1 / 256;
    var k3 := k2 / 256;
    SplitBound(k, 16777216);
    SplitBound(k1, 65536);
    SplitBound(k2, 256);
    ContactID(Features((k % 256) as Byte, (k1 % 256) as Byte, (k2 % 256) as Byte, k3 as Byte))
  }

  /** One byte split off the low end of a number. */
  lemma SplitByte(lo: int, hi: int)
    requires 0 <= lo < 256 && 0 <= hi
    ensures (lo + 256 * hi) % 256 == lo
    ensures (lo + 256 * hi) / 256 == hi
  {
    var n := lo + 256 * hi;
    assert n == 256 * hi + lo;
  }

  /** A number below 256 * m is its low byte plus 256 times a quotient below m. */
  lemma SplitBound(n: int, m: int)
    requires 0 <= n < 256 * m
    ensures 0 <= n / 256 < m
    ensures n == n % 256 + 256 * (n / 256)
  {
  }

  /** Every ContactID has a key that fits in a uint, and reading the features back through the key gives the same ID. */
  lemma {:induction false} KeyRoundTrip(id: ContactID)
    ensures 0 <= Key(id) < 0x1_0000_0000
    ensures ContactOfKey(Key(id)) == id
  {
    var f := id.features;
    var b0, b1, b2, b3 := f.flip as int, f.incidentEdge as int, f.incidentVertex as int, f.referenceEdge as int;
    var k2 := b2 + 256 * b3;
    var k1 := b1 + 256 * k2;
    var k := b0 + 256 * k1;
    assert k == Key(id);
    assert k2 < 65536;
    assert k1 < 16777216;
    SplitByte(b0, k1);
    SplitByte(b1, k2);
    SplitByte(b2, b3);
  }

  /** Every 32-bit key is the key of the features it splits into. */
  lemma {:induction false} KeyOfContact(k: int)
    requires 0 <= k < 0x1_0000_0000
    ensures Key(ContactOfKey(k)) == k
  {
    var k1 := k / 256;
    var k2 := k1 / 256;
    SplitBound(k, 16777216);
    SplitBound(k1, 65536);
    SplitBound(k2, 256);
  }

  /** Comparing keys compares all four features: the key is an injective packing. */
  lemma KeyEqualityIsFeatureEquality(a: ContactID, b: ContactID)
    ensures Key(a) == Key(b) <==> a.features == b.features
  {
    KeyRoundTrip(a);
    KeyRoundTrip(b);
  }

  // ---------------------------------------------------------------------------
  // Segment ray cast
  // ---------------------------------------------------------------------------

  datatype Segment = Segment(p1: Vec2, p2: Vec2)

  /** The out-parameters of TestSegment beside its boolean result. */
  datatype SegmentHit = SegmentHit(hit: bool, lambda: real, normal: Vec2)

  /** The unnormalised normal n = Cross(P2 - P1, 1) of a segment. */
  function SegmentNormal(self: Segment): Vec2
  {
    CrossVS(Sub(self.p2, self.p1), 1.0)
  }

  /** denom = -Dot(r, n): positive when the ray runs against the normal. */
  function Denom(self: Segment, ray: Segment): real
  {
    -Dot(Sub(ray.p2, ray.p1), SegmentNormal(self))
  }

  /** a = Dot(s - P1, n): the ray parameter of the crossing, times denom. */
  function Numer(self: Segment, ray: Segment): real
  {
    Dot(Sub(ray.p1, self.p1), SegmentNormal(self))
  }

  /** mu2 = -r.X*b.Y + r.Y*b.X: the segment parameter of the crossing, times denom. */
  function Mu2(self: Segment, ray: Segment): real
  {
    var r := Sub(ray.p2, ray.p1);
    var b := Sub(ray.p1, self.p1);
    -r.x * b.y + r.y * b.x
  }

  /**
   * len is the Euclidean length of v, as Vector2.Length computes it with a
   * square root: nonnegative, squaring to Dot(v, v), and zero only for the
   * zero vector.
   */
  predicate IsLength(len: real, v: Vec2)
  {
    len >= 0.0 && len * len == Dot(v, v) && (len == 0.0 <==> v == Zero2)
  }

  /**
   * Segment.TestSegment: casts the ray `segment` (from its P1 towards its P2,
   * scaled by up to maxLambda) against this segment. normalLength is the
   * length of n, which n.Normalize() divides by.
   */
  function TestSegment(self: Segment, segment: Segment, maxLambda: real, normalLength: real): SegmentHit
    requires IsLength(normalLength, SegmentNormal(self))
  {
    var miss := SegmentHit(false, 0.0, Zero2);
    var denom := Denom(self, segment);
    // Only a front-facing, non-parallel ray (denom above the slop) can hit.
    if denom > KSlop then
      var a := Numer(self, segment);
      // The crossing with this segment's line lies within [0, maxLambda] of the ray.
      if 0.0 <= a && a <= maxLambda * denom then
        var mu2 := Mu2(self, segment);
        // The crossing lies on the segment, up to the slop at either end.
        if -KSlop * denom <= mu2 && mu2 <= denom * (1.0 + KSlop) then
          NormalLengthPositive(self, segment, normalLength);
          SegmentHit(true, a / denom, Scale(1.0 / normalLength, SegmentNormal(self)))
        else miss
      else miss
    else miss
  }

  /** A miss leaves lambda at 0 and the normal at the zero vector. */
  lemma MissLeavesDefaults(self: Segment, segment: Segment, maxLambda: real, normalLength: real)
    requires IsLength(normalLength, SegmentNormal(self))
    ensures !TestSegment(self, segment, maxLambda, normalLength).hit ==>
      TestSegment(self, segment, maxLambda, normalLength).lambda == 0.0 &&
      TestSegment(self, segment, maxLambda, normalLength).normal == Zero2
  {
  }

  /** The three quantities of TestSegment as cross products of d = P2 - P1, r and b = s - P1. */
  lemma CrossForms(self: Segment, ray: Segment)
    ensures Denom(self, ray) == Cross(Sub(self.p2, self.p1), Sub(ray.p2, ray.p1))
    ensures Numer(self, ray) == Cross(Sub(ray.p1, self.p1), Sub(self.p2, self.p1))
    ensures Mu2(self, ray) == Cross(Sub(ray.p1, self.p1), Sub(ray.p2, ray.p1))
  {
  }

  /** Multiplying by a positive number keeps the order. */
  lemma ScaleMonotone(x: real, y: real, c: real)
    requires c > 0.0 && x <= y
    ensures x * c <= y * c
  {
    assert y * c - x * c == (y - x) * c;
  }

  /** A quotient by a positive number lies between lo and hi when the numerator lies between lo and hi times it. */
  lemma QuotientBounds(num: real, den: real, lo: real, hi: real)
    requires den > 0.0
    requires lo * den <= num <= hi * den
    ensures lo <= num / den <= hi
  {
    var q := num / den;
    assert q * den == num;
    assert (q - lo) * den >= 0.0;
    assert (hi - q) * den >= 0.0;
  }

  /**
   * Cramer's rule for s + lambda r = p1 + t d: with denom = Cross(d, r) nonzero,
   * lambda = Cross(s - p1, d) / denom and t = Cross(s - p1, r) / denom name the
   * same point.
   */
  lemma CramerCrossing(s: Vec2, r: Vec2, p1: Vec2, d: Vec2)
    requires Cross(d, r) != 0.0
    ensures Add(s, Scale(Cross(Sub(s, p1), d) / Cross(d, r), r))
         == Add(p1, Scale(Cross(Sub(s, p1), r) / Cross(d, r), d))
  {
    var b := Sub(s, p1);
    var den := Cross(d, r);
    var lambda := Cross(b, d) / den;
    var t := Cross(b, r) / den;
    assert lambda * den == Cross(b, d);
    assert t * den == Cross(b, r);
    // The 2D identity Cross(d, r) b + Cross(b, d) r = Cross(b, r) d, component by component.
    assert den * b.x + Cross(b, d) * r.x == Cross(b, r) * d.x;
    assert den * b.y + Cross(b, d) * r.y == Cross(b, r) * d.y;
    assert den * (b.x + lambda * r.x - t * d.x) == 0.0;
    assert den * (b.y + lambda * r.y - t * d.y) == 0.0;
  }

  /** Conversely, any crossing s + lambda r = p1 + t d has Cross(s - p1, d) = lambda Cross(d, r) and Cross(s - p1, r) = t Cross(d, r). */
  lemma CrossingParameters(s: Vec2, r: Vec2, p1: Vec2, d: Vec2, lambda: real, t: real)
    requires Add(s, Scale(lambda, r)) == Add(p1, Scale(t, d))
    ensures Cross(Sub(s, p1), d) == lambda * Cross(d, r)
    ensures Cross(Sub(s, p1), r) == t * Cross(d, r)
  {
    var b := Sub(s, p1);
    assert b.x == t * d.x - lambda * r.x;
    assert b.y == t * d.y - lambda * r.y;
    assert Cross(b, d) == (t * d.x - lambda * r.x) * d.y - (t * d.y - lambda * r.y) * d.x;
    assert Cross(b, r) == (t * d.x - lambda * r.x) * r.y - (t * d.y - lambda * r.y) * r.x;
  }

  /** Dividing a nonzero vector by its length gives a unit vector. */
  lemma UnitNormal(n: Vec2, len: real)
    requires IsLength(len, n) && n != Zero2
    ensures len != 0.0
    ensures Dot(Scale(1.0 / len, n), Scale(1.0 / len, n)) == 1.0
  {
    var inv := 1.0 / len;
    assert inv * len == 1.0;
    assert Dot(Scale(inv, n), Scale(inv, n)) == (inv * inv) * Dot(n, n);
    assert (inv * inv) * (len * len) == (inv * len) * (inv * len);
  }

  /** A ray that runs against this segment's normal means a segment of nonzero length. */
  lemma NormalLengthPositive(self: Segment, segment: Segment, normalLength: real)
    requires IsLength(normalLength, SegmentNormal(self))
    requires Denom(self, segment) > KSlop
    ensures SegmentNormal(self) != Zero2
    ensures normalLength > 0.0
  {
    DotZero(Sub(segment.p2, segment.p1));
  }

  /** Nothing projects onto the zero vector. */
  lemma DotZero(v: Vec2)
    ensures Dot(v, Zero2) == 0.0
  {
  }

  /** What a hit of TestSegment establishes, step by step. */
  lemma HitConditions(self: Segment, segment: Segment, maxLambda: real, normalLength: real)
    requires IsLength(normalLength, SegmentNormal(self))
    requires TestSegment(self, segment, maxLambda, normalLength).hit
    ensures Denom(self, segment) > KSlop && normalLength > 0.0
    ensures 0.0 <= Numer(self, segment) <= maxLambda * Denom(self, segment)
    ensures -KSlop * Denom(self, segment) <= Mu2(self, segment) <= (1.0 + KSlop) * Denom(self, segment)
    ensures TestSegment(self, segment, maxLambda, normalLength)
         == SegmentHit(true, Numer(self, segment) / Denom(self, segment), Scale(1.0 / normalLength, SegmentNormal(self)))
  {
    NormalLengthPositive(self, segment, normalLength);
  }

  /** At a crossing with ray parameter lambda and segment parameter t, a = lambda * denom and mu2 = t * denom. */
  lemma CrossingNumbers(self: Segment, segment: Segment, lambda: real, t: real)
    requires Add(segment.p1, Scale(lambda, Sub(segment.p2, segment.p1))) == Add(self.p1, Scale(t, Sub(self.p2, self.p1)))
    ensures Numer(self, segment) == lambda * Denom(self, segment)
    ensures Mu2(self, segment) == t * Denom(self, segment)
  {
    CrossForms(self, segment);
    CrossingParameters(segment.p1, Sub(segment.p2, segment.p1), self.p1, Sub(self.p2, self.p1), lambda, t);
  }

  /** Parameters in range, scaled by a positive denom, meet the acceptance conditions of TestSegment. */
  lemma ScaledParameters(a: real, mu2: real, denom: real, lambda: real, t: real, maxLambda: real)
    requires denom > 0.0 && a == lambda * denom && mu2 == t * denom
    requires 0.0 <= lambda <= maxLambda && -KSlop <= t <= 1.0 + KSlop
    ensures 0.0 <= a <= maxLambda * denom
    ensures -KSlop * denom <= mu2 <= denom * (1.0 + KSlop)
    ensures a / denom == lambda
  {
    ScaleMonotone(0.0, lambda, denom);
    ScaleMonotone(lambda, maxLambda, denom);
    ScaleMonotone(-KSlop, t, denom);
    ScaleMonotone(t, 1.0 + KSlop, denom);
  }

  /** The acceptance conditions of TestSegment, met, make it hit. */
  lemma HitWhen(self: Segment, segment: Segment, maxLambda: real, normalLength: real)
    requires IsLength(normalLength, SegmentNormal(self))
    requires Denom(self, segment) > KSlop
    requires 0.0 <= Numer(self, segment) <= maxLambda * Denom(self, segment)
    requires -KSlop * Denom(self, segment) <= Mu2(self, segment) <= Denom(self, segment) * (1.0 + KSlop)
    ensures TestSegment(self, segment, maxLambda, normalLength).hit
    ensures TestSegment(self, segment, maxLambda, normalLength).lambda == Numer(self, segment) / Denom(self, segment)
  {
  }

  /**
   * A hit reports a ray parameter in [0, maxLambda] for a crossing with
   * the segment at parameter Mu2/Denom, within k_slop of [0, 1].
   */
  lemma HitIsCrossing(self: Segment, segment: Segment, maxLambda: real, normalLength: real)
    requires IsLength(normalLength, SegmentNormal(self))
    requires TestSegment(self, segment, maxLambda, normalLength).hit
    ensures 0.0 <= TestSegment(self, segment, maxLambda, normalLength).lambda <= maxLambda
    ensures -KSlop <= Mu2(self, segment) / Denom(self, segment) <= 1.0 + KSlop
    ensures Add(segment.p1, Scale(TestSegment(self, segment, maxLambda, normalLength).lambda, Sub(segment.p2, segment.p1)))
         == Add(self.p1, Scale(Mu2(self, segment) / Denom(self, segment), Sub(self.p2, self.p1)))
  {
    HitConditions(self, segment, maxLambda, normalLength);
    QuotientBounds(Numer(self, segment), Denom(self, segment), 0.0, maxLambda);
    QuotientBounds(Mu2(self, segment), Denom(self, segment), -KSlop, 1.0 + KSlop);
    CrossForms(self, segment);
    CramerCrossing(segment.p1, Sub(segment.p2, segment.p1), self.p1, Sub(self.p2, self.p1));
  }

  /** A hit reports a unit normal perpendicular to the segment. */
  lemma HitNormal(self: Segment, segment: Segment, maxLambda: real, normalLength: real)
    requires IsLength(normalLength, SegmentNormal(self))
    requires TestSegment(self, segment, maxLambda, normalLength).hit
    ensures Dot(TestSegment(self, segment, maxLambda, normalLength).normal, Sub(self.p2, self.p1)) == 0.0
    ensures Dot(TestSegment(self, segment, maxLambda, normalLength).normal,
                TestSegment(self, segment, maxLambda, normalLength).normal) == 1.0
  {
    HitConditions(self, segment, maxLambda, normalLength);
    NormalLengthPositive(self, segment, normalLength);
    var n := SegmentNormal(self);
    var d := Sub(self.p2, self.p1);
    UnitNormal(n, normalLength);
    assert Dot(Scale(1.0 / normalLength, n), d) == (1.0 / normalLength) * Dot(n, d);
  }

  /**
   * Conversely, when the ray runs against the normal by more than k_slop and
   * the ray point at parameter lambda in [0, maxLambda] is the segment point
   * at a parameter t within k_slop of [0, 1], TestSegment hits and reports
   * that lambda.
   */
  lemma CrossingIsHit(self: Segment, segment: Segment, maxLambda: real, normalLength: real, lambda: real, t: real)
    requires IsLength(normalLength, SegmentNormal(self))
    requires Denom(self, segment) > KSlop
    requires 0.0 <= lambda <= maxLambda
    requires -KSlop <= t <= 1.0 + KSlop
    requires Add(segment.p1, Scale(lambda, Sub(segment.p2, segment.p1))) == Add(self.p1, Scale(t, Sub(self.p2, self.p1)))
    ensures TestSegment(self, segment, maxLambda, normalLength).hit
    ensures TestSegment(self, segment, maxLambda, normalLength).lambda == lambda
  {
    var denom := Denom(self, segment);
    CrossingNumbers(self, segment, lambda, t);
    ScaledParameters(Numer(self, segment), Mu2(self, segment), denom, lambda, t, maxLambda);
    HitWhen(self, segment, maxLambda, normalLength);
  }

  // ---------------------------------------------------------------------------
  // Manifold points and manifolds
  // ---------------------------------------------------------------------------

  /** The six fields of a manifold point, as a value. */
  datatype PointValues = PointValues(id: ContactID, localPoint1: Vec2, localPoint2: Vec2,
                                     normalImpulse: real, separation: real, tangentImpulse: real)

  /** The field values of a freshly constructed ManifoldPoint: all zero. */
  const DefaultPoint: PointValues := PointValues(ContactID(Features(0, 0, 0, 0)), Zero2, Zero2, 0.0, 0.0, 0.0)

  /** A contact point of a manifold, in the local coordinates of both bodies. */
  class ManifoldPoint {
    var id: ContactID
    var localPoint1: Vec2
    var localPoint2: Vec2
    var normalImpulse: real
    var separation: real
    var tangentImpulse: real

    function Values(): PointValues
      reads this
    {
      PointValues(id, localPoint1, localPoint2, normalImpulse, separation, tangentImpulse)
    }

    /** new ManifoldPoint(): every field at its default, zero. */
    constructor ()
      ensures Values() == DefaultPoint
    {
      id := ContactID(Features(0, 0, 0, 0));
      localPoint1 := Zero2;
      localPoint2 := Zero2;
      normalImpulse := 0.0;
      separation := 0.0;
      tangentImpulse := 0.0;
    }

    /** ManifoldPoint.Clone: a new point whose six fields equal this one's. */
    method Clone() returns (newPoint: ManifoldPoint)
      ensures fresh(newPoint)
      ensures newPoint.Values() == Values()
    {
      newPoint := new ManifoldPoint();
      newPoint.localPoint1 := localPoint1;
      newPoint.localPoint2 := localPoint2;
      newPoint.separation := separation;
      newPoint.normalImpulse := normalImpulse;
      newPoint.tangentImpulse := tangentImpulse;
      newPoint.id := id;
    }
  }

  /** The entries of a point array are all non-null and pairwise distinct objects. */
  predicate DistinctPoints(a: array<ManifoldPoint?>)
    reads a
  {
    (forall i :: 0 <= i < a.Length ==> a[i] != null) &&
    (forall i, j :: 0 <= i < j < a.Length ==> a[i] != a[j])
  }

  /** The contact points and shared normal of one shape pair, up to MaxManifoldPoints of them. */
  class Manifold {
    var normal: Vec2
    var pointCount: int
    var points: array<ManifoldPoint?>

    /**
     * new Manifold(): Normal and PointCount at their defaults, and Points an
     * array of MaxManifoldPoints distinct new points at their defaults.
     */
    constructor ()
      ensures normal == Zero2 && pointCount == 0
      ensures fresh(points) && points.Length == MaxManifoldPoints
      ensures DistinctPoints(points)
      ensures forall i :: 0 <= i < points.Length ==> fresh(points[i]) && points[i].Values() == DefaultPoint
    {
      normal := Zero2;
      pointCount := 0;
      var a := new ManifoldPoint?[MaxManifoldPoints];
      var i := 0;
      while i < MaxManifoldPoints
        invariant 0 <= i <= MaxManifoldPoints
        invariant forall k :: 0 <= k < i ==> a[k] != null && fresh(a[k]) && a[k].Values() == DefaultPoint
        invariant forall k, l :: 0 <= k < l < i ==> a[k] != a[l]
      {
        a[i] := new ManifoldPoint();
        i := i + 1;
      }
      points := a;
    }

    /**
     * Manifold.Clone: a new manifold with the same Normal and PointCount whose
     * Points array has the same length and holds a fresh copy of each point.
     * This manifold and its points are left as they were.
     */
    method Clone() returns (newManifold: Manifold)
      requires forall i :: 0 <= i < points.Length ==> points[i] != null
      ensures fresh(newManifold) && fresh(newManifold.points)
      ensures newManifold.normal == normal && newManifold.pointCount == pointCount
      ensures newManifold.points.Length == points.Length
      ensures DistinctPoints(newManifold.points)
      ensures forall i :: 0 <= i < points.Length ==>
        fresh(newManifold.points[i]) && newManifold.points[i].Values() == points[i].Values()
    {
      newManifold := new Manifold();
      newManifold.normal := normal;
      newManifold.pointCount := pointCount;
      var count := points.Length;
      var tmp := new ManifoldPoint?[count];
      var i := 0;
      while i < count
        invariant 0 <= i <= count
        invariant newManifold.normal == normal && newManifold.pointCount == pointCount
        invariant forall k :: 0 <= k < i ==>
          tmp[k] != null && fresh(tmp[k]) && tmp[k].Values() == points[k].Values()
        invariant forall k, l :: 0 <= k < l < i ==> tmp[k] != tmp[l]
      {
        tmp[i] := points[i].Clone();
        i := i + 1;
      }
      newManifold.points := tmp;
    }
  }
}
