/** Points and axis-aligned boxes. Coordinates are reals: no rounding, NaN or infinity. */
module Geometry {
  datatype Vec3 = Vec3(x: real, y: real, z: real) {
    function At(axis: nat): real
      requires axis < 3
    {
      if axis == 0 then x else if axis == 1 then y else z
    }
  }

  function Min(a: real, b: real): real { if a <= b then a else b }

  function Max(a: real, b: real): real { if a >= b then a else b }

  datatype Aabb = Aabb(min: Vec3, max: Vec3) {

    function Union(other: Aabb): (r: Aabb)
      ensures r.Covers(this) && r.Covers(other)
      ensures forall c: Aabb :: c.Covers(this) && c.Covers(other) ==> c.Covers(r)
    {
      Aabb(Vec3(Min(min.x, other.min.x), Min(min.y, other.min.y), Min(min.z, other.min.z)),
           Vec3(Max(max.x, other.max.x), Max(max.y, other.max.y), Max(max.z, other.max.z)))
    }

    function Center(): Vec3 {
      Vec3((min.x + max.x) * 0.5, (min.y + max.y) * 0.5, (min.z + max.z) * 0.5)
    }

    predicate Contains(other: Aabb, eps: real) {
      && min.x - eps <= other.min.x && max.x + eps >= other.max.x
      && min.y - eps <= other.min.y && max.y + eps >= other.max.y
      && min.z - eps <= other.min.z && max.z + eps >= other.max.z
    }

    predicate Intersects(other: Aabb) {
      && max.x >= other.min.x && min.x <= other.max.x
      && max.y >= other.min.y && min.y <= other.max.y
      && max.z >= other.min.z && min.z <= other.max.z
    }

    /** Exact containment, the order in which `Union` is a least upper bound. */
    predicate Covers(other: Aabb) {
      && min.x <= other.min.x && max.x >= other.max.x
      && min.y <= other.min.y && max.y >= other.max.y
      && min.z <= other.min.z && max.z >= other.max.z
    }

    predicate Valid() {
      min.x <= max.x && min.y <= max.y && min.z <= max.z
    }

    predicate Has(p: Vec3) {
      && min.x <= p.x <= max.x
      && min.y <= p.y <= max.y
      && min.z <= p.z <= max.z
    }

    predicate NearEq(other: Aabb, eps: real) {
      && -eps <= min.x - other.min.x <= eps && -eps <= max.x - other.max.x <= eps
      && -eps <= min.y - other.min.y <= eps && -eps <= max.y - other.max.y <= eps
      && -eps <= min.z - other.min.z <= eps && -eps <= max.z - other.max.z <= eps
    }

    function LongestAxis(): (axis: nat)
      ensures axis < 3
      ensures forall k: nat :: k < 3 ==> max.At(k) - min.At(k) <= max.At(axis) - min.At(axis)
      ensures forall k: nat :: k < axis ==> max.At(k) - min.At(k) < max.At(axis) - min.At(axis)
    {
      var ex, ey, ez := max.x - min.x, max.y - min.y, max.z - min.z;
      if ex >= ey && ex >= ez then 0 else if ey >= ez then 1 else 2
    }
  }

  const ORIGIN_BOX := Aabb(Vec3(0.0, 0.0, 0.0), Vec3(0.0, 0.0, 0.0))

  /** Two valid boxes intersect exactly when they share a point. */
  lemma {:induction false} IntersectsIffCommonPoint(a: Aabb, b: Aabb)
    requires a.Valid() && b.Valid()
    ensures a.Intersects(b) <==> exists p :: a.Has(p) && b.Has(p)
  {
    if a.Intersects(b) {
      var p := Vec3(Max(a.min.x, b.min.x), Max(a.min.y, b.min.y), Max(a.min.z, b.min.z));
      assert a.Has(p) && b.Has(p);
    }
  }

  /** A box is valid exactly when some point lies in it. */
  lemma {:induction false} ValidIffInhabited(a: Aabb)
    ensures a.Valid() <==> exists p :: a.Has(p)
  {
    if a.Valid() {
      assert a.Has(a.min);
    }
  }

  /** The centre is as far from either face, along every axis. */
  lemma {:induction false} CenterIsMiddle(a: Aabb, axis: nat)
    requires axis < 3
    ensures a.Center().At(axis) - a.min.At(axis) == a.max.At(axis) - a.Center().At(axis)
  {
  }

  /** Containing with a tolerance: every point of the other box lies in this one with its faces moved out. */
  lemma {:induction false} ContainsIff(a: Aabb, b: Aabb, eps: real)
    requires b.Valid()
    ensures a.Contains(b, eps) <==> forall p: Vec3 :: b.Has(p) ==> Near(a, p, eps)
  {
    if forall p: Vec3 :: b.Has(p) ==> Near(a, p, eps) {
      assert b.Has(b.min) && b.Has(b.max);
      assert Near(a, b.min, eps) && Near(a, b.max, eps);
    }
  }

  /** Along each axis, a point is no further than `eps` outside a box. */
  ghost predicate Near(a: Aabb, p: Vec3, eps: real) {
    && a.min.x - eps <= p.x <= a.max.x + eps
    && a.min.y - eps <= p.y <= a.max.y + eps
    && a.min.z - eps <= p.z <= a.max.z + eps
  }

  /** Nearly equal boxes contain each other, up to the same tolerance. */
  lemma {:induction false} NearEqIff(a: Aabb, b: Aabb, eps: real)
    ensures a.NearEq(b, eps) <==> a.Contains(b, eps) && b.Contains(a, eps)
  {
  }

  /** The least box over a collection: covers every member, and every box that does so covers it. */
  ghost predicate IsHull(box: Aabb, boxes: seq<Aabb>) {
    && (forall i :: 0 <= i < |boxes| ==> box.Covers(boxes[i]))
    && (forall c: Aabb :: CoversAll(c, boxes) ==> c.Covers(box))
  }

  ghost predicate CoversAll(c: Aabb, boxes: seq<Aabb>) {
    forall i :: 0 <= i < |boxes| ==> c.Covers(boxes[i])
  }

  /** Running union of a non-empty list, as the fold in both crates computes it. */
  function UnionFold(boxes: seq<Aabb>): Aabb
    requires boxes != []
  {
    if |boxes| == 1 then boxes[0] else UnionFold(boxes[..|boxes| - 1]).Union(boxes[|boxes| - 1])
  }

  lemma {:induction false} UnionFoldIsHull(boxes: seq<Aabb>)
    requires boxes != []
    ensures IsHull(UnionFold(boxes), boxes)
  {
    if |boxes| > 1 {
      var init := boxes[..|boxes| - 1];
      UnionFoldIsHull(init);
      forall i | 0 <= i < |boxes| ensures UnionFold(boxes).Covers(boxes[i]) {
        if i < |boxes| - 1 { assert boxes[i] == init[i]; }
      }
      forall c: Aabb | CoversAll(c, boxes) ensures c.Covers(UnionFold(boxes)) {
        assert CoversAll(c, init);
      }
    } else {
      forall c: Aabb | CoversAll(c, boxes) ensures c.Covers(UnionFold(boxes)) {
        assert c.Covers(boxes[0]);
      }
    }
  }

  /** Lists with the same members have the same hulls. */
  lemma {:induction false} HullOfSameMembers(box: Aabb, s: seq<Aabb>, t: seq<Aabb>)
    requires IsHull(box, s)
    requires forall b :: b in s <==> b in t
    ensures IsHull(box, t)
  {
    forall i | 0 <= i < |t| ensures box.Covers(t[i]) {
      assert t[i] in s;
    }
    forall c: Aabb | CoversAll(c, t) ensures c.Covers(box) {
      forall i | 0 <= i < |s| ensures c.Covers(s[i]) {
        assert s[i] in t;
      }
      assert CoversAll(c, s);
    }
  }

  lemma {:induction false} HullIsUnique(a: Aabb, b: Aabb, boxes: seq<Aabb>)
    requires IsHull(a, boxes) && IsHull(b, boxes)
    ensures a == b
  {
    assert CoversAll(a, boxes) && CoversAll(b, boxes);
    assert a.Covers(b) && b.Covers(a);
  }
}
