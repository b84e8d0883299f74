/** Pose composition for the scene publisher: the two-cross-product rotation and the
    composition of a child pose with its parent frame. */
module PoseMath {
  import opened Quaternion

  /** One component of v + w t + q x t with t = 2 (q x v), where q in a cross product stands for
      its vector part; the other two components are its cyclic renamings. */
  function RotateComponent(q1: real, q2: real, q3: real, q0: real, v1: real, v2: real, v3: real): real {
    var t1 := 2.0 * (q2 * v3 - q3 * v2);
    var t2 := 2.0 * (q3 * v1 - q1 * v3);
    var t3 := 2.0 * (q1 * v2 - q2 * v1);
    v1 + q0 * t1 + (q2 * t3 - q3 * t2)
  }

  function QuatRotate(q: Quat, v: Vec3): Vec3 {
    Vec3(
      RotateComponent(q.x, q.y, q.z, q.w, v.x, v.y, v.z),
      RotateComponent(q.y, q.z, q.x, q.w, v.y, v.z, v.x),
      RotateComponent(q.z, q.x, q.y, q.w, v.z, v.x, v.y))
  }

  function ComposePose(parent: Pose, child: Pose): Pose {
    Pose(Plus(parent.pos, QuatRotate(parent.quat, child.pos)), QuatMultiply(parent.quat, child.quat))
  }

  const IDENTITY_POSE := Pose(ORIGIN, IDENTITY)

  // -------- the fast rotation against the sandwich

  // p is the product qv, t the doubled cross product, n the squared norm of q.
  lemma ComponentIdentity(q1: real, q2: real, q3: real, q0: real, v1: real, v2: real, v3: real,
                          p1: real, p2: real, p3: real, p0: real, t1: real, t2: real, t3: real, n: real)
    requires p1 == q0 * v1 + q2 * v3 - q3 * v2 && p2 == q0 * v2 + q3 * v1 - q1 * v3
    requires p3 == q0 * v3 + q1 * v2 - q2 * v1 && p0 == -(q1 * v1) - q2 * v2 - q3 * v3
    requires t1 == 2.0 * (q2 * v3 - q3 * v2) && t2 == 2.0 * (q3 * v1 - q1 * v3) && t3 == 2.0 * (q1 * v2 - q2 * v1)
    requires n == q1 * q1 + q2 * q2 + q3 * q3 + q0 * q0
    ensures v1 + q0 * t1 + (q2 * t3 - q3 * t2)
         == -(p0 * q1) + p1 * q0 - p2 * q3 + p3 * q2 + (1.0 - n) * v1
  {
  }

  function Excess(n: real, v1: real): real {
    (1.0 - n) * v1
  }

  lemma RotateComponentGap(q1: real, q2: real, q3: real, q0: real, v1: real, v2: real, v3: real,
                           p1: real, p2: real, p3: real, p0: real, n: real)
    requires Components(p1, p2, p3, p0, q1, q2, q3, q0, v1, v2, v3, 0.0)
    requires n == q1 * q1 + q2 * q2 + q3 * q3 + q0 * q0
    ensures RotateComponent(q1, q2, q3, q0, v1, v2, v3)
         == Imaginary(p1, p2, p3, p0, -q1, -q2, -q3, q0) + Excess(n, v1)
  {
    var t1 := 2.0 * (q2 * v3 - q3 * v2);
    var t2 := 2.0 * (q3 * v1 - q1 * v3);
    var t3 := 2.0 * (q1 * v2 - q2 * v1);
    ComponentIdentity(q1, q2, q3, q0, v1, v2, v3, p1, p2, p3, p0, t1, t2, t3, n);
  }

  lemma QuatRotateComponents(q: Quat, v: Vec3)
    ensures QuatRotate(q, v)
         == Plus(RotateVec(q, v), Vec3(Excess(NormSq(q), v.x), Excess(NormSq(q), v.y), Excess(NormSq(q), v.z)))
  {
    var p, n := QuatMultiply(q, Pure(v)), NormSq(q);
    hide Imaginary, RealPart, RotateComponent, NormSq, Excess;
    SquaresCyclic(q);
    RealPartCyclic(q.x, q.y, q.z, q.w, v.x, v.y, v.z, 0.0);
    RealPartCyclic(q.y, q.z, q.x, q.w, v.y, v.z, v.x, 0.0);
    RotateComponentGap(q.x, q.y, q.z, q.w, v.x, v.y, v.z, p.x, p.y, p.z, p.w, n);
    RotateComponentGap(q.y, q.z, q.x, q.w, v.y, v.z, v.x, p.y, p.z, p.x, p.w, n);
    RotateComponentGap(q.z, q.x, q.y, q.w, v.z, v.x, v.y, p.z, p.x, p.y, p.w, n);
  }

  /** For every quaternion, unit or not, the fast form exceeds the sandwich by (1 - |q|^2) v. */
  lemma QuatRotateGap(q: Quat, v: Vec3)
    ensures QuatRotate(q, v) == Plus(RotateVec(q, v), Scale(1.0 - NormSq(q), v))
  {
    hide QuatRotate, RotateVec, NormSq;
    QuatRotateComponents(q, v);
  }

  lemma SquaresCyclic(q: Quat)
    ensures NormSq(q) == q.x * q.x + q.y * q.y + q.z * q.z + q.w * q.w
    ensures NormSq(q) == q.y * q.y + q.z * q.z + q.x * q.x + q.w * q.w
    ensures NormSq(q) == q.z * q.z + q.x * q.x + q.y * q.y + q.w * q.w
  {
  }

  /** The fast form is the sandwich for every vector exactly when the quaternion is unit. */
  lemma QuatRotateIsSandwichIffUnit(q: Quat)
    ensures Unit(q) <==> forall v :: QuatRotate(q, v) == RotateVec(q, v)
  {
    hide QuatRotate, RotateVec, NormSq;
    forall v | Unit(q)
      ensures QuatRotate(q, v) == RotateVec(q, v)
    {
      QuatRotateGap(q, v);
    }
    var ex := Vec3(1.0, 0.0, 0.0);
    QuatRotateGap(q, ex);
  }

  // -------- composition

  lemma RotateKeepsOrigin(q: Quat)
    ensures QuatRotate(q, ORIGIN) == ORIGIN
  {
  }

  lemma RotateByIdentity(v: Vec3)
    ensures QuatRotate(IDENTITY, v) == v
  {
  }

  lemma ComposeIdentity(p: Pose)
    ensures ComposePose(IDENTITY_POSE, p) == p == ComposePose(p, IDENTITY_POSE)
  {
    hide QuatRotate, QuatMultiply;
    RotateKeepsOrigin(p.quat);
    RotateByIdentity(p.pos);
    IdentityIsNeutral(p.quat);
  }

  lemma RotateSum(q: Quat, a: Vec3, b: Vec3)
    requires Unit(q)
    ensures QuatRotate(q, Plus(a, b)) == Plus(QuatRotate(q, a), QuatRotate(q, b))
  {
    hide QuatRotate, RotateVec, NormSq;
    QuatRotateIsSandwichIffUnit(q);
    RotateDistributes(q, Plus(a, b), b);
    assert Minus(Plus(a, b), b) == a;
  }

  /** Composing through two frames does not depend on the grouping; the outer two orientations
      must be unit, the innermost one need not be. */
  lemma ComposeAssociative(a: Pose, b: Pose, c: Pose)
    requires Unit(a.quat) && Unit(b.quat)
    ensures ComposePose(ComposePose(a, b), c) == ComposePose(a, ComposePose(b, c))
  {
    hide QuatRotate, RotateVec, QuatMultiply, NormSq;
    var ab := QuatMultiply(a.quat, b.quat);
    ProductOfUnits(a.quat, b.quat);
    QuatRotateIsSandwichIffUnit(a.quat);
    QuatRotateIsSandwichIffUnit(b.quat);
    QuatRotateIsSandwichIffUnit(ab);
    RotateByProduct(a.quat, b.quat, c.pos);
    RotateSum(a.quat, b.pos, QuatRotate(b.quat, c.pos));
    MultiplyAssociative(a.quat, b.quat, c.quat);
  }

  // -------- poses as transforms

  /** Where a pose takes a point of its own frame, by the Hamilton sandwich. */
  function Act(p: Pose, v: Vec3): Vec3 {
    Plus(p.pos, RotateVec(p.quat, v))
  }

  /** Composing poses composes the transforms: a point of the child's frame, taken to the parent's
      frame and then out of it, is where the composed pose takes it.  Only the parent's rotation has
      to be unit. */
  lemma ComposeActs(parent: Pose, child: Pose, v: Vec3)
    requires Unit(parent.quat)
    ensures Act(ComposePose(parent, child), v) == Act(parent, Act(child, v))
  {
    hide QuatRotate, RotateVec, QuatMultiply, NormSq;
    QuatRotateIsSandwichIffUnit(parent.quat);
    RotateByProduct(parent.quat, child.quat, v);
    RotateSum(parent.quat, child.pos, RotateVec(child.quat, v));
  }

  /** The pose itself is where its origin and axes go, so two poses with one effect have one position. */
  lemma ActOnOrigin(p: Pose)
    ensures Act(p, ORIGIN) == p.pos
  {
    hide RotateVec;
    RotateDistributes(p.quat, ORIGIN, ORIGIN);
    assert Minus(ORIGIN, ORIGIN) == ORIGIN;
  }
}
