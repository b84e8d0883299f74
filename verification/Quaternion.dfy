/** Vectors and quaternions in ROS order (x, y, z, w), over the reals.
    The Hamilton product, the conjugate and the sandwich rotation are written once here; both
    pose libraries of the program use them.  The algebra proved here (associativity, norms,
    conjugates, rotations) is what the geometric results of the other modules are built from. */
module Quaternion {

  datatype Vec3 = Vec3(x: real, y: real, z: real)

  datatype Quat = Quat(x: real, y: real, z: real, w: real)

  datatype Pose = Pose(pos: Vec3, quat: Quat)

  const ORIGIN := Vec3(0.0, 0.0, 0.0)
  const IDENTITY := Quat(0.0, 0.0, 0.0, 1.0)

  function Plus(a: Vec3, b: Vec3): Vec3 {
    Vec3(a.x + b.x, a.y + b.y, a.z + b.z)
  }

  function Minus(a: Vec3, b: Vec3): Vec3 {
    Vec3(a.x - b.x, a.y - b.y, a.z - b.z)
  }

  function Scale(k: real, a: Vec3): Vec3 {
    Vec3(k * a.x, k * a.y, k * a.z)
  }

  function LengthSq(a: Vec3): real {
    a.x * a.x + a.y * a.y + a.z * a.z
  }

  function NormSq(q: Quat): real {
    q.x * q.x + q.y * q.y + q.z * q.z + q.w * q.w
  }

  predicate Unit(q: Quat) {
    NormSq(q) == 1.0
  }

  /** An imaginary component of a Hamilton product: the first one as written, the second and
      third with the axes renamed cyclically. */
  function Imaginary(a1: real, a2: real, a3: real, a0: real, b1: real, b2: real, b3: real, b0: real): real {
    a0 * b1 + a1 * b0 + a2 * b3 - a3 * b2
  }

  function RealPart(a1: real, a2: real, a3: real, a0: real, b1: real, b2: real, b3: real, b0: real): real {
    a0 * b0 - a1 * b1 - a2 * b2 - a3 * b3
  }

  function QuatMultiply(a: Quat, b: Quat): Quat {
    Quat(
      Imaginary(a.x, a.y, a.z, a.w, b.x, b.y, b.z, b.w),
      Imaginary(a.y, a.z, a.x, a.w, b.y, b.z, b.x, b.w),
      Imaginary(a.z, a.x, a.y, a.w, b.z, b.x, b.y, b.w),
      RealPart(a.x, a.y, a.z, a.w, b.x, b.y, b.z, b.w))
  }

  function QuatConjugate(q: Quat): Quat {
    Quat(-q.x, -q.y, -q.z, q.w)
  }

  /** A vector as a quaternion without real part. */
  function Pure(v: Vec3): Quat {
    Quat(v.x, v.y, v.z, 0.0)
  }

  /** A real number as a quaternion. */
  function Real(k: real): Quat {
    Quat(0.0, 0.0, 0.0, k)
  }

  function QuatMinus(a: Quat, b: Quat): Quat {
    Quat(a.x - b.x, a.y - b.y, a.z - b.z, a.w - b.w)
  }

  /** Rotation as the Hamilton sandwich q v q*. */
  function RotateVec(q: Quat, v: Vec3): Vec3 {
    var r := QuatMultiply(QuatMultiply(q, Pure(v)), QuatConjugate(q));
    Vec3(r.x, r.y, r.z)
  }

  // -------- associativity: polynomial identities on plain numbers, lifted to quaternions

  lemma ImaginaryIdentity(a1: real, a2: real, a3: real, a0: real, b1: real, b2: real, b3: real, b0: real,
                          c1: real, c2: real, c3: real, c0: real, p1: real, p2: real, p3: real, p0: real,
                          r1: real, r2: real, r3: real, r0: real)
    requires p1 == a0 * b1 + a1 * b0 + a2 * b3 - a3 * b2 && p2 == a0 * b2 + a2 * b0 + a3 * b1 - a1 * b3
    requires p3 == a0 * b3 + a3 * b0 + a1 * b2 - a2 * b1 && p0 == a0 * b0 - a1 * b1 - a2 * b2 - a3 * b3
    requires r1 == b0 * c1 + b1 * c0 + b2 * c3 - b3 * c2 && r2 == b0 * c2 + b2 * c0 + b3 * c1 - b1 * c3
    requires r3 == b0 * c3 + b3 * c0 + b1 * c2 - b2 * c1 && r0 == b0 * c0 - b1 * c1 - b2 * c2 - b3 * c3
    ensures p0 * c1 + p1 * c0 + p2 * c3 - p3 * c2 == a0 * r1 + a1 * r0 + a2 * r3 - a3 * r2
  {
  }

  lemma RealIdentity(a1: real, a2: real, a3: real, a0: real, b1: real, b2: real, b3: real, b0: real,
                     c1: real, c2: real, c3: real, c0: real, p1: real, p2: real, p3: real, p0: real,
                     r1: real, r2: real, r3: real, r0: real)
    requires p1 == a0 * b1 + a1 * b0 + a2 * b3 - a3 * b2 && p2 == a0 * b2 + a2 * b0 + a3 * b1 - a1 * b3
    requires p3 == a0 * b3 + a3 * b0 + a1 * b2 - a2 * b1 && p0 == a0 * b0 - a1 * b1 - a2 * b2 - a3 * b3
    requires r1 == b0 * c1 + b1 * c0 + b2 * c3 - b3 * c2 && r2 == b0 * c2 + b2 * c0 + b3 * c1 - b1 * c3
    requires r3 == b0 * c3 + b3 * c0 + b1 * c2 - b2 * c1 && r0 == b0 * c0 - b1 * c1 - b2 * c2 - b3 * c3
    ensures p0 * c0 - p1 * c1 - p2 * c2 - p3 * c3 == a0 * r0 - a1 * r1 - a2 * r2 - a3 * r3
  {
  }

  /** The components of p are those of the product ab. */
  predicate Components(p1: real, p2: real, p3: real, p0: real, a1: real, a2: real, a3: real, a0: real,
                       b1: real, b2: real, b3: real, b0: real) {
    && p1 == Imaginary(a1, a2, a3, a0, b1, b2, b3, b0)
    && p2 == Imaginary(a2, a3, a1, a0, b2, b3, b1, b0)
    && p3 == Imaginary(a3, a1, a2, a0, b3, b1, b2, b0)
    && p0 == RealPart(a1, a2, a3, a0, b1, b2, b3, b0)
  }

  lemma ImaginaryAssociative(a1: real, a2: real, a3: real, a0: real, b1: real, b2: real, b3: real, b0: real,
                             c1: real, c2: real, c3: real, c0: real, p1: real, p2: real, p3: real, p0: real,
                             r1: real, r2: real, r3: real, r0: real)
    requires Components(p1, p2, p3, p0, a1, a2, a3, a0, b1, b2, b3, b0)
    requires Components(r1, r2, r3, r0, b1, b2, b3, b0, c1, c2, c3, c0)
    ensures Imaginary(p1, p2, p3, p0, c1, c2, c3, c0) == Imaginary(a1, a2, a3, a0, r1, r2, r3, r0)
  {
    ImaginaryIdentity(a1, a2, a3, a0, b1, b2, b3, b0, c1, c2, c3, c0, p1, p2, p3, p0, r1, r2, r3, r0);
  }

  lemma RealAssociative(a1: real, a2: real, a3: real, a0: real, b1: real, b2: real, b3: real, b0: real,
                        c1: real, c2: real, c3: real, c0: real, p1: real, p2: real, p3: real, p0: real,
                        r1: real, r2: real, r3: real, r0: real)
    requires Components(p1, p2, p3, p0, a1, a2, a3, a0, b1, b2, b3, b0)
    requires Components(r1, r2, r3, r0, b1, b2, b3, b0, c1, c2, c3, c0)
    ensures RealPart(p1, p2, p3, p0, c1, c2, c3, c0) == RealPart(a1, a2, a3, a0, r1, r2, r3, r0)
  {
    RealIdentity(a1, a2, a3, a0, b1, b2, b3, b0, c1, c2, c3, c0, p1, p2, p3, p0, r1, r2, r3, r0);
  }

  lemma RealPartCyclic(a1: real, a2: real, a3: real, a0: real, b1: real, b2: real, b3: real, b0: real)
    ensures RealPart(a2, a3, a1, a0, b2, b3, b1, b0) == RealPart(a1, a2, a3, a0, b1, b2, b3, b0)
  {
  }

  lemma MultiplyAssociative(a: Quat, b: Quat, c: Quat)
    ensures QuatMultiply(QuatMultiply(a, b), c) == QuatMultiply(a, QuatMultiply(b, c))
  {
    hide Imaginary, RealPart;
    var p, r := QuatMultiply(a, b), QuatMultiply(b, c);
    RealPartCyclic(a.x, a.y, a.z, a.w, b.x, b.y, b.z, b.w);
    RealPartCyclic(a.y, a.z, a.x, a.w, b.y, b.z, b.x, b.w);
    RealPartCyclic(b.x, b.y, b.z, b.w, c.x, c.y, c.z, c.w);
    RealPartCyclic(b.y, b.z, b.x, b.w, c.y, c.z, c.x, c.w);
    ImaginaryAssociative(a.x, a.y, a.z, a.w, b.x, b.y, b.z, b.w, c.x, c.y, c.z, c.w, p.x, p.y, p.z, p.w, r.x, r.y, r.z, r.w);
    ImaginaryAssociative(a.y, a.z, a.x, a.w, b.y, b.z, b.x, b.w, c.y, c.z, c.x, c.w, p.y, p.z, p.x, p.w, r.y, r.z, r.x, r.w);
    ImaginaryAssociative(a.z, a.x, a.y, a.w, b.z, b.x, b.y, b.w, c.z, c.x, c.y, c.w, p.z, p.x, p.y, p.w, r.z, r.x, r.y, r.w);
    RealAssociative(a.x, a.y, a.z, a.w, b.x, b.y, b.z, b.w, c.x, c.y, c.z, c.w, p.x, p.y, p.z, p.w, r.x, r.y, r.z, r.w);
  }

  // -------- conjugates and norms

  lemma ImaginaryConjugate(a1: real, a2: real, a3: real, a0: real, b1: real, b2: real, b3: real, b0: real)
    ensures Imaginary(-b1, -b2, -b3, b0, -a1, -a2, -a3, a0) == -Imaginary(a1, a2, a3, a0, b1, b2, b3, b0)
    ensures RealPart(-b1, -b2, -b3, b0, -a1, -a2, -a3, a0) == RealPart(a1, a2, a3, a0, b1, b2, b3, b0)
  {
  }

  lemma ConjugateOfProduct(a: Quat, b: Quat)
    ensures QuatConjugate(QuatMultiply(a, b)) == QuatMultiply(QuatConjugate(b), QuatConjugate(a))
  {
    hide Imaginary, RealPart;
    ImaginaryConjugate(a.x, a.y, a.z, a.w, b.x, b.y, b.z, b.w);
    ImaginaryConjugate(a.y, a.z, a.x, a.w, b.y, b.z, b.x, b.w);
    ImaginaryConjugate(a.z, a.x, a.y, a.w, b.z, b.x, b.y, b.w);
  }

  lemma RealFactor(k: real, q: Quat)
    ensures QuatMultiply(Real(k), q) == QuatMultiply(q, Real(k)) == Quat(k * q.x, k * q.y, k * q.z, k * q.w)
  {
  }

  lemma ConjugateIsInverse(q: Quat)
    ensures QuatMultiply(q, QuatConjugate(q)) == Real(NormSq(q))
    ensures QuatMultiply(QuatConjugate(q), q) == Real(NormSq(q))
  {
  }

  lemma IdentityIsNeutral(q: Quat)
    ensures QuatMultiply(IDENTITY, q) == q == QuatMultiply(q, IDENTITY)
  {
  }

  lemma ConjugateTwice(q: Quat)
    ensures NormSq(QuatConjugate(q)) == NormSq(q)
    ensures QuatConjugate(QuatConjugate(q)) == q
  {
  }

  /** (ab)(ab)* = a (b b*) a*, and b b* is a real number, so it moves out. */
  lemma NormMultiplicative(a: Quat, b: Quat)
    ensures NormSq(QuatMultiply(a, b)) == NormSq(a) * NormSq(b)
  {
    hide QuatMultiply, QuatConjugate, NormSq;
    var p, ca, cb := QuatMultiply(a, b), QuatConjugate(a), QuatConjugate(b);
    calc {
      Real(NormSq(p));
      { ConjugateIsInverse(p); }
      QuatMultiply(p, QuatConjugate(p));
      { ConjugateOfProduct(a, b); }
      QuatMultiply(p, QuatMultiply(cb, ca));
      { MultiplyAssociative(a, b, QuatMultiply(cb, ca)); MultiplyAssociative(b, cb, ca); }
      QuatMultiply(a, QuatMultiply(QuatMultiply(b, cb), ca));
      { ConjugateIsInverse(b); RealFactor(NormSq(b), ca); }
      QuatMultiply(a, QuatMultiply(ca, Real(NormSq(b))));
      { MultiplyAssociative(a, ca, Real(NormSq(b))); ConjugateIsInverse(a); }
      QuatMultiply(Real(NormSq(a)), Real(NormSq(b)));
      { RealFactor(NormSq(a), Real(NormSq(b))); }
      Real(NormSq(a) * NormSq(b));
    }
  }

  lemma ProductOfUnits(a: Quat, b: Quat)
    requires Unit(a) && Unit(b)
    ensures Unit(QuatMultiply(a, b)) && Unit(QuatConjugate(a))
  {
    NormMultiplicative(a, b);
    ConjugateTwice(a);
  }

  // -------- rotations

  lemma SandwichIdentity(q1: real, q2: real, q3: real, q0: real, v1: real, v2: real, v3: real,
                         p1: real, p2: real, p3: real, p0: real)
    requires p1 == q0 * v1 + q2 * v3 - q3 * v2 && p2 == q0 * v2 + q3 * v1 - q1 * v3
    requires p3 == q0 * v3 + q1 * v2 - q2 * v1 && p0 == -(q1 * v1) - q2 * v2 - q3 * v3
    ensures p0 * q0 + p1 * q1 + p2 * q2 + p3 * q3 == 0.0
  {
  }

  lemma SandwichRealPart(q1: real, q2: real, q3: real, q0: real, v1: real, v2: real, v3: real,
                         p1: real, p2: real, p3: real, p0: real)
    requires Components(p1, p2, p3, p0, q1, q2, q3, q0, v1, v2, v3, 0.0)
    ensures RealPart(p1, p2, p3, p0, -q1, -q2, -q3, q0) == 0.0
  {
    SandwichIdentity(q1, q2, q3, q0, v1, v2, v3, p1, p2, p3, p0);
  }

  /** The sandwich of a vector is a vector: dropping its real part loses nothing. */
  lemma SandwichIsPure(q: Quat, v: Vec3)
    ensures QuatMultiply(QuatMultiply(q, Pure(v)), QuatConjugate(q)) == Pure(RotateVec(q, v))
  {
    hide Imaginary, RealPart;
    var p := QuatMultiply(q, Pure(v));
    SandwichRealPart(q.x, q.y, q.z, q.w, v.x, v.y, v.z, p.x, p.y, p.z, p.w);
  }

  lemma MultiplyDistributes(q: Quat, a: Quat, b: Quat)
    ensures QuatMultiply(q, QuatMinus(a, b)) == QuatMinus(QuatMultiply(q, a), QuatMultiply(q, b))
    ensures QuatMultiply(QuatMinus(a, b), q) == QuatMinus(QuatMultiply(a, q), QuatMultiply(b, q))
  {
    hide Imaginary, RealPart;
    ImaginaryDistributes(q.x, q.y, q.z, q.w, a.x, a.y, a.z, a.w, b.x, b.y, b.z, b.w);
    ImaginaryDistributes(q.y, q.z, q.x, q.w, a.y, a.z, a.x, a.w, b.y, b.z, b.x, b.w);
    ImaginaryDistributes(q.z, q.x, q.y, q.w, a.z, a.x, a.y, a.w, b.z, b.x, b.y, b.w);
  }

  lemma ImaginaryDistributes(q1: real, q2: real, q3: real, q0: real, a1: real, a2: real, a3: real, a0: real,
                             b1: real, b2: real, b3: real, b0: real)
    ensures Imaginary(q1, q2, q3, q0, a1 - b1, a2 - b2, a3 - b3, a0 - b0)
         == Imaginary(q1, q2, q3, q0, a1, a2, a3, a0) - Imaginary(q1, q2, q3, q0, b1, b2, b3, b0)
    ensures Imaginary(a1 - b1, a2 - b2, a3 - b3, a0 - b0, q1, q2, q3, q0)
         == Imaginary(a1, a2, a3, a0, q1, q2, q3, q0) - Imaginary(b1, b2, b3, b0, q1, q2, q3, q0)
    ensures RealPart(q1, q2, q3, q0, a1 - b1, a2 - b2, a3 - b3, a0 - b0)
         == RealPart(q1, q2, q3, q0, a1, a2, a3, a0) - RealPart(q1, q2, q3, q0, b1, b2, b3, b0)
    ensures RealPart(a1 - b1, a2 - b2, a3 - b3, a0 - b0, q1, q2, q3, q0)
         == RealPart(a1, a2, a3, a0, q1, q2, q3, q0) - RealPart(b1, b2, b3, b0, q1, q2, q3, q0)
  {
  }

  lemma RotateDistributes(q: Quat, a: Vec3, b: Vec3)
    ensures RotateVec(q, Minus(a, b)) == Minus(RotateVec(q, a), RotateVec(q, b))
  {
    hide QuatMultiply;
    var qa, qb := QuatMultiply(q, Pure(a)), QuatMultiply(q, Pure(b));
    assert Pure(Minus(a, b)) == QuatMinus(Pure(a), Pure(b));
    MultiplyDistributes(q, Pure(a), Pure(b));
    MultiplyDistributes(QuatConjugate(q), qa, qb);
  }

  lemma RotationPreservesLength(q: Quat, v: Vec3)
    requires Unit(q)
    ensures LengthSq(RotateVec(q, v)) == LengthSq(v)
  {
    hide QuatMultiply, RotateVec;
    SandwichIsPure(q, v);
    NormMultiplicative(QuatMultiply(q, Pure(v)), QuatConjugate(q));
    NormMultiplicative(q, Pure(v));
    ConjugateTwice(q);
    assert NormSq(Pure(RotateVec(q, v))) == LengthSq(RotateVec(q, v));
    assert NormSq(Pure(v)) == LengthSq(v);
  }

  /** Rotating by a product is rotating by the right factor, then by the left one.  This needs
      no unit quaternions. */
  lemma RotateByProduct(a: Quat, b: Quat, v: Vec3)
    ensures RotateVec(QuatMultiply(a, b), v) == RotateVec(a, RotateVec(b, v))
  {
    hide QuatMultiply, QuatConjugate, RotateVec;
    var ab, ca, cb, pv := QuatMultiply(a, b), QuatConjugate(a), QuatConjugate(b), Pure(v);
    calc {
      Pure(RotateVec(ab, v));
      { SandwichIsPure(ab, v); ConjugateOfProduct(a, b); MultiplyAssociative(a, b, pv); }
      QuatMultiply(QuatMultiply(a, QuatMultiply(b, pv)), QuatMultiply(cb, ca));
      { MultiplyAssociative(QuatMultiply(a, QuatMultiply(b, pv)), cb, ca); }
      QuatMultiply(QuatMultiply(QuatMultiply(a, QuatMultiply(b, pv)), cb), ca);
      { MultiplyAssociative(a, QuatMultiply(b, pv), cb); SandwichIsPure(b, v); }
      QuatMultiply(QuatMultiply(a, Pure(RotateVec(b, v))), ca);
      { SandwichIsPure(a, RotateVec(b, v)); }
      Pure(RotateVec(a, RotateVec(b, v)));
    }
  }

  lemma ScaleTwice(k: real, v: Vec3)
    ensures Scale(k, Scale(k, v)) == Scale(k * k, v)
  {
  }

  lemma RealTimesPure(k: real, v: Vec3)
    ensures QuatMultiply(Real(k), Pure(v)) == QuatMultiply(Pure(v), Real(k)) == Pure(Scale(k, v))
    ensures QuatConjugate(Real(k)) == Real(k)
  {
    hide QuatMultiply;
    RealFactor(k, Pure(v));
  }

  /** A real quaternion scales by its square and does not turn. */
  lemma RealDoesNotTurn(k: real, v: Vec3)
    ensures RotateVec(Real(k), v) == Scale(k * k, v)
  {
    hide QuatMultiply, QuatConjugate, Scale;
    RealTimesPure(k, v);
    RealTimesPure(k, Scale(k, v));
    ScaleTwice(k, v);
  }

  // -------- the convention

  /** Hamilton's rules: i j = k and so on round, with the opposite sign in the opposite order, and each
      unit squares to -1. */
  lemma HamiltonRules()
    ensures var i, j, k := Quat(1.0, 0.0, 0.0, 0.0), Quat(0.0, 1.0, 0.0, 0.0), Quat(0.0, 0.0, 1.0, 0.0);
            && QuatMultiply(i, j) == k && QuatMultiply(j, k) == i && QuatMultiply(k, i) == j
            && QuatMultiply(j, i) == Quat(0.0, 0.0, -1.0, 0.0)
            && QuatMultiply(k, j) == Quat(-1.0, 0.0, 0.0, 0.0)
            && QuatMultiply(i, k) == Quat(0.0, -1.0, 0.0, 0.0)
            && QuatMultiply(i, i) == QuatMultiply(j, j) == QuatMultiply(k, k) == Quat(0.0, 0.0, 0.0, -1.0)
  {
  }

  lemma ProductsAboutZ(c: real, s: real, x: real, y: real)
    ensures QuatMultiply(Quat(0.0, 0.0, s, c), Pure(Vec3(x, y, 0.0))) == Quat(c * x - s * y, c * y + s * x, 0.0, 0.0)
    ensures QuatMultiply(Quat(x, y, 0.0, 0.0), QuatConjugate(Quat(0.0, 0.0, s, c))) == Quat(x * c - y * s, y * c + x * s, 0.0, 0.0)
  {
  }

  /** The quaternion with w = c and z = s turns the plane about z twice by the angle with cosine c and
      sine s, from x towards y. */
  lemma TurnAboutZ(c: real, s: real, x: real, y: real)
    ensures var x1, y1 := c * x - s * y, c * y + s * x;
            RotateVec(Quat(0.0, 0.0, s, c), Vec3(x, y, 0.0)) == Vec3(x1 * c - y1 * s, y1 * c + x1 * s, 0.0)
  {
    var x1, y1 := c * x - s * y, c * y + s * x;
    ProductsAboutZ(c, s, x, y);
    ProductsAboutZ(c, s, x1, y1);
    hide QuatMultiply, QuatConjugate, Pure;
  }
}
