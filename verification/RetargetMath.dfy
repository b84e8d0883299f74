/** The clutch mapping: the pure functions of the leader/follower retargeting and their laws. */
module RetargetMath {
  import opened Quaternion
  import opened Reals
  import opened Wrappers

  datatype MathError = ZeroNorm

  datatype Box = Box(lo: Vec3, hi: Vec3)

  /** The square root of the squared norm is supplied from outside; this is what it must be. */
  ghost predicate IsNorm(norm: Quat -> real) {
    forall q :: norm(q) >= 0.0 && norm(q) * norm(q) == NormSq(q)
  }

  function QuatNormalize(q: Quat, norm: Quat -> real): Result<Quat, MathError> {
    var n := norm(q);
    if n < 0.000000000001 then Err(ZeroNorm)
    else Ok(Quat(q.x / n, q.y / n, q.z / n, q.w / n))
  }

  /** Filter coefficient of a first-order low-pass filter; a cutoff of zero or less turns the
      filter off. */
  function LpfAlpha(dt: real, cutoffHz: real, pi: real): real
    requires pi > 0.0
  {
    if cutoffHz <= 0.0 then 1.0
    else if dt <= 0.0 then 0.0
    else
      var rc := 1.0 / (2.0 * pi * cutoffHz);
      dt / (dt + rc)
  }

  function Clamp(v: real, lo: real, hi: real): real {
    var atLeast := if v < lo then lo else v;
    if hi < atLeast then hi else atLeast
  }

  function ClampToBox(p: Vec3, box: Box): Vec3 {
    Vec3(Clamp(p.x, box.lo.x, box.hi.x), Clamp(p.y, box.lo.y, box.hi.y), Clamp(p.z, box.lo.z, box.hi.z))
  }

  /** The anchors captured at engage time and the two fixed parameters of the mapping. */
  datatype Mapping = Mapping(leader: Pose, follower: Pose, align: Quat, scale: real)

  function TargetPosition(m: Mapping, leader: Vec3): Vec3 {
    Plus(m.follower.pos, Scale(m.scale, RotateVec(m.align, Minus(leader, m.leader.pos))))
  }

  /** The target orientation before it is normalised. */
  function RawOrientation(m: Mapping, leader: Quat): Quat {
    var relative := QuatMultiply(leader, QuatConjugate(m.leader.quat));
    var aligned := QuatMultiply(QuatMultiply(m.align, relative), QuatConjugate(m.align));
    QuatMultiply(aligned, m.follower.quat)
  }

  function ComputeTarget(m: Mapping, leader: Pose, norm: Quat -> real): Result<Pose, MathError> {
    match QuatNormalize(RawOrientation(m, leader.quat), norm)
    case Err(e) => Err(e)
    case Ok(q) => Ok(Pose(TargetPosition(m, leader.pos), q))
  }

  // -------- laws

  ghost predicate UnitMapping(m: Mapping) {
    Unit(m.leader.quat) && Unit(m.follower.quat) && Unit(m.align)
  }

  lemma RootOfOne(n: real)
    requires n >= 0.0 && n * n == 1.0
    ensures n == 1.0
  {
    if n < 1.0 {
      SquareStrict(n, 1.0);
    } else if n > 1.0 {
      SquareStrict(1.0, n);
    }
  }

  lemma NormalizeUnit(q: Quat, norm: Quat -> real)
    requires IsNorm(norm) && Unit(q)
    ensures QuatNormalize(q, norm) == Ok(q)
  {
    RootOfOne(norm(q));
  }

  lemma RawOrientationIsUnit(m: Mapping, leader: Quat)
    requires UnitMapping(m) && Unit(leader)
    ensures Unit(RawOrientation(m, leader))
  {
    hide QuatMultiply, QuatConjugate, NormSq;
    ProductOfUnits(m.leader.quat, m.leader.quat);
    ProductOfUnits(leader, QuatConjugate(m.leader.quat));
    var relative := QuatMultiply(leader, QuatConjugate(m.leader.quat));
    ProductOfUnits(m.align, relative);
    ProductOfUnits(QuatMultiply(m.align, relative), QuatConjugate(m.align));
    ProductOfUnits(QuatMultiply(QuatMultiply(m.align, relative), QuatConjugate(m.align)), m.follower.quat);
  }

  /** With unit orientations the mapping never fails, its orientation is unit and equals the
      unnormalised product. */
  lemma TargetIsUnit(m: Mapping, leader: Pose, norm: Quat -> real)
    requires IsNorm(norm) && UnitMapping(m) && Unit(leader.quat)
    ensures ComputeTarget(m, leader, norm) == Ok(Pose(TargetPosition(m, leader.pos), RawOrientation(m, leader.quat)))
    ensures Unit(RawOrientation(m, leader.quat))
  {
    hide RawOrientation, TargetPosition, NormSq;
    RawOrientationIsUnit(m, leader.quat);
    NormalizeUnit(RawOrientation(m, leader.quat), norm);
  }

  lemma CancelUnit(q: Quat, r: Quat)
    requires Unit(q)
    ensures QuatMultiply(q, QuatMultiply(QuatConjugate(q), r)) == r
    ensures QuatMultiply(QuatConjugate(q), QuatMultiply(q, r)) == r
  {
    hide QuatMultiply, QuatConjugate, NormSq;
    MultiplyAssociative(q, QuatConjugate(q), r);
    MultiplyAssociative(QuatConjugate(q), q, r);
    ConjugateIsInverse(q);
    IdentityIsNeutral(r);
  }

  /** align * delta * align^-1 * f, the shape of every target orientation. */
  function Conjugated(align: Quat, delta: Quat, f: Quat): Quat {
    QuatMultiply(QuatMultiply(QuatMultiply(align, delta), QuatConjugate(align)), f)
  }

  lemma ConjugatedByOne(align: Quat, f: Quat)
    requires Unit(align)
    ensures Conjugated(align, IDENTITY, f) == f
  {
    hide QuatMultiply, QuatConjugate, NormSq;
    IdentityIsNeutral(align);
    MultiplyAssociative(align, QuatConjugate(align), f);
    CancelUnit(align, f);
  }

  lemma ConjugatedComposes(align: Quat, d: Quat, e: Quat, f: Quat)
    requires Unit(align)
    ensures Conjugated(align, d, Conjugated(align, e, f)) == Conjugated(align, QuatMultiply(d, e), f)
  {
    hide QuatMultiply, QuatConjugate, NormSq;
    var ca := QuatConjugate(align);
    var ad, ae := QuatMultiply(align, d), QuatMultiply(align, e);
    var rest := QuatMultiply(ca, f);
    MultiplyAssociative(ae, ca, f);
    MultiplyAssociative(align, e, rest);
    // Conjugated(e, f) == align (e rest), and the outer align^-1 cancels the inner align
    MultiplyAssociative(ad, ca, QuatMultiply(align, QuatMultiply(e, rest)));
    CancelUnit(align, QuatMultiply(e, rest));
    MultiplyAssociative(align, d, QuatMultiply(e, rest));
    MultiplyAssociative(d, e, rest);
    MultiplyAssociative(align, QuatMultiply(d, e), rest);
    MultiplyAssociative(QuatMultiply(align, QuatMultiply(d, e)), ca, f);
  }

  lemma RotateOrigin(q: Quat)
    ensures RotateVec(q, ORIGIN) == ORIGIN
  {
    hide RotateVec;
    RotateDistributes(q, ORIGIN, ORIGIN);
    assert Minus(ORIGIN, ORIGIN) == ORIGIN;
  }

  /** At the leader anchor the target is exactly the follower anchor, so engaging never jumps. */
  lemma AnchorMapsToAnchor(m: Mapping, norm: Quat -> real)
    requires IsNorm(norm) && UnitMapping(m)
    ensures ComputeTarget(m, m.leader, norm) == Ok(m.follower)
  {
    AnchorPosition(m);
    TargetIsUnit(m, m.leader, norm);
    AnchorOrientation(m);
  }

  lemma AnchorPosition(m: Mapping)
    ensures TargetPosition(m, m.leader.pos) == m.follower.pos
  {
    hide RotateVec;
    RotateOrigin(m.align);
    assert Minus(m.leader.pos, m.leader.pos) == ORIGIN;
    assert Scale(m.scale, ORIGIN) == ORIGIN;
  }

  lemma AnchorOrientation(m: Mapping)
    requires UnitMapping(m)
    ensures RawOrientation(m, m.leader.quat) == m.follower.quat
  {
    hide QuatMultiply, QuatConjugate, NormSq;
    ConjugateIsInverse(m.leader.quat);
    ConjugatedByOne(m.align, m.follower.quat);
  }

  lemma TargetDifference(m: Mapping, a: Vec3, b: Vec3)
    ensures Minus(TargetPosition(m, a), TargetPosition(m, b)) == Scale(m.scale, RotateVec(m.align, Minus(a, b)))
  {
    hide RotateVec;
    RotateDistributes(m.align, Minus(a, m.leader.pos), Minus(b, m.leader.pos));
    assert Minus(Minus(a, m.leader.pos), Minus(b, m.leader.pos)) == Minus(a, b);
    var ra, rb := RotateVec(m.align, Minus(a, m.leader.pos)), RotateVec(m.align, Minus(b, m.leader.pos));
    ScaleDistributes(m.scale, ra, rb);
  }

  lemma ScaleDistributes(k: real, a: Vec3, b: Vec3)
    ensures Scale(k, Minus(a, b)) == Minus(Scale(k, a), Scale(k, b))
    ensures LengthSq(Scale(k, a)) == k * k * LengthSq(a)
  {
  }

  /** Distances between targets are position_scale times the leader's distances (squared here,
      so that no root is needed). */
  lemma DistancesScale(m: Mapping, a: Vec3, b: Vec3)
    requires Unit(m.align)
    ensures LengthSq(Minus(TargetPosition(m, a), TargetPosition(m, b)))
         == m.scale * m.scale * LengthSq(Minus(a, b))
  {
    hide RotateVec, TargetPosition, LengthSq, NormSq, Scale;
    TargetDifference(m, a, b);
    RotationPreservesLength(m.align, Minus(a, b));
    ScaleDistributes(m.scale, RotateVec(m.align, Minus(a, b)), ORIGIN);
  }

  /** Releasing and re-engaging at a reached leader/target pair changes no later target. */
  lemma ReanchoringKeepsTargets(m: Mapping, here: Pose, later: Pose, norm: Quat -> real)
    requires IsNorm(norm) && UnitMapping(m) && Unit(here.quat) && Unit(later.quat)
    ensures ComputeTarget(m, here, norm).Ok?
    ensures var again := m.(leader := here, follower := ComputeTarget(m, here, norm).value);
            UnitMapping(again) && ComputeTarget(again, later, norm) == ComputeTarget(m, later, norm)
  {
    hide TargetPosition, RawOrientation, ComputeTarget, NormSq;
    TargetIsUnit(m, here, norm);
    TargetIsUnit(m, later, norm);
    var again := m.(leader := here, follower := ComputeTarget(m, here, norm).value);
    TargetIsUnit(again, later, norm);
    ReanchoredPosition(m, again, here, later);
    ReanchoredOrientation(m, again, here, later);
  }

  lemma ReanchoredPosition(m: Mapping, again: Mapping, here: Pose, later: Pose)
    requires again.leader == here && again.align == m.align && again.scale == m.scale
    requires again.follower.pos == TargetPosition(m, here.pos)
    ensures TargetPosition(again, later.pos) == TargetPosition(m, later.pos)
  {
    hide RotateVec, Scale;
    TargetDifference(m, later.pos, here.pos);
    assert TargetPosition(again, later.pos)
        == Plus(TargetPosition(m, here.pos), Minus(TargetPosition(m, later.pos), TargetPosition(m, here.pos)));
  }

  lemma ReanchoredOrientation(m: Mapping, again: Mapping, here: Pose, later: Pose)
    requires UnitMapping(m) && Unit(here.quat)
    requires again.leader == here && again.align == m.align && again.scale == m.scale
    requires again.follower.quat == RawOrientation(m, here.quat)
    ensures RawOrientation(again, later.quat) == RawOrientation(m, later.quat)
  {
    hide QuatMultiply, QuatConjugate, NormSq;
    var toHere := QuatMultiply(here.quat, QuatConjugate(m.leader.quat));
    var fromHere := QuatMultiply(later.quat, QuatConjugate(here.quat));
    ConjugatedComposes(m.align, fromHere, toHere, m.follower.quat);
    MultiplyAssociative(later.quat, QuatConjugate(here.quat), toHere);
    CancelUnit(here.quat, QuatConjugate(m.leader.quat));
  }

  // -------- what the target is, for every leader pose

  lemma SquareScaled(x: real, n: real, a: real, xx: real, nn: real, aa: real)
    requires Product(x, n, a) && Product(xx, x, x) && Product(nn, n, n) && Product(aa, a, a)
    ensures Product(xx, nn, aa)
  {
  }

  lemma FactorOut(n: real, a: real, b: real, c: real, d: real)
    ensures n * (a + b + c + d) == n * a + n * b + n * c + n * d
  {
  }

  lemma SameScale(m: real, s: real, one: real)
    requires m > 0.0 && one == 1.0 && m * s == m * one
    ensures s == 1.0
  {
    if s < one {
      MulStrict(m, s, one);
    } else if s > one {
      MulStrict(m, one, s);
    }
  }

  lemma ScaledSumIsOne(m: real, a: real, b: real, c: real, d: real, x: real, y: real, z: real, w: real)
    requires m > 0.0 && m == x + y + z + w
    requires Product(x, m, a) && Product(y, m, b) && Product(z, m, c) && Product(w, m, d)
    ensures a + b + c + d == 1.0
  {
    var s, one := a + b + c + d, 1.0;
    FactorOut(m, a, b, c, d);
    assert m * one == m;
    SameScale(m, s, one);
  }

  /** Normalising fails exactly below the smallest accepted norm; otherwise it gives the unit
      quaternion of which the argument is the multiple by its norm. */
  lemma NormalizeLaw(q: Quat, norm: Quat -> real)
    requires IsNorm(norm)
    ensures QuatNormalize(q, norm).Err? <==> norm(q) < 0.000000000001
    ensures QuatNormalize(q, norm).Ok? ==>
              var u, n := QuatNormalize(q, norm).value, norm(q);
              Unit(u) && q == Quat(n * u.x, n * u.y, n * u.z, n * u.w)
  {
    var r, n := QuatNormalize(q, norm), norm(q);
    if r.Ok? {
      var u := r.value;
      Quotient(q.x, n, u.x);
      Quotient(q.y, n, u.y);
      Quotient(q.z, n, u.z);
      Quotient(q.w, n, u.w);
      ScaledIsUnit(q, n, u, NormSq(q));
    }
  }

  lemma ScaledIsUnit(q: Quat, n: real, u: Quat, nn: real)
    requires n > 0.0 && nn == NormSq(q) && Product(nn, n, n)
    requires Product(q.x, n, u.x) && Product(q.y, n, u.y) && Product(q.z, n, u.z) && Product(q.w, n, u.w)
    ensures Unit(u)
  {
    hide Product, NormSq;
    PositiveSquare(n, nn);
    var x, y, z, w := NormSqParts(q);
    var a, b, c, d := NormSqParts(u);
    SquareScaled(q.x, n, u.x, x, nn, a);
    SquareScaled(q.y, n, u.y, y, nn, b);
    SquareScaled(q.z, n, u.z, z, nn, c);
    SquareScaled(q.w, n, u.w, w, nn, d);
    ScaledSumIsOne(nn, a, b, c, d, x, y, z, w);
  }

  lemma PositiveSquare(n: real, nn: real)
    requires n > 0.0 && Product(nn, n, n)
    ensures nn > 0.0
  {
    SquareStrict(0.0, n);
  }

  lemma NormSqParts(q: Quat) returns (x: real, y: real, z: real, w: real)
    ensures Product(x, q.x, q.x) && Product(y, q.y, q.y) && Product(z, q.z, q.z) && Product(w, q.w, q.w)
    ensures NormSq(q) == x + y + z + w
  {
    x, y, z, w := q.x * q.x, q.y * q.y, q.z * q.z, q.w * q.w;
  }

  lemma Quotient(x: real, n: real, a: real)
    requires n > 0.0 && a == x / n
    ensures Product(x, n, a)
  {
  }

  /** Whatever the anchors, a target that is computed has a unit orientation. */
  lemma TargetOrientationIsUnit(m: Mapping, leader: Pose, norm: Quat -> real)
    requires IsNorm(norm)
    ensures ComputeTarget(m, leader, norm).Ok? ==> Unit(ComputeTarget(m, leader, norm).value.quat)
  {
    NormalizeLaw(RawOrientation(m, leader.quat), norm);
  }

  /** With unit orientations, the target has turned from the follower's anchor by exactly the rotation
      the leader has made from its own, seen through the alignment, and has moved by the scaled and
      aligned displacement of the leader. */
  lemma TargetFollowsLeader(m: Mapping, leader: Pose, norm: Quat -> real)
    requires IsNorm(norm) && UnitMapping(m) && Unit(leader.quat)
    ensures ComputeTarget(m, leader, norm).Ok?
    ensures var target := ComputeTarget(m, leader, norm).value;
            var turned := QuatMultiply(leader.quat, QuatConjugate(m.leader.quat));
            && QuatMultiply(target.quat, QuatConjugate(m.follower.quat))
               == QuatMultiply(QuatMultiply(m.align, turned), QuatConjugate(m.align))
            && Minus(target.pos, m.follower.pos) == Scale(m.scale, RotateVec(m.align, Minus(leader.pos, m.leader.pos)))
  {
    hide QuatMultiply, QuatConjugate, NormSq, RotateVec;
    TargetIsUnit(m, leader, norm);
    var turned := QuatMultiply(leader.quat, QuatConjugate(m.leader.quat));
    var aligned := QuatMultiply(QuatMultiply(m.align, turned), QuatConjugate(m.align));
    MultiplyAssociative(aligned, m.follower.quat, QuatConjugate(m.follower.quat));
    ConjugateIsInverse(m.follower.quat);
    IdentityIsNeutral(aligned);
  }

  /** So a vector fixed to the follower is turned as the anchor turned it and then by the leader's
      rotation, taken into the leader's frame by the alignment and back. */
  lemma TargetActs(m: Mapping, leader: Pose, norm: Quat -> real, v: Vec3)
    requires IsNorm(norm) && UnitMapping(m) && Unit(leader.quat)
    ensures ComputeTarget(m, leader, norm).Ok?
    ensures RotateVec(ComputeTarget(m, leader, norm).value.quat, v)
         == RotateVec(m.align, RotateVec(leader.quat, RotateVec(QuatConjugate(m.leader.quat),
              RotateVec(QuatConjugate(m.align), RotateVec(m.follower.quat, v)))))
  {
    hide QuatMultiply, QuatConjugate, NormSq, RotateVec;
    TargetIsUnit(m, leader, norm);
    var turned := QuatMultiply(leader.quat, QuatConjugate(m.leader.quat));
    var through := QuatMultiply(m.align, turned);
    var u := RotateVec(m.follower.quat, v);
    var w := RotateVec(QuatConjugate(m.align), u);
    RotateByProduct(QuatMultiply(through, QuatConjugate(m.align)), m.follower.quat, v);
    RotateByProduct(through, QuatConjugate(m.align), u);
    RotateByProduct(m.align, turned, w);
    RotateByProduct(leader.quat, QuatConjugate(m.leader.quat), w);
  }

  // -------- the filter and the box

  /** The coefficient solves the discretised first-order filter of the cutoff frequency; a cutoff of
      zero or less switches the filter off, and without time passing it holds. */
  lemma LpfLaw(dt: real, cutoffHz: real, pi: real)
    requires pi > 0.0
    ensures var a := LpfAlpha(dt, cutoffHz, pi);
            && (cutoffHz <= 0.0 ==> a == 1.0)
            && (cutoffHz > 0.0 && dt <= 0.0 ==> a == 0.0)
            && (cutoffHz > 0.0 && dt > 0.0 ==> 0.0 < a < 1.0 && a == (1.0 - a) * (2.0 * pi * cutoffHz * dt))
  {
    if cutoffHz > 0.0 && dt > 0.0 {
      var omega := 2.0 * pi * cutoffHz;
      MulPositive(2.0 * pi, cutoffHz);
      var rc := 1.0 / omega;
      var a := LpfAlpha(dt, cutoffHz, pi);
      FilterCoefficient(dt, omega, rc, a);
    }
  }

  lemma FilterCoefficient(dt: real, omega: real, rc: real, a: real)
    requires dt > 0.0 && omega > 0.0 && rc == 1.0 / omega && dt + rc != 0.0 && a == dt / (dt + rc)
    ensures 0.0 < a < 1.0 && a == (1.0 - a) * (omega * dt)
  {
    assert rc * omega == 1.0;
    if rc <= 0.0 {
      MulNonneg(-rc, omega);
    }
    var total := dt + rc;
    assert a * total == dt;
    if a <= 0.0 {
      MulNonneg(-a, total);
    }
    if a >= 1.0 {
      MulNonneg(a - 1.0, total);
    }
    // a dt + a rc = dt, times omega, with rc omega = 1
    assert a * dt * omega + a * (rc * omega) == dt * omega;
  }

  /** Clamping gives the point of the interval nearest to the value. */
  lemma ClampIsNearest(v: real, lo: real, hi: real, x: real)
    requires lo <= x <= hi
    ensures lo <= Clamp(v, lo, hi) <= hi
    ensures v <= x ==> v <= Clamp(v, lo, hi) <= x
    ensures x <= v ==> x <= Clamp(v, lo, hi) <= v
  {
  }

  /** Clamping to the box does so on each axis. */
  lemma ClampToBoxIsNearest(p: Vec3, box: Box, q: Vec3)
    requires box.lo.x <= q.x <= box.hi.x && box.lo.y <= q.y <= box.hi.y && box.lo.z <= q.z <= box.hi.z
    ensures var c := ClampToBox(p, box);
            && box.lo.x <= c.x <= box.hi.x && box.lo.y <= c.y <= box.hi.y && box.lo.z <= c.z <= box.hi.z
            && LengthSq(Minus(c, p)) <= LengthSq(Minus(q, p))
  {
    ClampIsNearest(p.x, box.lo.x, box.hi.x, q.x);
    ClampIsNearest(p.y, box.lo.y, box.hi.y, q.y);
    ClampIsNearest(p.z, box.lo.z, box.hi.z, q.z);
    CloserVector(Minus(ClampToBox(p, box), p), Minus(q, p));
  }

  predicate Closer(a: real, b: real) {
    0.0 <= a <= b || b <= a <= 0.0
  }

  lemma CloserVector(a: Vec3, b: Vec3)
    requires Closer(a.x, b.x) && Closer(a.y, b.y) && Closer(a.z, b.z)
    ensures LengthSq(a) <= LengthSq(b)
  {
    CloserSquare(a.x, b.x);
    CloserSquare(a.y, b.y);
    CloserSquare(a.z, b.z);
  }

  lemma CloserSquare(a: real, b: real)
    requires Closer(a, b)
    ensures a * a <= b * b
  {
    if 0.0 <= b {
      MulMono(a, a, b);
      MulMono(b, a, b);
    } else {
      MulMono(-a, -a, -b);
      MulMono(-b, -a, -b);
    }
  }
}
