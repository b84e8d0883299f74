/** The end-effector twist publisher: finite differences of consecutive pose samples, what their
    sum adds up to, and what it emits when it is fed by the retargeting node. */
module EeTwist {
  import opened Quaternion
  import opened Reals
  import opened Wrappers
  import T = TeleopRetarget

  /** Fixed parameters; length (a square root) and atan2 are library functions. */
  datatype Config = Config(maxDt: real, linearGain: real, angularGain: real,
                           length: Vec3 -> real, atan2: (real, real) -> real)

  datatype Sample = Sample(t: real, pose: Pose)

  datatype Twist = Twist(linear: Vec3, angular: Vec3)

  /** A published twist with the sample spacing it was computed from. */
  datatype Emitted = Emitted(twist: Twist, dt: real)

  datatype State = State(prev: Option<Sample>, sent: seq<Emitted>)

  const INITIAL := State(None, [])

  const ZERO := Twist(ORIGIN, ORIGIN)

  function AnglePerLength(c: Config, n: real, w: real, dt: real): real
    requires n > 0.0 && dt > 0.0
  {
    MulPositive(n, dt);
    2.0 * c.atan2(n, w) / (n * dt)
  }

  /** The angular velocity of the rotation with vector part v and real part w, made in dt. */
  function AboutAxis(c: Config, v: Vec3, w: real, dt: real): Vec3
    requires dt > 0.0
  {
    var n := c.length(v);
    if n < 0.000000001 then ORIGIN
    else Scale(AnglePerLength(c, n, w, dt), v)
  }

  /** Of the two quaternions of the relative rotation, the one for the shorter way. */
  function AngularVelocity(c: Config, before: Quat, after: Quat, dt: real): Vec3
    requires dt > 0.0
  {
    var d := QuatMultiply(after, QuatConjugate(before));
    if d.w < 0.0 then AboutAxis(c, Vec3(-d.x, -d.y, -d.z), -d.w, dt)
    else AboutAxis(c, Vec3(d.x, d.y, d.z), d.w, dt)
  }

  function Difference(c: Config, before: Pose, after: Pose, dt: real): Twist
    requires dt > 0.0
  {
    var k := c.linearGain;
    Twist(
      Vec3(k * (after.pos.x - before.pos.x) / dt,
           k * (after.pos.y - before.pos.y) / dt,
           k * (after.pos.z - before.pos.z) / dt),
      Scale(c.angularGain, AngularVelocity(c, before.quat, after.quat, dt)))
  }

  /** Every sample is remembered; a twist is sent only for a positive spacing of at most maxDt. */
  function Process(c: Config, s: State, t: real, pose: Pose): State {
    var next := s.(prev := Some(Sample(t, pose)));
    if s.prev.None? then next
    else
      var dt := t - s.prev.value.t;
      if dt <= 0.0 || dt > c.maxDt then next
      else next.(sent := s.sent + [Emitted(Difference(c, s.prev.value.pose, pose, dt), dt)])
  }

  class EeTwistPublisher {
    const c: Config
    var prev: Option<Sample>
    var sent: seq<Emitted>

    function Model(): State
      reads this
    {
      State(prev, sent)
    }

    constructor (config: Config)
      ensures c == config && Model() == INITIAL
    {
      c := config;
      prev, sent := None, [];
    }

    method Handle(t: real, pose: Pose)
      modifies this
      ensures Model() == Process(c, old(Model()), t, pose)
    {
      hide Difference;
      var before := prev;
      prev := Some(Sample(t, pose));
      if before.None? {
        return;
      }
      var dt := t - before.value.t;
      if dt <= 0.0 {
        return;
      }
      if dt > c.maxDt {
        return;
      }
      sent := sent + [Emitted(Difference(c, before.value.pose, pose, dt), dt)];
    }
  }

  // -------- the twists add up to the displacement

  function ProcessAll(c: Config, samples: seq<Sample>): State
    decreases |samples|
  {
    if samples == [] then INITIAL
    else
      var last := samples[|samples| - 1];
      Process(c, ProcessAll(c, samples[..|samples| - 1]), last.t, last.pose)
  }

  /** The displacement obtained by integrating the linear part of the published twists. */
  function Integrated(sent: seq<Emitted>): Vec3
    decreases |sent|
  {
    if sent == [] then ORIGIN
    else
      var last := sent[|sent| - 1];
      Plus(Integrated(sent[..|sent| - 1]), Scale(last.dt, last.twist.linear))
  }

  predicate Steady(c: Config, samples: seq<Sample>) {
    forall i :: 0 < i < |samples| ==> samples[i - 1].t < samples[i].t <= samples[i - 1].t + c.maxDt
  }

  lemma TimesQuotient(x: real, dt: real)
    requires dt > 0.0
    ensures dt * (x / dt) == x
  {
  }

  lemma GainDistributes(k: real, a: real, b: real, c: real)
    ensures k * (c - a) == k * (b - a) + k * (c - b)
  {
  }

  lemma LinearTimesDt(c: Config, before: Pose, after: Pose, dt: real)
    requires dt > 0.0
    ensures Scale(dt, Difference(c, before, after, dt).linear) == Scale(c.linearGain, Minus(after.pos, before.pos))
  {
    hide AngularVelocity;
    var k := c.linearGain;
    TimesQuotient(k * (after.pos.x - before.pos.x), dt);
    TimesQuotient(k * (after.pos.y - before.pos.y), dt);
    TimesQuotient(k * (after.pos.z - before.pos.z), dt);
  }

  lemma ScaledPath(k: real, a: Vec3, b: Vec3, c: Vec3)
    ensures Plus(Scale(k, Minus(b, a)), Scale(k, Minus(c, b))) == Scale(k, Minus(c, a))
  {
    GainDistributes(k, a.x, b.x, c.x);
    GainDistributes(k, a.y, b.y, c.y);
    GainDistributes(k, a.z, b.z, c.z);
  }

  /** One accepted sample: one more twist, and the integral advances by the scaled displacement. */
  lemma IntegralStep(c: Config, p: State, prev: Sample, last: Sample)
    requires p.prev == Some(prev) && prev.t < last.t <= prev.t + c.maxDt
    ensures var s := Process(c, p, last.t, last.pose);
            && s.prev == Some(last) && |s.sent| == |p.sent| + 1
            && Integrated(s.sent)
               == Plus(Integrated(p.sent), Scale(c.linearGain, Minus(last.pose.pos, prev.pose.pos)))
  {
    hide Difference, Scale, Plus, Minus;
    var dt := last.t - prev.t;
    var s := Process(c, p, last.t, last.pose);
    LinearTimesDt(c, prev.pose, last.pose, dt);
    assert s.sent[..|s.sent| - 1] == p.sent;
  }

  /** For strictly increasing stamps with gaps of at most maxDt every sample after the first sends
      a twist, and integrating them gives linear_gain times the net displacement. */
  lemma {:induction false} TwistsTelescope(c: Config, samples: seq<Sample>)
    requires Steady(c, samples) && samples != []
    ensures var s := ProcessAll(c, samples);
            && s.prev == Some(samples[|samples| - 1])
            && |s.sent| == |samples| - 1
            && Integrated(s.sent) == Scale(c.linearGain, Minus(samples[|samples| - 1].pose.pos, samples[0].pose.pos))
    decreases |samples|
  {
    hide Process, Scale, Plus, Minus;
    var n := |samples| - 1;
    var last := samples[n];
    if n == 0 {
      FirstSample(c, samples);
      ScaleOfNothing(c.linearGain, last.pose.pos);
    } else {
      var prev := samples[n - 1];
      TwistsTelescope(c, samples[..n]);
      IntegralStep(c, ProcessAll(c, samples[..n]), prev, last);
      ScaledPath(c.linearGain, samples[0].pose.pos, prev.pose.pos, last.pose.pos);
    }
  }

  lemma FirstSample(c: Config, samples: seq<Sample>)
    requires |samples| == 1
    ensures ProcessAll(c, samples) == State(Some(samples[0]), [])
  {
    assert samples[..0] == [];
  }

  lemma ScaleOfNothing(k: real, p: Vec3)
    ensures Scale(k, Minus(p, p)) == ORIGIN
  {
  }

  // -------- the angular part

  function Negate(q: Quat): Quat {
    Quat(-q.x, -q.y, -q.z, -q.w)
  }

  function Opposite(v: Vec3): Vec3 {
    Vec3(-v.x, -v.y, -v.z)
  }

  ghost predicate Even(length: Vec3 -> real) {
    forall v: Vec3 :: length(Opposite(v)) == length(v)
  }

  lemma ProductNegates(a: Quat, b: Quat)
    ensures QuatMultiply(Negate(a), b) == Negate(QuatMultiply(a, b))
  {
  }

  lemma ScaleOpposite(k: real, v: Vec3)
    ensures Scale(k, Opposite(v)) == Opposite(Scale(k, v))
  {
  }

  lemma AboutOpposite(c: Config, v: Vec3, w: real, dt: real)
    requires Even(c.length) && dt > 0.0
    ensures AboutAxis(c, Opposite(v), w, dt) == Opposite(AboutAxis(c, v, w, dt))
  {
    hide Scale, AnglePerLength;
    var n := c.length(v);
    assert c.length(Opposite(v)) == n;
    if n >= 0.000000001 {
      ScaleOpposite(AnglePerLength(c, n, w, dt), v);
    }
  }

  /** The two quaternions of one rotation give the same angular velocity, unless the relative
      rotation is a half turn: then they give opposite ones. */
  lemma SignOfRotation(c: Config, before: Quat, after: Quat, dt: real)
    requires Even(c.length) && dt > 0.0
    ensures var omega := AngularVelocity(c, before, after, dt);
            AngularVelocity(c, before, Negate(after), dt)
            == if QuatMultiply(after, QuatConjugate(before)).w != 0.0 then omega else Opposite(omega)
  {
    ProductNegates(after, QuatConjugate(before));
    hide QuatMultiply, QuatConjugate, AboutAxis;
    var d := QuatMultiply(after, QuatConjugate(before));
    AboutOpposite(c, Vec3(d.x, d.y, d.z), d.w, dt);
  }

  lemma RelativeReverse(before: Quat, after: Quat)
    ensures QuatMultiply(before, QuatConjugate(after)) == QuatConjugate(QuatMultiply(after, QuatConjugate(before)))
  {
    hide QuatMultiply, QuatConjugate;
    ConjugateOfProduct(after, QuatConjugate(before));
    ConjugateTwice(before);
  }

  /** Going back takes the opposite angular velocity. */
  lemma ReverseRotation(c: Config, before: Quat, after: Quat, dt: real)
    requires Even(c.length) && dt > 0.0
    ensures AngularVelocity(c, after, before, dt) == Opposite(AngularVelocity(c, before, after, dt))
  {
    var d := QuatMultiply(after, QuatConjugate(before));
    RelativeReverse(before, after);
    hide QuatMultiply, AboutAxis;
    AboutOpposite(c, Vec3(d.x, d.y, d.z), d.w, dt);
    AboutOpposite(c, Vec3(-d.x, -d.y, -d.z), -d.w, dt);
  }

  /** The relative rotation that the angular velocity is taken from: it takes the first orientation to
      the second, the shorter way round. */
  function Relative(before: Quat, after: Quat): Quat {
    var d := QuatMultiply(after, QuatConjugate(before));
    if d.w < 0.0 then Negate(d) else d
  }

  lemma RelativeRotates(before: Quat, after: Quat)
    requires Unit(before)
    ensures QuatMultiply(Relative(before, after), before) in {after, Negate(after)}
    ensures Relative(before, after).w >= 0.0
  {
    var d := QuatMultiply(after, QuatConjugate(before));
    UndoConjugate(before, after);
    ProductNegates(d, before);
    hide QuatMultiply, QuatConjugate;
  }

  lemma UndoConjugate(before: Quat, after: Quat)
    requires Unit(before)
    ensures QuatMultiply(QuatMultiply(after, QuatConjugate(before)), before) == after
  {
    hide QuatMultiply, QuatConjugate, NormSq;
    MultiplyAssociative(after, QuatConjugate(before), before);
    ConjugateIsInverse(before);
    IdentityIsNeutral(after);
  }

  lemma ScaledBack(n: real, dt: real, angle: real, k: real, x: real)
    requires n > 0.0 && dt > 0.0 && n * dt > 0.0 && k == angle / (n * dt)
    ensures n * dt * (k * x) == angle * x
  {
    assert k * (n * dt) == angle;
    assert n * dt * (k * x) == (k * (n * dt)) * x;
  }

  /** The angular velocity turns about the axis of the relative rotation, through the rotation's angle,
      2 atan2(n, w), in the time between the samples; n is the length of its vector part, and a rotation
      with n below 10^-9 counts as none. */
  lemma AngularVelocityLaw(c: Config, before: Quat, after: Quat, dt: real)
    requires dt > 0.0
    ensures var d, omega := Relative(before, after), AngularVelocity(c, before, after, dt);
            var axis := Vec3(d.x, d.y, d.z);
            var n := c.length(axis);
            && (n < 0.000000001 ==> omega == ORIGIN)
            && (n >= 0.000000001 ==> Scale(n * dt, omega) == Scale(2.0 * c.atan2(n, d.w), axis))
  {
    hide QuatMultiply, QuatConjugate;
    var d := Relative(before, after);
    var axis := Vec3(d.x, d.y, d.z);
    var n := c.length(axis);
    assert AngularVelocity(c, before, after, dt) == AboutAxis(c, axis, d.w, dt);
    if n >= 0.000000001 {
      MulPositive(n, dt);
      var k := AnglePerLength(c, n, d.w, dt);
      ScaledBack(n, dt, 2.0 * c.atan2(n, d.w), k, axis.x);
      ScaledBack(n, dt, 2.0 * c.atan2(n, d.w), k, axis.y);
      ScaledBack(n, dt, 2.0 * c.atan2(n, d.w), k, axis.z);
    }
  }

  /** A twist is sent for a sample if and only if there is one before it, later by more than nothing and
      at most max_dt; its angular part is the gain times the angular velocity, and every sample becomes
      the one that the next is compared with. */
  lemma SentIff(c: Config, s: State, t: real, pose: Pose)
    ensures var next := Process(c, s, t, pose);
            && next.prev == Some(Sample(t, pose))
            && (next.sent != s.sent <==> s.prev.Some? && 0.0 < t - s.prev.value.t && t - s.prev.value.t <= c.maxDt)
            && (next.sent != s.sent ==>
                  var dt := t - s.prev.value.t;
                  && |next.sent| == |s.sent| + 1 && next.sent[..|s.sent|] == s.sent
                  && next.sent[|s.sent|].dt == dt
                  && next.sent[|s.sent|].twist.angular
                     == Scale(c.angularGain, AngularVelocity(c, s.prev.value.pose.quat, pose.quat, dt)))
  {
    hide AngularVelocity;
    var next := Process(c, s, t, pose);
    if s.prev.Some? && 0.0 < t - s.prev.value.t <= c.maxDt {
      assert |next.sent| == |s.sent| + 1;
    }
  }

  // -------- fed by the retargeting node

  /** Both nodes on one line: the twist publisher receives every published target.  settled says
      that a target has been republished since the clutch opened. */
  datatype Line = Line(clutch: T.State, twist: State, settled: bool)

  function Feed(c: Config, s: State, targets: seq<T.Target>): State
    decreases |targets|
  {
    if targets == [] then s
    else
      var last := targets[|targets| - 1];
      Process(c, Feed(c, s, targets[..|targets| - 1]), last.stamp, last.pose)
  }

  function LineStep(tc: T.Config, c: Config, l: Line, e: T.Event): (l': Line)
    requires tc.pi > 0.0 && l.clutch.Valid()
    ensures l'.clutch.Valid()
  {
    var clutch := T.Step(tc, l.clutch, e);
    var arrivals := if |l.clutch.targets| <= |clutch.targets| then clutch.targets[|l.clutch.targets|..] else [];
    var holds := e.Leader? && !l.clutch.engaged && l.clutch.filt.Some?;
    Line(clutch, Feed(c, l.twist, arrivals), (l.settled && !clutch.engaged) || holds)
  }

  function LineRun(tc: T.Config, c: Config, events: seq<T.Event>): (l: Line)
    requires tc.pi > 0.0
    ensures l.clutch.Valid()
    decreases |events|
  {
    if events == [] then Line(T.INITIAL, INITIAL, false)
    else LineStep(tc, c, LineRun(tc, c, events[..|events| - 1]), events[|events| - 1])
  }

  /** A settled line: the clutch is open and the last sample of the twist publisher is the held
      target. */
  ghost predicate Settled(l: Line) {
    l.settled ==>
      && !l.clutch.engaged && l.clutch.filt.Some?
      && l.twist.prev.Some? && l.twist.prev.value.pose == l.clutch.filt.value
  }

  lemma SamePoseSendsZero(c: Config, p: Pose, dt: real)
    requires c.length(ORIGIN) == 0.0 && dt > 0.0
    ensures Difference(c, p, p, dt) == ZERO
  {
    assert AngularVelocity(c, p.quat, p.quat, dt) == ORIGIN by {
      ConjugateIsInverse(p.quat);
      hide QuatMultiply, QuatConjugate;
    }
    hide AngularVelocity;
    assert c.linearGain * 0.0 == 0.0;
  }

  lemma FeedAtMostOne(c: Config, s: State, t: T.Target)
    ensures Feed(c, s, [t]) == Process(c, s, t.stamp, t.pose)
  {
    assert [t][..0] == [];
  }

  /** One step from a settled line: a twist that is sent is zero, linear and angular. */
  lemma SettledStep(tc: T.Config, c: Config, l: Line, e: T.Event)
    requires tc.pi > 0.0 && l.clutch.Valid() && Settled(l) && c.length(ORIGIN) == 0.0
    ensures Settled(LineStep(tc, c, l, e))
    ensures var sent := LineStep(tc, c, l, e).twist.sent;
            l.settled ==> sent == l.twist.sent || (exists dt :: sent == l.twist.sent + [Emitted(ZERO, dt)])
  {
    hide Difference;
    var l' := LineStep(tc, c, l, e);
    if e.Leader? && !l.clutch.engaged && l.clutch.filt.Some? {
      var held := T.Target(l.clutch.filt.value, e.stamp);
      assert l'.clutch.targets == l.clutch.targets + [held];
      assert l'.clutch.targets[|l.clutch.targets|..] == [held];
      FeedAtMostOne(c, l.twist, held);
      if l.settled {
        var dt := e.stamp - l.twist.prev.value.t;
        if dt > 0.0 {
          SamePoseSendsZero(c, held.pose, dt);
        }
      }
    } else if l.settled {
      assert l'.clutch.targets == l.clutch.targets;
    }
  }

  lemma {:induction false} LineStaysSettled(tc: T.Config, c: Config, events: seq<T.Event>)
    requires tc.pi > 0.0 && c.length(ORIGIN) == 0.0
    ensures Settled(LineRun(tc, c, events))
    decreases |events|
  {
    if events != [] {
      LineStaysSettled(tc, c, events[..|events| - 1]);
      SettledStep(tc, c, LineRun(tc, c, events[..|events| - 1]), events[|events| - 1]);
    }
  }

  /** Over every sequence of events: once a target has been republished after the clutch opened,
      every twist sent until it closes again is zero. */
  lemma HoldSendsZeroTwists(tc: T.Config, c: Config, events: seq<T.Event>, e: T.Event)
    requires tc.pi > 0.0 && c.length(ORIGIN) == 0.0
    ensures var l, l' := LineRun(tc, c, events), LineRun(tc, c, events + [e]);
            l.settled ==> l'.twist.sent == l.twist.sent || (exists dt :: l'.twist.sent == l.twist.sent + [Emitted(ZERO, dt)])
  {
    LineStaysSettled(tc, c, events);
    SettledStep(tc, c, LineRun(tc, c, events), e);
    assert (events + [e])[..|events|] == events;
  }
}
