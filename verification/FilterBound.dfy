/** How far the published targets of the retargeting node can be from where they should be.
    Over any run whose leader stamps strictly increase while the clutch is closed: every published
    target is inside the workspace box, the filter lags behind the clamped raw target by a bounded
    amount on each axis, and no sample moves a coordinate by more than a bounded amount. */
module FilterBound {
  import opened Quaternion
  import opened Reals
  import opened RetargetMath
  import opened TeleopRetarget
  import opened Wrappers

  /** The largest displacement of the raw target between two accepted leader samples. */
  function MaxMove(c: Config): real {
    c.scale * c.maxJump
  }

  /** d (1 - a) / a */
  function LagBound(d: real, a: real): real
    requires a > 0.0
  {
    d * (1.0 - a) / a
  }

  /** The largest move of one coordinate in one sample of coefficient alpha. */
  function MoveBound(d: real, alpha: real, a: real): real
    requires a > 0.0
  {
    alpha * (d / a)
  }

  predicate Inside(box: Option<Box>, p: Vec3) {
    box.Some? ==>
      && box.value.lo.x <= p.x <= box.value.hi.x
      && box.value.lo.y <= p.y <= box.value.hi.y
      && box.value.lo.z <= p.z <= box.value.hi.z
  }

  predicate Near(p: Vec3, q: Vec3, d: real) {
    Within(p.x - q.x, d) && Within(p.y - q.y, d) && Within(p.z - q.z, d)
  }

  /** What the node's own validation and the parameters' meaning give. */
  ghost predicate GoodConfig(c: Config) {
    && c.pi > 0.0 && c.scale > 0.0 && c.maxJump > 0.0
    && Unit(c.align) && IsNorm(c.norm)
    && (c.box.Some? ==>
          && c.box.value.lo.x <= c.box.value.hi.x
          && c.box.value.lo.y <= c.box.value.hi.y
          && c.box.value.lo.z <= c.box.value.hi.z)
  }

  // -------- one axis

  lemma SameQuotient(d: real, a: real, q: real)
    requires a > 0.0 && q * a == d
    ensures q == d / a
  {
  }

  lemma QuotientNonneg(p: real, q: real)
    requires p >= 0.0 && q > 0.0
    ensures p / q >= 0.0
  {
  }

  /** d / a, the lag bound plus one displacement. */
  lemma LagBoundReach(d: real, a: real, reach: real)
    requires 0.0 < a <= 1.0 && d >= 0.0 && reach == d / a
    ensures Product(d, a, reach) && reach >= d
    ensures LagBound(d, a) == reach - d >= 0.0
  {
    var lag := LagBound(d, a);
    assert lag * a == d * (1.0 - a);
    assert d * (1.0 - a) == d - d * a;
    assert (lag + d) * a == lag * a + d * a;
    SameQuotient(d, a, lag + d);
    MulNonneg(d, 1.0 - a);
    QuotientNonneg(d * (1.0 - a), a);
  }

  /** One axis of a filter step: x is the clamped raw target before and after the sample, y0 the
      filter before it, reach = d / a and ar = alpha * reach. */
  lemma AxisStep(x0: real, x1: real, y0: real, alpha: real, a: real, d: real, reach: real, ar: real)
    requires 0.0 < a <= alpha <= 1.0 && 0.0 <= d <= reach
    requires Product(d, a, reach) && Product(ar, alpha, reach)
    requires Within(x1 - x0, d) && Within(x0 - y0, reach - d)
    ensures Within(x1 - Lerp(y0, x1, alpha), reach - d)
    ensures Within(Lerp(y0, x1, alpha) - y0, ar)
  {
    var e := x1 - y0;
    var ae := alpha * e;
    assert Product(ae, alpha, e);
    hide Product, Lerp;
    MulWithin(alpha, e, reach, ae, ar);
    RestWithin(alpha, e, reach, ae, ar);
    ProductMono(a, alpha, reach, d, ar);
    LerpStep(y0, x1, alpha, e, ae);
  }

  lemma AlphaInRange(dt: real, cutoffHz: real, pi: real)
    requires pi > 0.0
    ensures 0.0 <= LpfAlpha(dt, cutoffHz, pi) <= 1.0
  {
    if cutoffHz > 0.0 && dt > 0.0 {
      MulPositive(2.0 * pi, cutoffHz);
      var rc := 1.0 / (2.0 * pi * cutoffHz);
      assert rc * (2.0 * pi * cutoffHz) == 1.0;
      if rc < 0.0 {
        MulStrict(2.0 * pi * cutoffHz, rc, 0.0);
      }
      RatioInRange(dt, dt + rc);
    }
  }

  lemma RatioInRange(p: real, q: real)
    requires 0.0 <= p <= q && q > 0.0
    ensures 0.0 <= p / q <= 1.0
  {
    var r := p / q;
    assert r * q == p;
    if r < 0.0 {
      MulStrict(q, r, 0.0);
    } else if r > 1.0 {
      MulStrict(q, 1.0, r);
    }
  }

  // -------- three axes

  lemma ClampIsContraction(u: real, v: real, lo: real, hi: real, d: real)
    requires Within(u - v, d)
    ensures Within(Clamp(u, lo, hi) - Clamp(v, lo, hi), d)
  {
  }

  lemma ConfineIsContraction(box: Option<Box>, p: Vec3, q: Vec3, d: real)
    requires Near(p, q, d)
    ensures Near(Confine(box, p), Confine(box, q), d)
  {
    if box.Some? {
      ClampIsContraction(p.x, q.x, box.value.lo.x, box.value.hi.x, d);
      ClampIsContraction(p.y, q.y, box.value.lo.y, box.value.hi.y, d);
      ClampIsContraction(p.z, q.z, box.value.lo.z, box.value.hi.z, d);
    }
  }

  lemma LengthBoundsAxes(v: Vec3, d: real)
    requires d >= 0.0 && LengthSq(v) <= d * d
    ensures Near(v, ORIGIN, d)
  {
    assert v.x * v.x >= 0.0 && v.y * v.y >= 0.0 && v.z * v.z >= 0.0;
    WithinFromSquare(v.x, d);
    WithinFromSquare(v.y, d);
    WithinFromSquare(v.z, d);
  }

  /** Where the filter is heading: the clamped raw target for a leader position. */
  function Goal(c: Config, m: Mapping, leader: Vec3): Vec3 {
    Confine(c.box, TargetPosition(m, leader))
  }

  /** An accepted leader step moves the goal by at most position_scale times max_sample_jump. */
  lemma GoalMoves(c: Config, m: Mapping, from: Vec3, to: Vec3)
    requires GoodConfig(c) && m.align == c.align && m.scale == c.scale
    requires LengthSq(Minus(to, from)) <= c.maxJump * c.maxJump
    ensures Near(Goal(c, m, to), Goal(c, m, from), MaxMove(c))
  {
    hide TargetPosition, NormSq, LengthSq, Confine;
    var gap := Minus(TargetPosition(m, to), TargetPosition(m, from));
    DistancesScale(m, to, from);
    MulNonneg(c.scale, c.scale);
    MulMono(c.scale * c.scale, LengthSq(Minus(to, from)), c.maxJump * c.maxJump);
    SquareOfProduct(c.scale, c.maxJump);
    MulNonneg(c.scale, c.maxJump);
    LengthBoundsAxes(gap, MaxMove(c));
    ConfineIsContraction(c.box, TargetPosition(m, to), TargetPosition(m, from), MaxMove(c));
  }

  lemma SquareOfProduct(a: real, b: real)
    ensures a * a * (b * b) == (a * b) * (a * b)
  {
  }

  // -------- the node

  /** Engaged, with unit anchors, and the filter within the lag bound of the goal of the last
      leader position. */
  ghost predicate Tracking(c: Config, s: State, a: real)
    requires a > 0.0
  {
    && s.anchorLeader.Some? && s.anchorFollower.Some? && s.filt.Some? && s.prevPos.Some?
    && Unit(s.anchorLeader.value.quat) && Unit(s.anchorFollower.value.quat)
    && Near(Goal(c, MappingOf(c, s), s.prevPos.value), s.filt.value.pos, LagBound(MaxMove(c), a))
  }

  ghost predicate Good(c: Config, s: State, a: real)
    requires a > 0.0
  {
    && s.Valid()
    && (s.leaderLatest.Some? ==> Unit(s.leaderLatest.value.pose.quat))
    && (s.followerLatest.Some? ==>
          Unit(s.followerLatest.value.pose.quat) && Inside(c.box, s.followerLatest.value.pose.pos))
    && (s.filt.Some? ==> Inside(c.box, s.filt.value.pos))
    && (s.engaged ==> Tracking(c, s, a))
    && forall t :: t in s.targets ==> Inside(c.box, t.pose.pos)
  }

  /** Orientations are unit, follower positions are in the box, and while the clutch is closed leader
      stamps strictly increase and a bounds the filter coefficients from below. */
  predicate Admissible(c: Config, s: State, e: Event, a: real)
    requires c.pi > 0.0
  {
    match e
    case Leader(_, pose, stamp) =>
      && Unit(pose.quat)
      && (s.engaged && s.prevStamp.Some? ==>
            stamp > s.prevStamp.value && a <= LpfAlpha(stamp - s.prevStamp.value, c.cutoffHz, c.pi))
    case Follower(_, pose) => Unit(pose.quat) && Inside(c.box, pose.pos)
    case _ => true
  }

  predicate AdmissibleRun(c: Config, events: seq<Event>, a: real)
    requires c.pi > 0.0
    decreases |events|
  {
    events != [] ==>
      && AdmissibleRun(c, events[..|events| - 1], a)
      && Admissible(c, Run(c, INITIAL, events[..|events| - 1]), events[|events| - 1], a)
  }

  lemma SmoothStep(c: Config, g0: Vec3, g1: Vec3, y0: Vec3, alpha: real, a: real)
    requires GoodConfig(c) && 0.0 < a <= alpha <= 1.0
    requires Near(g1, g0, MaxMove(c)) && Near(g0, y0, LagBound(MaxMove(c), a))
    ensures Near(g1, Smooth(y0, g1, alpha), LagBound(MaxMove(c), a))
    ensures Near(Smooth(y0, g1, alpha), y0, MoveBound(MaxMove(c), alpha, a))
  {
    var d, reach, ar := MaxMove(c), MaxMove(c) / a, MoveBound(MaxMove(c), alpha, a);
    MulNonneg(c.scale, c.maxJump);
    LagBoundReach(d, a, reach);
    assert Product(ar, alpha, reach);
    hide MaxMove, LagBound, MoveBound, Lerp, NormSq, Product;
    AxisStep(g0.x, g1.x, y0.x, alpha, a, d, reach, ar);
    AxisStep(g0.y, g1.y, y0.y, alpha, a, d, reach, ar);
    AxisStep(g0.z, g1.z, y0.z, alpha, a, d, reach, ar);
  }

  lemma SmoothInside(c: Config, y0: Vec3, g1: Vec3, alpha: real)
    requires Inside(c.box, y0) && Inside(c.box, g1) && 0.0 <= alpha <= 1.0
    ensures Inside(c.box, Smooth(y0, g1, alpha))
  {
    hide Lerp;
    if c.box.Some? {
      LerpInside(c.box.value.lo.x, c.box.value.hi.x, y0.x, g1.x, alpha);
      LerpInside(c.box.value.lo.y, c.box.value.hi.y, y0.y, g1.y, alpha);
      LerpInside(c.box.value.lo.z, c.box.value.hi.z, y0.z, g1.z, alpha);
    }
  }

  lemma ConfineInside(c: Config, p: Vec3)
    requires GoodConfig(c)
    ensures Inside(c.box, Confine(c.box, p))
    ensures Inside(c.box, p) ==> Confine(c.box, p) == p
  {
  }

  /** One engaged leader sample: either it is a jump and the clutch opens, or the published target
      is in the box, within the lag bound of its goal, and has moved by at most
      alpha (lag bound + max move) on each axis. */
  lemma EngagedSample(c: Config, s: State, a: real, now: real, pose: Pose, stamp: real)
    requires GoodConfig(c) && 0.0 < a && Good(c, s, a) && s.engaged
    requires Admissible(c, s, Leader(now, pose, stamp), a)
    ensures var s' := OnLeaderPose(c, s, now, pose, stamp);
            if Jumped(c, s, pose.pos) then !s'.engaged && s'.filt == s.filt && s'.targets == s.targets
            else
              && s'.engaged && s'.filt.Some? && Inside(c.box, s'.filt.value.pos)
              && s'.targets == s.targets + [Target(s'.filt.value, stamp)]
              && Near(Goal(c, MappingOf(c, s), pose.pos), s'.filt.value.pos, LagBound(MaxMove(c), a))
              && Near(s'.filt.value.pos, s.filt.value.pos,
                   MoveBound(MaxMove(c), LpfAlpha(stamp - s.prevStamp.value, c.cutoffHz, c.pi), a))
  {
    hide TargetPosition, RawOrientation, ComputeTarget, NormSq, LengthSq, Confine, Smooth, LpfAlpha, LagBound, MaxMove,
         MoveBound, Near, Inside;
    if !Jumped(c, s, pose.pos) {
      var m := MappingOf(c, s);
      var alpha := LpfAlpha(stamp - s.prevStamp.value, c.cutoffHz, c.pi);
      TargetIsUnit(m, pose, c.norm);
      AlphaInRange(stamp - s.prevStamp.value, c.cutoffHz, c.pi);
      GoalMoves(c, m, s.prevPos.value, pose.pos);
      SmoothStep(c, Goal(c, m, s.prevPos.value), Goal(c, m, pose.pos), s.filt.value.pos, alpha, a);
      ConfineInside(c, TargetPosition(m, pose.pos));
      SmoothInside(c, s.filt.value.pos, Goal(c, m, pose.pos), alpha);
    }
  }

  /** Engaging starts the filter at the goal itself. */
  lemma EngageTracks(c: Config, s: State, a: real, now: real)
    requires GoodConfig(c) && 0.0 < a <= 1.0 && Good(c, s, a)
    ensures Good(c, TryEngage(c, s, now).0, a)
  {
    hide TargetPosition, NormSq, Confine, Near, Inside;
    var s' := TryEngage(c, s, now).0;
    if s'.engaged && !s.engaged {
      AnchorPosition(MappingOf(c, s'));
      ConfineInside(c, s'.anchorFollower.value.pos);
      MulNonneg(c.scale, c.maxJump);
      LagBoundReach(MaxMove(c), a, MaxMove(c) / a);
      NearItself(s'.filt.value.pos, LagBound(MaxMove(c), a));
    }
  }

  lemma NearItself(p: Vec3, d: real)
    requires d >= 0.0
    ensures Near(p, p, d)
  {
  }

  lemma GoodStep(c: Config, s: State, e: Event, a: real)
    requires GoodConfig(c) && 0.0 < a <= 1.0 && Good(c, s, a) && Admissible(c, s, e, a)
    ensures Good(c, Step(c, s, e), a)
  {
    hide TargetPosition, ComputeTarget, NormSq, LengthSq, Confine, LagBound, MaxMove, Near, Inside, LpfAlpha;
    match e
    case Leader(now, pose, stamp) =>
      if s.engaged {
        EngagedSample(c, s, a, now, pose, stamp);
      }
    case Clutch(now, engage) =>
      if engage {
        EngageTracks(c, s, a, now);
      }
    case _ =>
  }

  /** The invariant of every run: whatever the order of leader, follower, heartbeat, watchdog and
      clutch events, all published targets are in the box and an engaged filter is within the lag
      bound of its goal. */
  lemma {:induction false} RunStaysGood(c: Config, events: seq<Event>, a: real)
    requires GoodConfig(c) && 0.0 < a <= 1.0 && AdmissibleRun(c, events, a)
    ensures Good(c, Run(c, INITIAL, events), a)
    decreases |events|
  {
    if events != [] {
      RunStaysGood(c, events[..|events| - 1], a);
      GoodStep(c, Run(c, INITIAL, events[..|events| - 1]), events[|events| - 1], a);
    }
  }

  lemma MoveBoundAtA(d: real, a: real)
    requires a > 0.0
    ensures MoveBound(d, a, a) == d
  {
  }

  /** At a sample spacing whose coefficient is exactly a, a coordinate of the published target
      moves by at most position_scale times max_sample_jump. */
  lemma EqualSpacingMove(c: Config, events: seq<Event>, a: real, now: real, pose: Pose, stamp: real)
    requires GoodConfig(c) && 0.0 < a <= 1.0
    requires AdmissibleRun(c, events, a)
    requires var s := Run(c, INITIAL, events);
             && s.engaged && Admissible(c, s, Leader(now, pose, stamp), a)
             && LpfAlpha(stamp - s.prevStamp.value, c.cutoffHz, c.pi) == a
    ensures var s := Run(c, INITIAL, events);
            var s' := Step(c, s, Leader(now, pose, stamp));
            s'.engaged ==> Near(s'.filt.value.pos, s.filt.value.pos, MaxMove(c))
  {
    hide Near, LagBound, MaxMove, MoveBound, Inside, Tracking, Admissible, NormSq, LpfAlpha, ComputeTarget, LengthSq;
    var s := Run(c, INITIAL, events);
    RunStaysGood(c, events, a);
    EngagedSample(c, s, a, now, pose, stamp);
    MoveBoundAtA(MaxMove(c), a);
  }

  /** In such a run no leader callback raises. */
  lemma LeaderNeverRaises(c: Config, events: seq<Event>, a: real, now: real, pose: Pose, stamp: real)
    requires GoodConfig(c) && 0.0 < a <= 1.0
    requires AdmissibleRun(c, events, a) && Admissible(c, Run(c, INITIAL, events), Leader(now, pose, stamp), a)
    ensures !LeaderRaises(c, Run(c, INITIAL, events), pose, stamp)
  {
    hide ComputeTarget, Near, Inside, NormSq, LpfAlpha, Jumped, Run, AdmissibleRun;
    RunStaysGood(c, events, a);
    var s := Run(c, INITIAL, events);
    if s.engaged {
      TargetIsUnit(MappingOf(c, s), pose, c.norm);
    }
  }
}
