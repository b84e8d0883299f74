/** The leader/follower retargeting node: its state, its callbacks as functions on that state,
    and the node itself as a class whose methods are proved to compute those functions. */
module TeleopRetarget {
  import opened Quaternion
  import opened Reals
  import opened RetargetMath
  import opened Wrappers

  /** Fixed parameters.  The square root and the spherical interpolation are library functions
      and are supplied from outside. */
  datatype Config = Config(
    scale: real, align: Quat, cutoffHz: real, pi: real, watchdogTimeout: real, maxJump: real,
    staleness: real, pedalTimeout: real, box: Option<Box>,
    norm: Quat -> real, slerp: (Quat, Quat, real) -> Quat)

  datatype Reason = NeverEngaged | Operator | NoHeartbeat | HeartbeatStale | LeaderStale | LeaderJumped

  datatype EngageError = LeaderMissing | FollowerMissing

  /** A received pose and the time it was received at. */
  datatype Sample = Sample(at: real, pose: Pose)

  /** A published target pose and the stamp it carries. */
  datatype Target = Target(pose: Pose, stamp: real)

  datatype Announcement = Engaged | Disengaged(why: Reason)

  datatype State = State(
    engaged: bool,
    reason: Reason,
    leaderLatest: Option<Sample>,
    followerLatest: Option<Sample>,
    anchorLeader: Option<Pose>,
    anchorFollower: Option<Pose>,
    filt: Option<Pose>,
    prevStamp: Option<real>,
    prevPos: Option<Vec3>,
    lastPedal: Option<real>,
    targets: seq<Target>,
    announced: seq<Announcement>)
  {
    /** What every callback keeps: an engaged clutch has its anchors and a filter state, and the
        previous leader sample is the latest one. */
    predicate Valid() {
      && (engaged ==> leaderLatest.Some? && anchorLeader.Some? && anchorFollower.Some? && filt.Some?)
      && (leaderLatest.Some? ==> prevStamp.Some? && prevPos == Some(leaderLatest.value.pose.pos))
    }
  }

  const INITIAL := State(false, NeverEngaged, None, None, None, None, None, None, None, None, [],
                         [Disengaged(NeverEngaged)])

  function Disengage(s: State, reason: Reason): State {
    if !s.engaged then s
    else s.(engaged := false, reason := reason, announced := s.announced + [Disengaged(reason)])
  }

  predicate Stale(latest: Option<Sample>, now: real, limit: real) {
    latest.None? || now - latest.value.at > limit
  }

  function TryEngage(c: Config, s: State, now: real): (State, Option<EngageError>) {
    if s.engaged then (s, None)
    else if Stale(s.leaderLatest, now, c.staleness) then (s, Some(LeaderMissing))
    else if Stale(s.followerLatest, now, c.staleness) then (s, Some(FollowerMissing))
    else
      var leader, follower := s.leaderLatest.value.pose, s.followerLatest.value.pose;
      (s.(anchorLeader := Some(leader), anchorFollower := Some(follower), filt := Some(follower),
          engaged := true, announced := s.announced + [Engaged]),
       None)
  }

  function OnClutch(c: Config, s: State, now: real, engage: bool): State {
    if engage then TryEngage(c, s, now).0 else Disengage(s, Operator)
  }

  /** The heartbeat is subscribed to only when the pedal timeout is positive. */
  function OnPedalHeartbeat(c: Config, s: State, now: real): State {
    if c.pedalTimeout > 0.0 then s.(lastPedal := Some(now)) else s
  }

  predicate PedalExpired(c: Config, s: State, now: real) {
    c.pedalTimeout > 0.0 && (s.lastPedal.None? || now - s.lastPedal.value > c.pedalTimeout)
  }

  function Watchdog(c: Config, s: State, now: real): State {
    if !s.engaged then s
    else if PedalExpired(c, s, now) then Disengage(s, if s.lastPedal.None? then NoHeartbeat else HeartbeatStale)
    else if s.leaderLatest.None? then s
    else if now - s.leaderLatest.value.at > c.watchdogTimeout then Disengage(s, LeaderStale)
    else s
  }

  function OnFollowerPose(s: State, now: real, pose: Pose): State {
    s.(followerLatest := Some(Sample(now, pose)))
  }

  function Publish(s: State, pose: Pose, stamp: real): State {
    s.(targets := s.targets + [Target(pose, stamp)])
  }

  /** A jump is compared through its square: both sides are nonnegative. */
  predicate Jumped(c: Config, s: State, pos: Vec3) {
    c.maxJump > 0.0 && s.prevPos.Some? && LengthSq(Minus(pos, s.prevPos.value)) > c.maxJump * c.maxJump
  }

  function MappingOf(c: Config, s: State): Mapping
    requires s.anchorLeader.Some? && s.anchorFollower.Some?
  {
    Mapping(s.anchorLeader.value, s.anchorFollower.value, c.align, c.scale)
  }

  function Confine(box: Option<Box>, p: Vec3): Vec3 {
    if box.Some? then ClampToBox(p, box.value) else p
  }

  function Smooth(from: Vec3, to: Vec3, alpha: real): Vec3 {
    Vec3(Lerp(from.x, to.x, alpha), Lerp(from.y, to.y, alpha), Lerp(from.z, to.z, alpha))
  }

  /** One filter step towards the raw target, published with the sample's stamp. */
  function Follow(c: Config, s: State, raw: Pose, dt: real, stamp: real): State
    requires c.pi > 0.0 && s.filt.Some?
  {
    var alpha := LpfAlpha(dt, c.cutoffHz, c.pi);
    var pos := Smooth(s.filt.value.pos, Confine(c.box, raw.pos), alpha);
    var quat := c.slerp(s.filt.value.quat, raw.quat, alpha);
    Publish(s.(filt := Some(Pose(pos, quat))), Pose(pos, quat), stamp)
  }

  /** The leader callback.  Bookkeeping comes first, so duplicate samples move prevPos too. */
  function OnLeaderPose(c: Config, s: State, now: real, pose: Pose, stamp: real): State
    requires c.pi > 0.0 && s.Valid()
  {
    var noted := s.(leaderLatest := Some(Sample(now, pose)), prevStamp := Some(stamp), prevPos := Some(pose.pos));
    if !s.engaged then
      if s.filt.Some? then Publish(noted, s.filt.value, stamp) else noted
    else if s.prevStamp.None? || stamp - s.prevStamp.value <= 0.0 then noted
    else if Jumped(c, s, pose.pos) then Disengage(noted, LeaderJumped)
    else
      match ComputeTarget(MappingOf(c, s), pose, c.norm)
      case Err(_) => noted
      case Ok(raw) => Follow(c, noted, raw, stamp - s.prevStamp.value, stamp)
  }

  /** Normalising the target's orientation raises, and nothing in the leader callback catches it. */
  predicate LeaderRaises(c: Config, s: State, pose: Pose, stamp: real)
    requires s.Valid()
  {
    && s.engaged && s.prevStamp.Some? && stamp - s.prevStamp.value > 0.0 && !Jumped(c, s, pose.pos)
    && ComputeTarget(MappingOf(c, s), pose, c.norm).Err?
  }

  // -------- events and runs

  datatype Event =
    | Leader(now: real, pose: Pose, stamp: real)
    | Follower(now: real, pose: Pose)
    | Heartbeat(now: real)
    | Tick(now: real)
    | Clutch(now: real, engage: bool)

  function Step(c: Config, s: State, e: Event): (s': State)
    requires c.pi > 0.0 && s.Valid()
    ensures s'.Valid()
  {
    match e
    case Leader(now, pose, stamp) => OnLeaderPose(c, s, now, pose, stamp)
    case Follower(now, pose) => OnFollowerPose(s, now, pose)
    case Heartbeat(now) => OnPedalHeartbeat(c, s, now)
    case Tick(now) => Watchdog(c, s, now)
    case Clutch(now, engage) => OnClutch(c, s, now, engage)
  }

  function Run(c: Config, s: State, events: seq<Event>): (s': State)
    requires c.pi > 0.0 && s.Valid()
    ensures s'.Valid()
    decreases |events|
  {
    if events == [] then s
    else Step(c, Run(c, s, events[..|events| - 1]), events[|events| - 1])
  }

  function Current(s: State): Announcement {
    if s.engaged then Engaged else Disengaged(s.reason)
  }

  /** The clutch state topic carries exactly the changes: it starts disengaged, alternates, and
      its last message is the current state with the current reason. */
  ghost predicate Announces(s: State) {
    && |s.announced| > 0
    && s.announced[0] == Disengaged(NeverEngaged)
    && s.announced[|s.announced| - 1] == Current(s)
    && forall i :: 0 < i < |s.announced| ==> s.announced[i].Engaged? != s.announced[i - 1].Engaged?
  }

  lemma {:induction false} AnnouncementsAlternate(c: Config, events: seq<Event>)
    requires c.pi > 0.0
    ensures Announces(Run(c, INITIAL, events))
    decreases |events|
  {
    if events != [] {
      AnnouncementsAlternate(c, events[..|events| - 1]);
      AnnouncedStep(c, Run(c, INITIAL, events[..|events| - 1]), events[|events| - 1]);
    }
  }

  lemma AnnouncedStep(c: Config, s: State, e: Event)
    requires c.pi > 0.0 && s.Valid() && Announces(s)
    ensures Announces(Step(c, s, e))
  {
    var s' := Step(c, s, e);
    assert s'.announced == s.announced
      || (|s'.announced| == |s.announced| + 1 && s.announced == s'.announced[..|s.announced|]
          && s'.announced[|s.announced|] == Current(s') && s'.engaged == !s.engaged);
  }

  // -------- when the clutch closes and opens

  predicate Recent(latest: Option<Sample>, now: real, limit: real) {
    latest.Some? && now <= latest.value.at + limit
  }

  /** The clutch closes on an engage request with recent poses of both arms, and on nothing else; the
      anchors are then these poses and the filter starts at the follower's. */
  lemma ClosesIff(c: Config, s: State, e: Event)
    requires c.pi > 0.0 && s.Valid() && !s.engaged
    ensures var s' := Step(c, s, e);
            && (s'.engaged <==> && e.Clutch? && e.engage && Recent(s.leaderLatest, e.now, c.staleness)
                                && Recent(s.followerLatest, e.now, c.staleness))
            && (s'.engaged ==>
                  && s'.anchorLeader == Some(s.leaderLatest.value.pose)
                  && s'.anchorFollower == Some(s.followerLatest.value.pose)
                  && s'.filt == Some(s.followerLatest.value.pose))
            && (!s'.engaged ==> s'.filt == s.filt && s'.reason == s.reason)
  {
  }

  /** What opens a closed clutch, and the reason that is announced: the operator, a missing or stale
      heartbeat if heartbeats are asked for, a silent leader, a jump; checked in this order. */
  function WhyOpens(c: Config, s: State, e: Event): Option<Reason>
    requires s.Valid() && s.engaged
  {
    match e
    case Clutch(_, engage) => if engage then None else Some(Operator)
    case Tick(now) =>
      if c.pedalTimeout > 0.0 && s.lastPedal == None then Some(NoHeartbeat)
      else if c.pedalTimeout > 0.0 && now > s.lastPedal.value + c.pedalTimeout then Some(HeartbeatStale)
      else if now > s.leaderLatest.value.at + c.watchdogTimeout then Some(LeaderStale)
      else None
    case Leader(_, pose, stamp) =>
      if stamp > s.prevStamp.value && c.maxJump > 0.0
         && LengthSq(Minus(pose.pos, s.leaderLatest.value.pose.pos)) > c.maxJump * c.maxJump
      then Some(LeaderJumped) else None
    case _ => None
  }

  lemma OpensFor(c: Config, s: State, e: Event)
    requires c.pi > 0.0 && s.Valid() && s.engaged
    ensures var s', why := Step(c, s, e), WhyOpens(c, s, e);
            && (s'.engaged <==> why == None)
            && (why.Some? ==> s'.reason == why.value && s'.announced == s.announced + [Disengaged(why.value)])
            && (why.Some? ==> s'.filt == s.filt && s'.targets == s.targets)
            && (why == None ==> s'.announced == s.announced)
  {
    hide LengthSq, ComputeTarget, LpfAlpha, Smooth, Confine;
  }

  /** Every event records what arrived: poses with their time of arrival, and heartbeats if they are
      asked for. */
  lemma Records(c: Config, s: State, e: Event)
    requires c.pi > 0.0 && s.Valid()
    ensures var s' := Step(c, s, e);
            && s'.leaderLatest == (if e.Leader? then Some(Sample(e.now, e.pose)) else s.leaderLatest)
            && s'.followerLatest == (if e.Follower? then Some(Sample(e.now, e.pose)) else s.followerLatest)
            && s'.prevStamp == (if e.Leader? then Some(e.stamp) else s.prevStamp)
            && s'.lastPedal == (if e.Heartbeat? && c.pedalTimeout > 0.0 then Some(e.now) else s.lastPedal)
  {
    hide LengthSq, ComputeTarget, LpfAlpha, Smooth, Confine;
  }

  /** What a leader sample publishes: the held target while the clutch is open, if there is one; nothing
      for a sample that is not later than the one before; and otherwise, if it is neither a jump nor
      raises, the new state of the filter. */
  lemma PublishesWhen(c: Config, s: State, now: real, pose: Pose, stamp: real)
    requires c.pi > 0.0 && s.Valid()
    ensures var s' := OnLeaderPose(c, s, now, pose, stamp);
            && (!s.engaged && s.filt.Some? ==> s'.targets == s.targets + [Target(s.filt.value, stamp)] && s'.filt == s.filt)
            && (!s.engaged && s.filt.None? ==> s'.targets == s.targets)
            && (s.engaged && stamp <= s.prevStamp.value ==> s'.targets == s.targets && s'.filt == s.filt)
            && (s.engaged && stamp > s.prevStamp.value && !Jumped(c, s, pose.pos) && !LeaderRaises(c, s, pose, stamp) ==>
                  s'.filt.Some? && s'.targets == s.targets + [Target(s'.filt.value, stamp)])
  {
    hide LengthSq, ComputeTarget, LpfAlpha, Smooth, Confine;
  }

  lemma LerpLeaves(y: real, x: real, alpha: real)
    ensures x - Lerp(y, x, alpha) == (1.0 - alpha) * (x - y)
  {
  }

  /** A followed sample takes the filter the part alpha of the way to the target, clamped to the box: the
      rest of the way shrinks by 1 - alpha on each axis, and the orientation is interpolated by the same
      part from the filter's to the target's. */
  lemma FilterLaw(c: Config, s: State, now: real, pose: Pose, stamp: real)
    requires c.pi > 0.0 && s.Valid() && s.engaged && s.prevStamp.Some? && stamp > s.prevStamp.value
    requires !Jumped(c, s, pose.pos) && !LeaderRaises(c, s, pose, stamp)
    ensures var m := Mapping(s.anchorLeader.value, s.anchorFollower.value, c.align, c.scale);
            var held, next := s.filt.value, OnLeaderPose(c, s, now, pose, stamp).filt;
            var alpha := LpfAlpha(stamp - s.prevStamp.value, c.cutoffHz, c.pi);
            && ComputeTarget(m, pose, c.norm).Ok? && next.Some?
            && var target := ComputeTarget(m, pose, c.norm).value;
            && var goal := if c.box.Some? then ClampToBox(target.pos, c.box.value) else target.pos;
            && goal.x - next.value.pos.x == (1.0 - alpha) * (goal.x - held.pos.x)
            && goal.y - next.value.pos.y == (1.0 - alpha) * (goal.y - held.pos.y)
            && goal.z - next.value.pos.z == (1.0 - alpha) * (goal.z - held.pos.z)
            && next.value.quat == c.slerp(held.quat, target.quat, alpha)
  {
    hide LengthSq, ComputeTarget, LpfAlpha, ClampToBox, Lerp, Jumped;
    var m := MappingOf(c, s);
    var target := ComputeTarget(m, pose, c.norm).value;
    var goal := Confine(c.box, target.pos);
    var alpha := LpfAlpha(stamp - s.prevStamp.value, c.cutoffHz, c.pi);
    LerpLeaves(s.filt.value.pos.x, goal.x, alpha);
    LerpLeaves(s.filt.value.pos.y, goal.y, alpha);
    LerpLeaves(s.filt.value.pos.z, goal.z, alpha);
  }

  // -------- the node

  class TeleopRetargetNode {
    const c: Config
    var engaged: bool
    var reason: Reason
    var leaderLatest: Option<Sample>
    var followerLatest: Option<Sample>
    var anchorLeader: Option<Pose>
    var anchorFollower: Option<Pose>
    var filt: Option<Pose>
    var prevStamp: Option<real>
    var prevPos: Option<Vec3>
    var lastPedal: Option<real>
    var targets: seq<Target>
    var announced: seq<Announcement>

    function Model(): State
      reads this
    {
      State(engaged, reason, leaderLatest, followerLatest, anchorLeader, anchorFollower, filt, prevStamp, prevPos,
            lastPedal, targets, announced)
    }

    ghost predicate Valid()
      reads this
    {
      c.pi > 0.0 && Model().Valid()
    }

    constructor (config: Config)
      requires config.pi > 0.0
      ensures Valid() && Model() == INITIAL
    {
      c := config;
      engaged, reason := false, NeverEngaged;
      leaderLatest, followerLatest := None, None;
      anchorLeader, anchorFollower, filt := None, None, None;
      prevStamp, prevPos, lastPedal := None, None, None;
      targets := [];
      announced := [Disengaged(NeverEngaged)];
    }

    method PublishClutchState()
      modifies `announced
      ensures announced == old(announced) + [Current(Model())]
    {
      announced := announced + [if engaged then Engaged else Disengaged(reason)];
    }

    method Release(why: Reason)
      requires Valid()
      modifies this
      ensures Valid() && Model() == Disengage(old(Model()), why)
    {
      if !engaged {
        return;
      }
      engaged := false;
      reason := why;
      PublishClutchState();
    }

    method Engage(now: real) returns (error: Option<EngageError>)
      requires Valid()
      modifies this
      ensures Valid() && (Model(), error) == TryEngage(c, old(Model()), now)
    {
      if engaged {
        return None;
      }
      if leaderLatest.None? || now - leaderLatest.value.at > c.staleness {
        return Some(LeaderMissing);
      }
      if followerLatest.None? || now - followerLatest.value.at > c.staleness {
        return Some(FollowerMissing);
      }
      anchorLeader := Some(leaderLatest.value.pose);
      anchorFollower := Some(followerLatest.value.pose);
      filt := anchorFollower;
      engaged := true;
      PublishClutchState();
      return None;
    }

    method HandleClutch(now: real, engage: bool) returns (success: bool)
      requires Valid()
      modifies this
      ensures Valid() && Model() == OnClutch(c, old(Model()), now, engage)
      ensures success <==> (engage ==> engaged)
    {
      if engage {
        var error := Engage(now);
        success := error.None?;
      } else {
        Release(Operator);
        success := true;
      }
    }

    method HandleHeartbeat(now: real)
      requires Valid()
      modifies this
      ensures Valid() && Model() == OnPedalHeartbeat(c, old(Model()), now)
    {
      if c.pedalTimeout > 0.0 {
        lastPedal := Some(now);
      }
    }

    method HandleTick(now: real)
      requires Valid()
      modifies this
      ensures Valid() && Model() == Watchdog(c, old(Model()), now)
    {
      if !engaged {
        return;
      }
      if c.pedalTimeout > 0.0 {
        if lastPedal.None? {
          Release(NoHeartbeat);
          return;
        }
        if now - lastPedal.value > c.pedalTimeout {
          Release(HeartbeatStale);
          return;
        }
      }
      if now - leaderLatest.value.at > c.watchdogTimeout {
        Release(LeaderStale);
      }
    }

    method HandleFollower(now: real, pose: Pose)
      requires Valid()
      modifies this
      ensures Valid() && Model() == OnFollowerPose(old(Model()), now, pose)
    {
      followerLatest := Some(Sample(now, pose));
    }

    /** raised says that the callback ends with an exception. */
    method HandleLeader(now: real, pose: Pose, stamp: real) returns (raised: bool)
      requires Valid()
      modifies this
      ensures Valid() && Model() == OnLeaderPose(c, old(Model()), now, pose, stamp)
      ensures raised <==> LeaderRaises(c, old(Model()), pose, stamp)
    {
      hide ComputeTarget, Follow, LengthSq;
      var before, beforePos := prevStamp, prevPos;
      leaderLatest := Some(Sample(now, pose));
      prevStamp, prevPos := Some(stamp), Some(pose.pos);
      if !engaged {
        if filt.Some? {
          targets := targets + [Target(filt.value, stamp)];
        }
        return false;
      }
      var dt := stamp - before.value;
      if dt <= 0.0 {
        return false;
      }
      if c.maxJump > 0.0 && LengthSq(Minus(pose.pos, beforePos.value)) > c.maxJump * c.maxJump {
        Release(LeaderJumped);
        return false;
      }
      raised := FollowLeader(pose, dt, stamp);
    }

    /** The engaged tail of the leader callback; a failing normalisation raises before anything is
        changed. */
    method FollowLeader(pose: Pose, dt: real, stamp: real) returns (raised: bool)
      requires Valid() && engaged
      modifies `filt, `targets
      ensures Valid()
      ensures match ComputeTarget(MappingOf(c, old(Model())), pose, c.norm)
              case Err(_) => Model() == old(Model())
              case Ok(raw) => Model() == Follow(c, old(Model()), raw, dt, stamp)
      ensures raised <==> ComputeTarget(MappingOf(c, old(Model())), pose, c.norm).Err?
    {
      hide ComputeTarget, LpfAlpha, Smooth, Confine;
      var m := Mapping(anchorLeader.value, anchorFollower.value, c.align, c.scale);
      raised := ComputeTarget(m, pose, c.norm).Err?;
      match ComputeTarget(m, pose, c.norm)
      case Err(_) =>
      case Ok(raw) =>
        var alpha := LpfAlpha(dt, c.cutoffHz, c.pi);
        var pos := Smooth(filt.value.pos, Confine(c.box, raw.pos), alpha);
        var quat := c.slerp(filt.value.quat, raw.quat, alpha);
        filt := Some(Pose(pos, quat));
        targets := targets + [Target(filt.value, stamp)];
    }
  }
}
