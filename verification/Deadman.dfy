/** The pedal, a network that delays, reorders and loses messages, and the retargeting node with
    its watchdog timer, as one timed transition system.
    Safety: once a hold-mode pedal is no longer held by a living node, the clutch is open after a
    bounded time, whatever happens to the messages.  Availability: what opens a closed clutch is
    determined exactly; once a press has settled and no message is lost, the clutch of a held pedal
    stays closed for as long as the leader stream does not fail. */
module Deadman {
  import opened Quaternion
  import opened RetargetMath
  import opened TeleopRetarget
  import opened Wrappers
  import P = ClutchPedal

  datatype Packet = Packet(command: P.Command, sentAt: real)

  /** maxDelay bounds message delay, tickGap the time between watchdog ticks and beatGap the time
      between heartbeats of a held pedal. */
  datatype Timing = Timing(maxDelay: real, tickGap: real, beatGap: real)

  /** active is the last instant at which a living pedal node held its pedal, beats the times of
      the heartbeats sent since the last press. */
  datatype System = System(
    now: real, alive: bool, pedal: P.Pedal, clutch: State, net: seq<Packet>,
    lastTick: real, active: real, pressedAt: real, beats: seq<real>)

  datatype Action =
    | Wait(until: real)
    | Press | Release | Unplug | Plug | Beat | Crash
    | Deliver(i: nat) | Lose(i: nat)
    | WatchdogTick
    | LeaderPose(pose: Pose, stamp: real) | FollowerPose(pose: Pose)

  predicate ValidTiming(c: Config, t: Timing) {
    c.pi > 0.0 && c.pedalTimeout > 0.0 && t.maxDelay >= 0.0 && t.tickGap >= 0.0 && t.beatGap >= 0.0
  }

  function Held(s: System): bool {
    s.alive && s.pedal.pressed
  }

  /** Time passes no further than a message deadline, the next watchdog tick or, while the pedal
      is held, the next heartbeat allow. */
  predicate Enabled(t: Timing, s: System, a: Action) {
    match a
    case Wait(until) =>
      && s.now <= until
      && (forall k :: k in s.net ==> until <= k.sentAt + t.maxDelay)
      && until <= s.lastTick + t.tickGap
      && (Held(s) ==> until <= (if s.beats == [] then s.pressedAt else s.beats[|s.beats| - 1]) + t.beatGap)
    case Deliver(i) => i < |s.net|
    case Lose(i) => i < |s.net|
    case Press => s.alive && s.pedal.connected
    case Release => s.alive && s.pedal.connected
    case Unplug => s.alive
    case Plug => s.alive
    case Beat => s.alive
    case _ => true
  }

  function Packets(commands: seq<P.Command>, now: real): seq<Packet> {
    seq(|commands|, i requires 0 <= i < |commands| => Packet(commands[i], now))
  }

  function Without(net: seq<Packet>, i: nat): seq<Packet>
    requires i < |net|
  {
    net[..i] + net[i + 1..]
  }

  function Send(s: System, out: (P.Pedal, seq<P.Command>)): System {
    s.(pedal := out.0, net := s.net + Packets(out.1, s.now))
  }

  /** What the retargeting node does with a message; in hold mode the pedal never toggles. */
  function Receive(c: Config, clutch: State, now: real, command: P.Command): State {
    match command
    case Engage => OnClutch(c, clutch, now, true)
    case Disengage => OnClutch(c, clutch, now, false)
    case Heartbeat => OnPedalHeartbeat(c, clutch, now)
    case ToggleClutch => clutch
  }

  function Next(c: Config, t: Timing, s: System, a: Action): (s': System)
    requires c.pi > 0.0 && s.clutch.Valid() && Enabled(t, s, a)
    ensures s'.clutch.Valid()
  {
    match a
    case Wait(until) => s.(now := until, active := if Held(s) then until else s.active)
    case Press =>
      if s.pedal.pressed then s
      else Send(s, P.OnPress(s.pedal)).(active := s.now, pressedAt := s.now, beats := [])
    case Release => Send(s, P.OnRelease(s.pedal))
    case Unplug => Send(s, P.DropDevice(s.pedal))
    case Plug => s.(pedal := s.pedal.(connected := true))
    case Beat =>
      var sent := P.PublishHeartbeat(s.pedal);
      s.(net := s.net + Packets(sent, s.now), beats := if sent == [] then s.beats else s.beats + [s.now])
    case Crash => s.(alive := false)
    case Deliver(i) =>
      s.(clutch := Receive(c, s.clutch, s.now, s.net[i].command), net := Without(s.net, i))
    case Lose(i) => s.(net := Without(s.net, i))
    case WatchdogTick => s.(clutch := Watchdog(c, s.clutch, s.now), lastTick := s.now)
    case LeaderPose(pose, stamp) => s.(clutch := OnLeaderPose(c, s.clutch, s.now, pose, stamp))
    case FollowerPose(pose) => s.(clutch := OnFollowerPose(s.clutch, s.now, pose))
  }

  function Initial(now: real): System {
    System(now, true, P.Pedal(P.Hold, false, false), INITIAL, [], now, now, now, [])
  }

  /** The state after a sequence of actions, None if one of them was not enabled. */
  function Run(c: Config, t: Timing, start: real, actions: seq<Action>): (s: Option<System>)
    requires c.pi > 0.0
    ensures s.Some? ==> s.value.clutch.Valid()
    decreases |actions|
  {
    if actions == [] then Some(Initial(start))
    else
      match Run(c, t, start, actions[..|actions| - 1])
      case None => None
      case Some(p) => Advance(c, t, p, actions[|actions| - 1])
  }

  function Advance(c: Config, t: Timing, s: System, a: Action): (s': Option<System>)
    requires c.pi > 0.0 && s.clutch.Valid()
    ensures s'.Some? ==> s'.value.clutch.Valid()
  {
    if Enabled(t, s, a) then Some(Next(c, t, s, a)) else None
  }

  // -------- safety

  predicate Asks(command: P.Command) {
    command == P.Engage || command == P.Heartbeat
  }

  ghost predicate Safe(c: Config, t: Timing, s: System) {
    && s.clutch.Valid() && s.pedal.mode == P.Hold
    && s.active <= s.now && s.lastTick <= s.now <= s.lastTick + t.tickGap
    && (Held(s) ==> s.active == s.now)
    && (forall k :: k in s.net ==> k.sentAt <= s.now <= k.sentAt + t.maxDelay)
    && (forall k :: k in s.net && Asks(k.command) ==> k.sentAt <= s.active)
    && (s.clutch.lastPedal.Some? ==> s.clutch.lastPedal.value <= s.active + t.maxDelay)
    && (s.clutch.engaged ==> s.lastTick <= s.active + t.maxDelay + c.pedalTimeout)
  }

  /** A packet is in flight after a step only if it was before or has just been sent, and only a
      held pedal sends engage requests and heartbeats. */
  lemma NetStep(c: Config, t: Timing, s: System, a: Action, k: Packet)
    requires c.pi > 0.0 && s.clutch.Valid() && s.pedal.mode == P.Hold && Enabled(t, s, a)
    requires k in Next(c, t, s, a).net && k !in s.net
    ensures k.sentAt == s.now == Next(c, t, s, a).now
    ensures Asks(k.command) ==> (Held(s) || Next(c, t, s, a).active == s.now)
  {
  }

  /** Only a delivered heartbeat changes lastPedal, and the clutch closes only on an engage
      request; a watchdog tick that leaves it closed saw a heartbeat within the timeout. */
  lemma ClutchStep(c: Config, t: Timing, s: System, a: Action)
    requires ValidTiming(c, t) && s.clutch.Valid() && Enabled(t, s, a)
    ensures var s' := Next(c, t, s, a);
            && (s'.clutch.lastPedal != s.clutch.lastPedal ==>
                  a.Deliver? && s.net[a.i].command == P.Heartbeat && s'.clutch.lastPedal == Some(s.now))
            && (s'.clutch.engaged && !s.clutch.engaged ==> a.Deliver? && s.net[a.i].command == P.Engage)
            && (a.WatchdogTick? && s'.clutch.engaged ==>
                  s.clutch.engaged && s.clutch.lastPedal.Some? && s.now - s.clutch.lastPedal.value <= c.pedalTimeout)
  {
    hide ComputeTarget, LengthSq, LpfAlpha, Smooth;
  }

  lemma SafeStep(c: Config, t: Timing, s: System, a: Action)
    requires ValidTiming(c, t) && Safe(c, t, s) && Enabled(t, s, a)
    ensures Safe(c, t, Next(c, t, s, a))
  {
    hide OnLeaderPose, Watchdog, TryEngage, Disengage;
    var s' := Next(c, t, s, a);
    ClutchStep(c, t, s, a);
    forall k | k in s'.net
      ensures k.sentAt <= s'.now <= k.sentAt + t.maxDelay && (Asks(k.command) ==> k.sentAt <= s'.active)
    {
      if k !in s.net {
        NetStep(c, t, s, a, k);
      }
    }
  }

  lemma {:induction false} RunIsSafe(c: Config, t: Timing, start: real, actions: seq<Action>)
    requires ValidTiming(c, t)
    ensures var s := Run(c, t, start, actions);
            s.Some? ==> Safe(c, t, s.value)
    decreases |actions|
  {
    if actions != [] {
      RunIsSafe(c, t, start, actions[..|actions| - 1]);
      var p := Run(c, t, start, actions[..|actions| - 1]);
      if p.Some? && Enabled(t, p.value, actions[|actions| - 1]) {
        SafeStep(c, t, p.value, actions[|actions| - 1]);
      }
    }
  }

  /** The deadman guarantee: r being the last instant at which a living node held its pedal
      (released, unplugged or dead since), the clutch is open at every time after
      r + message delay + pedal timeout + watchdog period. */
  lemma DeadmanOpens(c: Config, t: Timing, start: real, actions: seq<Action>)
    requires ValidTiming(c, t)
    ensures var s := Run(c, t, start, actions);
            s.Some? && s.value.now > s.value.active + t.maxDelay + c.pedalTimeout + t.tickGap ==>
              !s.value.clutch.engaged
  {
    RunIsSafe(c, t, start, actions);
  }

  // -------- a silent leader

  function Later(a: real, b: real): real {
    if a < b then b else a
  }

  /** A closed clutch has seen a leader pose recently, as of the last watchdog tick.  An engage may
      use a pose that is older than the watchdog allows, if the staleness limit is the larger one. */
  ghost predicate LeaderFresh(c: Config, s: System) {
    && s.clutch.Valid() && s.lastTick <= s.now
    && (s.clutch.engaged ==> s.lastTick <= s.clutch.leaderLatest.value.at + Later(c.watchdogTimeout, c.staleness))
  }

  lemma LeaderFreshStep(c: Config, t: Timing, s: System, a: Action)
    requires ValidTiming(c, t) && c.watchdogTimeout >= 0.0 && LeaderFresh(c, s) && Enabled(t, s, a)
    ensures LeaderFresh(c, Next(c, t, s, a))
  {
    hide ComputeTarget, LengthSq, LpfAlpha, Smooth, Confine, PedalExpired;
  }

  /** Once the leader stream is silent, the clutch is open after the larger of watchdog timeout and
      pose staleness plus one watchdog period, whatever the pedal and the network do. */
  lemma {:induction false} LeaderSilenceOpens(c: Config, t: Timing, start: real, actions: seq<Action>)
    requires ValidTiming(c, t) && c.watchdogTimeout >= 0.0
    ensures var s := Run(c, t, start, actions);
            s.Some? ==> LeaderFresh(c, s.value)
    ensures var s := Run(c, t, start, actions);
            s.Some? && s.value.clutch.leaderLatest.Some?
            && s.value.now > s.value.clutch.leaderLatest.value.at + Later(c.watchdogTimeout, c.staleness) + t.tickGap ==>
              !s.value.clutch.engaged
    decreases |actions|
  {
    hide Next, Enabled;
    RunIsSafe(c, t, start, actions);
    if actions != [] {
      LeaderSilenceOpens(c, t, start, actions[..|actions| - 1]);
      var p := Run(c, t, start, actions[..|actions| - 1]);
      if p.Some? && Enabled(t, p.value, actions[|actions| - 1]) {
        LeaderFreshStep(c, t, p.value, actions[|actions| - 1]);
      }
    }
  }

  // -------- availability

  predicate Lossless(actions: seq<Action>) {
    forall a :: a in actions ==> !a.Lose?
  }

  /** The instant the next heartbeat of a held pedal is measured from. */
  function LastBeat(s: System): real {
    if s.beats == [] then s.pressedAt else s.beats[|s.beats| - 1]
  }

  predicate Arrived(s: System, beat: real) {
    s.clutch.lastPedal.Some? && beat <= s.clutch.lastPedal.value
  }

  /** While the pedal is held, the heartbeats since the press are regular, and each of them has
      arrived (or a later one has) or is still in flight. */
  ghost predicate Regular(t: Timing, s: System) {
    Held(s) ==>
      && LastBeat(s) <= s.now <= LastBeat(s) + t.beatGap
      && (forall i :: 0 < i < |s.beats| ==> s.beats[i] <= s.beats[i - 1] + t.beatGap)
      && (forall i :: 0 <= i < |s.beats| ==> s.beats[i] <= s.now)
      && forall i :: 0 <= i < |s.beats| ==> Arrived(s, s.beats[i]) || Packet(P.Heartbeat, s.beats[i]) in s.net
  }

  lemma StaysInFlight(net: seq<Packet>, i: nat, k: Packet)
    requires i < |net| && k in net && k != net[i]
    ensures k in Without(net, i)
  {
    var j :| 0 <= j < |net| && net[j] == k;
    if j < i {
      assert net[..i][j] == k;
    } else {
      assert net[i + 1..][j - i - 1] == k;
    }
  }

  lemma BeatStep(c: Config, t: Timing, s: System, a: Action, beat: real)
    requires ValidTiming(c, t) && s.clutch.Valid() && Enabled(t, s, a) && !a.Lose?
    requires beat <= s.now
    requires Arrived(s, beat) || Packet(P.Heartbeat, beat) in s.net
    ensures var s' := Next(c, t, s, a); Arrived(s', beat) || Packet(P.Heartbeat, beat) in s'.net
  {
    hide ComputeTarget, LengthSq, LpfAlpha, Smooth;
    var k := Packet(P.Heartbeat, beat);
    if a.Deliver? && k in s.net && k != s.net[a.i] {
      StaysInFlight(s.net, a.i, k);
    }
  }

  lemma RegularStep(c: Config, t: Timing, s: System, a: Action)
    requires ValidTiming(c, t) && s.clutch.Valid() && s.pedal.mode == P.Hold && Enabled(t, s, a) && !a.Lose?
    requires Regular(t, s)
    ensures Regular(t, Next(c, t, s, a))
  {
    hide OnLeaderPose, Watchdog, TryEngage, Disengage, Arrived;
    var s' := Next(c, t, s, a);
    if Held(s') && !(a.Press? && !s.pedal.pressed) {
      forall i | 0 <= i < |s'.beats|
        ensures Arrived(s', s'.beats[i]) || Packet(P.Heartbeat, s'.beats[i]) in s'.net
      {
        if i < |s.beats| {
          assert s'.beats[i] == s.beats[i];
          BeatStep(c, t, s, a, s.beats[i]);
        } else {
          assert P.PublishHeartbeat(s.pedal) == [P.Heartbeat];
          assert Packets([P.Heartbeat], s.now)[0] == Packet(P.Heartbeat, s.now);
        }
      }
    }
  }

  lemma {:induction false} RunIsRegular(c: Config, t: Timing, start: real, actions: seq<Action>)
    requires ValidTiming(c, t) && Lossless(actions)
    ensures var s := Run(c, t, start, actions);
            s.Some? ==> Regular(t, s.value)
    decreases |actions|
  {
    if actions != [] {
      var before := actions[..|actions| - 1];
      RunIsRegular(c, t, start, before);
      RunIsSafe(c, t, start, before);
      var p := Run(c, t, start, before);
      if p.Some? && Enabled(t, p.value, actions[|actions| - 1]) {
        RegularStep(c, t, p.value, actions[|actions| - 1]);
      }
    }
  }

  /** The last heartbeat that has arrived, counted from the first. */
  lemma {:induction false} LastArrived(s: System, n: nat) returns (i: nat)
    requires n < |s.beats| && Arrived(s, s.beats[0])
    ensures i <= n && Arrived(s, s.beats[i]) && (i < n ==> !Arrived(s, s.beats[i + 1]))
  {
    i := n;
    if !Arrived(s, s.beats[n]) {
      i := LastArrived(s, n - 1);
    }
  }

  /** A held pedal is not mistaken for a dead one: with no message lost and heartbeats arriving
      within the timeout, once the first heartbeat since the press has arrived the pedal check of
      the watchdog never fires. */
  lemma HeldPedalIsFresh(c: Config, t: Timing, start: real, actions: seq<Action>)
    requires ValidTiming(c, t) && Lossless(actions) && t.beatGap + t.maxDelay <= c.pedalTimeout
    ensures var s := Run(c, t, start, actions);
            s.Some? && Held(s.value) && s.value.beats != [] && Arrived(s.value, s.value.beats[0]) ==>
              !PedalExpired(c, s.value.clutch, s.value.now)
  {
    RunIsRegular(c, t, start, actions);
    RunIsSafe(c, t, start, actions);
    var r := Run(c, t, start, actions);
    if r.Some? && Held(r.value) && r.value.beats != [] && Arrived(r.value, r.value.beats[0]) {
      var s := r.value;
      var i := LastArrived(s, |s.beats| - 1);
      if i < |s.beats| - 1 {
        assert Packet(P.Heartbeat, s.beats[i + 1]) in s.net;
      }
    }
  }

  // -------- what opens a closed clutch

  /** What the leader stream can do to a closed clutch: be silent for too long, or jump. */
  predicate LeaderFails(c: Config, s: System, a: Action)
    requires s.clutch.Valid()
  {
    || (a.WatchdogTick? && s.clutch.leaderLatest.Some? && s.now - s.clutch.leaderLatest.value.at > c.watchdogTimeout)
    || (a.LeaderPose? && s.clutch.prevStamp.Some? && a.stamp > s.clutch.prevStamp.value
        && Jumped(c, s.clutch, a.pose.pos))
  }

  predicate DisengageArrives(s: System, a: Action) {
    a.Deliver? && a.i < |s.net| && s.net[a.i].command == P.Disengage
  }

  /** A step opens a closed clutch if and only if it delivers a disengage request, is a watchdog tick
      that finds the pedal's heartbeat missing or stale, or is a failure of the leader stream. */
  lemma OpensIff(c: Config, t: Timing, s: System, a: Action)
    requires c.pi > 0.0 && s.clutch.Valid() && Enabled(t, s, a) && s.clutch.engaged
    ensures !Next(c, t, s, a).clutch.engaged
            <==> || DisengageArrives(s, a)
                 || (a.WatchdogTick? && PedalExpired(c, s.clutch, s.now))
                 || LeaderFails(c, s, a)
  {
    hide ComputeTarget, LengthSq, LpfAlpha, Smooth, Confine;
  }

  /** While the pedal is held, a disengage request in flight is older than the press. */
  ghost predicate ReleasesPrecede(s: System) {
    Held(s) ==> s.pressedAt <= s.now && forall k :: k in s.net && k.command == P.Disengage ==> k.sentAt <= s.pressedAt
  }

  lemma ReleasesPrecedeStep(c: Config, t: Timing, s: System, a: Action)
    requires ValidTiming(c, t) && Safe(c, t, s) && Enabled(t, s, a) && ReleasesPrecede(s)
    ensures ReleasesPrecede(Next(c, t, s, a))
  {
    hide OnLeaderPose, Watchdog, TryEngage, Disengage;
    var s' := Next(c, t, s, a);
    forall k | k in s'.net && k.command == P.Disengage && Held(s')
      ensures k.sentAt <= s'.pressedAt
    {
      if k !in s.net {
        NetStep(c, t, s, a, k);
      }
    }
  }

  lemma {:induction false} RunReleasesPrecede(c: Config, t: Timing, start: real, actions: seq<Action>)
    requires ValidTiming(c, t)
    ensures var s := Run(c, t, start, actions);
            s.Some? ==> ReleasesPrecede(s.value)
    decreases |actions|
  {
    if actions != [] {
      var before := actions[..|actions| - 1];
      RunReleasesPrecede(c, t, start, before);
      RunIsSafe(c, t, start, before);
      var p := Run(c, t, start, before);
      if p.Some? && Enabled(t, p.value, actions[|actions| - 1]) {
        ReleasesPrecedeStep(c, t, p.value, actions[|actions| - 1]);
      }
    }
  }

  /** The press has settled: the pedal is held, its first heartbeat has arrived, and every message
      from before the press has been delivered. */
  predicate PressSettled(t: Timing, s: System) {
    Held(s) && s.beats != [] && Arrived(s, s.beats[0]) && s.now > s.pressedAt + t.maxDelay
  }

  /** Once the press has settled, with no message lost and heartbeats arriving within the timeout,
      a step opens a closed clutch if and only if the leader stream fails. */
  lemma HeldPedalIsKept(c: Config, t: Timing, start: real, actions: seq<Action>, a: Action)
    requires ValidTiming(c, t) && Lossless(actions) && t.beatGap + t.maxDelay <= c.pedalTimeout
    requires var s := Run(c, t, start, actions);
             s.Some? && PressSettled(t, s.value) && s.value.clutch.engaged && Enabled(t, s.value, a)
    ensures var s := Run(c, t, start, actions).value;
            !Next(c, t, s, a).clutch.engaged <==> LeaderFails(c, s, a)
  {
    hide Next, LeaderFails, Arrived, PedalExpired;
    var s := Run(c, t, start, actions).value;
    HeldPedalIsFresh(c, t, start, actions);
    RunReleasesPrecede(c, t, start, actions);
    RunIsSafe(c, t, start, actions);
    OpensIff(c, t, s, a);
    assert a.Deliver? ==> s.net[a.i] in s.net;
  }

  /** An action that neither ends the hold, nor loses a message, nor is a failure of the leader. */
  predicate Quiet(c: Config, s: System, a: Action)
    requires s.clutch.Valid()
  {
    !a.Release? && !a.Unplug? && !a.Crash? && !a.Lose? && !LeaderFails(c, s, a)
  }

  lemma StaysSettled(c: Config, t: Timing, s: System, a: Action)
    requires c.pi > 0.0 && s.clutch.Valid() && Enabled(t, s, a) && Quiet(c, s, a)
    requires PressSettled(t, s) && s.beats[0] <= s.now
    ensures PressSettled(t, Next(c, t, s, a))
  {
    hide ComputeTarget, LengthSq, LpfAlpha, Smooth, Confine, LeaderFails;
  }

  /** From the n-th action on the pedal stays held, no message is lost and the leader does not fail. */
  ghost predicate QuietSince(c: Config, t: Timing, start: real, actions: seq<Action>, n: nat)
    requires c.pi > 0.0
  {
    forall i :: n <= i < |actions| ==>
      var s := Run(c, t, start, actions[..i]); s.Some? && Quiet(c, s.value, actions[i])
  }

  lemma QuietBefore(c: Config, t: Timing, start: real, actions: seq<Action>, n: nat)
    requires c.pi > 0.0 && n < |actions| && QuietSince(c, t, start, actions, n)
    ensures var before := actions[..|actions| - 1];
            && before[..n] == actions[..n]
            && QuietSince(c, t, start, before, n)
            && Run(c, t, start, before).Some? && Quiet(c, Run(c, t, start, before).value, actions[|actions| - 1])
  {
    hide Run, Quiet;
    var before := actions[..|actions| - 1];
    assert forall i :: 0 <= i <= |before| ==> before[..i] == actions[..i];
  }

  lemma SettledStep(c: Config, t: Timing, start: real, actions: seq<Action>, a: Action)
    requires ValidTiming(c, t) && Lossless(actions) && t.beatGap + t.maxDelay <= c.pedalTimeout
    requires var s := Run(c, t, start, actions);
             s.Some? && PressSettled(t, s.value) && s.value.clutch.engaged && Enabled(t, s.value, a) && Quiet(c, s.value, a)
    ensures var s' := Next(c, t, Run(c, t, start, actions).value, a);
            PressSettled(t, s') && s'.clutch.engaged
  {
    hide Next, PressSettled, Enabled, Regular, Run, LeaderFails;
    FirstBeatPast(c, t, start, actions);
    HeldPedalIsKept(c, t, start, actions, a);
    StaysSettled(c, t, Run(c, t, start, actions).value, a);
  }

  /** Availability over whole runs: if the press has settled with the clutch closed after the first n
      actions, then whatever else happens, in whatever order messages arrive, the clutch is still
      closed at the end, as long as the pedal stays held and the leader stream does not fail. */
  lemma {:induction false} HeldClutchStaysClosed(c: Config, t: Timing, start: real, actions: seq<Action>, n: nat)
    requires ValidTiming(c, t) && t.beatGap + t.maxDelay <= c.pedalTimeout && n <= |actions|
    requires Lossless(actions) && Run(c, t, start, actions).Some?
    requires var s := Run(c, t, start, actions[..n]);
             s.Some? && PressSettled(t, s.value) && s.value.clutch.engaged
    requires QuietSince(c, t, start, actions, n)
    ensures var s := Run(c, t, start, actions).value; PressSettled(t, s) && s.clutch.engaged
    decreases |actions|
  {
    hide Next, Enabled, PressSettled, Quiet, QuietSince;
    if n == |actions| {
      assert actions[..n] == actions;
    } else {
      var before := actions[..|actions| - 1];
      QuietBefore(c, t, start, actions, n);
      HeldClutchStaysClosed(c, t, start, before, n);
      SettledStep(c, t, start, before, actions[|actions| - 1]);
    }
  }

  lemma FirstBeatPast(c: Config, t: Timing, start: real, actions: seq<Action>)
    requires ValidTiming(c, t) && Lossless(actions) && Run(c, t, start, actions).Some?
    requires PressSettled(t, Run(c, t, start, actions).value)
    ensures var s := Run(c, t, start, actions).value; s.beats != [] && s.beats[0] <= s.now
  {
    RunIsRegular(c, t, start, actions);
  }

  lemma RunExtends(c: Config, t: Timing, start: real, actions: seq<Action>, a: Action)
    requires c.pi > 0.0
    ensures var p := Run(c, t, start, actions);
            Run(c, t, start, actions + [a]) == (if p.Some? then Advance(c, t, p.value, a) else None)
  {
    assert (actions + [a])[..|actions|] == actions;
  }

  /** Both poses received and the pedal just pressed, with the engage request in flight. */
  function PressedAt(start: real, p: Pose): System {
    var clutch := INITIAL.(leaderLatest := Some(Sample(start, p)), followerLatest := Some(Sample(start, p)),
                           prevStamp := Some(0.0), prevPos := Some(p.pos));
    System(start, true, P.Pedal(P.Hold, true, true), clutch, [Packet(P.Engage, start)], start, start, start, [])
  }

  lemma PressReached(c: Config, t: Timing, start: real, p: Pose)
    requires ValidTiming(c, t)
    ensures Run(c, t, start, [LeaderPose(p, 0.0), FollowerPose(p), Plug, Press]) == Some(PressedAt(start, p))
  {
    var a1, a2, a3, a4 := LeaderPose(p, 0.0), FollowerPose(p), Plug, Press;
    var s1 := Next(c, t, Initial(start), a1);
    var s2 := Next(c, t, s1, a2);
    var s3 := Next(c, t, s2, a3);
    var s4 := Next(c, t, s3, a4);
    assert s4 == PressedAt(start, p) by {
      assert Packets([P.Engage], start) == [Packet(P.Engage, start)];
      assert s4.net == [Packet(P.Engage, start)];
    }
    hide Next;
    RunExtends(c, t, start, [], a1);
    assert [] + [a1] == [a1];
    RunExtends(c, t, start, [a1], a2);
    assert [a1] + [a2] == [a1, a2];
    RunExtends(c, t, start, [a1, a2], a3);
    assert [a1, a2] + [a3] == [a1, a2, a3];
    RunExtends(c, t, start, [a1, a2, a3], a4);
    assert [a1, a2, a3] + [a4] == [a1, a2, a3, a4];
  }

  /** The arrival of the first heartbeat is needed: for every configuration and timing there is a
      run in which the engage request arrives, a watchdog tick comes before the first heartbeat,
      and the pedal is held but the clutch is open. */
  lemma HeldPedalCanTrip(c: Config, t: Timing, start: real, p: Pose) returns (actions: seq<Action>)
    requires ValidTiming(c, t) && c.staleness >= 0.0
    ensures Lossless(actions)
    ensures var s := Run(c, t, start, actions);
            && s.Some? && Held(s.value) && !s.value.clutch.engaged
            && s.value.clutch.announced == [Disengaged(NeverEngaged), Engaged, Disengaged(NoHeartbeat)]
  {
    var engaging := EngageActions(p);
    EngageReached(c, t, start, p);
    RunExtends(c, t, start, engaging, WatchdogTick);
    actions := engaging + [WatchdogTick];
  }

  /** Just engaged, with nothing in flight. */
  function EngagedAt(start: real, p: Pose): System {
    var pressed := PressedAt(start, p);
    pressed.(clutch := pressed.clutch.(engaged := true, anchorLeader := Some(p), anchorFollower := Some(p), filt := Some(p),
                                       announced := [Disengaged(NeverEngaged), Engaged]),
             net := [])
  }

  function EngageActions(p: Pose): seq<Action> {
    [LeaderPose(p, 0.0), FollowerPose(p), Plug, Press] + [Deliver(0)]
  }

  lemma EngageReached(c: Config, t: Timing, start: real, p: Pose)
    requires ValidTiming(c, t) && c.staleness >= 0.0
    ensures Run(c, t, start, EngageActions(p)) == Some(EngagedAt(start, p)) && Lossless(EngageActions(p))
  {
    PressReached(c, t, start, p);
    RunExtends(c, t, start, [LeaderPose(p, 0.0), FollowerPose(p), Plug, Press], Deliver(0));
    var s5 := Next(c, t, PressedAt(start, p), Deliver(0));
    assert s5.net == [] && s5.clutch == EngagedAt(start, p).clutch;
  }

  /** Released and pressed again at once, and the first heartbeat of the new press sent. */
  function PressedAgainAt(start: real, p: Pose): System {
    EngagedAt(start, p).(net := [Packet(P.Disengage, start), Packet(P.Engage, start), Packet(P.Heartbeat, start)],
                         beats := [start])
  }

  lemma PressedAgainReached(c: Config, t: Timing, start: real, p: Pose, actions: seq<Action>)
    requires ValidTiming(c, t) && Run(c, t, start, actions) == Some(EngagedAt(start, p))
    ensures Run(c, t, start, actions + [Release] + [Press] + [Beat]) == Some(PressedAgainAt(start, p))
  {
    var s1 := Next(c, t, EngagedAt(start, p), Release);
    var s2 := Next(c, t, s1, Press);
    var s3 := Next(c, t, s2, Beat);
    assert Packets([P.Disengage], start) == [Packet(P.Disengage, start)];
    assert Packets([P.Engage], start) == [Packet(P.Engage, start)];
    assert Packets([P.Heartbeat], start) == [Packet(P.Heartbeat, start)];
    assert s3 == PressedAgainAt(start, p);
    hide Next;
    RunExtends(c, t, start, actions, Release);
    RunExtends(c, t, start, actions + [Release], Press);
    RunExtends(c, t, start, actions + [Release] + [Press], Beat);
  }

  /** The three messages arrive in the opposite order. */
  lemma LateDelivery(c: Config, t: Timing, start: real, p: Pose) returns (s1: System, s2: System, s3: System)
    requires ValidTiming(c, t)
    ensures |s1.net| == 2 && s1.clutch.Valid() && s1 == Next(c, t, PressedAgainAt(start, p), Deliver(2))
    ensures |s2.net| == 1 && s2.clutch.Valid() && s2 == Next(c, t, s1, Deliver(1))
    ensures s3 == Next(c, t, s2, Deliver(0))
    ensures Held(s3) && s3.beats == [start] && Arrived(s3, start) && !s3.clutch.engaged
    ensures s3.clutch.announced == [Disengaged(NeverEngaged), Engaged, Disengaged(Operator)]
  {
    s1 := Next(c, t, PressedAgainAt(start, p), Deliver(2));
    assert s1.net == [Packet(P.Disengage, start), Packet(P.Engage, start)];
    s2 := Next(c, t, s1, Deliver(1));
    assert s2.net == [Packet(P.Disengage, start)];
    s3 := Next(c, t, s2, Deliver(0));
  }

  /** That the messages from before the press have been delivered is needed too: for every
      configuration and timing there is a run in which the disengage request of an earlier release
      comes last and opens the clutch of a held pedal whose first heartbeat has arrived. */
  lemma LateReleaseOpens(c: Config, t: Timing, start: real, p: Pose) returns (actions: seq<Action>)
    requires ValidTiming(c, t) && c.staleness >= 0.0
    ensures Lossless(actions)
    ensures var s := Run(c, t, start, actions);
            && s.Some? && Held(s.value) && s.value.beats != [] && Arrived(s.value, s.value.beats[0])
            && !s.value.clutch.engaged
            && s.value.clutch.announced == [Disengaged(NeverEngaged), Engaged, Disengaged(Operator)]
  {
    var engaging := EngageActions(p);
    EngageReached(c, t, start, p);
    PressedAgainReached(c, t, start, p, engaging);
    var again := engaging + [Release] + [Press] + [Beat];
    var s1, s2, s3 := LateDelivery(c, t, start, p);
    hide Next, Arrived, Run, EngageActions, PressedAgainAt, EngagedAt;
    assert Lossless(again);
    RunExtends(c, t, start, again, Deliver(2));
    RunExtends(c, t, start, again + [Deliver(2)], Deliver(1));
    RunExtends(c, t, start, again + [Deliver(2)] + [Deliver(1)], Deliver(0));
    actions := again + [Deliver(2)] + [Deliver(1)] + [Deliver(0)];
  }
}
