/** Streaming a planned trajectory: reorder the joints to the controller's order, resample the points
    on an even time grid, and publish each sample when it is due, until they end or a stop is seen. */
module TrajectoryStreamer {
  import opened Reals
  import opened Segments
  import opened Wrappers

  /** A planned point: time from start as seconds and nanoseconds, and the joints' positions. */
  datatype Point = Point(sec: int, nanosec: nat, positions: seq<real>)

  datatype Trajectory = Trajectory(jointNames: seq<string>, points: seq<Point>)

  /** A command and the time, from the start of streaming, at which it is due. */
  datatype Sample = Sample(time: real, command: seq<real>)

  datatype StreamError =
    | StreamerClosed | TimeScalingNotPositive | RateNotPositive | NoPoints
    | JointNamesUnknown | MissingJoints(names: seq<string>) | PointTooShort

  // -------- joint order

  function IndexOf(names: seq<string>, name: string): (i: nat)
    requires name in names
    ensures i < |names| && names[i] == name && name !in names[..i]
  {
    if names[0] == name then 0 else IndexOf(names[1..], name) + 1
  }

  function Missing(commandNames: seq<string>, names: seq<string>): seq<string> {
    if commandNames == [] then []
    else (if commandNames[0] in names then [] else [commandNames[0]]) + Missing(commandNames[1..], names)
  }

  lemma {:induction false} MissingMembers(commandNames: seq<string>, names: seq<string>)
    ensures forall name :: name in Missing(commandNames, names) <==> name in commandNames && name !in names
  {
    if commandNames != [] {
      MissingMembers(commandNames[1..], names);
      assert commandNames == [commandNames[0]] + commandNames[1..];
    }
  }

  /** For each commanded joint the first place where the trajectory lists it; an error that names
      exactly the joints it does not list. */
  function BuildIndexMap(commandNames: seq<string>, names: seq<string>): (r: Result<seq<nat>, seq<string>>)
    ensures r.Ok? <==> forall j :: 0 <= j < |commandNames| ==> commandNames[j] in names
    ensures r.Ok? ==> |r.value| == |commandNames|
    ensures r.Ok? ==> forall j :: 0 <= j < |r.value| ==>
      r.value[j] < |names| && names[r.value[j]] == commandNames[j] && commandNames[j] !in names[..r.value[j]]
    ensures r.Err? ==> forall name :: name in r.error <==> name in commandNames && name !in names
  {
    MissingMembers(commandNames, names);
    if Missing(commandNames, names) != [] then
      assert Missing(commandNames, names)[0] in Missing(commandNames, names);
      Err(Missing(commandNames, names))
    else Ok(seq(|commandNames|, j requires 0 <= j < |commandNames| => IndexOf(names, commandNames[j])))
  }

  // -------- what is to be sampled

  function TimeFromStart(p: Point): real {
    p.sec as real + p.nanosec as real / 1000000000.0
  }

  function Times(points: seq<Point>, timeScaling: real): (times: seq<real>)
    ensures |times| == |points|
  {
    seq(|points|, k requires 0 <= k < |points| => TimeFromStart(points[k]) * timeScaling)
  }

  /** One joint's planned positions. */
  function Column(points: seq<Point>, i: nat): (y: seq<real>)
    requires forall k :: 0 <= k < |points| ==> i < |points[k].positions|
    ensures |y| == |points|
  {
    seq(|points|, k requires 0 <= k < |points| => points[k].positions[i])
  }

  /** The point has a position for every commanded joint. */
  predicate Readable(p: Point, indices: seq<nat>) {
    forall j :: 0 <= j < |indices| ==> indices[j] < |p.positions|
  }

  predicate AllReadable(points: seq<Point>, indices: seq<nat>) {
    forall k :: 0 <= k < |points| ==> Readable(points[k], indices)
  }

  /** A point's positions in the controller's order. */
  function Pick(p: Point, indices: seq<nat>): (command: seq<real>)
    requires Readable(p, indices)
    ensures |command| == |indices|
  {
    seq(|indices|, j requires 0 <= j < |indices| => p.positions[indices[j]])
  }

  /** The two points that the command at time t is interpolated from can be read. */
  predicate Reads(points: seq<Point>, indices: seq<nat>, times: seq<real>, t: real)
    requires 0 < |points| == |times|
  {
    Readable(points[Segment(times, t)], indices) && Readable(points[EndOf(times, Segment(times, t))], indices)
  }

  /** The resampled command at time t: each joint on its own piecewise-linear path. */
  function CommandAt(points: seq<Point>, indices: seq<nat>, times: seq<real>, t: real): (command: seq<real>)
    requires 0 < |points| == |times| && Reads(points, indices, times, t)
    ensures |command| == |indices|
  {
    var s := Segment(times, t);
    var next := EndOf(times, s);
    seq(|indices|, j requires 0 <= j < |indices| =>
      OnLine(points[s].positions[indices[j]], points[next].positions[indices[j]], times[s], times[next], t))
  }

  /** Python's int(): towards zero. */
  function Truncate(x: real): int {
    if x >= 0.0 then x.Floor else -((-x).Floor)
  }

  function Period(rate: real): (dt: real)
    requires rate > 0.0
    ensures dt > 0.0
  {
    1.0 / rate
  }

  function StepTime(k: int, dt: real): real {
    k as real * dt
  }

  function EvenSteps(n: nat, dt: real): (grid: seq<real>)
    ensures |grid| == n
  {
    seq(n, k requires 0 <= k < n => StepTime(k, dt))
  }

  function Grid(duration: real, dt: real): seq<real>
    requires dt > 0.0
  {
    var n := Truncate(duration / dt) + 1;
    var even := EvenSteps(if n < 0 then 0 else n, dt);
    if even == [] || even[|even| - 1] < duration then even + [duration] else even
  }

  predicate AllRead(grid: seq<real>, points: seq<Point>, indices: seq<nat>, times: seq<real>)
    requires 0 < |points| == |times|
  {
    forall g :: 0 <= g < |grid| ==> Reads(points, indices, times, grid[g])
  }

  function SamplesAt(grid: seq<real>, points: seq<Point>, indices: seq<nat>, times: seq<real>): (samples: seq<Sample>)
    requires 0 < |points| == |times| && AllRead(grid, points, indices, times)
    ensures |samples| == |grid|
  {
    seq(|grid|, g requires 0 <= g < |grid| => Sample(grid[g], CommandAt(points, indices, times, grid[g])))
  }

  function SamplesOf(points: seq<Point>, indices: seq<nat>, times: seq<real>): (samples: seq<Sample>)
    requires |points| == |times| && AllReadable(points, indices)
    ensures |samples| == |points|
  {
    seq(|points|, k requires 0 <= k < |points| => Sample(times[k], Pick(points[k], indices)))
  }

  /** The samples to publish: every planned point at its own time, or with a rate an even grid.  A
      point that is needed and has too few positions raises. */
  function Samples(points: seq<Point>, indices: seq<nat>, timeScaling: real, rate: Option<real>)
      : (r: Result<seq<Sample>, StreamError>)
    requires points != [] && (rate.Some? ==> rate.value > 0.0)
    ensures r.Err? ==> r.error == PointTooShort
  {
    var times := Times(points, timeScaling);
    if rate == None then
      if AllReadable(points, indices) then Ok(SamplesOf(points, indices, times)) else Err(PointTooShort)
    else
      var grid := Grid(times[|times| - 1], Period(rate.value));
      if AllRead(grid, points, indices, times) then Ok(SamplesAt(grid, points, indices, times)) else Err(PointTooShort)
  }

  // -------- the loops

  method BuildGrid(duration: real, dt: real) returns (grid: seq<real>)
    requires dt > 0.0
    ensures grid == Grid(duration, dt)
  {
    var n := Truncate(duration / dt) + 1;
    grid := [];
    var k := 0;
    while k < n
      invariant 0 <= k && (k <= n || k == 0)
      invariant grid == EvenSteps(k, dt)
    {
      assert EvenSteps(k + 1, dt) == EvenSteps(k, dt) + [StepTime(k, dt)];
      grid := grid + [StepTime(k, dt)];
      k := k + 1;
    }
    if grid == [] || grid[|grid| - 1] < duration {
      grid := grid + [duration];
    }
  }

  lemma OnLineIs(y0: real, y1: real, t0: real, t1: real, t: real, ratio: real, position: real)
    requires ratio == Ratio(t0, t1, t) && position == y0 + (y1 - y0) * ratio
    ensures OnLine(y0, y1, t0, t1, t) == position
  {
    hide Ratio;
  }

  /** One interpolated command, on the segment that belongs to time t. */
  method Interpolated(points: seq<Point>, indices: seq<nat>, times: seq<real>, seg: nat, t: real) returns (command: seq<real>)
    requires 0 < |points| == |times| && Reads(points, indices, times, t)
    requires seg == Segment(times, t)
    ensures command == CommandAt(points, indices, times, t)
  {
    hide Ratio, OnLine, Segment;
    var t0, t1 := times[seg], if seg + 1 < |times| then times[seg + 1] else times[seg];
    var p0, p1 := points[seg], points[if seg + 1 < |points| - 1 then seg + 1 else |points| - 1];
    assert p1 == points[EndOf(times, seg)];
    var ratio := Ratio(t0, t1, t);
    command := [];
    var j := 0;
    while j < |indices|
      invariant 0 <= j <= |indices|
      invariant command == CommandAt(points, indices, times, t)[..j]
    {
      var i := indices[j];
      var position := p0.positions[i] + (p1.positions[i] - p0.positions[i]) * ratio;
      OnLineIs(p0.positions[i], p1.positions[i], t0, t1, t, ratio, position);
      assert CommandAt(points, indices, times, t)[..j + 1] == CommandAt(points, indices, times, t)[..j] + [position];
      command := command + [position];
      j := j + 1;
    }
  }

  /** The segment pointer is carried from one grid time to the next: it moves at most once per
      planned point in all, and the samples are those of a fresh search at every grid time. */
  method Resample(grid: seq<real>, points: seq<Point>, indices: seq<nat>, times: seq<real>)
      returns (r: Result<seq<Sample>, StreamError>, ghost moves: nat)
    requires 0 < |points| == |times|
    requires forall g, h :: 0 <= g < h < |grid| ==> grid[g] <= grid[h]
    ensures r == if AllRead(grid, points, indices, times) then Ok(SamplesAt(grid, points, indices, times)) else Err(PointTooShort)
    ensures moves < |points|
  {
    var samples := [];
    moves := 0;
    var seg, g := 0, 0;
    while g < |grid|
      invariant 0 <= g <= |grid|
      invariant AllRead(grid[..g], points, indices, times)
      invariant samples == SamplesAt(grid[..g], points, indices, times)
      invariant moves == seg < |times|
      invariant forall h :: g <= h < |grid| ==> SegmentFrom(times, seg, grid[h]) == Segment(times, grid[h])
    {
      var t := grid[g];
      seg, moves := Advance(times, seg, t, moves);
      forall h | g < h < |grid|
        ensures SegmentFrom(times, seg, grid[h]) == Segment(times, grid[h])
      {
        CarriedSearchAgrees(times, 0, t, grid[h]);
      }
      if !Readable(points[seg], indices) || !Readable(points[EndOf(times, seg)], indices) {
        assert !Reads(points, indices, times, grid[g]);
        return Err(PointTooShort), moves;
      }
      var command := Interpolated(points, indices, times, seg, t);
      samples := samples + [Sample(t, command)];
      g := g + 1;
      assert grid[..g] == grid[..g - 1] + [t];
    }
    assert grid[..g] == grid;
    r := Ok(samples);
  }

  /** The inner loop: the pointer moves on to the segment of t. */
  method Advance(times: seq<real>, from: nat, t: real, ghost before: nat) returns (seg: nat, ghost moves: nat)
    requires before == from < |times|
    ensures seg == SegmentFrom(times, from, t) < |times|
    ensures moves == seg
  {
    seg, moves := from, before;
    while seg + 1 < |times| - 1 && times[seg + 1] < t
      invariant seg == moves < |times|
      invariant SegmentFrom(times, seg, t) == SegmentFrom(times, from, t)
    {
      seg, moves := seg + 1, moves + 1;
    }
  }

  // -------- the grid

  lemma ScaledOrder(x: real, k: real, dt: real, xdt: real, kdt: real)
    requires dt > 0.0 && Product(xdt, x, dt) && Product(kdt, k, dt)
    ensures k <= x ==> kdt <= xdt
    ensures x < k ==> xdt < kdt
  {
    var ahead := k - x;
    assert ahead * dt == kdt - xdt;
    if x < k {
      MulPositive(ahead, dt);
    } else {
      MulNonneg(-ahead, dt);
    }
  }

  lemma StepBefore(duration: real, dt: real, k: int, x: real)
    requires dt > 0.0 && x == duration / dt
    ensures k as real <= x ==> StepTime(k, dt) <= duration
    ensures x < k as real ==> duration < StepTime(k, dt)
  {
    QuotientProduct(duration, dt, x);
    ScaledOrder(x, k as real, dt, duration, StepTime(k, dt));
  }

  lemma StepNext(k: int, dt: real)
    ensures StepTime(k + 1, dt) == StepTime(k, dt) + dt
    ensures StepTime(0, dt) == 0.0
  {
    var kr := k as real;
    assert (kr + 1.0) * dt == kr * dt + dt;
  }

  lemma StepsGrow(a: int, b: int, dt: real)
    requires dt > 0.0 && a < b
    ensures StepTime(a, dt) < StepTime(b, dt)
  {
    MulStrict(dt, a as real, b as real);
  }

  /** The grid starts at 0, ends at the duration, and its times grow by at most dt. */
  lemma GridLaw(duration: real, dt: real)
    requires dt > 0.0 && duration >= 0.0
    ensures var grid := Grid(duration, dt);
            && grid != [] && grid[0] == 0.0 && grid[|grid| - 1] == duration
            && forall g :: 0 <= g && g + 1 < |grid| ==> grid[g] < grid[g + 1] <= grid[g] + dt
  {
    hide StepTime;
    var x := duration / dt;
    var n := Truncate(x) + 1;
    assert x >= 0.0 by { QuotientProduct(duration, dt, x); OrderFromScaled(0.0, x, dt, 0.0, duration); }
    StepBefore(duration, dt, n - 1, x);
    StepBefore(duration, dt, n, x);
    StepNext(n - 1, dt);
    forall g, h | 0 <= g < h < n && h == g + 1
      ensures StepTime(h, dt) == StepTime(g, dt) + dt
    {
      StepNext(g, dt);
    }
  }

  lemma GridAscends(duration: real, dt: real)
    requires dt > 0.0
    ensures forall g, h :: 0 <= g < h < |Grid(duration, dt)| ==> Grid(duration, dt)[g] <= Grid(duration, dt)[h]
  {
    hide StepTime;
    var even := Grid(duration, dt);
    forall a, b | 0 <= a < b < |even|
      ensures StepTime(a, dt) < StepTime(b, dt)
    {
      StepsGrow(a, b, dt);
    }
  }

  /** All of _build_samples. */
  method BuildSamples(points: seq<Point>, indices: seq<nat>, timeScaling: real, rate: Option<real>)
      returns (r: Result<seq<Sample>, StreamError>)
    requires points != [] && (rate.Some? ==> rate.value > 0.0)
    ensures r == Samples(points, indices, timeScaling, rate)
  {
    var times := Times(points, timeScaling);
    if rate == None {
      if !AllReadable(points, indices) {
        return Err(PointTooShort);
      }
      return Ok(SamplesOf(points, indices, times));
    }
    var dt := Period(rate.value);
    var grid := BuildGrid(times[|times| - 1], dt);
    GridAscends(times[|times| - 1], dt);
    ghost var moves;
    r, moves := Resample(grid, points, indices, times);
  }

  // -------- what the samples mean

  predicate AllBelow(indices: seq<nat>, joints: nat) {
    forall n :: 0 <= n < |indices| ==> indices[n] < joints
  }

  /** No joint is planned to move faster than v from one point to the next. */
  ghost predicate SlowMove(v: real, p: Point, q: Point, dt: real) {
    |p.positions| == |q.positions|
    && forall i :: 0 <= i < |p.positions| ==> Within(q.positions[i] - p.positions[i], Travel(v, dt))
  }

  ghost predicate SlowPlan(v: real, points: seq<Point>, times: seq<real>, joints: nat) {
    && v >= 0.0 && 0 < |points| == |times|
    && (forall k :: 0 <= k < |points| ==> |points[k].positions| == joints)
    && forall k :: 0 <= k && k + 1 < |times| ==>
         times[k] <= times[k + 1] && SlowMove(v, points[k], points[k + 1], times[k + 1] - times[k])
  }

  lemma ColumnSlow(v: real, points: seq<Point>, times: seq<real>, joints: nat, i: nat)
    requires SlowPlan(v, points, times, joints) && i < joints
    ensures Slow(v, times, Column(points, i))
  {
    hide Travel;
  }

  lemma CompletePointsRead(points: seq<Point>, indices: seq<nat>, times: seq<real>)
    requires 0 < |points| == |times| && AllReadable(points, indices)
    ensures forall t :: Reads(points, indices, times, t)
  {
    hide Segment, Readable;
  }

  lemma SlowPlanReads(v: real, points: seq<Point>, times: seq<real>, joints: nat, indices: seq<nat>)
    requires SlowPlan(v, points, times, joints)
    requires AllBelow(indices, joints)
    ensures AllReadable(points, indices) && forall t :: Reads(points, indices, times, t)
  {
    CompletePointsRead(points, indices, times);
  }

  lemma CompleteSamples(points: seq<Point>, indices: seq<nat>, timeScaling: real, rate: Option<real>)
    requires points != [] && AllReadable(points, indices) && (rate.Some? ==> rate.value > 0.0)
    ensures var times := Times(points, timeScaling);
            && (rate == None ==> Samples(points, indices, timeScaling, rate) == Ok(SamplesOf(points, indices, times)))
            && (rate.Some? ==>
                  var grid := Grid(times[|times| - 1], Period(rate.value));
                  && AllRead(grid, points, indices, times)
                  && Samples(points, indices, timeScaling, rate) == Ok(SamplesAt(grid, points, indices, times)))
  {
    CompletePointsRead(points, indices, Times(points, timeScaling));
    hide Reads, Grid, AllReadable, SamplesAt, SamplesOf, Period, Times;
  }

  /** With complete points the commands are the joints' interpolated positions. */
  lemma CommandOnColumn(points: seq<Point>, indices: seq<nat>, times: seq<real>, t: real, j: nat)
    requires 0 < |points| == |times| && Reads(points, indices, times, t) && j < |indices|
    requires forall k :: 0 <= k < |points| ==> indices[j] < |points[k].positions|
    ensures CommandAt(points, indices, times, t)[j] == At(times, Column(points, indices[j]), t)
  {
    hide Segment, OnLine;
    var s := Segment(times, t);
    var y := Column(points, indices[j]);
    assert y[s] == points[s].positions[indices[j]] && y[EndOf(times, s)] == points[EndOf(times, s)].positions[indices[j]];
  }

  lemma CommandsKeepSpeed(
      v: real, points: seq<Point>, indices: seq<nat>, times: seq<real>, joints: nat, t: real, u: real, j: nat)
    requires SlowPlan(v, points, times, joints) && t <= u && j < |indices|
    requires AllBelow(indices, joints)
    requires Reads(points, indices, times, t) && Reads(points, indices, times, u)
    ensures Within(CommandAt(points, indices, times, u)[j] - CommandAt(points, indices, times, t)[j], Travel(v, u - t))
  {
    hide Travel, At, Segment, SlowMove, Reads;
    ColumnSlow(v, points, times, joints, indices[j]);
    SpeedIsKept(v, times, Column(points, indices[j]), t, u);
    CommandOnColumn(points, indices, times, t, j);
    CommandOnColumn(points, indices, times, u, j);
  }

  /** Joint j moves from sample p to the later sample q at most at speed v. */
  ghost predicate SlowSamples(v: real, p: Sample, q: Sample, j: nat) {
    && p.time <= q.time
    && j < |p.command| && j < |q.command|
    && Within(q.command[j] - p.command[j], Travel(v, q.time - p.time))
  }

  lemma PointsKeepSpeed(
      v: real, points: seq<Point>, indices: seq<nat>, times: seq<real>, joints: nat, a: nat, b: nat, j: nat)
    requires SlowPlan(v, points, times, joints) && AllReadable(points, indices)
    requires AllBelow(indices, joints)
    requires a <= b < |points| && j < |indices|
    ensures SlowSamples(v, SamplesOf(points, indices, times)[a], SamplesOf(points, indices, times)[b], j)
  {
    hide Travel, SlowMove;
    ColumnSlow(v, points, times, joints, indices[j]);
    PlannedMoves(v, times, Column(points, indices[j]), a, b);
  }

  lemma GridKeepsSpeed(
      v: real, points: seq<Point>, indices: seq<nat>, times: seq<real>, joints: nat, grid: seq<real>, a: nat, b: nat, j: nat)
    requires SlowPlan(v, points, times, joints) && AllRead(grid, points, indices, times)
    requires AllBelow(indices, joints)
    requires a <= b < |grid| && grid[a] <= grid[b] && j < |indices|
    ensures SlowSamples(v, SamplesAt(grid, points, indices, times)[a], SamplesAt(grid, points, indices, times)[b], j)
  {
    hide Travel, SlowPlan, Reads, CommandAt;
    CommandsKeepSpeed(v, points, indices, times, joints, grid[a], grid[b], j);
  }

  lemma GridSamplesKeepSpeed(
      v: real, points: seq<Point>, indices: seq<nat>, times: seq<real>, joints: nat, dt: real, a: nat, b: nat, j: nat)
    requires 0 < |points| == |times| && dt > 0.0
    requires SlowPlan(v, points, times, joints) && AllBelow(indices, joints)
    requires AllRead(Grid(times[|times| - 1], dt), points, indices, times)
    requires a <= b < |Grid(times[|times| - 1], dt)| && j < |indices|
    ensures var samples := SamplesAt(Grid(times[|times| - 1], dt), points, indices, times);
            SlowSamples(v, samples[a], samples[b], j)
  {
    hide SlowSamples, SlowPlan, Grid, Reads, CommandAt, AllBelow;
    GridAscends(times[|times| - 1], dt);
    GridKeepsSpeed(v, points, indices, times, joints, Grid(times[|times| - 1], dt), a, b, j);
  }

  /** However the points are resampled, sample times do not decrease, and any two published commands
      differ, joint by joint, by at most the planned speed times the time between them. */
  lemma SamplesKeepSpeed(
      v: real, points: seq<Point>, indices: seq<nat>, timeScaling: real, rate: Option<real>, joints: nat,
      a: nat, b: nat, j: nat)
    requires SlowPlan(v, points, Times(points, timeScaling), joints) && (rate.Some? ==> rate.value > 0.0)
    requires AllBelow(indices, joints)
    ensures Samples(points, indices, timeScaling, rate).Ok?
    ensures var samples := Samples(points, indices, timeScaling, rate).value;
            a <= b < |samples| && j < |indices| ==> SlowSamples(v, samples[a], samples[b], j)
  {
    var times := Times(points, timeScaling);
    SlowPlanReads(v, points, times, joints, indices);
    CompleteSamples(points, indices, timeScaling, rate);
    hide SlowSamples, SlowPlan, Grid, SamplesAt, SamplesOf, Samples, Reads, AllRead, AllReadable, AllBelow, Period, Times;
    var samples := Samples(points, indices, timeScaling, rate).value;
    if a <= b < |samples| && j < |indices| {
      if rate == None {
        PointsKeepSpeed(v, points, indices, times, joints, a, b, j);
      } else {
        GridSamplesKeepSpeed(v, points, indices, times, joints, Period(rate.value), a, b, j);
      }
    }
  }

  /** With nondecreasing times, streaming with a rate ends, at the duration, with the positions of the
      first point planned at the last time; so it ends with the last planned positions if and only if
      that point has them. */
  lemma EndsWithLastPointIff(points: seq<Point>, indices: seq<nat>, timeScaling: real, rate: real)
    requires points != [] && rate > 0.0 && Readable(points[|points| - 1], indices)
    requires Ordered(Times(points, timeScaling)) && Times(points, timeScaling)[|points| - 1] >= 0.0
    requires Samples(points, indices, timeScaling, Some(rate)).Ok?
    ensures var samples, times := Samples(points, indices, timeScaling, Some(rate)).value, Times(points, timeScaling);
            && samples != [] && samples[|samples| - 1].time == times[|times| - 1]
            && var last, first := samples[|samples| - 1].command, points[FirstAtEnd(times)];
            && Readable(first, indices) && last == Pick(first, indices)
            && (last == Pick(points[|points| - 1], indices) <==> Pick(first, indices) == Pick(points[|points| - 1], indices))
  {
    hide Grid, Segment, Ordered, Readable, Period, Times;
    var times := Times(points, timeScaling);
    var grid := Grid(times[|times| - 1], Period(rate));
    GridLaw(times[|times| - 1], Period(rate));
    assert Reads(points, indices, times, grid[|grid| - 1]);
    LastCommand(points, indices, times);
  }

  lemma LastCommand(points: seq<Point>, indices: seq<nat>, times: seq<real>)
    requires 0 < |points| == |times| && Ordered(times) && Reads(points, indices, times, times[|times| - 1])
    ensures var first := points[FirstAtEnd(times)];
            Readable(first, indices) && CommandAt(points, indices, times, times[|times| - 1]) == Pick(first, indices)
  {
    CommandAtPlannedTime(points, indices, times, |times| - 1);
  }

  /** At a planned time the command has the positions of the first point planned then. */
  lemma CommandAtPlannedTime(points: seq<Point>, indices: seq<nat>, times: seq<real>, m: nat)
    requires m < |points| == |times| && Ordered(times) && Reads(points, indices, times, times[m])
    ensures var first := points[FirstAt(times, m)];
            Readable(first, indices) && CommandAt(points, indices, times, times[m]) == Pick(first, indices)
  {
    PlannedRatio(times, m);
    hide Segment, Ratio, Ordered, FirstAt;
    var t, first := times[m], points[FirstAt(times, m)];
    assert Readable(first, indices);
    forall j | 0 <= j < |indices|
      ensures CommandAt(points, indices, times, t)[j] == Pick(first, indices)[j]
    {
      var s := Segment(times, t);
      LineAtEnds(points[s].positions[indices[j]], points[EndOf(times, s)].positions[indices[j]],
                 times[s], times[EndOf(times, s)], t);
    }
  }

  lemma LineAtEnds(y0: real, y1: real, t0: real, t1: real, t: real)
    ensures Ratio(t0, t1, t) == 0.0 ==> OnLine(y0, y1, t0, t1, t) == y0
    ensures Ratio(t0, t1, t) == 1.0 ==> OnLine(y0, y1, t0, t1, t) == y1
  {
    hide Ratio;
  }

  /** Without a rate it always does. */
  lemma EndsWithLastPointUnsampled(points: seq<Point>, indices: seq<nat>, timeScaling: real)
    requires points != [] && Samples(points, indices, timeScaling, None).Ok?
    ensures var samples := Samples(points, indices, timeScaling, None).value;
            && |samples| == |points| && Readable(points[|points| - 1], indices)
            && samples[|samples| - 1].command == Pick(points[|points| - 1], indices)
  {
  }

  lemma StepIsQuotient(g: int, rate: real)
    requires rate > 0.0
    ensures StepTime(g, Period(rate)) == g as real / rate
  {
    var k, dt := g as real, 1.0 / rate;
    QuotientProduct(1.0, rate, dt);
    QuotientProduct(k, rate, k / rate);
    assert k * dt * rate == k * (dt * rate);
    SameQuotient(k * dt, k / rate, rate);
  }

  lemma SameQuotient(a: real, b: real, rate: real)
    requires rate > 0.0 && a * rate == b * rate
    ensures a == b
  {
    OrderFromScaled(a, b, rate, a * rate, b * rate);
    OrderFromScaled(b, a, rate, b * rate, a * rate);
  }

  /** A point's time as the message spells it, seconds and billionths of a second, scaled. */
  function ScaledTime(p: Point, timeScaling: real): real {
    (p.sec as real + p.nanosec as real / 1000000000.0) * timeScaling
  }

  lemma TimesAt(points: seq<Point>, timeScaling: real, k: nat)
    requires k < |points|
    ensures Times(points, timeScaling)[k] == ScaledTime(points[k], timeScaling)
  {
  }

  lemma GridIsDue(duration: real, rate: real)
    requires rate > 0.0 && duration >= 0.0
    ensures var grid := Grid(duration, Period(rate));
            && grid != [] && grid[0] == 0.0 && grid[|grid| - 1] == duration
            && (forall g :: 0 <= g < |grid| - 1 ==> grid[g] == g as real / rate)
            && (forall g, h :: 0 <= g < h < |grid| && h == g + 1 ==> grid[g] < grid[h] <= grid[g] + 1.0 / rate)
  {
    GridLaw(duration, Period(rate));
    PeriodIs(rate);
    var grid := Grid(duration, Period(rate));
    hide StepTime, Period;
    forall g | 0 <= g < |grid| - 1
      ensures grid[g] == g as real / rate
    {
      StepIsQuotient(g, rate);
    }
  }

  lemma PeriodIs(rate: real)
    requires rate > 0.0
    ensures Period(rate) == 1.0 / rate
  {
  }

  /** Streaming with a rate, in plain numbers: sample g is due g / rate after the start, the last one at
      the scaled time of the last planned point, and no gap exceeds 1 / rate. */
  lemma SamplesAreDue(points: seq<Point>, indices: seq<nat>, timeScaling: real, rate: real)
    requires points != [] && rate > 0.0 && Samples(points, indices, timeScaling, Some(rate)).Ok?
    ensures var s, duration := Samples(points, indices, timeScaling, Some(rate)).value, ScaledTime(points[|points| - 1], timeScaling);
            duration >= 0.0 ==>
              && s != [] && s[0].time == 0.0 && s[|s| - 1].time == duration
              && (forall g :: 0 <= g < |s| - 1 ==> s[g].time == g as real / rate)
              && (forall g, h :: 0 <= g < h < |s| && h == g + 1 ==> s[g].time < s[h].time <= s[g].time + 1.0 / rate)
  {
    TimesAt(points, timeScaling, |points| - 1);
    var duration := ScaledTime(points[|points| - 1], timeScaling);
    hide Times, ScaledTime, Period, Grid, CommandAt, Reads;
    if duration >= 0.0 {
      GridIsDue(duration, rate);
      var s, grid := Samples(points, indices, timeScaling, Some(rate)).value, Grid(duration, Period(rate));
      assert forall g :: 0 <= g < |s| ==> s[g].time == grid[g];
    }
  }

  /** A plan that ends before it starts gives one sample, at the start or, if its end is at least one
      period before, then. */
  lemma NegativeDuration(points: seq<Point>, indices: seq<nat>, timeScaling: real, rate: real)
    requires points != [] && rate > 0.0 && Samples(points, indices, timeScaling, Some(rate)).Ok?
    ensures var s, duration := Samples(points, indices, timeScaling, Some(rate)).value, ScaledTime(points[|points| - 1], timeScaling);
            duration < 0.0 ==> |s| == 1 && s[0].time == (if duration > -(1.0 / rate) then 0.0 else duration)
  {
    TimesAt(points, timeScaling, |points| - 1);
    PeriodIs(rate);
    var duration := ScaledTime(points[|points| - 1], timeScaling);
    hide Times, ScaledTime, Period, Grid, CommandAt, Reads;
    if duration < 0.0 {
      NegativeGrid(duration, Period(rate));
    }
  }

  lemma NegativeGrid(duration: real, dt: real)
    requires dt > 0.0 && duration < 0.0
    ensures Grid(duration, dt) == [if duration > -dt then 0.0 else duration]
  {
    var x := duration / dt;
    QuotientProduct(duration, dt, x);
    StepNext(0, dt);
    NegativeOrder(x, -1.0, dt, duration, -dt);
    hide StepTime;
    assert EvenSteps(1, dt) == [0.0];
  }

  lemma NegativeOrder(x: real, minus: real, dt: real, duration: real, back: real)
    requires dt > 0.0 && duration < 0.0 && Product(duration, x, dt) && minus == -1.0 && back == -dt
    ensures x < 0.0 && (minus < x <==> back < duration)
  {
    assert Product(back, minus, dt);
    ScaledOrder(minus, x, dt, back, duration);
    if x >= 0.0 {
      MulNonneg(x, dt);
    }
  }

  /** Without a rate, sample k is point k: due at its scaled time, with its positions. */
  lemma SamplesArePoints(points: seq<Point>, indices: seq<nat>, timeScaling: real, k: nat, j: nat)
    requires k < |points| && j < |indices| && Samples(points, indices, timeScaling, None).Ok?
    ensures var s, p := Samples(points, indices, timeScaling, None).value, points[k];
            && |s| == |points|
            && s[k].time == ScaledTime(p, timeScaling)
            && |s[k].command| == |indices| && indices[j] < |p.positions|
            && s[k].command[j] == p.positions[indices[j]]
  {
    assert Readable(points[k], indices);
  }

  /** With a rate, entry j of a command has made of the way between two consecutive points the part that
      the time since the first is of the time between them. */
  lemma CommandsAreProportional(points: seq<Point>, indices: seq<nat>, times: seq<real>, t: real, j: nat)
    requires 1 < |points| == |times| && Reads(points, indices, times, t) && j < |indices|
    requires times[0] <= t <= times[|times| - 1]
    ensures var s, i := Segment(times, t), indices[j];
            && s + 1 < |times| && times[s] <= t <= times[s + 1]
            && i < |points[s].positions| && i < |points[s + 1].positions|
            && var y0, y1 := points[s].positions[i], points[s + 1].positions[i];
               times[s] < times[s + 1] ==>
                 (CommandAt(points, indices, times, t)[j] - y0) * (times[s + 1] - times[s]) == (y1 - y0) * (t - times[s])
  {
    hide OnLine;
    var s, i := Segment(times, t), indices[j];
    if times[s] < times[s + 1] {
      OnLineProportional(points[s].positions[i], points[s + 1].positions[i], times[s], times[s + 1], t);
    }
  }

  /** A plan with two points at the last time. */
  function DoubleEnd(): seq<Point> {
    [Point(0, 0, [0.0]), Point(1, 0, [1.0]), Point(1, 0, [2.0])]
  }

  lemma DoubleEndTimes()
    ensures Times(DoubleEnd(), 1.0) == [0.0, 1.0, 1.0] && FirstAtEnd([0.0, 1.0, 1.0]) == 1
    ensures AllReadable(DoubleEnd(), [0]) && Pick(DoubleEnd()[1], [0]) == [1.0] && Pick(DoubleEnd()[2], [0]) == [2.0]
    ensures Ordered([0.0, 1.0, 1.0])
  {
  }

  /** The robot is left at the first of them. */
  lemma StopsShortOfLastPoint()
    ensures var r := Samples(DoubleEnd(), [0], 1.0, Some(1.0));
            && r.Ok? && r.value != []
            && r.value[|r.value| - 1] == Sample(1.0, [1.0])
            && Readable(DoubleEnd()[2], [0]) && Pick(DoubleEnd()[2], [0]) == [2.0]
  {
    DoubleEndTimes();
    CompleteSamples(DoubleEnd(), [0], 1.0, Some(1.0));
    hide Grid, CommandAt, Reads, Times, Samples, Period, FirstAtEnd, Ordered, Pick, Readable, AllReadable;
    CompleteAt(DoubleEnd(), [0], 2);
    EndsWithLastPointIff(DoubleEnd(), [0], 1.0, 1.0);
  }

  lemma CompleteAt(points: seq<Point>, indices: seq<nat>, k: nat)
    requires AllReadable(points, indices) && k < |points|
    ensures Readable(points[k], indices)
  {
  }

  /** With a planned speed, streaming ends with the last planned positions: points at one time are
      then at one place. */
  lemma LastSampleIsLastPoint(
      v: real, points: seq<Point>, indices: seq<nat>, timeScaling: real, rate: Option<real>, joints: nat)
    requires SlowPlan(v, points, Times(points, timeScaling), joints) && (rate.Some? ==> rate.value > 0.0)
    requires AllBelow(indices, joints) && Times(points, timeScaling)[|points| - 1] >= 0.0
    ensures Samples(points, indices, timeScaling, rate).Ok? && Readable(points[|points| - 1], indices)
    ensures var samples := Samples(points, indices, timeScaling, rate).value;
            samples != [] && samples[|samples| - 1]
              == Sample(Times(points, timeScaling)[|points| - 1], Pick(points[|points| - 1], indices))
  {
    var times := Times(points, timeScaling);
    SlowPlanReads(v, points, times, joints, indices);
    CompleteSamples(points, indices, timeScaling, rate);
    hide Travel, Grid, CommandAt, SlowPlan, Samples, Reads, Pick, Times, Readable, Period;
    if rate.Some? {
      var grid := Grid(times[|times| - 1], Period(rate.value));
      GridLaw(times[|times| - 1], Period(rate.value));
      assert Reads(points, indices, times, grid[|grid| - 1]);
      LastSlowCommand(v, points, indices, times, joints);
    }
  }

  lemma LastSlowCommand(v: real, points: seq<Point>, indices: seq<nat>, times: seq<real>, joints: nat)
    requires SlowPlan(v, points, times, joints) && AllBelow(indices, joints)
    requires Reads(points, indices, times, times[|times| - 1]) && Readable(points[|points| - 1], indices)
    ensures CommandAt(points, indices, times, times[|times| - 1]) == Pick(points[|points| - 1], indices)
  {
    hide Travel, At, Segment, Reads, CommandAt;
    var command := CommandAt(points, indices, times, times[|times| - 1]);
    var planned := Pick(points[|points| - 1], indices);
    forall j | 0 <= j < |indices|
      ensures command[j] == planned[j]
    {
      ColumnSlow(v, points, times, joints, indices[j]);
      EndsAtLast(v, times, Column(points, indices[j]));
      CommandOnColumn(points, indices, times, times[|times| - 1], j);
    }
  }

  /** Entry j of a command lies between the positions that the joint with the j-th commanded name
      has in two consecutive planned points, and these enclose the sample's time if the plan does. */
  lemma EntryBetweenNeighbours(
      trajectory: Trajectory, commandNames: seq<string>, indices: seq<nat>, times: seq<real>, t: real, j: nat)
    requires 1 < |trajectory.points| == |times| && Reads(trajectory.points, indices, times, t)
    requires BuildIndexMap(commandNames, trajectory.jointNames) == Ok(indices) && j < |commandNames|
    ensures var points, i, s := trajectory.points, indices[j], Segment(times, t);
            && i < |trajectory.jointNames| && trajectory.jointNames[i] == commandNames[j]
            && s + 1 < |times| && i < |points[s].positions| && i < |points[s + 1].positions|
            && var lo, hi, x := points[s].positions[i], points[s + 1].positions[i], CommandAt(points, indices, times, t)[j];
               (lo <= x <= hi || hi <= x <= lo)
    ensures var s := Segment(times, t);
            && (times[0] <= t ==> times[s] <= t)
            && (t <= times[|times| - 1] ==> t <= times[s + 1])
  {
    var s, i := Segment(times, t), indices[j];
    var points := trajectory.points;
    OnLineBetween(points[s].positions[i], points[s + 1].positions[i], times[s], times[s + 1], t);
  }

  // -------- the streamer object

  /** The commanded joint order: the one already known, or else what the controller answers; an
      empty or missing answer is a failure. */
  function Resolved(known: Option<seq<string>>, answer: Option<seq<string>>): Option<seq<string>> {
    if known.Some? && known.value != [] then known
    else if answer.Some? && answer.value != [] then answer
    else None
  }

  /** The samples a call to stream publishes, or why it raises before anything is published: the first
      reason in the order of the checks. */
  function Plan(isClosed: bool, trajectory: Trajectory, timeScaling: real, rate: Option<real>, names: Option<seq<string>>)
      : (r: Result<seq<Sample>, StreamError>)
  {
    if isClosed then Err(StreamerClosed)
    else if timeScaling <= 0.0 then Err(TimeScalingNotPositive)
    else if rate.Some? && rate.value <= 0.0 then Err(RateNotPositive)
    else if trajectory.points == [] then Err(NoPoints)
    else if names == None then Err(JointNamesUnknown)
    else
      var indices := BuildIndexMap(names.value, trajectory.jointNames);
      if indices.Err? then Err(MissingJoints(indices.error))
      else Samples(trajectory.points, indices.value, timeScaling, rate)
  }

  /** When a call to stream is accepted, and what is reported when it is not. */
  lemma PlanLaw(isClosed: bool, trajectory: Trajectory, timeScaling: real, rate: Option<real>,
                known: Option<seq<string>>, answer: Option<seq<string>>)
    ensures var names := if known.Some? && |known.value| > 0 then known.value
                         else if answer.Some? then answer.value else [];
            var badRate := rate.Some? && rate.value <= 0.0;
            var plan := Plan(isClosed, trajectory, timeScaling, rate, Resolved(known, answer));
            && (isClosed <==> plan == Err(StreamerClosed))
            && (!isClosed && timeScaling <= 0.0 <==> plan == Err(TimeScalingNotPositive))
            && (!isClosed && timeScaling > 0.0 && badRate <==> plan == Err(RateNotPositive))
            && (!isClosed && timeScaling > 0.0 && !badRate && |trajectory.points| == 0 <==> plan == Err(NoPoints))
            && (!isClosed && timeScaling > 0.0 && !badRate && |trajectory.points| > 0 && |names| == 0 <==> plan == Err(JointNamesUnknown))
            && (plan.Ok? || plan == Err(PointTooShort) ==> forall name :: name in names ==> name in trajectory.jointNames)
            && (plan.Err? && plan.error.MissingJoints? ==> exists name :: name in names && name !in trajectory.jointNames)
  {
    hide Samples;
    var names := Resolved(known, answer);
    if !isClosed && timeScaling > 0.0 && !(rate.Some? && rate.value <= 0.0) && trajectory.points != [] && names.Some? {
      MissingMembers(names.value, trajectory.jointNames);
      var indices := BuildIndexMap(names.value, trajectory.jointNames);
      if indices.Ok? {
        forall name | name in names.value ensures name in trajectory.jointNames {
          var j :| 0 <= j < |names.value| && names.value[j] == name;
        }
      } else {
        var j :| 0 <= j < |names.value| && names.value[j] !in trajectory.jointNames;
        assert names.value[j] in names.value;
      }
    }
  }

  // -------- waiting

  /** What a stream call sees from outside: at its i-th look, counted from 1, whether a stop event is
      set and then what the clock says.  The call starts at clock(0). */
  datatype World = World(stopped: nat -> bool, clock: nat -> real)

  ghost predicate Reaches(clock: nat -> real, from: nat, t: real) {
    exists n: nat :: from <= n && clock(n) >= t
  }

  ghost predicate Advances(clock: nat -> real) {
    forall from: nat, t :: Reaches(clock, from, t)
  }

  /** The looks after from and before at have seen neither a stop nor the deadline. */
  ghost predicate Waited(w: World, from: nat, deadline: real, at: nat) {
    from < at && forall i: nat :: from < i < at ==> !w.stopped(i) && w.clock(i) < deadline
  }

  /** Returns at the first look that sees a stop or the deadline; a stop wins. */
  method SleepUntil(w: World, from: nat, deadline: real) returns (due: bool, at: nat)
    requires Advances(w.clock)
    ensures Waited(w, from, deadline, at)
    ensures if due then !w.stopped(at) && w.clock(at) >= deadline else w.stopped(at)
  {
    assert Reaches(w.clock, from + 1, deadline);
    ghost var n: nat :| from + 1 <= n && w.clock(n) >= deadline;
    at := from + 1;
    while !w.stopped(at) && w.clock(at) < deadline
      invariant at <= n && Waited(w, from, deadline, at)
      decreases n - at
    {
      at := at + 1;
    }
    due := !w.stopped(at);
  }

  function Due(w: World, sample: Sample): real {
    w.clock(0) + sample.time
  }

  function LookBefore(looks: seq<nat>, k: nat): nat
    requires k <= |looks|
  {
    if k == 0 then 0 else looks[k - 1]
  }

  /** The k-th sample is published at the first look after the one before it at which it is due, and no
      stop has been seen up to then. */
  ghost predicate OnTime(w: World, samples: seq<Sample>, looks: seq<nat>) {
    |looks| <= |samples| && forall k :: 0 <= k < |looks| ==>
      && Waited(w, LookBefore(looks, k), Due(w, samples[k]), looks[k])
      && !w.stopped(looks[k]) && w.clock(looks[k]) >= Due(w, samples[k])
  }

  lemma NothingYet(w: World, samples: seq<Sample>)
    ensures OnTime(w, samples, [])
  {
  }

  lemma OnTimeNext(w: World, samples: seq<Sample>, looks: seq<nat>, at: nat)
    requires OnTime(w, samples, looks) && |looks| < |samples|
    requires var due := Due(w, samples[|looks|]);
             Waited(w, LookBefore(looks, |looks|), due, at) && !w.stopped(at) && w.clock(at) >= due
    ensures OnTime(w, samples, looks + [at])
  {
    hide Waited;
    assert forall k :: 0 <= k <= |looks| ==> LookBefore(looks + [at], k) == LookBefore(looks, k);
  }

  /** No sample is published before its time since the start, nor after a stop was seen, and a sample is
      published at the first look that is late enough. */
  lemma NeverEarly(w: World, samples: seq<Sample>, looks: seq<nat>, k: nat, i: nat)
    requires OnTime(w, samples, looks) && k < |looks|
    ensures w.clock(looks[k]) - w.clock(0) >= samples[k].time
    ensures !w.stopped(looks[k])
    ensures (k == 0 ==> 0 < i) && (k > 0 ==> looks[k - 1] < i) && i < looks[k] ==>
              !w.stopped(i) && w.clock(i) - w.clock(0) < samples[k].time
  {
  }

  /** A stop is seen while waiting for the next sample. */
  ghost predicate StoppedWaiting(w: World, samples: seq<Sample>, looks: seq<nat>) {
    |looks| < |samples| && exists at: nat :: Waited(w, LookBefore(looks, |looks|), Due(w, samples[|looks|]), at) && w.stopped(at)
  }

  function Commands(samples: seq<Sample>): (commands: seq<seq<real>>)
    ensures |commands| == |samples|
  {
    seq(|samples|, g requires 0 <= g < |samples| => samples[g].command)
  }

  class TrajectoryStreamer {
    var jointNames: Option<seq<string>>
    var streaming: bool
    var isClosed: bool
    var published: seq<seq<real>>

    constructor (jointNames: Option<seq<string>>)
      ensures this.jointNames == jointNames && !streaming && !isClosed && published == []
    {
      this.jointNames, streaming, isClosed, published := jointNames, false, false, [];
    }

    method Close()
      modifies this`isClosed
      ensures isClosed
    {
      isClosed := true;
    }

    /** A failed lookup leaves the order unknown, a successful one is remembered. */
    method ResolveJointNames(answer: Option<seq<string>>) returns (names: Option<seq<string>>)
      requires !isClosed
      modifies this`jointNames
      ensures names == Resolved(old(jointNames), answer)
      ensures jointNames == if names.Some? then names else old(jointNames)
    {
      if jointNames.Some? && jointNames.value != [] {
        return jointNames;
      }
      if answer == None || answer.value == [] {
        return None;
      }
      jointNames := answer;
      return answer;
    }

    /** Exactly the samples that were due before a stop was seen are published, each when it is due,
        and their number is returned; looks are the looks at which they were published. */
    method Stream(trajectory: Trajectory, timeScaling: real, rate: Option<real>,
                  answer: Option<seq<string>>, w: World) returns (r: Result<nat, StreamError>, looks: seq<nat>)
      requires Advances(w.clock)
      modifies this
      ensures var plan := Plan(old(isClosed), trajectory, timeScaling, rate, Resolved(old(jointNames), answer));
              && (plan.Err? ==> r == Err(plan.error) && published == old(published) && streaming == old(streaming))
              && (plan.Ok? ==>
                    && r == Ok(|looks|) && !streaming
                    && OnTime(w, plan.value, looks)
                    && (|looks| < |plan.value| ==> StoppedWaiting(w, plan.value, looks))
                    && published == old(published) + Commands(plan.value)[..|looks|])
      ensures isClosed == old(isClosed)
      ensures jointNames ==
        if r.Err? && r.error in {StreamerClosed, TimeScalingNotPositive, RateNotPositive, NoPoints, JointNamesUnknown}
        then old(jointNames) else Resolved(old(jointNames), answer)
    {
      hide Samples, OnTime, StoppedWaiting, Advances;
      looks := [];
      if isClosed {
        return Err(StreamerClosed), looks;
      }
      if timeScaling <= 0.0 {
        return Err(TimeScalingNotPositive), looks;
      }
      if rate.Some? && rate.value <= 0.0 {
        return Err(RateNotPositive), looks;
      }
      if trajectory.points == [] {
        return Err(NoPoints), looks;
      }
      var names := ResolveJointNames(answer);
      if names == None {
        return Err(JointNamesUnknown), looks;
      }
      var indices := BuildIndexMap(names.value, trajectory.jointNames);
      if indices.Err? {
        return Err(MissingJoints(indices.error)), looks;
      }
      var samples := BuildSamples(trajectory.points, indices.value, timeScaling, rate);
      if samples.Err? {
        return Err(samples.error), looks;
      }
      looks := PublishUntilStopped(samples.value, w);
      r := Ok(|looks|);
    }

    method PublishUntilStopped(samples: seq<Sample>, w: World) returns (looks: seq<nat>)
      requires Advances(w.clock)
      modifies this`published, this`streaming
      ensures OnTime(w, samples, looks) && !streaming
      ensures |looks| < |samples| ==> StoppedWaiting(w, samples, looks)
      ensures published == old(published) + Commands(samples)[..|looks|]
    {
      hide Advances, Waited, OnTime;
      streaming := true;
      looks := [];
      assert OnTime(w, samples, looks) by { NothingYet(w, samples); }
      var last := 0;
      while |looks| < |samples|
        invariant |looks| <= |samples| && OnTime(w, samples, looks) && last == LookBefore(looks, |looks|)
        invariant published == old(published) + Commands(samples)[..|looks|]
        decreases |samples| - |looks|
      {
        var k := |looks|;
        var due, at := SleepUntil(w, last, Due(w, samples[k]));
        if !due {
          streaming := false;
          return;
        }
        published := published + [samples[k].command];
        assert Commands(samples)[..k + 1] == Commands(samples)[..k] + [samples[k].command];
        OnTimeNext(w, samples, looks, at);
        looks, last := looks + [at], at;
      }
      streaming := false;
    }
  }
}
