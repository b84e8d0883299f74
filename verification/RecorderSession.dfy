/** One recording session of the threaded recorder, from a successful start to the result of its
    stop: exactly when a stop reports IDLE, what a start and a drop do, and an ordinary session. */
module RecorderSession {
  import opened Frames
  import opened RecorderState
  import opened FfmpegRecorder
  import opened Wrappers

  predicate Within(actions: seq<Action>, what: Action -> bool) {
    exists i :: 0 <= i < |actions| && what(actions[i])
  }

  function IsBreak(): Action -> bool {
    (a: Action) => a.WriterBreak?
  }

  function IsTimeout(): Action -> bool {
    (a: Action) => a.JoinTimeout?
  }

  function IsFinalize(): Action -> bool {
    (a: Action) => a.Finalize?
  }

  function IsStart(): Action -> bool {
    (a: Action) => a.CallStart?
  }

  lemma WithinSnoc(actions: seq<Action>, a: Action, what: Action -> bool)
    ensures Within(actions + [a], what) <==> Within(actions, what) || what(a)
  {
    var longer := actions + [a];
    assert longer[|actions|] == a;
    assert forall i :: 0 <= i < |actions| ==> longer[i] == actions[i];
  }

  /** What the actions since the start say about the state: a pipe write has failed exactly if the
      writer is failing or has crashed, a session finalises once, and how the join ended is what the
      controller remembers. */
  ghost predicate Reflects(r: Recorder, actions: seq<Action>) {
    && Phases(r)
    && (Within(actions, IsBreak()) <==> r.writer.Failing? || r.writer.Crashed?)
    && (Within(actions, IsFinalize()) ==> r.state in {IDLE, FAILED})
    && (Within(actions, IsFinalize()) ==> !(r.controller.StopLocked? || r.controller.Joining? || r.controller.Finalizing?))
    && (r.controller.Finalizing? ==> (r.controller.drained <==> !Within(actions, IsTimeout())))
    && (!Within(actions, IsFinalize()) && !r.controller.Finalizing? ==> !Within(actions, IsTimeout()))
    && (r.state == IDLE ==> Within(actions, IsFinalize()))
    && (r.state == FAILED ==> r.writer.Crashed? || Within(actions, IsFinalize()))
    && !r.writer.NoWriter?
  }

  lemma ReflectsStep(r: Recorder, actions: seq<Action>, a: Action)
    requires Reflects(r, actions) && Enabled(r, a) && !a.CallStart?
    ensures Reflects(Apply(r, a), actions + [a])
  {
    PhasesStep(r, a);
    WithinSnoc(actions, a, IsBreak());
    WithinSnoc(actions, a, IsFinalize());
    WithinSnoc(actions, a, IsTimeout());
    hide Phases, Within;
    PhasesFacts(r);
  }

  lemma PhasesFacts(r: Recorder)
    requires Phases(r)
    ensures r.controller.StopLocked? ==> r.state == STOPPING
    ensures r.controller.Joining? || r.controller.Finalizing? ==> r.state in {STOPPING, FAILED}
    ensures r.controller == Finalizing(true) ==> !Alive(r.writer)
    ensures HoldsLock(r.controller) && !r.controller.StopLocked? ==> r.state == RECORDING
    ensures r.state != SHUTDOWN
  {
  }

  lemma {:induction false} RunReflects(r0: Recorder, before: seq<Action>, actions: seq<Action>)
    requires Reflects(r0, before) && !Within(actions, IsStart())
    ensures var r := RunFrom(r0, actions); r.Some? ==> Reflects(r.value, before + actions)
    decreases |actions|
  {
    hide Reflects, Apply, Enabled;
    if actions == [] {
      assert before + actions == before;
    } else if Enabled(r0, actions[0]) {
      assert !IsStart()(actions[0]);
      ReflectsStep(r0, before, actions[0]);
      assert forall i :: 0 <= i < |actions| - 1 ==> actions[1..][i] == actions[i + 1];
      RunReflects(Apply(r0, actions[0]), before + [actions[0]], actions[1..]);
      assert before + actions == (before + [actions[0]]) + actions[1..];
    }
  }

  /** A start succeeds exactly in IDLE and FAILED with a spawned encoder; the session is then fresh. */
  lemma StartIff(r: Recorder, spawned: bool)
    requires Enabled(r, CallStart(spawned))
    ensures var r' := Apply(r, CallStart(spawned));
            && r'.controller.Ready?
            && (r'.calls == r.calls + [Started] <==> spawned && (r.state == IDLE || r.state == FAILED))
            && (spawned && (r.state == IDLE || r.state == FAILED) ==>
                  && r'.state == RECORDING && r'.writer == Getting
                  && r'.queue == [] && r'.pipe == [] && r'.lost == [] && r'.written == 0 && r'.dropped == 0)
            && (!(spawned && (r.state == IDLE || r.state == FAILED)) ==> r' == r.(calls := r.calls + [StartRefused]))
  {
    assert (r.calls + [Started])[|r.calls|] != (r.calls + [StartRefused])[|r.calls|];
  }

  /** The stop of a session reports IDLE if and only if no pipe write has failed in the session, the
      join did not time out and finalising succeeded; otherwise it reports FAILED.  The session is
      whatever the two threads did since the start, in any interleaving. */
  lemma StopReportsIdleIff(r0: Recorder, actions: seq<Action>, ok: bool)
    requires Phases(r0) && (r0.state == IDLE || r0.state == FAILED) && Enabled(r0, CallStart(true))
    requires !Within(actions, IsStart())
    requires var r := RunFrom(Apply(r0, CallStart(true)), actions); r.Some? && Enabled(r.value, Finalize(ok))
    ensures var r := RunFrom(Apply(r0, CallStart(true)), actions).value;
            var r' := Apply(r, Finalize(ok));
            && r'.calls == r.calls + [Stopped(r'.state)]
            && (r'.state == IDLE <==> ok && !Within(actions, IsBreak()) && !Within(actions, IsTimeout()))
            && (r'.state == IDLE || r'.state == FAILED)
  {
    var r1 := Apply(r0, CallStart(true));
    PhasesStep(r0, CallStart(true));
    assert Reflects(r1, []);
    RunReflects(r1, [], actions);
    assert [] + actions == actions;
    FinalizeResult(RunFrom(r1, actions).value, actions, ok);
  }

  lemma FinalizeResult(r: Recorder, actions: seq<Action>, ok: bool)
    requires Reflects(r, actions) && Enabled(r, Finalize(ok))
    ensures var r' := Apply(r, Finalize(ok));
            && r'.calls == r.calls + [Stopped(r'.state)]
            && (r'.state == IDLE <==> ok && !Within(actions, IsBreak()) && !Within(actions, IsTimeout()))
            && (r'.state == IDLE || r'.state == FAILED)
  {
    hide Within;
    PhasesFacts(r);
  }

  // -------- runs in which nothing fails

  predicate Fails(a: Action) {
    a.WriterBreak? || a.JoinTimeout? || (a.Finalize? && !a.ok)
  }

  ghost predicate Clean(r: Recorder) {
    && Phases(r)
    && !r.writer.Failing? && r.state != FAILED && r.controller != Finalizing(false)
    && forall i :: 0 <= i < |r.calls| && r.calls[i].Stopped? ==> r.calls[i] == Stopped(IDLE)
  }

  lemma CleanStep(r: Recorder, a: Action)
    requires Clean(r) && Enabled(r, a) && !Fails(a)
    ensures Clean(Apply(r, a))
  {
    PhasesStep(r, a);
  }

  lemma {:induction false} RunFromClean(r: Recorder, actions: seq<Action>)
    requires Clean(r) && forall i :: 0 <= i < |actions| ==> !Fails(actions[i])
    ensures var r' := RunFrom(r, actions); r'.Some? ==> Clean(r'.value)
    decreases |actions|
  {
    hide Clean, Apply, Enabled, Fails;
    if actions != [] && Enabled(r, actions[0]) {
      CleanStep(r, actions[0]);
      RunFromClean(Apply(r, actions[0]), actions[1..]);
    }
  }

  /** In every run without a failed pipe write, a timed-out join or a failed finalising, over any
      number of sessions, every stop that returned has reported IDLE. */
  lemma CleanRunsStopIdle(size: nat, policy: Policy, actions: seq<Action>)
    requires size > 0 && forall i :: 0 <= i < |actions| ==> !Fails(actions[i])
    ensures var run := Run(size, policy, actions);
            run.Some? ==> forall i :: 0 <= i < |run.value.calls| && run.value.calls[i].Stopped? ==>
              run.value.calls[i].final == IDLE
  {
    RunFromClean(Initial(size, policy), actions);
  }

  // -------- ordinary sessions

  predicate Quiescent(r: Recorder) {
    r.size > 0 && r.controller.Ready? && r.state == RECORDING && r.writer.Getting? && r.queue == []
  }

  function DeliverActions(f: Frame): seq<Action> {
    WriteActions(f) + ([WriterGet] + ([WriterDeliver] + [WriterCount]))
  }

  function Recorded(r: Recorder, f: Frame): Recorder {
    r.(pipe := r.pipe + [f], written := r.written + 1, calls := r.calls + [Wrote(f)])
  }

  lemma DeliverSteps(r: Recorder, f: Frame) returns (r2: Recorder, r3: Recorder, r4: Recorder)
    requires Quiescent(r)
    ensures r2 == Apply(r.(controller := Locked(f)), PutFirst) && Enabled(r2, WriterGet)
    ensures r3 == Apply(r2, WriterGet) && Enabled(r3, WriterDeliver)
    ensures r4 == Apply(r3, WriterDeliver) && Enabled(r4, WriterCount)
    ensures Apply(r4, WriterCount) == Recorded(r, f)
  {
    r2 := Apply(r.(controller := Locked(f)), PutFirst);
    assert r2.queue == [Payload(f)];
    r3 := Apply(r2, WriterGet);
    r4 := Apply(r3, WriterDeliver);
    assert Apply(r4, WriterCount).queue == [];
  }

  lemma DeliverRuns(r: Recorder, f: Frame, rest: seq<Action>)
    requires Quiescent(r)
    ensures RunFrom(r, DeliverActions(f) + rest) == RunFrom(Recorded(r, f), rest)
  {
    var r2, r3, r4 := DeliverSteps(r, f);
    hide Apply, RunFrom, Recorded;
    var a4 := [WriterCount] + rest;
    var a3 := [WriterDeliver] + a4;
    var a2 := [WriterGet] + a3;
    assert DeliverActions(f) + rest == WriteActions(f) + a2;
    hide Enabled, WriteActions;
    WriteRuns(r, f, a2);
    RunFromStep(r2, WriterGet, a3);
    RunFromStep(r3, WriterDeliver, a4);
    RunFromStep(r4, WriterCount, rest);
  }

  function StopActions(): seq<Action> {
    [CallStop] + ([PutSentinel] + ([WriterGet] + ([Join] + ([Finalize(true)] + []))))
  }

  lemma StopRuns(r: Recorder)
    requires Quiescent(r)
    ensures RunFrom(r, StopActions())
            == Some(r.(state := IDLE, writer := Drained, calls := r.calls + [Stopped(IDLE)]))
  {
    var r1 := Apply(r, CallStop);
    var r2 := Apply(r1, PutSentinel);
    var r3 := Apply(r2, WriterGet);
    var r4 := Apply(r3, Join);
    RunFromStep(r4, Finalize(true), []);
    RunFromStep(r3, Join, [Finalize(true)] + []);
    RunFromStep(r2, WriterGet, [Join] + ([Finalize(true)] + []));
    RunFromStep(r1, PutSentinel, [WriterGet] + ([Join] + ([Finalize(true)] + [])));
    RunFromStep(r, CallStop, [PutSentinel] + ([WriterGet] + ([Join] + ([Finalize(true)] + []))));
  }

  function DeliverAll(frames: seq<Frame>): seq<Action> {
    if frames == [] then StopActions() else DeliverActions(frames[0]) + DeliverAll(frames[1..])
  }

  lemma {:induction false} DeliverAllRuns(r: Recorder, frames: seq<Frame>)
    requires Quiescent(r)
    ensures var end := RunFrom(r, DeliverAll(frames));
            && end.Some? && end.value.state == IDLE && end.value.pipe == r.pipe + frames
            && end.value.written == r.written + |frames| && end.value.dropped == r.dropped
            && end.value.calls != [] && end.value.calls[|end.value.calls| - 1] == Stopped(IDLE)
    decreases |frames|
  {
    hide RunFrom;
    if frames == [] {
      StopRuns(r);
      assert r.pipe + frames == r.pipe;
    } else {
      var next := Recorded(r, frames[0]);
      DeliverRuns(r, frames[0], DeliverAll(frames[1..]));
      DeliverAllRuns(next, frames[1..]);
      assert r.pipe + frames == (r.pipe + [frames[0]]) + frames[1..];
    }
  }

  /** Any frames can be recorded, with any queue and policy: start, the frames, stop, with the encoder
      keeping up, delivers and counts them all, and the stop reports IDLE. */
  lemma AnySessionCanSucceed(size: nat, policy: Policy, frames: seq<Frame>)
    requires size > 0
    ensures var end := Run(size, policy, [CallStart(true)] + DeliverAll(frames));
            && end.Some? && end.value.state == IDLE && end.value.pipe == frames
            && end.value.written == |frames| && end.value.dropped == 0
            && end.value.calls != [] && end.value.calls[|end.value.calls| - 1] == Stopped(IDLE)
  {
    hide RunFrom;
    RunFromStep(Initial(size, policy), CallStart(true), DeliverAll(frames));
    DeliverAllRuns(Apply(Initial(size, policy), CallStart(true)), frames);
    assert [] + frames == frames;
  }

  // -------- what is accepted

  /** A write goes on from the check without the lock exactly while recording and with a frame of the
      right size, a stop goes on exactly while recording; otherwise they raise and change nothing. */
  lemma CallsIff(r: Recorder, frame: Frame, valid: bool)
    requires r.controller.Ready?
    ensures Apply(r, CallWrite(frame, valid)) == (if r.state == RECORDING && valid then r.(controller := Checked(frame))
                                                  else r.(calls := r.calls + [WriteRefused(frame)]))
    ensures Apply(r, CallStop) == (if r.state == RECORDING then r.(controller := StopLocked, state := STOPPING)
                                   else r.(calls := r.calls + [StopRefused]))
  {
  }

  function FrameOf(c: Controller): set<Frame> {
    if c.Checked? || c.Locked? || c.Blocked? || c.Evicting? || c.Retrying? then {c.frame} else {}
  }

  /** Every frame that has been accepted, or that a write is under way for, was given to write() in the
      right size. */
  ghost predicate OnlyWellFormed(r: Recorder, given: set<Frame>) {
    FrameOf(r.controller) <= given && forall f :: f in AcceptedIn(r.calls) ==> f in given
  }

  function Given(a: Action): set<Frame> {
    if a.CallWrite? && a.valid then {a.frame} else {}
  }

  function AllGiven(actions: seq<Action>): set<Frame> {
    if actions == [] then {} else Given(actions[0]) + AllGiven(actions[1..])
  }

  lemma WellFormedStep(r: Recorder, a: Action, given: set<Frame>)
    requires OnlyWellFormed(r, given) && Enabled(r, a)
    ensures OnlyWellFormed(Apply(r, a), given + Given(a))
  {
    hide AcceptedIn;
    var r' := Apply(r, a);
    if r'.calls != r.calls {
      var call := r'.calls[|r'.calls| - 1];
      assert r'.calls == r.calls + [call];
      AcceptedAfter(r.calls, call);
    }
  }

  lemma {:induction false} RunWellFormed(r: Recorder, actions: seq<Action>, given: set<Frame>)
    requires OnlyWellFormed(r, given)
    ensures var r' := RunFrom(r, actions); r'.Some? ==> OnlyWellFormed(r'.value, given + AllGiven(actions))
    decreases |actions|
  {
    hide Apply, Enabled, OnlyWellFormed, Given;
    if actions == [] {
      assert given + AllGiven(actions) == given;
    } else if Enabled(r, actions[0]) {
      WellFormedStep(r, actions[0], given);
      RunWellFormed(Apply(r, actions[0]), actions[1..], given + Given(actions[0]));
      assert given + AllGiven(actions) == given + Given(actions[0]) + AllGiven(actions[1..]);
    }
  }

  /** In every run the encoder receives only frames that were given to write() in the right size. */
  lemma EncoderGetsWellFormed(size: nat, policy: Policy, actions: seq<Action>, f: Frame)
    requires size > 0
    ensures var run := Run(size, policy, actions); run.Some? && f in run.value.pipe ==> f in AllGiven(actions)
  {
    RunWellFormed(Initial(size, policy), actions, {});
    RunKeepsInvariant(size, policy, actions);
    var run := Run(size, policy, actions);
    if run.Some? && f in run.value.pipe {
      var r := run.value;
      assert f in Kept(r);
      assert f in multiset(Kept(r)) + multiset(r.lost);
      assert f in multiset(AcceptedIn(r.calls));
    }
  }

  lemma {:induction false} GivenMeans(actions: seq<Action>, f: Frame)
    ensures f in AllGiven(actions) <==> exists i :: 0 <= i < |actions| && actions[i] == CallWrite(f, true)
  {
    if actions != [] {
      GivenMeans(actions[1..], f);
      assert forall i :: 0 < i < |actions| ==> actions[i] == actions[1..][i - 1];
    }
  }

  // -------- what is dropped

  /** A frame is dropped only by a policy that drops, and only when the queue is or was full: under
      drop_newest the frame being written, under drop_oldest the oldest one queued. */
  lemma DropsIff(size: nat, policy: Policy, actions: seq<Action>, a: Action)
    requires size > 0 && !a.CallStart?
    requires var run := Run(size, policy, actions); run.Some? && Enabled(run.value, a)
    ensures var r := Run(size, policy, actions).value;
            var r' := Apply(r, a);
            && (r'.lost != r.lost <==> || (a == PutFirst && policy == DropNewest && |r.queue| == size)
                                       || (a == EvictOldest && r.queue != []))
            && (a == PutFirst && policy == DropNewest && |r.queue| == size ==> r'.lost == r.lost + [r.controller.frame])
            && (a == EvictOldest && r.queue != [] ==>
                  r.queue[0].Payload? && r'.lost == r.lost + [r.queue[0].frame] && r'.queue == r.queue[1..])
            && (a == PutFirst && |r.queue| == size ==>
                  (r'.controller.Blocked? <==> policy == Wait) && (r'.controller.Evicting? <==> policy == DropOldest))
  {
    RunKeepsInvariant(size, policy, actions);
    hide Conserved;
    var r := Run(size, policy, actions).value;
    if a == EvictOldest && r.queue != [] {
      assert r.queue[0] in r.queue;
      assert FramesIn(r.queue[..1]) == [r.queue[0].frame];
      assert (r.lost + [r.queue[0].frame])[|r.lost|] == r.queue[0].frame;
      assert |Apply(r, a).lost| == |r.lost| + 1;
    }
    if a == PutFirst {
      assert |r.lost + [r.controller.frame]| == |r.lost| + 1;
    }
  }
}
