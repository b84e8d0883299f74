/** The threaded recorder as a transition system.  One controller thread calls start, write and
    stop; one writer thread takes frames from a bounded queue and hands them to the encoder's
    pipe.  An action is one atomic section of either thread: a section under the state lock, or
    one operation of the (internally locked) queue.  The environment decides whether the encoder
    starts, whether a pipe write fails, whether the join times out and whether finalising
    succeeds. */
module FfmpegRecorder {
  import opened Frames
  import opened Sequences
  import opened RecorderState
  import opened Wrappers

  datatype Policy = Wait | DropOldest | DropNewest

  datatype Item = Payload(frame: Frame) | Sentinel

  /** Where the controller is: between calls, or inside one.  Checked has passed the state check
      without the lock; Locked, Blocked, Evicting, Retrying and StopLocked hold the lock. */
  datatype Controller =
    | Ready
    | Checked(frame: Frame) | Locked(frame: Frame) | Blocked(frame: Frame)
    | Evicting(frame: Frame) | Retrying(frame: Frame)
    | StopLocked | Joining | Finalizing(drained: bool)

  /** Where the writer is: Delivered has written a frame it has not counted yet, Failing has had a
      pipe write fail and wants the lock, Drained has taken the sentinel, Crashed has given up. */
  datatype Writer =
    | NoWriter | Getting | Holding(frame: Frame) | Delivered
    | Failing(frame: Frame) | Drained | Crashed(frame: Frame)

  /** Completed calls, in order, with what they returned. */
  datatype Call =
    | Started | StartRefused
    | Wrote(frame: Frame) | WriteRefused(frame: Frame)
    | Stopped(final: RecorderState) | StopRefused

  /** pipe is what the encoder has received and lost what was dropped, both since the last start. */
  datatype Recorder = Recorder(
    size: nat, policy: Policy, state: RecorderState, queue: seq<Item>, written: nat, dropped: nat,
    controller: Controller, writer: Writer, pipe: seq<Frame>, lost: seq<Frame>, calls: seq<Call>)

  datatype Action =
    | CallStart(spawned: bool)
    | CallWrite(frame: Frame, valid: bool) | LockForWrite | PutFirst | PutWhenRoom | EvictOldest | PutAgain
    | CallStop | PutSentinel | Join | JoinTimeout | Finalize(ok: bool)
    | WriterGet | WriterDeliver | WriterBreak | WriterCount | WriterFail

  predicate HoldsLock(c: Controller) {
    c.Locked? || c.Blocked? || c.Evicting? || c.Retrying? || c.StopLocked?
  }

  predicate Alive(w: Writer) {
    w.Getting? || w.Holding? || w.Delivered? || w.Failing?
  }

  predicate Room(r: Recorder) {
    |r.queue| < r.size
  }

  predicate Enabled(r: Recorder, a: Action) {
    match a
    case CallStart(_) => r.controller.Ready? && !Alive(r.writer)
    case CallWrite(_, _) => r.controller.Ready?
    case LockForWrite => r.controller.Checked?
    case PutFirst => r.controller.Locked?
    case PutWhenRoom => r.controller.Blocked? && Room(r)
    case EvictOldest => r.controller.Evicting?
    case PutAgain => r.controller.Retrying?
    case CallStop => r.controller.Ready?
    case PutSentinel => r.controller.StopLocked? && Room(r)
    case Join => r.controller.Joining? && !Alive(r.writer)
    case JoinTimeout => r.controller.Joining? && Alive(r.writer)
    case Finalize(_) => r.controller.Finalizing?
    case WriterGet => r.writer.Getting? && r.queue != []
    case WriterDeliver => r.writer.Holding?
    case WriterBreak => r.writer.Holding?
    case WriterCount => r.writer.Delivered?
    case WriterFail => r.writer.Failing? && !HoldsLock(r.controller)
  }

  function Return(r: Recorder, call: Call): Recorder {
    r.(controller := Ready, calls := r.calls + [call])
  }

  /** The frame is in the queue and write() returns. */
  function Enqueue(r: Recorder, frame: Frame): Recorder {
    Return(r.(queue := r.queue + [Payload(frame)]), Wrote(frame))
  }

  function NewSession(r: Recorder): Recorder {
    r.(state := RECORDING, queue := [], written := 0, dropped := 0, writer := Getting, pipe := [], lost := [])
  }

  function FramesIn(queue: seq<Item>): seq<Frame> {
    if queue == [] then []
    else if queue[0].Sentinel? then FramesIn(queue[1..])
    else [queue[0].frame] + FramesIn(queue[1..])
  }

  function Evict(r: Recorder): Recorder {
    if r.queue == [] then r
    else r.(queue := r.queue[1..], lost := r.lost + FramesIn(r.queue[..1]))
  }

  function Apply(r: Recorder, a: Action): Recorder
    requires Enabled(r, a)
  {
    match a
    case CallStart(spawned) =>
      if r.state in {IDLE, FAILED} && spawned then Return(NewSession(r), Started)
      else Return(r, StartRefused)
    case CallWrite(frame, valid) =>
      if r.state != RECORDING || !valid then Return(r, WriteRefused(frame))
      else r.(controller := Checked(frame))
    case LockForWrite =>
      if r.state != RECORDING then Return(r, WriteRefused(r.controller.frame))
      else r.(controller := Locked(r.controller.frame))
    case PutFirst =>
      var frame := r.controller.frame;
      if Room(r) then Enqueue(r, frame)
      else
        (match r.policy
         case Wait => r.(controller := Blocked(frame))
         case DropNewest => Return(r.(dropped := r.dropped + 1, lost := r.lost + [frame]), Wrote(frame))
         case DropOldest => r.(controller := Evicting(frame)))
    case PutWhenRoom => Enqueue(r, r.controller.frame)
    case EvictOldest =>
      Evict(r).(dropped := r.dropped + 1, controller := Retrying(r.controller.frame))
    case PutAgain =>
      var frame := r.controller.frame;
      if Room(r) then Enqueue(r, frame)
      else Return(r.(dropped := r.dropped + 1, lost := r.lost + [frame]), Wrote(frame))
    case CallStop =>
      if r.state != RECORDING then Return(r, StopRefused)
      else r.(state := STOPPING, controller := StopLocked)
    case PutSentinel => r.(queue := r.queue + [Sentinel], controller := Joining)
    case Join => r.(controller := Finalizing(true))
    case JoinTimeout => r.(controller := Finalizing(false))
    case Finalize(ok) =>
      var final := if r.state != STOPPING then r.state else if r.controller.drained && ok then IDLE else FAILED;
      Return(r.(state := final), Stopped(final))
    case WriterGet =>
      r.(queue := r.queue[1..],
         writer := if r.queue[0].Sentinel? then Drained else Holding(r.queue[0].frame))
    case WriterDeliver => r.(pipe := r.pipe + [r.writer.frame], writer := Delivered)
    case WriterBreak => r.(writer := Failing(r.writer.frame))
    case WriterCount => r.(written := r.written + 1, writer := Getting)
    case WriterFail =>
      r.(state := if AcceptsFrom(r.state, FAILED, Some({RECORDING, STOPPING})) then FAILED else r.state,
         writer := Crashed(r.writer.frame))
  }

  function Initial(size: nat, policy: Policy): Recorder {
    Recorder(size, policy, IDLE, [], 0, 0, Ready, NoWriter, [], [], [])
  }

  /** The recorder after a sequence of actions, None if one of them was not enabled. */
  function RunFrom(r: Recorder, actions: seq<Action>): Option<Recorder>
    decreases |actions|
  {
    if actions == [] then Some(r)
    else if Enabled(r, actions[0]) then RunFrom(Apply(r, actions[0]), actions[1..])
    else None
  }

  function Run(size: nat, policy: Policy, actions: seq<Action>): Option<Recorder> {
    RunFrom(Initial(size, policy), actions)
  }

  // -------- phases: who can be where, and what the queue can hold

  /** In every reachable state the queue fits, a sentinel is last and is there only while a stop is
      under way, a write section runs only while recording, and the retry after an eviction always
      finds room. */
  ghost predicate Phases(r: Recorder) {
    && 0 < r.size && |r.queue| <= r.size
    && (forall i :: 0 <= i < |r.queue| && r.queue[i].Sentinel? ==> i == |r.queue| - 1)
    && (HoldsLock(r.controller) && !r.controller.StopLocked? ==> r.state == RECORDING)
    && (r.controller.StopLocked? ==> r.state == STOPPING && Alive(r.writer))
    && (r.state == RECORDING || r.controller.StopLocked? ==> Sentinel !in r.queue && Alive(r.writer))
    && (r.controller.Blocked? ==> r.policy == Wait)
    && (r.controller.Evicting? || r.controller.Retrying? ==> r.policy == DropOldest)
    && (r.controller.Retrying? ==> Room(r))
    && (r.controller.Joining? || r.controller.Finalizing? ==> r.state in {STOPPING, FAILED})
    && (r.state == STOPPING ==> r.controller.StopLocked? || r.controller.Joining? || r.controller.Finalizing?)
    && (r.controller.Joining? && Alive(r.writer) ==> r.queue != [] && r.queue[|r.queue| - 1].Sentinel?)
    && (r.controller == Finalizing(true) ==> !Alive(r.writer))
    && (r.writer.Drained? || r.writer.NoWriter? ==> r.queue == [])
    && (r.writer.Crashed? ==> r.state == FAILED)
    && (r.writer.NoWriter? ==> r.state == IDLE && r.controller.Ready?)
    && (r.state == IDLE ==> r.writer.Drained? || r.writer.NoWriter?)
    && r.state != SHUTDOWN
  }

  lemma PhasesStep(r: Recorder, a: Action)
    requires Phases(r) && Enabled(r, a)
    ensures Phases(Apply(r, a))
  {
  }

  // -------- conservation: where every accepted frame is

  function AcceptedWith(accepted: seq<Frame>, call: Call): seq<Frame> {
    if call.Started? then []
    else if call.Wrote? then accepted + [call.frame]
    else accepted
  }

  /** The frames whose write() returned since the last successful start, in call order. */
  function AcceptedIn(calls: seq<Call>): seq<Frame>
    decreases |calls|
  {
    if calls == [] then [] else AcceptedWith(AcceptedIn(calls[..|calls| - 1]), calls[|calls| - 1])
  }

  function InHand(w: Writer): seq<Frame> {
    if w.Holding? || w.Failing? || w.Crashed? then [w.frame] else []
  }

  /** Delivered, then in the writer's hand, then queued. */
  function Kept(r: Recorder): seq<Frame> {
    r.pipe + InHand(r.writer) + FramesIn(r.queue)
  }

  /** kept is what is still on its way or delivered, lost what was dropped. */
  ghost predicate Balanced(policy: Policy, dropped: nat, lost: seq<Frame>, kept: seq<Frame>, accepted: seq<Frame>) {
    && IsSubsequence(kept, accepted)
    && multiset(accepted) == multiset(kept) + multiset(lost)
    && (policy == Wait ==> kept == accepted && dropped == 0)
    && (policy == DropNewest ==> |lost| == dropped)
    && (policy == DropOldest ==> |lost| <= dropped)
  }

  ghost predicate Conserved(r: Recorder) {
    && Balanced(r.policy, r.dropped, r.lost, Kept(r), AcceptedIn(r.calls))
    && |r.pipe| == r.written + (if r.writer.Delivered? then 1 else 0)
  }

  lemma BalancedKeep(policy: Policy, dropped: nat, lost: seq<Frame>, kept: seq<Frame>, accepted: seq<Frame>, frame: Frame)
    requires Balanced(policy, dropped, lost, kept, accepted)
    ensures Balanced(policy, dropped, lost, kept + [frame], accepted + [frame])
  {
    SubsequenceSnoc(kept, accepted, frame);
  }

  lemma BalancedDrop(policy: Policy, dropped: nat, lost: seq<Frame>, kept: seq<Frame>, accepted: seq<Frame>, frame: Frame)
    requires Balanced(policy, dropped, lost, kept, accepted) && policy != Wait
    ensures Balanced(policy, dropped + 1, lost + [frame], kept, accepted + [frame])
  {
    SubsequenceSkip(kept, accepted, frame);
  }

  lemma BalancedEvict(dropped: nat, lost: seq<Frame>, front: seq<Frame>, frame: Frame, back: seq<Frame>, accepted: seq<Frame>)
    requires Balanced(DropOldest, dropped, lost, front + [frame] + back, accepted)
    ensures Balanced(DropOldest, dropped + 1, lost + [frame], front + back, accepted)
  {
    SubsequenceRemove(front, frame, back, accepted);
  }

  lemma {:induction false} FramesInConcat(p: seq<Item>, q: seq<Item>)
    ensures FramesIn(p + q) == FramesIn(p) + FramesIn(q)
  {
    if p == [] {
      assert p + q == q;
    } else {
      FramesInConcat(p[1..], q);
      assert (p + q)[1..] == p[1..] + q;
    }
  }

  lemma AcceptedAfter(calls: seq<Call>, call: Call)
    ensures AcceptedIn(calls + [call]) == AcceptedWith(AcceptedIn(calls), call)
  {
    assert (calls + [call])[..|calls|] == calls;
  }

  lemma EnqueueConserves(r: Recorder, frame: Frame)
    requires Conserved(r)
    ensures Conserved(Enqueue(r, frame))
  {
    hide Balanced;
    FramesInConcat(r.queue, [Payload(frame)]);
    AcceptedAfter(r.calls, Wrote(frame));
    assert FramesIn([Payload(frame)]) == [frame];
    assert Kept(Enqueue(r, frame)) == Kept(r) + [frame];
    BalancedKeep(r.policy, r.dropped, r.lost, Kept(r), AcceptedIn(r.calls), frame);
  }

  /** A frame that is accepted and dropped at once. */
  lemma DropConserves(r: Recorder, frame: Frame)
    requires Conserved(r) && r.policy != Wait
    ensures Conserved(Return(r.(dropped := r.dropped + 1, lost := r.lost + [frame]), Wrote(frame)))
  {
    hide Balanced;
    AcceptedAfter(r.calls, Wrote(frame));
    BalancedDrop(r.policy, r.dropped, r.lost, Kept(r), AcceptedIn(r.calls), frame);
  }

  lemma ReturnConserves(r: Recorder, call: Call)
    requires Conserved(r) && !call.Started? && !call.Wrote?
    ensures Conserved(Return(r, call))
  {
    AcceptedAfter(r.calls, call);
  }

  lemma EvictConserves(r: Recorder)
    requires Conserved(r) && r.policy == DropOldest && Sentinel !in r.queue && r.controller.Evicting?
    ensures Conserved(Evict(r).(dropped := r.dropped + 1, controller := Retrying(r.controller.frame)))
  {
    if r.queue != [] {
      hide IsSubsequence;
      var front, back := r.pipe + InHand(r.writer), FramesIn(r.queue[1..]);
      assert r.queue[0] in r.queue;
      var frame := r.queue[0].frame;
      assert Kept(r) == front + [frame] + back;
      assert FramesIn(r.queue[..1]) == [frame];
      BalancedEvict(r.dropped, r.lost, front, frame, back, AcceptedIn(r.calls));
    }
  }

  lemma StartConserves(r: Recorder)
    ensures Conserved(Return(NewSession(r), Started))
  {
    AcceptedAfter(r.calls, Started);
  }

  lemma GetKeeps(r: Recorder)
    requires Phases(r) && Enabled(r, WriterGet)
    ensures Kept(Apply(r, WriterGet)) == Kept(r)
  {
    assert FramesIn(r.queue) == (if r.queue[0].Sentinel? then [] else [r.queue[0].frame]) + FramesIn(r.queue[1..]);
  }

  lemma WriterConserves(r: Recorder, a: Action)
    requires Phases(r) && Conserved(r) && Enabled(r, a)
    requires a.WriterGet? || a.WriterDeliver? || a.WriterBreak? || a.WriterCount? || a.WriterFail?
    ensures Conserved(Apply(r, a))
  {
    hide Balanced, AcceptedIn;
    if a.WriterGet? {
      GetKeeps(r);
    } else {
      assert Kept(Apply(r, a)) == Kept(r) by { hide FramesIn, Phases; }
    }
  }

  lemma ConservedStep(r: Recorder, a: Action)
    requires Phases(r) && Conserved(r) && Enabled(r, a)
    ensures Conserved(Apply(r, a))
  {
    hide Conserved;
    match a
    case CallStart(spawned) =>
      if r.state in {IDLE, FAILED} && spawned {
        StartConserves(r);
      } else {
        ReturnConserves(r, StartRefused);
      }
    case CallWrite(frame, valid) =>
      ReturnConserves(r, WriteRefused(frame));
      MoveConserves(r, Apply(r, a));
    case LockForWrite =>
      ReturnConserves(r, WriteRefused(r.controller.frame));
      MoveConserves(r, Apply(r, a));
    case PutFirst =>
      var frame := r.controller.frame;
      if Room(r) {
        EnqueueConserves(r, frame);
      } else if r.policy == DropNewest {
        DropConserves(r, frame);
      } else {
        MoveConserves(r, Apply(r, a));
      }
    case PutWhenRoom => EnqueueConserves(r, r.controller.frame);
    case EvictOldest => EvictConserves(r);
    case PutAgain => EnqueueConserves(r, r.controller.frame);
    case CallStop =>
      ReturnConserves(r, StopRefused);
      MoveConserves(r, Apply(r, a));
    case PutSentinel =>
      FramesInConcat(r.queue, [Sentinel]);
      MoveConserves(r, Apply(r, a));
    case Join => MoveConserves(r, Apply(r, a));
    case JoinTimeout => MoveConserves(r, Apply(r, a));
    case Finalize(ok) =>
      var r' := Apply(r, a);
      MoveConserves(r, r.(state := r'.state));
      ReturnConserves(r.(state := r'.state), Stopped(r'.state));
    case _ => WriterConserves(r, a);
  }

  /** Moving inside a call, with the same frames in the same places. */
  lemma MoveConserves(r: Recorder, r': Recorder)
    requires Conserved(r)
    ensures r'.pipe == r.pipe && r'.writer == r.writer && FramesIn(r'.queue) == FramesIn(r.queue) && r'.calls == r.calls
            && r'.lost == r.lost && r'.dropped == r.dropped && r'.written == r.written && r'.policy == r.policy
            ==> Conserved(r')
  {
  }

  ghost predicate Invariant(r: Recorder) {
    Phases(r) && Conserved(r)
  }

  lemma InitialInvariant(size: nat, policy: Policy)
    requires size > 0
    ensures Invariant(Initial(size, policy))
  {
  }

  lemma ConfigurationFixed(r: Recorder, a: Action)
    requires Enabled(r, a)
    ensures Apply(r, a).size == r.size && Apply(r, a).policy == r.policy
  {
  }

  lemma {:induction false} RunFromKeepsInvariant(r: Recorder, actions: seq<Action>)
    requires Invariant(r)
    ensures var r' := RunFrom(r, actions);
            r'.Some? ==> Invariant(r'.value) && r'.value.size == r.size && r'.value.policy == r.policy
    decreases |actions|
  {
    hide Apply, Phases, Conserved, Enabled;
    if actions != [] && Enabled(r, actions[0]) {
      PhasesStep(r, actions[0]);
      ConservedStep(r, actions[0]);
      ConfigurationFixed(r, actions[0]);
      RunFromKeepsInvariant(Apply(r, actions[0]), actions[1..]);
    }
  }

  /** Every interleaving keeps the invariant. */
  lemma RunKeepsInvariant(size: nat, policy: Policy, actions: seq<Action>)
    requires size > 0
    ensures var r := Run(size, policy, actions);
            r.Some? ==> Invariant(r.value) && r.value.size == size && r.value.policy == policy
  {
    InitialInvariant(size, policy);
    RunFromKeepsInvariant(Initial(size, policy), actions);
  }

  // -------- delivery

  /** Whenever a session has ended in IDLE, under any interleaving: the encoder received a
      subsequence, in order, of the frames whose write() returned, frames_written is its length,
      and the rest are the dropped frames.  Under the wait policy it received exactly those frames
      and nothing was dropped. */
  lemma IdleMeansDelivered(size: nat, policy: Policy, actions: seq<Action>)
    requires size > 0
    ensures var run := Run(size, policy, actions);
            run.Some? && run.value.state == IDLE ==>
              var r, accepted := run.value, AcceptedIn(run.value.calls);
              && r.written == |r.pipe|
              && IsSubsequence(r.pipe, accepted)
              && multiset(accepted) == multiset(r.pipe) + multiset(r.lost)
              && (policy == Wait ==> r.pipe == accepted && r.lost == [])
  {
    RunKeepsInvariant(size, policy, actions);
    var run := Run(size, policy, actions);
    if run.Some? && run.value.state == IDLE {
      var r := run.value;
      assert Kept(r) == r.pipe;
      if policy == Wait {
        assert multiset(r.lost) == multiset(r.pipe) + multiset(r.lost) - multiset(r.pipe);
        assert |multiset(r.lost)| == 0;
      }
    }
  }

  function RefusedWith(refused: nat, call: Call): nat {
    if call.Started? then 0 else if call.WriteRefused? then refused + 1 else refused
  }

  /** How many write() calls have raised since the last successful start. */
  function RefusedIn(calls: seq<Call>): nat
    decreases |calls|
  {
    if calls == [] then 0 else RefusedWith(RefusedIn(calls[..|calls| - 1]), calls[|calls| - 1])
  }

  lemma RefusedAfter(calls: seq<Call>, call: Call)
    ensures RefusedIn(calls + [call]) == RefusedWith(RefusedIn(calls), call)
  {
    assert (calls + [call])[..|calls|] == calls;
  }

  predicate ReportedIdle(r: Recorder) {
    r.calls != [] && r.calls[|r.calls| - 1] == Stopped(IDLE)
  }

  /** A session that is going on, or has just been reported to end in IDLE, has refused no frame. */
  ghost predicate NoneRefused(r: Recorder) {
    && (ReportedIdle(r) ==> r.state == IDLE)
    && (ReportedIdle(r) || r.state in {RECORDING, STOPPING} ==> RefusedIn(r.calls) == 0)
  }

  lemma NoneRefusedStep(r: Recorder, a: Action)
    requires Phases(r) && NoneRefused(r) && Enabled(r, a)
    requires a.CallWrite? ==> a.valid
    ensures NoneRefused(Apply(r, a))
  {
    hide RefusedIn;
    var r' := Apply(r, a);
    if r'.calls != r.calls {
      var call := r'.calls[|r'.calls| - 1];
      RefusedAfter(r.calls, call);
      assert r'.calls == r.calls + [call];
    }
  }

  lemma {:induction false} RunFromNoneRefused(r: Recorder, actions: seq<Action>)
    requires Phases(r) && NoneRefused(r)
    requires forall a :: a in actions && a.CallWrite? ==> a.valid
    ensures var r' := RunFrom(r, actions); r'.Some? ==> NoneRefused(r'.value)
    decreases |actions|
  {
    hide Apply, Phases, Enabled, NoneRefused;
    if actions != [] && Enabled(r, actions[0]) {
      PhasesStep(r, actions[0]);
      NoneRefusedStep(r, actions[0]);
      RunFromNoneRefused(Apply(r, actions[0]), actions[1..]);
    }
  }

  /** When a stop has reported IDLE, the recorder is IDLE, and no well-formed frame has been refused
      in the session: every write() made in it returned. */
  lemma IdleMeansNoneRefused(size: nat, policy: Policy, actions: seq<Action>)
    requires size > 0 && forall a :: a in actions && a.CallWrite? ==> a.valid
    requires var run := Run(size, policy, actions); run.Some? && ReportedIdle(run.value)
    ensures var r := Run(size, policy, actions).value; r.state == IDLE && RefusedIn(r.calls) == 0
  {
    RunFromNoneRefused(Initial(size, policy), actions);
  }

  // -------- the drop counter

  function ExcessDrops(r: Recorder): int {
    r.dropped - |r.lost|
  }

  /** frames_dropped counts a frame that was not dropped exactly when the writer has emptied the
      queue between the failed put and the eviction; and the retry's own drop branch is dead. */
  lemma OvercountIffQueueEmptied(size: nat, policy: Policy, actions: seq<Action>, a: Action)
    requires size > 0
    requires var run := Run(size, policy, actions); run.Some? && Enabled(run.value, a) && !a.CallStart?
    ensures var r := Run(size, policy, actions).value;
            && (ExcessDrops(Apply(r, a)) != ExcessDrops(r) <==> a.EvictOldest? && r.queue == [])
            && (a.PutAgain? ==> Room(r))
  {
    RunKeepsInvariant(size, policy, actions);
    hide Conserved;
    var r := Run(size, policy, actions).value;
    if a.EvictOldest? && r.queue != [] {
      assert r.queue[0] in r.queue;
      assert FramesIn(r.queue[..1]) == [r.queue[0].frame];
    }
  }

  // -------- progress

  function WriterWork(w: Writer): nat {
    match w
    case Holding(_) => 2
    case Delivered => 1
    case Failing(_) => 1
    case _ => 0
  }

  function ControllerWork(c: Controller): nat {
    match c
    case Ready => 0
    case Checked(_) => 9
    case Locked(_) => 8
    case Blocked(_) => 4
    case Evicting(_) => 6
    case Retrying(_) => 5
    case StopLocked => 6
    case Joining => 2
    case Finalizing(_) => 1
  }

  /** A bound on the number of actions before the current call returns. */
  function CallWork(r: Recorder): nat {
    3 * |r.queue| + WriterWork(r.writer) + ControllerWork(r.controller)
  }

  /** Inside a call, every action of either thread brings the return nearer. */
  lemma CallWorkDecreases(r: Recorder, a: Action)
    requires Phases(r) && Enabled(r, a) && !r.controller.Ready?
    ensures CallWork(Apply(r, a)) < CallWork(r)
  {
  }

  /** A call that waits for room while the writer waits for the lock the call holds. */
  predicate Deadlocked(r: Recorder) {
    (r.controller.Blocked? || r.controller.StopLocked?) && !Room(r) && r.writer.Failing?
  }

  /** Inside a call, nothing at all can happen exactly when the call is waiting for room with a
      writer that has had a pipe write fail; otherwise some action other than a timeout can.  In
      particular a call blocked on a full queue always leaves the writer an action that needs no
      lock while the pipe accepts writes. */
  lemma StuckIffDeadlocked(size: nat, policy: Policy, actions: seq<Action>)
    requires size > 0
    requires var run := Run(size, policy, actions); run.Some? && !run.value.controller.Ready?
    ensures var r := Run(size, policy, actions).value;
            && (Deadlocked(r) <==> forall a :: !Enabled(r, a))
            && (!Deadlocked(r) ==> exists a :: Enabled(r, a) && !a.JoinTimeout?)
            && (HoldsLock(r.controller) && !Room(r) && (r.controller.Blocked? || r.controller.StopLocked?)
                && !r.writer.Failing? ==>
                  Enabled(r, WriterGet) || Enabled(r, WriterDeliver) || Enabled(r, WriterCount))
  {
    RunKeepsInvariant(size, policy, actions);
    hide Conserved;
    var r := Run(size, policy, actions).value;
    if !Deadlocked(r) {
      var a := SomeAction(r);
      assert Enabled(r, a);
    }
  }

  lemma SomeAction(r: Recorder) returns (a: Action)
    requires Phases(r) && !r.controller.Ready? && !Deadlocked(r)
    ensures Enabled(r, a) && !a.JoinTimeout? && !a.WriterBreak?
  {
    a := match r.controller
      case Checked(_) => LockForWrite
      case Locked(_) => PutFirst
      case Evicting(_) => EvictOldest
      case Retrying(_) => PutAgain
      case Finalizing(_) => Finalize(true)
      case Blocked(_) => if Room(r) then PutWhenRoom else WriterAction(r)
      case StopLocked => if Room(r) then PutSentinel else WriterAction(r)
      case _ => if Alive(r.writer) then WriterAction(r) else Join;
  }

  function WriterAction(r: Recorder): Action {
    match r.writer
    case Holding(_) => WriterDeliver
    case Delivered => WriterCount
    case Failing(_) => WriterFail
    case _ => WriterGet
  }

  /** After the first n actions the call has returned. */
  predicate ReturnedAfter(r: Recorder, actions: seq<Action>, n: nat) {
    n <= |actions| && var r' := RunFrom(r, actions[..n]); r'.Some? && r'.value.controller.Ready?
  }

  /** No schedule can avoid the return: every run that is at least CallWork actions long, failed pipe
      writes and timeouts included, has passed through it by then. */
  lemma {:induction false} EveryScheduleReturns(r: Recorder, actions: seq<Action>)
    requires Phases(r) && RunFrom(r, actions).Some? && CallWork(r) <= |actions|
    ensures exists n: nat :: n <= CallWork(r) && ReturnedAfter(r, actions, n)
    decreases |actions|
  {
    if r.controller.Ready? {
      assert ReturnedAfter(r, actions, 0);
    } else {
      var a, rest := actions[0], actions[1..];
      PhasesStep(r, a);
      CallWorkDecreases(r, a);
      hide Apply, Phases, CallWork, Enabled;
      EveryScheduleReturns(Apply(r, a), rest);
      var n: nat :| n <= CallWork(Apply(r, a)) && ReturnedAfter(Apply(r, a), rest, n);
      assert actions[..n + 1][1..] == rest[..n];
      assert ReturnedAfter(r, actions, n + 1);
    }
  }

  /** And it can always be reached: while no pipe write fails, a run inside a call can go on, without
      a timeout. */
  lemma {:induction false} UnfinishedCallGoesOn(r: Recorder, actions: seq<Action>)
    requires Phases(r) && !r.writer.Failing? && RunFrom(r, actions).Some?
    requires forall a :: a in actions ==> !a.WriterBreak?
    ensures var r' := RunFrom(r, actions).value;
            r'.controller.Ready? || exists a :: Enabled(r', a) && !a.JoinTimeout? && !a.WriterBreak?
    decreases |actions|
  {
    if actions == [] {
      if !r.controller.Ready? {
        var a := SomeAction(r);
        assert Enabled(r, a);
      }
    } else {
      PhasesStep(r, actions[0]);
      assert actions[0] in actions;
      assert !Apply(r, actions[0]).writer.Failing?;
      UnfinishedCallGoesOn(Apply(r, actions[0]), actions[1..]);
    }
  }

  /** And the shortest way there needs at most CallWork actions. */
  lemma {:induction false} CallReturns(r: Recorder) returns (actions: seq<Action>, r': Recorder)
    requires Phases(r) && !r.writer.Failing?
    ensures |actions| <= CallWork(r) && RunFrom(r, actions) == Some(r')
    ensures r'.controller.Ready? && forall a :: a in actions ==> !a.JoinTimeout? && !a.WriterBreak?
    decreases CallWork(r)
  {
    if r.controller.Ready? {
      actions, r' := [], r;
    } else {
      var a := SomeAction(r);
      PhasesStep(r, a);
      CallWorkDecreases(r, a);
      var rest;
      rest, r' := CallReturns(Apply(r, a));
      actions := [a] + rest;
      assert actions[1..] == rest;
    }
  }

  // -------- two witnesses, with a queue of one frame

  lemma RunFromStep(r: Recorder, a: Action, rest: seq<Action>)
    requires Enabled(r, a)
    ensures RunFrom(r, [a] + rest) == RunFrom(Apply(r, a), rest)
  {
    assert ([a] + rest)[1..] == rest;
  }

  /** A write that finds room, up to its return. */
  function WriteActions(frame: Frame): seq<Action> {
    [CallWrite(frame, true)] + ([LockForWrite] + [PutFirst])
  }

  lemma WriteRuns(r: Recorder, frame: Frame, rest: seq<Action>)
    requires r.controller.Ready? && r.state == RECORDING
    ensures RunFrom(r, WriteActions(frame) + rest)
            == RunFrom(Apply(r.(controller := Locked(frame)), PutFirst), rest)
  {
    var r1 := Apply(r, CallWrite(frame, true));
    var r2 := Apply(r1, LockForWrite);
    RunFromStep(r2, PutFirst, rest);
    RunFromStep(r1, LockForWrite, [PutFirst] + rest);
    RunFromStep(r, CallWrite(frame, true), [LockForWrite] + ([PutFirst] + rest));
    assert WriteActions(frame) + rest == [CallWrite(frame, true)] + ([LockForWrite] + ([PutFirst] + rest));
  }

  function DeadlockRun(f: Frame): seq<Action> {
    [CallStart(true)] + (WriteActions(f) + ([WriterGet] + (WriteActions(f) + ([WriterBreak] + (WriteActions(f) + [])))))
  }

  /** The deadlock is reached when the pipe breaks while the queue is full and another frame comes. */
  lemma DeadlockReachable(f: Frame)
    ensures var r := Run(1, Wait, DeadlockRun(f));
            r.Some? && r.value.controller.Blocked? && Deadlocked(r.value)
  {
    var r0 := Initial(1, Wait);
    var r1 := Apply(r0, CallStart(true));
    var r2 := Apply(r1.(controller := Locked(f)), PutFirst);
    var r3 := Apply(r2, WriterGet);
    var r4 := Apply(r3.(controller := Locked(f)), PutFirst);
    var r5 := Apply(r4, WriterBreak);
    var a6 := WriteActions(f) + [];
    var a5 := [WriterBreak] + a6;
    var a4 := WriteActions(f) + a5;
    var a3 := [WriterGet] + a4;
    var a2 := WriteActions(f) + a3;
    assert r5.controller.Ready? && r5.state == RECORDING;
    RunFromStep(r0, CallStart(true), a2);
    WriteRuns(r1, f, a3);
    RunFromStep(r2, WriterGet, a4);
    WriteRuns(r3, f, a5);
    RunFromStep(r4, WriterBreak, a6);
    WriteRuns(r5, f, []);
  }

  function OvercountRun(f: Frame): seq<Action> {
    [CallStart(true)] + (WriteActions(f) + (WriteActions(f) + ([WriterGet] + ([EvictOldest] + ([PutAgain] + [])))))
  }

  /** Under drop_oldest a frame can be counted as dropped although none is. */
  lemma OvercountReachable(f: Frame)
    ensures var r := Run(1, DropOldest, OvercountRun(f));
            r.Some? && r.value.dropped == 1 && r.value.lost == [] && AcceptedIn(r.value.calls) == [f, f]
  {
    hide AcceptedIn;
    var r0 := Initial(1, DropOldest);
    var r1 := Apply(r0, CallStart(true));
    var r2 := Apply(r1.(controller := Locked(f)), PutFirst);
    var r3 := Apply(r2.(controller := Locked(f)), PutFirst);
    var r4 := Apply(r3, WriterGet);
    var r5 := Apply(r4, EvictOldest);
    var r6 := Apply(r5, PutAgain);
    var a5 := [PutAgain] + [];
    var a4 := [EvictOldest] + a5;
    var a3 := [WriterGet] + a4;
    var a2 := WriteActions(f) + a3;
    var a1 := WriteActions(f) + a2;
    RunFromStep(r0, CallStart(true), a1);
    WriteRuns(r1, f, a2);
    WriteRuns(r2, f, a3);
    RunFromStep(r3, WriterGet, a4);
    RunFromStep(r4, EvictOldest, a5);
    RunFromStep(r5, PutAgain, []);
    assert r6.calls == [] + [Started] + [Wrote(f)] + [Wrote(f)];
    TwoAccepted(f);
  }

  lemma TwoAccepted(f: Frame)
    ensures AcceptedIn([] + [Started] + [Wrote(f)] + [Wrote(f)]) == [f, f]
  {
    AcceptedAfter([], Started);
    AcceptedAfter([] + [Started], Wrote(f));
    AcceptedAfter([] + [Started] + [Wrote(f)], Wrote(f));
  }

  // -------- the recorder object

  /** The fields the source updates in place.  One method per atomic section; its effect on the
      object is the action's effect on the model. */
  class FFMpegMp4Recorder {
    const queueSize: nat
    const overflowPolicy: Policy
    const machine: RecorderStateMachine
    var queue: seq<Item>
    var framesWritten: nat
    var framesDropped: nat
    var controller: Controller
    var writer: Writer
    var pipe: seq<Frame>
    ghost var lost: seq<Frame>
    ghost var calls: seq<Call>

    ghost function Model(): Recorder
      reads this, machine
    {
      Recorder(queueSize, overflowPolicy, machine.state, queue, framesWritten, framesDropped,
               controller, writer, pipe, lost, calls)
    }

    constructor (queueSize: nat, overflowPolicy: Policy)
      ensures Model() == Initial(queueSize, overflowPolicy) && fresh(machine)
    {
      this.queueSize, this.overflowPolicy := queueSize, overflowPolicy;
      machine := new RecorderStateMachine();
      queue, framesWritten, framesDropped := [], 0, 0;
      controller, writer, pipe, lost, calls := Ready, NoWriter, [], [], [];
    }

    method Start(spawned: bool) returns (ok: bool)
      requires Enabled(Model(), CallStart(spawned))
      modifies this, machine
      ensures Model() == Apply(old(Model()), CallStart(spawned))
      ensures calls == old(calls) + [if ok then Started else StartRefused]
    {
      var allowed := machine.Require({IDLE, FAILED});
      if !allowed || !spawned {
        calls := calls + [StartRefused];
        return false;
      }
      queue, framesWritten, framesDropped := [], 0, 0;
      writer, pipe, lost := Getting, [], [];
      ok := machine.Transition(RECORDING);
      calls := calls + [Started];
    }

    /** write() and write_bytes() up to the lock; valid says whether the frame has the right size. */
    method BeginWrite(frame: Frame, valid: bool) returns (ok: bool)
      requires Enabled(Model(), CallWrite(frame, valid))
      modifies this
      ensures Model() == Apply(old(Model()), CallWrite(frame, valid))
      ensures ok <==> controller == Checked(frame)
    {
      var recording := machine.Require({RECORDING});
      ok := recording && valid;
      if ok {
        controller := Checked(frame);
      } else {
        calls := calls + [WriteRefused(frame)];
      }
    }

    method LockAndCheck() returns (ok: bool)
      requires Enabled(Model(), LockForWrite)
      modifies this
      ensures Model() == Apply(old(Model()), LockForWrite)
      ensures ok <==> controller.Locked?
    {
      ok := machine.Require({RECORDING});
      if ok {
        controller := Locked(controller.frame);
      } else {
        calls := calls + [WriteRefused(controller.frame)];
        controller := Ready;
      }
    }

    /** The queue's own non-blocking put: refuses when full. */
    method PutNowait(item: Item) returns (ok: bool)
      modifies this`queue
      ensures ok <==> |old(queue)| < queueSize
      ensures queue == if ok then old(queue) + [item] else old(queue)
    {
      ok := |queue| < queueSize;
      if ok {
        queue := queue + [item];
      }
    }

    method GetNowait() returns (item: Option<Item>)
      modifies this`queue
      ensures item == None <==> old(queue) == []
      ensures old(queue) == (if item.Some? then [item.value] else []) + queue
    {
      if queue == [] {
        return None;
      }
      item, queue := Some(queue[0]), queue[1..];
    }

    method ReturnWrote()
      modifies this`controller, this`calls
      requires HoldsLock(controller) && !controller.StopLocked?
      ensures controller == Ready && calls == old(calls) + [Wrote(old(controller).frame)]
    {
      calls := calls + [Wrote(controller.frame)];
      controller := Ready;
    }

    /** _enqueue, up to the point where it blocks or has decided to evict. */
    method EnqueueFirst()
      requires Enabled(Model(), PutFirst)
      modifies this
      ensures Model() == Apply(old(Model()), PutFirst)
    {
      var put := PutNowait(Payload(controller.frame));
      if put {
        ReturnWrote();
      } else if overflowPolicy == Wait {
        controller := Blocked(controller.frame);
      } else if overflowPolicy == DropNewest {
        framesDropped, lost := framesDropped + 1, lost + [controller.frame];
        ReturnWrote();
      } else {
        controller := Evicting(controller.frame);
      }
    }

    method WakeAndPut()
      requires Enabled(Model(), PutWhenRoom)
      modifies this
      ensures Model() == Apply(old(Model()), PutWhenRoom)
    {
      queue := queue + [Payload(controller.frame)];
      ReturnWrote();
    }

    method Evict()
      requires Enabled(Model(), EvictOldest)
      modifies this
      ensures Model() == Apply(old(Model()), EvictOldest)
    {
      var item := GetNowait();
      if item.Some? {
        lost := lost + FramesIn([item.value]);
        assert old(queue)[..1] == [item.value];
      }
      framesDropped := framesDropped + 1;
      controller := Retrying(controller.frame);
    }

    method EnqueueAgain()
      requires Enabled(Model(), PutAgain)
      modifies this
      ensures Model() == Apply(old(Model()), PutAgain)
    {
      var put := PutNowait(Payload(controller.frame));
      if !put {
        framesDropped, lost := framesDropped + 1, lost + [controller.frame];
      }
      ReturnWrote();
    }

    method BeginStop() returns (ok: bool)
      requires Enabled(Model(), CallStop)
      modifies this, machine
      ensures Model() == Apply(old(Model()), CallStop)
      ensures ok <==> controller == StopLocked
    {
      ok := machine.Require({RECORDING});
      if ok {
        var moved := machine.Transition(STOPPING);
        controller := StopLocked;
      } else {
        calls := calls + [StopRefused];
      }
    }

    method PutStopSentinel()
      requires Enabled(Model(), PutSentinel)
      modifies this
      ensures Model() == Apply(old(Model()), PutSentinel)
    {
      queue := queue + [Sentinel];
      controller := Joining;
    }

    /** The join returns either because the writer has ended or because the time is up. */
    method JoinWriter()
      requires controller.Joining?
      modifies this
      ensures Model() == Apply(old(Model()), if Alive(old(writer)) then JoinTimeout else Join)
    {
      controller := Finalizing(!Alive(writer));
    }

    method FinishStop(ok: bool) returns (final: RecorderState)
      requires Enabled(Model(), Finalize(ok))
      modifies this, machine
      ensures Model() == Apply(old(Model()), Finalize(ok))
      ensures calls == old(calls) + [Stopped(final)] && final == machine.state
    {
      if machine.state == STOPPING {
        var moved := machine.Transition(if controller.drained && ok then IDLE else FAILED);
      }
      final := machine.state;
      calls := calls + [Stopped(final)];
      controller := Ready;
    }

    method WriterTake()
      requires Enabled(Model(), WriterGet)
      modifies this
      ensures Model() == Apply(old(Model()), WriterGet)
    {
      var item := GetNowait();
      assert old(queue)[0] == item.value && old(queue)[1..] == queue;
      writer := if item.value.Sentinel? then Drained else Holding(item.value.frame);
    }

    method WriterPipe(accepted: bool)
      requires writer.Holding?
      modifies this
      ensures Model() == Apply(old(Model()), if accepted then WriterDeliver else WriterBreak)
    {
      if accepted {
        pipe := pipe + [writer.frame];
        writer := Delivered;
      } else {
        writer := Failing(writer.frame);
      }
    }

    method WriterCountFrame()
      requires Enabled(Model(), WriterCount)
      modifies this
      ensures Model() == Apply(old(Model()), WriterCount)
    {
      framesWritten := framesWritten + 1;
      writer := Getting;
    }

    method WriterGiveUp()
      requires Enabled(Model(), WriterFail)
      modifies this, machine
      ensures Model() == Apply(old(Model()), WriterFail)
    {
      var moved := machine.TryTransition(FAILED, Some({RECORDING, STOPPING}));
      writer := Crashed(writer.frame);
    }
  }
}
