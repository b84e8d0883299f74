/** The layers together: session messages drive the image recorder node, whose calls drive the
    threaded recorder.  Connects what is on disk after a session with what the encoder received. */
module RecordingPipeline {
  import opened Frames
  import opened Sequences
  import opened RecorderState
  import opened FfmpegRecorder
  import opened ImageRecorderNode
  import opened Wrappers
  import EpisodeCut
  import SessionControl

  /** The node after a sequence of events. */
  function NodeAfter(limit: nat, events: seq<Event>): (n: Node)
    requires limit > 0
    ensures n.limit == limit
    decreases |events|
  {
    if events == [] then NewNode(limit)
    else
      var n, e := NodeAfter(limit, events[..|events| - 1]), events[|events| - 1];
      EpisodeCut.StepKeepsLimit(n, e);
      Step(n, e)
  }

  // -------- the sidecar and its counters

  function LinesOf(frames: seq<Frame>): seq<Line>
    decreases |frames|
  {
    if frames == [] then []
    else
      var last := |frames| - 1;
      LinesOf(frames[..last]) + [Line(last, frames[last].stamp)]
  }

  lemma {:induction false} LinesAt(frames: seq<Frame>, i: nat)
    requires i < |frames|
    ensures |LinesOf(frames)| == |frames| && LinesOf(frames)[i] == Line(i, frames[i].stamp)
    decreases |frames|
  {
    var last := |frames| - 1;
    if i < last {
      LinesAt(frames[..last], i);
    } else if last > 0 {
      LinesAt(frames[..last], 0);
    }
  }

  function FirstStamp(frames: seq<Frame>): Option<int> {
    if frames == [] then None else Some(frames[0].stamp)
  }

  function LastStamp(frames: seq<Frame>): Option<int> {
    if frames == [] then None else Some(frames[|frames| - 1].stamp)
  }

  /** The counters describe the accepted frames.  The sidecar's lines are among theirs, in order, and
      are exactly theirs if logged, that is, if no sidecar write has failed. */
  ghost predicate Describes(b: Book, accepted: seq<Frame>, logged: bool) {
    && b.index == |accepted| && b.first == FirstStamp(accepted) && b.last == LastStamp(accepted)
    && (b.sidecar.Some? ==> IsSubsequence(b.sidecar.value, LinesOf(accepted)))
    && (b.sidecar.Some? && logged ==> b.sidecar.value == LinesOf(accepted))
  }

  ghost predicate BookMatches(n: Node, logged: bool) {
    n.recording ==> Describes(n.book, AcceptedIn(n.calls), logged)
  }

  predicate Logs(e: Event) {
    match e
    case ImageMsg(_, answer) => answer.logged
    case StopMsg(_, answers, _, _) => forall i :: 0 <= i < |answers| ==> answers[i].logged
    case _ => true
  }

  ghost predicate AllLogged(events: seq<Event>) {
    forall i :: 0 <= i < |events| ==> Logs(events[i])
  }

  lemma RecordDescribes(b: Book, accepted: seq<Frame>, logged: bool, frame: Frame, wrote: bool)
    requires Describes(b, accepted, logged) && (logged ==> wrote)
    ensures Describes(Record(b, frame.stamp, wrote), accepted + [frame], logged)
  {
    var longer := accepted + [frame];
    assert longer[..|accepted|] == accepted;
    assert LinesOf(longer) == LinesOf(accepted) + [Line(|accepted|, frame.stamp)];
    if b.sidecar.Some? {
      SubsequenceSnoc(b.sidecar.value, LinesOf(accepted), Line(|accepted|, frame.stamp));
      SubsequenceSkip(b.sidecar.value, LinesOf(accepted), Line(|accepted|, frame.stamp));
    }
  }

  lemma WriteDescribes(n: Node, frame: Frame, answer: Answer, logged: bool)
    requires Describes(n.book, AcceptedIn(n.calls), logged) && (logged ==> answer.logged)
    ensures var n' := WriteFrame(n, frame, answer); Describes(n'.book, AcceptedIn(n'.calls), logged)
  {
    AcceptedAfter(n.calls, Wrote(frame));
    AcceptedAfter(n.calls, WriteRefused(frame));
    RecordDescribes(n.book, AcceptedIn(n.calls), logged, frame, answer.logged);
  }

  lemma {:induction false} FlushDescribes(n: Node, stop: int, answers: seq<Answer>, logged: bool)
    requires Describes(n.book, AcceptedIn(n.calls), logged)
    requires logged ==> forall i :: 0 <= i < |answers| ==> answers[i].logged
    ensures var n' := Flush(n, stop, answers); Describes(n'.book, AcceptedIn(n'.calls), logged)
    decreases |n.pending|
  {
    hide Describes, WriteFrame, AcceptedIn;
    if n.pending != [] && n.pending[0].stamp < stop {
      var n0 := n.(pending := n.pending[1..]);
      WriteDescribes(n0, n.pending[0], NextAnswer(answers), logged);
      assert WriteFrame(n0, n.pending[0], NextAnswer(answers)).pending == n0.pending by {
        EpisodeCut.WriteHands(n0, n.pending[0], NextAnswer(answers));
      }
      FlushDescribes(WriteFrame(n0, n.pending[0], NextAnswer(answers)), stop, Rest(answers), logged);
    }
  }

  lemma BookMatchesStep(n: Node, e: Event, logged: bool)
    requires n.limit > 0 && BookMatches(n, logged) && (logged ==> Logs(e))
    ensures BookMatches(Step(n, e), logged)
  {
    match e
    case ImageMsg(frame, answer) =>
      if n.recording && |n.pending| == n.limit {
        WriteDescribes(n.(pending := n.pending[1..] + [frame]), n.pending[0], answer, logged);
      }
    case StartMsg(ts, started, logOpen) =>
      AcceptedAfter(n.calls, Started);
    case StopMsg(ts, answers, result, saved) =>
      EpisodeCut.FlushKeeps(n.(stopTs := ts, recording := false), ts, answers);
    case IdleMsg =>
  }

  lemma NewBookMatches(limit: nat)
    ensures BookMatches(NewNode(limit), true)
  {
  }

  lemma {:induction false} BookMatchesAfter(limit: nat, events: seq<Event>)
    requires limit > 0
    ensures BookMatches(NodeAfter(limit, events), AllLogged(events))
    decreases |events|
  {
    hide BookMatches, Step;
    if events == [] {
      NewBookMatches(limit);
    } else {
      var prefix := events[..|events| - 1];
      BookMatchesAfter(limit, prefix);
      Weaken(NodeAfter(limit, prefix), AllLogged(prefix), AllLogged(events));
      BookMatchesStep(NodeAfter(limit, prefix), events[|events| - 1], AllLogged(events));
    }
  }

  lemma Weaken(n: Node, logged: bool, stronger: bool)
    requires BookMatches(n, logged) && (stronger ==> logged)
    ensures BookMatches(n, stronger)
  {
  }

  /** A start that the recorder accepts begins a recording with fresh counters and an empty sidecar, if
      one can be opened; one that it refuses leaves counters and sidecar alone. */
  lemma StartOpens(n: Node, ts: int, started: bool, logOpen: bool)
    requires !n.recording
    ensures var n' := HandleStart(n, ts, started, logOpen);
            && n'.recording == started && n'.startTs == ts
            && n'.calls == n.calls + [if started then Started else StartRefused]
            && (started ==> n'.book == Book(if logOpen then Some([]) else None, 0, None, None))
            && (!started ==> n'.book == n.book)
  {
  }

  /** A stop ends the recording and closes the session's files: the sidecar if one was open, and the
      metadata if the recorder's stop returned and the file could be written. */
  lemma StopClosesFiles(n: Node, e: Event)
    requires n.limit > 0 && n.recording && e.StopMsg?
    ensures var n' := Step(n, e);
            && !n'.recording && n'.stopTs == e.ts && n'.book.sidecar == None
            && |n'.closed| == |n.closed| + 1 && n'.closed[..|n.closed|] == n.closed
            && var files := n'.closed[|n.closed|];
            && (files.sidecar.Some? <==> n.book.sidecar.Some?)
            && (files.metadata.Some? <==> e.result.Some? && e.saved)
            && |n'.calls| > 0 && n'.calls[|n'.calls| - 1] == (if e.result.Some? then Stopped(e.result.value) else StopRefused)
  {
    EpisodeCut.FlushKeeps(n.(stopTs := e.ts, recording := false), e.ts, e.answers);
    FlushKeepsSidecar(n.(stopTs := e.ts, recording := false), e.ts, e.answers);
  }

  lemma {:induction false} FlushKeepsSidecar(n: Node, stop: int, answers: seq<Answer>)
    ensures Flush(n, stop, answers).book.sidecar.Some? <==> n.book.sidecar.Some?
    decreases |n.pending|
  {
    if n.pending != [] && n.pending[0].stamp < stop {
      FlushKeepsSidecar(WriteFrame(n.(pending := n.pending[1..]), n.pending[0], NextAnswer(answers)), stop, Rest(answers));
    }
  }

  /** Whether the sidecar could be opened at the last start that began a recording. */
  function OpenedLast(limit: nat, events: seq<Event>): bool
    requires limit > 0
    decreases |events|
  {
    if events == [] then false
    else
      var before, e := events[..|events| - 1], events[|events| - 1];
      if e.StartMsg? && e.started && !NodeAfter(limit, before).recording then e.logOpen
      else OpenedLast(limit, before)
  }

  lemma {:induction false} SidecarIsOpen(limit: nat, events: seq<Event>)
    requires limit > 0
    ensures NodeAfter(limit, events).recording ==>
              (NodeAfter(limit, events).book.sidecar.Some? <==> OpenedLast(limit, events))
    decreases |events|
  {
    if events != [] {
      var before, e := events[..|events| - 1], events[|events| - 1];
      SidecarIsOpen(limit, before);
      SidecarStep(NodeAfter(limit, before), e);
    }
  }

  lemma SidecarStep(n: Node, e: Event)
    requires n.limit > 0
    ensures var n' := Step(n, e);
            && (e.StopMsg? ==> !n'.recording)
            && (!e.StopMsg? && !e.StartMsg? ==> n'.recording == n.recording)
            && (!e.StopMsg? && !(e.StartMsg? && e.started && !n.recording) ==>
                  (n'.book.sidecar.Some? <==> n.book.sidecar.Some?) && n'.recording == n.recording)
            && (e.StartMsg? && e.started && !n.recording ==> (n'.book.sidecar.Some? <==> e.logOpen))
  {
    if e.StopMsg? && n.recording {
      EpisodeCut.FlushKeeps(n.(stopTs := e.ts, recording := false), e.ts, e.answers);
    }
  }

  // -------- one session, from the node's queue to the encoder

  /** The last event is a stop that ended a recording: the recorder reported IDLE and the metadata
      file was written. */
  predicate EndsIdle(limit: nat, events: seq<Event>)
    requires limit > 0
  {
    && events != [] && NodeAfter(limit, events[..|events| - 1]).recording
    && var e := events[|events| - 1];
       e.StopMsg? && e.result == Some(IDLE) && e.saved
  }

  /** The recorder's side of the same calls. */
  ghost predicate RecorderRan(size: nat, policy: Policy, actions: seq<Action>, calls: seq<Call>) {
    && size > 0
    && (forall a :: a in actions && a.CallWrite? ==> a.valid)
    && Run(size, policy, actions).Some? && Run(size, policy, actions).value.calls == calls
  }

  lemma StopCloses(n: Node, e: Event, logged: bool)
    requires n.limit > 0 && n.recording && e.StopMsg? && e.result.Some? && e.saved
    requires BookMatches(n, logged) && (logged ==> Logs(e))
    ensures var n' := Step(n, e);
            && n'.calls != [] && n'.calls[|n'.calls| - 1] == Stopped(e.result.value)
            && n'.closed != []
            && var files, accepted := n'.closed[|n'.closed| - 1], AcceptedIn(n'.calls);
            && files.metadata == Some(Metadata(|accepted|, FirstStamp(accepted), LastStamp(accepted)))
            && (files.sidecar.Some? ==> IsSubsequence(files.sidecar.value, LinesOf(accepted)))
            && (files.sidecar.Some? && logged ==> files.sidecar.value == LinesOf(accepted))
  {
    hide AcceptedIn;
    var stopped := n.(stopTs := e.ts, recording := false);
    var flushed := Flush(stopped, e.ts, e.answers);
    FlushDescribes(stopped, e.ts, e.answers, logged);
    AcceptedAfter(flushed.calls, Stopped(e.result.value));
  }

  /** After a session that ended in IDLE, the metadata counts the frames the encoder received and
      those that were dropped; under the wait policy the sidecar and the metadata describe exactly
      the frames the encoder received, in the order in which it received them. */
  lemma FilesMatchEncoder(limit: nat, events: seq<Event>, size: nat, policy: Policy, actions: seq<Action>)
    requires limit > 0 && EndsIdle(limit, events)
    requires RecorderRan(size, policy, actions, NodeAfter(limit, events).calls)
    ensures var n, r := NodeAfter(limit, events), Run(size, policy, actions).value;
            && n.closed != []
            && var files := n.closed[|n.closed| - 1];
            && files.metadata.Some? && files.metadata.value.nframe == r.written + |r.lost|
            && (policy == Wait ==>
                  && files.metadata == Some(Metadata(r.written, FirstStamp(r.pipe), LastStamp(r.pipe)))
                  && (files.sidecar.Some? ==> IsSubsequence(files.sidecar.value, LinesOf(r.pipe)))
                  && (files.sidecar.Some? && AllLogged(events) ==> files.sidecar.value == LinesOf(r.pipe)))
  {
    hide BookMatches, Step, AllLogged, AcceptedIn, IsSubsequence;
    var before, e := events[..|events| - 1], events[|events| - 1];
    BookMatchesAfter(limit, before);
    Weaken(NodeAfter(limit, before), AllLogged(before), AllLogged(events)) by { LoggedPrefix(events); }
    assert AllLogged(events) ==> Logs(e) by { LoggedPrefix(events); }
    StopCloses(NodeAfter(limit, before), e, AllLogged(events));
    EncoderGotAccepted(size, policy, actions);
  }

  /** So with a sidecar that could be opened and written, under the wait policy: its lines are numbered
      from 0 and carry the stamps of the delivered frames, one each, in delivery order. */
  lemma SidecarListsDelivered(limit: nat, events: seq<Event>, size: nat, actions: seq<Action>, i: nat)
    requires limit > 0 && EndsIdle(limit, events) && OpenedLast(limit, events[..|events| - 1]) && AllLogged(events)
    requires RecorderRan(size, Wait, actions, NodeAfter(limit, events).calls)
    ensures var n, r := NodeAfter(limit, events), Run(size, Wait, actions).value;
            && n.closed != [] && n.closed[|n.closed| - 1].sidecar.Some?
            && var lines := n.closed[|n.closed| - 1].sidecar.value;
            && |lines| == r.written == |r.pipe|
            && (i < |lines| ==> lines[i] == Line(i, r.pipe[i].stamp))
  {
    hide Step, AllLogged, AcceptedIn, RefusedIn, LinesOf, IsSubsequence, OpenedLast;
    FilesMatchEncoder(limit, events, size, Wait, actions);
    SidecarIsOpen(limit, events[..|events| - 1]);
    StopClosesFiles(NodeAfter(limit, events[..|events| - 1]), events[|events| - 1]);
    StopReports(NodeAfter(limit, events[..|events| - 1]), events[|events| - 1]);
    EncoderGotAccepted(size, Wait, actions);
    LinesLength(Run(size, Wait, actions).value.pipe);
    if i < |Run(size, Wait, actions).value.pipe| {
      LinesAt(Run(size, Wait, actions).value.pipe, i);
    }
  }

  lemma {:induction false} LinesLength(frames: seq<Frame>)
    ensures |LinesOf(frames)| == |frames|
  {
    if frames != [] {
      LinesAt(frames, 0);
    }
  }

  lemma LoggedPrefix(events: seq<Event>)
    requires events != []
    ensures AllLogged(events) ==> AllLogged(events[..|events| - 1]) && Logs(events[|events| - 1])
  {
  }

  lemma EncoderGotAccepted(size: nat, policy: Policy, actions: seq<Action>)
    requires size > 0 && forall a :: a in actions && a.CallWrite? ==> a.valid
    requires Run(size, policy, actions).Some? && ReportedIdle(Run(size, policy, actions).value)
    ensures var r := Run(size, policy, actions).value;
            && |AcceptedIn(r.calls)| == r.written + |r.lost|
            && RefusedIn(r.calls) == 0
            && (policy == Wait ==> r.pipe == AcceptedIn(r.calls) && r.written == |r.pipe|)
  {
    hide AcceptedIn, RefusedIn;
    IdleMeansNoneRefused(size, policy, actions);
    IdleMeansDelivered(size, policy, actions);
    var r := Run(size, policy, actions).value;
    assert |multiset(AcceptedIn(r.calls))| == |multiset(r.pipe)| + |multiset(r.lost)|;
  }

  /** Without refusals the frames handed over are the frames accepted. */
  lemma {:induction false} HandedAreAccepted(calls: seq<Call>)
    ensures RefusedIn(calls) == 0 ==> EpisodeCut.HandedIn(calls) == AcceptedIn(calls)
    decreases |calls|
  {
    if calls != [] && !calls[|calls| - 1].Started? {
      HandedAreAccepted(calls[..|calls| - 1]);
    }
  }

  lemma {:induction false} ObservedNode(limit: nat, events: seq<Event>)
    requires limit > 0
    ensures var w := EpisodeCut.ObserveAll(limit, events); w.Some? ==> w.value.node == NodeAfter(limit, events)
    decreases |events|
  {
    hide Step;
    if events != [] {
      ObservedNode(limit, events[..|events| - 1]);
      var w := EpisodeCut.ObserveAll(limit, events[..|events| - 1]);
      if w.Some? {
        IgnoredChangeNothing(w.value.node, events[|events| - 1]);
      }
    }
  }

  /** A start during a recording, a stop outside one and an idle message change nothing. */
  lemma IgnoredChangeNothing(n: Node, e: Event)
    requires n.limit > 0
    ensures (if n.recording then e.StartMsg? else e.StopMsg?) || e.IdleMsg? ==> Step(n, e) == n
  {
  }

  /** End to end, under the wait policy: after a session that ended in IDLE the encoder has received
      exactly the images stamped within the episode, in arrival order, if and only if the pending
      queue neither missed one of them before the start message nor was overrun by images from the
      stop on before the stop message. */
  lemma EncoderReceivesEpisode(limit: nat, events: seq<Event>, size: nat, actions: seq<Action>)
    requires limit > 0 && EndsIdle(limit, events) && EpisodeCut.ObserveAll(limit, events).Some?
    requires RecorderRan(size, Wait, actions, NodeAfter(limit, events).calls)
    ensures var w, r := EpisodeCut.ObserveAll(limit, events).value, Run(size, Wait, actions).value;
            && w.episodes != []
            && var ep := w.episodes[|w.episodes| - 1];
            && ep.before <= ep.arrived
            && (r.pipe == EpisodeCut.Window(ep)
                <==> EpisodeCut.AllFrom(EpisodeCut.Missed(ep, limit), ep.stop)
                     && EpisodeCut.AllBefore(EpisodeCut.PushedOut(ep, limit), ep.stop))
  {
    hide AcceptedIn, RefusedIn, EpisodeCut.HandedIn, Step;
    var before, e := events[..|events| - 1], events[|events| - 1];
    ObservedNode(limit, before);
    ObservedNode(limit, events);
    var w := EpisodeCut.ObserveAll(limit, events).value;
    StopReports(NodeAfter(limit, before), e);
    EncoderGotAccepted(size, Wait, actions);
    HandedAreAccepted(w.node.calls);
    EpisodeCut.EpisodesCutExactly(limit, events, |w.episodes| - 1);
  }

  lemma StopReports(n: Node, e: Event)
    requires n.limit > 0 && n.recording && e.StopMsg? && e.result.Some?
    ensures var n' := Step(n, e); n'.calls != [] && n'.calls[|n'.calls| - 1] == Stopped(e.result.value)
  {
  }

  // -------- the node and the session protocol

  /** The session messages among the events, by the state they announce. */
  function Announced(events: seq<Event>): seq<SessionControl.SessionState>
    decreases |events|
  {
    if events == [] then []
    else
      var e := events[|events| - 1];
      Announced(events[..|events| - 1])
      + (match e
         case ImageMsg(_, _) => []
         case StartMsg(_, _, _) => [SessionControl.InEpisode]
         case StopMsg(_, _, _, _) => [SessionControl.InSession]
         case IdleMsg => [SessionControl.Idle])
  }

  function TraceStates(trace: seq<SessionControl.Message>): seq<SessionControl.SessionState> {
    seq(|trace|, i requires 0 <= i < |trace| => trace[i].state)
  }

  /** The node has received, in order and without loss, the first messages a session control node
      published. */
  ghost predicate Follows(events: seq<Event>, commands: seq<SessionControl.Command>, isObject: string -> bool) {
    Announced(events) <= TraceStates(SessionControl.Run(commands, isObject).trace)
  }

  /** Whatever commands are given and however images come in between, with every start successful
      the node is recording exactly while the last message it received was IN_EPISODE, although it
      ignores IDLE; and it never receives a start while it is recording. */
  lemma {:induction false} RecordingFollowsSession(
      limit: nat, events: seq<Event>, commands: seq<SessionControl.Command>, isObject: string -> bool)
    requires limit > 0 && Follows(events, commands, isObject)
    requires forall i :: 0 <= i < |events| && events[i].StartMsg? ==> events[i].started
    ensures var states := Announced(events);
            NodeAfter(limit, events).recording <==> states != [] && states[|states| - 1] == SessionControl.InEpisode
    ensures events != [] && events[|events| - 1].StartMsg? ==> !NodeAfter(limit, events[..|events| - 1]).recording
    decreases |events|
  {
    hide Step, SessionControl.Run;
    if events != [] {
      var before, e := events[..|events| - 1], events[|events| - 1];
      var states, trace := Announced(before), SessionControl.Run(commands, isObject).trace;
      assert states <= Announced(events);
      RecordingFollowsSession(limit, before, commands, isObject);
      RecordingStep(NodeAfter(limit, before), e);
      if !e.ImageMsg? && states != [] {
        assert Announced(events)[|states| - 1] == trace[|states| - 1].state;
        assert Announced(events)[|states|] == trace[|states|].state;
        SessionControl.EpisodeKeepsLabel(commands, isObject, |states|);
      }
    }
  }

  lemma RecordingStep(n: Node, e: Event)
    requires n.limit > 0
    ensures e.ImageMsg? || e.IdleMsg? ==> Step(n, e).recording == n.recording
    ensures e.StartMsg? ==> Step(n, e).recording == (n.recording || e.started)
    ensures e.StopMsg? ==> !Step(n, e).recording
  {
    if e.StopMsg? {
      EpisodeCut.FlushKeeps(n.(stopTs := e.ts, recording := false), e.ts, e.answers);
    }
  }
}
