/** What an episode contains.  An observer of the image recorder node remembers every image that
    arrived and, at each stop, what the node handed to the recorder; over any number of episodes
    this is compared with the frames stamped within the episode. */
module EpisodeCut {
  import opened Frames
  import opened Sequences
  import opened FfmpegRecorder
  import opened ImageRecorderNode
  import opened Wrappers

  /** One finished episode: the stamps of its start and stop messages, the images that had arrived
      by each, and the frames for which the node called the recorder's write. */
  datatype Episode = Episode(start: int, stop: int, before: seq<Frame>, arrived: seq<Frame>, handed: seq<Frame>)

  /** floor is the latest start or stop stamp that was acted on. */
  datatype Watch = Watch(node: Node, floor: int, arrived: seq<Frame>, before: seq<Frame>, episodes: seq<Episode>)

  function HandedWith(handed: seq<Frame>, call: Call): seq<Frame> {
    if call.Started? then []
    else if call.Wrote? || call.WriteRefused? then handed + [call.frame]
    else handed
  }

  /** The frames of the write calls since the last successful start. */
  function HandedIn(calls: seq<Call>): seq<Frame>
    decreases |calls|
  {
    if calls == [] then [] else HandedWith(HandedIn(calls[..|calls| - 1]), calls[|calls| - 1])
  }

  function Max(a: int, b: int): int {
    if a < b then b else a
  }

  function Observe(w: Watch, e: Event): Watch
    requires w.node.limit > 0
  {
    var n := Step(w.node, e);
    match e
    case ImageMsg(frame, _) => w.(node := n, arrived := w.arrived + [frame])
    case StartMsg(ts, _, _) =>
      if w.node.recording then w
      else w.(node := n, floor := ts, before := w.arrived)
    case StopMsg(ts, _, _, _) =>
      if !w.node.recording then w
      else w.(node := n, floor := Max(n.startTs, ts),
              episodes := w.episodes + [Episode(n.startTs, ts, w.before, w.arrived, HandedIn(n.calls))])
    case IdleMsg => w
  }

  /** Images arrive in the order of their stamps, none stamped before the episode's start arrives
      after its start message, and a start is not stamped before the previous start or stop. */
  predicate InOrder(w: Watch, e: Event) {
    match e
    case ImageMsg(frame, _) =>
      && (w.arrived != [] ==> w.arrived[|w.arrived| - 1].stamp <= frame.stamp)
      && (w.node.recording ==> w.node.startTs <= frame.stamp)
    case StartMsg(ts, _, _) => w.node.recording || w.floor <= ts
    case _ => true
  }

  /** The observer after a sequence of events, None if one of them is out of order. */
  function ObserveAll(limit: nat, events: seq<Event>): (w: Option<Watch>)
    requires limit > 0
    ensures w.Some? ==> w.value.node.limit == limit
    decreases |events|
  {
    if events == [] then Some(Watch(NewNode(limit), 0, [], [], []))
    else
      var w, e := ObserveAll(limit, events[..|events| - 1]), events[|events| - 1];
      if w.Some? && InOrder(w.value, e) then StepKeepsLimit(w.value.node, e); Some(Observe(w.value, e)) else None
  }

  lemma StepKeepsLimit(n: Node, e: Event)
    requires n.limit > 0
    ensures Step(n, e).limit == n.limit
  {
    if e.StopMsg? && n.recording {
      FlushKeeps(n.(stopTs := e.ts, recording := false), e.ts, e.answers);
    }
  }

  // -------- the queue is the end of the arrivals

  ghost predicate Sorted(frames: seq<Frame>) {
    forall i, j :: 0 <= i < j < |frames| ==> frames[i].stamp <= frames[j].stamp
  }

  /** pending holds the last of the arrived frames. */
  ghost predicate Newest(pending: seq<Frame>, arrived: seq<Frame>) {
    |pending| <= |arrived| && forall i :: 0 <= i < |pending| ==> pending[i] == arrived[|arrived| - |pending| + i]
  }

  /** The first m of the arrived frames are stamped before t. */
  ghost predicate PrefixBefore(arrived: seq<Frame>, m: int, t: int) {
    forall i :: 0 <= i < m && i < |arrived| ==> arrived[i].stamp < t
  }

  ghost predicate AllFrom(frames: seq<Frame>, t: int) {
    forall i :: 0 <= i < |frames| ==> t <= frames[i].stamp
  }

  /** Between episodes: a frame from floor on is missing from the queue only if the queue is full. */
  ghost predicate Waiting(arrived: seq<Frame>, pending: seq<Frame>, limit: nat, stopTs: int, floor: int) {
    && Sorted(arrived) && Newest(pending, arrived) && |pending| <= limit
    && (|pending| < limit ==> PrefixBefore(arrived, |arrived| - |pending|, floor))
    && stopTs <= floor
    && (stopTs > 0 ==> AllFrom(pending, stopTs))
  }

  /** During an episode: the newest arrivals are those handed to the recorder since its start, then
      those pending, all stamped from start on.  The frames from start on that were gone before are
      missed only because the queue was full at the start. */
  ghost predicate Cutting(arrived: seq<Frame>, pending: seq<Frame>, handed: seq<Frame>, limit: nat, start: int, before: seq<Frame>) {
    && Sorted(arrived) && Newest(handed + pending, arrived) && |pending| <= limit
    && (handed != [] ==> |pending| == limit)
    && before <= arrived && AllFrom(handed + pending, start)
    && var missed := |arrived| - |handed| - |pending|;
    && missed <= |before| <= missed + limit
    && (|before| < missed + limit ==> PrefixBefore(arrived, missed, start))
  }

  ghost predicate Tracks(w: Watch) {
    var n := w.node;
    && 0 < n.limit
    && if n.recording then Cutting(w.arrived, n.pending, HandedIn(n.calls), n.limit, n.startTs, w.before)
       else Waiting(w.arrived, n.pending, n.limit, n.stopTs, w.floor)
  }

  lemma SortedArrival(arrived: seq<Frame>, frame: Frame)
    requires Sorted(arrived) && (arrived != [] ==> arrived[|arrived| - 1].stamp <= frame.stamp)
    ensures Sorted(arrived + [frame])
  {
  }

  lemma NewestArrival(tail: seq<Frame>, arrived: seq<Frame>, frame: Frame)
    requires Newest(tail, arrived)
    ensures Newest(tail + [frame], arrived + [frame])
  {
  }

  lemma PrefixArrival(arrived: seq<Frame>, frame: Frame, m: int, t: int)
    requires PrefixBefore(arrived, m, t) && m <= |arrived|
    ensures PrefixBefore(arrived + [frame], m, t)
  {
  }

  lemma AllFromArrival(frames: seq<Frame>, frame: Frame, t: int)
    requires AllFrom(frames, t)
    ensures t <= frame.stamp ==> AllFrom(frames + [frame], t)
    ensures AllFrom(if frames == [] then [] else frames[1..], t)
  {
  }

  /** A frame older than everything queued arrives late only when nothing is queued. */
  lemma LateMeansEmpty(arrived: seq<Frame>, pending: seq<Frame>, stopTs: int, frame: Frame)
    requires Newest(pending, arrived) && AllFrom(pending, stopTs) && frame.stamp < stopTs
    requires arrived != [] ==> arrived[|arrived| - 1].stamp <= frame.stamp
    ensures pending == []
  {
    assert pending != [] ==> pending[|pending| - 1] == arrived[|arrived| - 1];
  }

  lemma LatePrefix(arrived: seq<Frame>, frame: Frame, t: int)
    requires PrefixBefore(arrived, |arrived|, t) && frame.stamp < t
    ensures PrefixBefore(arrived + [frame], |arrived| + 1, t)
  {
  }

  lemma LateNewest(arrived: seq<Frame>)
    ensures Newest([], arrived)
  {
  }

  lemma WaitingArrival(arrived: seq<Frame>, pending: seq<Frame>, limit: nat, stopTs: int, floor: int, frame: Frame)
    requires Waiting(arrived, pending, limit, stopTs, floor) && 0 < limit
    requires arrived != [] ==> arrived[|arrived| - 1].stamp <= frame.stamp
    ensures stopTs > 0 && frame.stamp < stopTs ==> Waiting(arrived + [frame], pending, limit, stopTs, floor)
    ensures !(stopTs > 0 && frame.stamp < stopTs) ==>
              Waiting(arrived + [frame], (if |pending| == limit then pending[1..] else pending) + [frame], limit, stopTs, floor)
  {
    SortedArrival(arrived, frame);
    assert |pending| <= |arrived|;
    if stopTs > 0 {
      AllFromArrival(pending, frame, stopTs);
    }
    if stopTs > 0 && frame.stamp < stopTs {
      LateMeansEmpty(arrived, pending, stopTs, frame);
      hide Sorted, Newest, PrefixBefore, AllFrom;
      LatePrefix(arrived, frame, floor);
      LateNewest(arrived + [frame]);
    } else if |pending| == limit {
      hide Sorted, PrefixBefore, AllFrom;
      var rest := pending[1..];
      assert [pending[0]] + rest == pending;
      NewestTail(arrived, [pending[0]], rest);
      NewestArrival(rest, arrived, frame);
      if stopTs > 0 {
        AllFromArrival(rest, frame, stopTs);
      }
    } else {
      hide Sorted, Newest, PrefixBefore, AllFrom;
      NewestArrival(pending, arrived, frame);
      PrefixArrival(arrived, frame, |arrived| - |pending|, floor);
    }
  }

  lemma CuttingArrival(arrived: seq<Frame>, pending: seq<Frame>, handed: seq<Frame>, limit: nat, start: int, before: seq<Frame>, frame: Frame)
    requires Cutting(arrived, pending, handed, limit, start, before) && 0 < limit
    requires arrived != [] ==> arrived[|arrived| - 1].stamp <= frame.stamp
    requires start <= frame.stamp
    ensures |pending| == limit ==>
              start <= pending[0].stamp && Cutting(arrived + [frame], pending[1..] + [frame], handed + [pending[0]], limit, start, before)
    ensures |pending| < limit ==> Cutting(arrived + [frame], pending + [frame], handed, limit, start, before)
  {
    var tail := handed + pending;
    var missed := |arrived| - |handed| - |pending|;
    assert |tail| <= |arrived|;
    SortedArrival(arrived, frame);
    NewestArrival(tail, arrived, frame);
    AllFromArrival(tail, frame, start);
    assert before <= arrived + [frame];
    if |before| < missed + limit {
      PrefixArrival(arrived, frame, missed, start);
    }
    assert pending != [] ==> tail[|handed|] == pending[0];
    assert pending != [] ==> start <= pending[0].stamp;
    hide Sorted, Newest, PrefixBefore, AllFrom;
    if |pending| == limit {
      MoveOver(handed, pending, frame);
    } else {
      Rejoin(handed, pending, [frame]);
    }
  }

  lemma MoveOver(handed: seq<Frame>, pending: seq<Frame>, frame: Frame)
    requires pending != []
    ensures (handed + [pending[0]]) + (pending[1..] + [frame]) == handed + pending + [frame]
  {
  }

  /** Dropping the frames before t from the front of the queue. */
  lemma LeadingDropped(arrived: seq<Frame>, pending: seq<Frame>, t: int, rest: seq<Frame>)
    requires Sorted(arrived) && Newest(pending, arrived)
    requires rest == pending[Leading(pending, t)..]
    ensures Newest(rest, arrived) && AllFrom(rest, t) && |rest| <= |pending|
    ensures |rest| == |pending| || PrefixBefore(arrived, |arrived| - |rest|, t)
  {
    hide Leading;
    var m, d := |arrived| - |pending|, Leading(pending, t);
    forall i | 0 <= i < |rest|
      ensures rest[i] == arrived[m + d + i] && t <= rest[i].stamp
    {
      assert rest[i] == pending[d + i];
      assert pending[d] == arrived[m + d];
    }
    if d > 0 {
      assert pending[d - 1] == arrived[m + d - 1];
    }
  }

  lemma NewestTail(arrived: seq<Frame>, handed: seq<Frame>, pending: seq<Frame>)
    requires Newest(handed + pending, arrived)
    ensures Newest(pending, arrived)
  {
    assert forall i :: 0 <= i < |pending| ==> (handed + pending)[|handed| + i] == pending[i];
  }

  /** A start that fails only raises the floor. */
  lemma WaitingStart(arrived: seq<Frame>, pending: seq<Frame>, limit: nat, stopTs: int, floor: int, start: int, rest: seq<Frame>)
    requires Waiting(arrived, pending, limit, stopTs, floor) && floor <= start
    requires rest == pending[Leading(pending, start)..]
    ensures Waiting(arrived, rest, limit, stopTs, start)
  {
    LeadingDropped(arrived, pending, start, rest);
    hide Sorted, Newest, Leading;
  }

  /** A start that succeeds begins an episode. */
  lemma CuttingStart(arrived: seq<Frame>, rest: seq<Frame>, limit: nat, stopTs: int, start: int)
    requires Waiting(arrived, rest, limit, stopTs, start) && AllFrom(rest, start)
    ensures Cutting(arrived, rest, [], limit, start, arrived)
  {
    hide Sorted, AllFrom, PrefixBefore;
    assert [] + rest == rest;
  }

  lemma CuttingStop(arrived: seq<Frame>, pending: seq<Frame>, handed: seq<Frame>, limit: nat, start: int, before: seq<Frame>, stop: int, rest: seq<Frame>)
    requires Cutting(arrived, pending, handed, limit, start, before)
    requires rest == pending[Leading(pending, stop)..]
    ensures Waiting(arrived, rest, limit, stop, Max(start, stop))
  {
    NewestTail(arrived, handed, pending);
    LeadingDropped(arrived, pending, stop, rest);
    hide Sorted, Newest;
  }

  // -------- the invariant of every run

  lemma HandedAfter(calls: seq<Call>, call: Call)
    ensures HandedIn(calls + [call]) == HandedWith(HandedIn(calls), call)
  {
    assert (calls + [call])[..|calls|] == calls;
  }

  lemma WriteHands(n: Node, frame: Frame, answer: Answer)
    ensures var n' := WriteFrame(n, frame, answer);
            && n' == n.(book := n'.book, calls := n'.calls)
            && HandedIn(n'.calls) == HandedIn(n.calls) + [frame]
  {
    HandedAfter(n.calls, Wrote(frame));
    HandedAfter(n.calls, WriteRefused(frame));
  }

  /** How many frames at the front are stamped before t. */
  function Leading(pending: seq<Frame>, t: int): (k: nat)
    ensures k <= |pending|
    ensures forall i :: 0 <= i < k ==> pending[i].stamp < t
    ensures k < |pending| ==> t <= pending[k].stamp
  {
    if pending == [] || pending[0].stamp >= t then 0 else 1 + Leading(pending[1..], t)
  }

  /** A flush hands over the front of the queue and leaves the rest. */
  lemma {:induction false} FlushHands(n: Node, stop: int, answers: seq<Answer>)
    ensures var n', k := Flush(n, stop, answers), Leading(n.pending, stop);
            && n'.pending == n.pending[k..]
            && HandedIn(n'.calls) == HandedIn(n.calls) + n.pending[..k]
    decreases |n.pending|
  {
    hide HandedIn, WriteFrame;
    if n.pending != [] && n.pending[0].stamp < stop {
      var front, tail := n.pending[0], n.pending[1..];
      var n0 := n.(pending := tail);
      var n1 := WriteFrame(n0, front, NextAnswer(answers));
      WriteHands(n0, front, NextAnswer(answers));
      FlushHands(n1, stop, Rest(answers));
      var k := Leading(tail, stop);
      assert n.pending[..k + 1] == [front] + tail[..k];
      Rejoin(HandedIn(n.calls), [front], tail[..k]);
    }
  }

  lemma Rejoin<T>(a: seq<T>, b: seq<T>, c: seq<T>)
    ensures (a + b) + c == a + (b + c)
  {
  }

  lemma {:induction false} FlushKeeps(n: Node, stop: int, answers: seq<Answer>)
    ensures var n' := Flush(n, stop, answers);
            n' == n.(pending := n'.pending, book := n'.book, calls := n'.calls)
    decreases |n.pending|
  {
    if n.pending != [] && n.pending[0].stamp < stop {
      FlushKeeps(WriteFrame(n.(pending := n.pending[1..]), n.pending[0], NextAnswer(answers)), stop, Rest(answers));
    }
  }

  lemma {:induction false} DropBeforeKeeps(pending: seq<Frame>, start: int)
    ensures DropBefore(pending, start) == pending[Leading(pending, start)..]
  {
    if pending != [] && pending[0].stamp < start {
      DropBeforeKeeps(pending[1..], start);
    }
  }

  lemma ImageTracks(w: Watch, frame: Frame, answer: Answer)
    requires Tracks(w) && InOrder(w, ImageMsg(frame, answer))
    ensures Tracks(Observe(w, ImageMsg(frame, answer)))
  {
    hide HandedIn, WriteFrame, Cutting, Waiting;
    var n := w.node;
    var front := if |n.pending| == n.limit then n.(pending := n.pending[1..] + [frame]) else n;
    if n.recording {
      LimitHolds(w);
      CuttingArrival(w.arrived, n.pending, HandedIn(n.calls), n.limit, n.startTs, w.before, frame);
    } else {
      LimitHolds(w);
      WaitingArrival(w.arrived, n.pending, n.limit, n.stopTs, w.floor, frame);
    }
    if |n.pending| == n.limit {
      WriteHands(front, n.pending[0], answer);
    }
  }

  lemma LimitHolds(w: Watch)
    requires Tracks(w)
    ensures |w.node.pending| <= w.node.limit && 0 < w.node.limit
  {
  }

  lemma LeadingFrom(w: Watch, ts: int)
    requires Tracks(w) && !w.node.recording
    ensures AllFrom(w.node.pending[Leading(w.node.pending, ts)..], ts)
  {
    LeadingDropped(w.arrived, w.node.pending, ts, w.node.pending[Leading(w.node.pending, ts)..]);
  }

  lemma StartTracks(w: Watch, ts: int, started: bool, logOpen: bool)
    requires Tracks(w) && !w.node.recording && InOrder(w, StartMsg(ts, started, logOpen))
    ensures Tracks(Observe(w, StartMsg(ts, started, logOpen)))
  {
    hide HandedIn, Cutting, Waiting;
    var n := w.node;
    DropBeforeKeeps(n.pending, ts);
    HandedAfter(n.calls, Started);
    var rest := DropBefore(n.pending, ts);
    WaitingStart(w.arrived, n.pending, n.limit, n.stopTs, w.floor, ts, rest);
    assert AllFrom(rest, ts) by { LeadingFrom(w, ts); }
    CuttingStart(w.arrived, rest, n.limit, n.stopTs, ts);
  }

  lemma StopTracks(w: Watch, e: Event)
    requires Tracks(w) && w.node.recording && e.StopMsg?
    ensures Tracks(Observe(w, e))
  {
    hide HandedIn, Cutting, Waiting, Flush;
    var n := w.node;
    var flushed := n.(stopTs := e.ts, recording := false);
    FlushKeeps(flushed, e.ts, e.answers);
    FlushHands(flushed, e.ts, e.answers);
    CuttingStop(w.arrived, n.pending, HandedIn(n.calls), n.limit, n.startTs, w.before, e.ts, Flush(flushed, e.ts, e.answers).pending);
  }

  lemma TracksStep(w: Watch, e: Event)
    requires Tracks(w) && InOrder(w, e)
    ensures Tracks(Observe(w, e))
  {
    hide Tracks;
    match e
    case ImageMsg(frame, answer) => ImageTracks(w, frame, answer);
    case StartMsg(ts, started, logOpen) =>
      if !w.node.recording { StartTracks(w, ts, started, logOpen); }
    case StopMsg(_, _, _, _) =>
      if w.node.recording { StopTracks(w, e); }
    case IdleMsg =>
  }

  lemma {:induction false} TracksAll(limit: nat, events: seq<Event>)
    requires limit > 0
    ensures var w := ObserveAll(limit, events); w.Some? ==> Tracks(w.value)
    decreases |events|
  {
    hide Tracks;
    if events == [] {
      NewTracks(limit);
    } else {
      var w, e := ObserveAll(limit, events[..|events| - 1]), events[|events| - 1];
      TracksAll(limit, events[..|events| - 1]);
      if w.Some? && InOrder(w.value, e) {
        TracksStep(w.value, e);
      }
    }
  }

  lemma NewTracks(limit: nat)
    requires limit > 0
    ensures Tracks(Watch(NewNode(limit), 0, [], [], []))
  {
  }

  /** Between episodes no image is handed over, whatever is pushed out of the queue; stamps are times
      since the epoch. */
  lemma NothingHandedBetween(limit: nat, events: seq<Event>, frame: Frame, answer: Answer)
    requires limit > 0
    requires var w := ObserveAll(limit, events);
             w.Some? && !w.value.node.recording && AllFrom(w.value.arrived, 0)
    ensures var n := ObserveAll(limit, events).value.node;
            Step(n, ImageMsg(frame, answer)).calls == n.calls
  {
    TracksAll(limit, events);
    var w := ObserveAll(limit, events).value;
    if w.node.pending != [] {
      assert w.node.pending[0] == w.arrived[|w.arrived| - |w.node.pending|];
    }
  }

  // -------- the frames of an episode

  function StampedFrom(start: int): Frame -> bool {
    (f: Frame) => start <= f.stamp
  }

  function StampedWithin(start: int, stop: int): Frame -> bool {
    (f: Frame) => start <= f.stamp < stop
  }

  /** The arrivals an episode is meant to consist of, in arrival order. */
  function Window(ep: Episode): seq<Frame> {
    Filter(ep.arrived, StampedWithin(ep.start, ep.stop))
  }

  /** All but the last k. */
  function Early<T>(s: seq<T>, k: nat): seq<T> {
    if |s| <= k then [] else s[..|s| - k]
  }

  function Late<T>(s: seq<T>, k: nat): seq<T> {
    if |s| <= k then s else s[|s| - k..]
  }

  /** The frames from the episode's start on that had arrived before its start message and that a
      queue of the given length no longer held. */
  function Missed(ep: Episode, limit: nat): seq<Frame> {
    Early(Filter(ep.before, StampedFrom(ep.start)), limit)
  }

  /** Of the frames held at the start message and the arrivals since, those that a queue of the
      given length no longer held at the stop message. */
  function PushedOut(ep: Episode, limit: nat): seq<Frame>
    requires ep.before <= ep.arrived
  {
    Early(Late(Filter(ep.before, StampedFrom(ep.start)), limit) + ep.arrived[|ep.before|..], limit)
  }

  ghost predicate AllBefore(frames: seq<Frame>, t: int) {
    forall i :: 0 <= i < |frames| ==> frames[i].stamp < t
  }

  lemma SplitParts(arrived: seq<Frame>, pending: seq<Frame>, handed: seq<Frame>, limit: nat, start: int, before: seq<Frame>)
    requires Cutting(arrived, pending, handed, limit, start, before)
    ensures var missed := |arrived| - |handed| - |pending|;
            && 0 <= missed <= |before| <= |arrived|
            && arrived == arrived[..missed] + (handed + pending)
            && before == arrived[..missed] + before[missed..]
            && AllFrom(before[missed..], start)
  {
    hide Sorted, PrefixBefore;
    var missed := |arrived| - |handed| - |pending|;
    var late := before[missed..];
    forall i | 0 <= i < |late|
      ensures start <= late[i].stamp
    {
      assert late[i] == before[missed + i] == arrived[missed + i] == (handed + pending)[i];
    }
  }

  lemma EarlyLate<T>(front: seq<T>, back: seq<T>, k: nat)
    requires |back| <= k && (front == [] || |back| == k)
    ensures Early(front + back, k) == front && Late(front + back, k) == back
  {
  }

  /** Which part of the history each part of the arrivals is. */
  lemma LocateParts(arrived: seq<Frame>, pending: seq<Frame>, handed: seq<Frame>, limit: nat, start: int, before: seq<Frame>)
    requires Cutting(arrived, pending, handed, limit, start, before)
    ensures var missed := |arrived| - |handed| - |pending|;
            && 0 <= missed <= |before|
            && Early(Filter(before, StampedFrom(start)), limit) == Filter(arrived[..missed], StampedFrom(start))
            && Late(Filter(before, StampedFrom(start)), limit) == before[missed..]
  {
    SplitParts(arrived, pending, handed, limit, start, before);
    hide Sorted, Newest, Early, Late;
    var missed := |arrived| - |handed| - |pending|;
    var front, late := arrived[..missed], before[missed..];
    FilterConcat(front, late, StampedFrom(start));
    FilterAll(late, StampedFrom(start));
    if |late| < limit {
      FilterNone(front, StampedFrom(start));
    }
    EarlyLate(Filter(front, StampedFrom(start)), late, limit);
  }

  lemma TailAfter(front: seq<Frame>, late: seq<Frame>, tail: seq<Frame>, arrived: seq<Frame>)
    requires front + late <= arrived && arrived == front + tail
    ensures late + arrived[|front + late|..] == tail
  {
    assert arrived == (front + late) + arrived[|front + late|..];
    assert arrived == front + (late + arrived[|front + late|..]);
    assert arrived[|front|..] == tail;
  }

  /** What was pushed out during the episode is what was handed over before the stop. */
  lemma PushedOutIsHanded(ep: Episode, pending: seq<Frame>, handed: seq<Frame>, limit: nat)
    requires Cutting(ep.arrived, pending, handed, limit, ep.start, ep.before)
    ensures ep.before <= ep.arrived && PushedOut(ep, limit) == handed
  {
    LocateParts(ep.arrived, pending, handed, limit, ep.start, ep.before);
    SplitParts(ep.arrived, pending, handed, limit, ep.start, ep.before);
    var missed := |ep.arrived| - |handed| - |pending|;
    assert |pending| <= limit && (handed == [] || |pending| == limit) && ep.before <= ep.arrived;
    hide Cutting, Early, Late, Filter;
    TailAfter(ep.arrived[..missed], ep.before[missed..], handed + pending, ep.arrived);
    EarlyLate(handed, pending, limit);
  }

  lemma PendingSorted(arrived: seq<Frame>, pending: seq<Frame>, handed: seq<Frame>, limit: nat, start: int, before: seq<Frame>)
    requires Cutting(arrived, pending, handed, limit, start, before)
    ensures AllFrom(pending, start) && AllFrom(handed, start)
    ensures forall i, j :: 0 <= i < j < |pending| ==> pending[i].stamp <= pending[j].stamp
    ensures forall i :: 0 <= i < |handed| ==> handed[i].stamp <= handed[|handed| - 1].stamp
    ensures forall i :: 0 <= i < |pending| && handed != [] ==> handed[|handed| - 1].stamp <= pending[i].stamp
  {
    hide PrefixBefore;
    var m := |arrived| - |pending|;
    assert forall i :: 0 <= i < |pending| ==> pending[i] == (handed + pending)[|handed| + i] == arrived[m + i];
    assert forall i :: 0 <= i < |handed| ==> handed[i] == (handed + pending)[i] == arrived[m - |handed| + i];
  }

  lemma FilterPending(pending: seq<Frame>, start: int, stop: int)
    requires AllFrom(pending, start) && Sorted(pending)
    ensures Filter(pending, StampedWithin(start, stop)) == pending[..Leading(pending, stop)]
  {
    var inside, d := StampedWithin(start, stop), Leading(pending, stop);
    assert pending == pending[..d] + pending[d..];
    FilterConcat(pending[..d], pending[d..], inside);
    FilterAll(pending[..d], inside);
    FilterNone(pending[d..], inside);
  }

  /** The window takes from the missed frames those before the stop, from the handed ones likewise,
      and the leading ones of the queue. */
  lemma WindowParts(ep: Episode, pending: seq<Frame>, handed: seq<Frame>, limit: nat)
    requires Cutting(ep.arrived, pending, handed, limit, ep.start, ep.before)
    ensures var inside, missed := StampedWithin(ep.start, ep.stop), |ep.arrived| - |handed| - |pending|;
            && 0 <= missed
            && Window(ep) == Filter(ep.arrived[..missed], inside)
                             + (Filter(handed, inside) + pending[..Leading(pending, ep.stop)])
  {
    SplitParts(ep.arrived, pending, handed, limit, ep.start, ep.before);
    PendingSorted(ep.arrived, pending, handed, limit, ep.start, ep.before);
    hide Cutting, Sorted, AllFrom, Filter, Leading;
    var inside := StampedWithin(ep.start, ep.stop);
    FilterConcat(ep.arrived[..|ep.arrived| - |handed| - |pending|], handed + pending, inside);
    FilterConcat(handed, pending, inside);
    FilterPending(pending, ep.start, ep.stop);
  }

  /** The missed frames that the window wants. */
  lemma MissedInWindow(front: seq<Frame>, start: int, stop: int)
    ensures Filter(front, StampedWithin(start, stop)) == []
            <==> AllFrom(Filter(front, StampedFrom(start)), stop)
  {
    var inside, from := StampedWithin(start, stop), StampedFrom(start);
    FilterMembers(front, inside);
    FilterMembers(front, from);
    if Filter(front, inside) != [] {
      var f := Filter(front, inside)[0];
      assert f in Filter(front, inside);
      assert f in Filter(front, from);
    }
    if !AllFrom(Filter(front, from), stop) {
      var i :| 0 <= i < |Filter(front, from)| && Filter(front, from)[i].stamp < stop;
      var f := Filter(front, from)[i];
      assert f in Filter(front, from);
      assert f in front && from(f) && inside(f);
      assert f in Filter(front, inside);
    }
  }

  lemma SamePrefix(front: seq<Frame>, rest: seq<Frame>)
    ensures rest == front + rest <==> front == []
  {
    if front == [] {
      assert front + rest == rest;
    } else {
      assert |front + rest| > |rest|;
    }
  }

  /** Comparing what an episode received with what it should have, part by part. */
  lemma CompareParts(front: seq<Frame>, handed: seq<Frame>, queue: seq<Frame>, start: int, stop: int)
    requires AllFrom(handed, start) && AllBefore(front, stop)
    requires forall i :: 0 <= i < |handed| ==> handed[i].stamp <= handed[|handed| - 1].stamp
    requires handed != [] && stop <= handed[|handed| - 1].stamp ==> queue == []
    ensures handed + queue == front + (Filter(handed, StampedWithin(start, stop)) + queue)
            <==> front == [] && AllBefore(handed, stop)
  {
    hide Filter;
    var inside := StampedWithin(start, stop);
    if AllBefore(handed, stop) {
      FilterAll(handed, inside);
      SamePrefix(front, handed + queue);
    } else {
      LastIsOutside(front, handed, Filter(handed, inside), stop) by { FilterMembers(handed, inside); }
      assert handed + queue == handed && Filter(handed, inside) + queue == Filter(handed, inside);
    }
  }

  lemma LastIsOutside(front: seq<Frame>, handed: seq<Frame>, chosen: seq<Frame>, stop: int)
    requires AllBefore(front, stop) && forall f :: f in chosen ==> f.stamp < stop
    requires handed != [] && stop <= handed[|handed| - 1].stamp
    ensures handed != front + chosen
  {
    assert forall i :: 0 <= i < |chosen| ==> chosen[i] in chosen;
    assert AllBefore(front + chosen, stop);
  }

  /** What an episode's frames amount to: received exactly if nothing was missed or overrun, which
      small delays ensure. */
  ghost predicate CutLaw(ep: Episode, limit: nat) {
    && ep.before <= ep.arrived
    && (ep.handed == Window(ep) <==> AllFrom(Missed(ep, limit), ep.stop) && AllBefore(PushedOut(ep, limit), ep.stop))
    && (|Filter(ep.before, StampedFrom(ep.start))| <= limit && |Filter(ep.arrived, StampedFrom(ep.stop))| <= limit
        ==> ep.handed == Window(ep))
  }

  /** What Cutting means for the episode a stop then finishes. */
  lemma CutExactly(ep: Episode, pending: seq<Frame>, handed: seq<Frame>, limit: nat)
    requires Cutting(ep.arrived, pending, handed, limit, ep.start, ep.before)
    requires ep.handed == handed + pending[..Leading(pending, ep.stop)]
    ensures CutLaw(ep, limit)
  {
    PushedOutIsHanded(ep, pending, handed, limit);
    LocateParts(ep.arrived, pending, handed, limit, ep.start, ep.before);
    WindowParts(ep, pending, handed, limit);
    PendingSorted(ep.arrived, pending, handed, limit, ep.start, ep.before);
    OverrunTakesMany(ep, pending, handed, limit);
    hide Cutting, PushedOut, Window, Filter, Leading, Sorted, Newest, PrefixBefore, Early, Late;
    var inside, front := StampedWithin(ep.start, ep.stop), ep.arrived[..|ep.arrived| - |handed| - |pending|];
    MissedInWindow(front, ep.start, ep.stop);
    FilterMembers(front, inside);
    assert forall i :: 0 <= i < |Filter(front, inside)| ==> Filter(front, inside)[i] in Filter(front, inside);
    CompareParts(Filter(front, inside), handed, pending[..Leading(pending, ep.stop)], ep.start, ep.stop);
  }

  /** If a frame from the stop on is handed over before the stop, more than a queue's length of them
      have arrived. */
  lemma OverrunTakesMany(ep: Episode, pending: seq<Frame>, handed: seq<Frame>, limit: nat)
    requires Cutting(ep.arrived, pending, handed, limit, ep.start, ep.before)
    ensures |Filter(ep.arrived, StampedFrom(ep.stop))| <= limit ==> AllBefore(handed, ep.stop)
  {
    SplitParts(ep.arrived, pending, handed, limit, ep.start, ep.before);
    PendingSorted(ep.arrived, pending, handed, limit, ep.start, ep.before);
    if !AllBefore(handed, ep.stop) {
      assert |pending| == limit;
      hide Cutting, Filter;
      var front, k, from := ep.arrived[..|ep.arrived| - |handed| - |pending|], |handed| - 1, StampedFrom(ep.stop);
      var tail := [handed[k]] + pending;
      assert handed == handed[..k] + [handed[k]];
      assert ep.arrived == (front + handed[..k]) + tail;
      FilterConcat(front + handed[..k], tail, from);
      FilterAll(tail, from);
    }
  }

  lemma StopCutsExactly(w: Watch, e: Event)
    requires Tracks(w) && w.node.recording && e.StopMsg?
    ensures |Observe(w, e).episodes| == |w.episodes| + 1
    ensures CutLaw(Observe(w, e).episodes[|w.episodes|], w.node.limit)
  {
    hide HandedIn, Cutting, CutLaw, Flush;
    var n := w.node;
    var stopped := n.(stopTs := e.ts, recording := false);
    FlushKeeps(stopped, e.ts, e.answers);
    FlushHands(stopped, e.ts, e.answers);
    var flushed := Flush(stopped, e.ts, e.answers);
    HandedAfter(flushed.calls, StopRefused);
    if e.result.Some? {
      HandedAfter(flushed.calls, Stopped(e.result.value));
    }
    CutExactly(Observe(w, e).episodes[|w.episodes|], n.pending, HandedIn(n.calls), n.limit);
  }

  lemma {:induction false} CutLawHolds(limit: nat, events: seq<Event>, i: nat)
    requires limit > 0
    requires var w := ObserveAll(limit, events); w.Some? && i < |w.value.episodes|
    ensures CutLaw(ObserveAll(limit, events).value.episodes[i], limit)
    decreases |events|
  {
    hide Tracks, CutLaw;
    var prefix, e := events[..|events| - 1], events[|events| - 1];
    var w := ObserveAll(limit, prefix).value;
    if i < |w.episodes| {
      CutLawHolds(limit, prefix, i);
    } else {
      TracksAll(limit, prefix);
      StopCutsExactly(w, e);
    }
  }

  /** The main theorem, over any number of episodes: an episode hands the recorder exactly the
      arrivals stamped within it, once each and in arrival order, if and only if no frame stamped
      before its stop was missed at its start, and no frame stamped from its stop on was pushed out
      before its stop message. */
  lemma EpisodesCutExactly(limit: nat, events: seq<Event>, i: nat)
    requires limit > 0
    requires var w := ObserveAll(limit, events); w.Some? && i < |w.value.episodes|
    ensures var ep := ObserveAll(limit, events).value.episodes[i];
            && ep.before <= ep.arrived
            && (ep.handed == Window(ep)
                <==> AllFrom(Missed(ep, limit), ep.stop) && AllBefore(PushedOut(ep, limit), ep.stop))
  {
    CutLawHolds(limit, events, i);
  }

  /** In particular it does when at most limit frames from the start on arrived before the start
      message and at most limit frames from the stop on before the stop message. */
  lemma SmallDelaysSuffice(limit: nat, events: seq<Event>, i: nat)
    requires limit > 0
    requires var w := ObserveAll(limit, events); w.Some? && i < |w.value.episodes|
    ensures var ep := ObserveAll(limit, events).value.episodes[i];
            && |Filter(ep.before, StampedFrom(ep.start))| <= limit
            && |Filter(ep.arrived, StampedFrom(ep.stop))| <= limit
            ==> ep.handed == Window(ep)
  {
    CutLawHolds(limit, events, i);
  }

  // -------- images out of order

  /** In whatever order images arrive: one that pushes another out of a full queue hands it over if and
      only if it is stamped from the episode's start on, or, between episodes, before the last stop. */
  lemma PushedOutHandedIff(n: Node, frame: Frame, answer: Answer)
    requires n.limit > 0 && |n.pending| == n.limit && (n.recording || n.stopTs <= 0 || frame.stamp >= n.stopTs)
    ensures var n', victim := OnImage(n, frame, answer), n.pending[0];
            && n'.pending == n.pending[1..] + [frame]
            && (n'.calls != n.calls <==> if n.recording then n.startTs <= victim.stamp else victim.stamp < n.stopTs)
            && (n'.calls != n.calls ==> n'.calls == n.calls + [if answer.written then Wrote(victim) else WriteRefused(victim)])
  {
    assert forall call: Call :: |n.calls + [call]| == |n.calls| + 1;
  }

  /** A queue with room hands nothing over. */
  lemma RoomHandsNothing(n: Node, frame: Frame, answer: Answer)
    requires n.limit > 0 && |n.pending| < n.limit
    ensures OnImage(n, frame, answer).calls == n.calls
  {
  }

  /** The stop does not look at the start: an image stamped before the start that arrives after the start
      message, and is still in the queue at the stop, is handed over as part of the episode. */
  lemma EarlyImageIsFlushed(f: Frame)
    requires f.stamp == 2
    ensures var yes := Answer(true, true);
            var n1 := Step(NewNode(1), StartMsg(3, true, true));
            var n2 := Step(n1, ImageMsg(f, yes));
            var n3 := Step(n2, StopMsg(9, [], Some(RecorderState.IDLE), true));
            && n1.recording && n1.startTs == 3
            && n3.calls == [Started, Wrote(f), Stopped(RecorderState.IDLE)]
  {
    var yes := Answer(true, true);
    var n1 := Step(NewNode(1), StartMsg(3, true, true));
    var n2 := Step(n1, ImageMsg(f, yes));
    assert n2.pending == [f];
    var stopped := n2.(stopTs := 9, recording := false);
    var n3 := WriteFrame(stopped.(pending := []), f, yes);
    assert Flush(stopped, 9, []) == n3;
  }

  // -------- the condition matters: a start message overtaken by two frames

  lemma ObserveNext(limit: nat, events: seq<Event>, e: Event)
    requires limit > 0 && ObserveAll(limit, events).Some? && InOrder(ObserveAll(limit, events).value, e)
    ensures ObserveAll(limit, events + [e]) == Some(Observe(ObserveAll(limit, events).value, e))
  {
    assert (events + [e])[..|events|] == events;
  }

  function OvertakenStart(f: Frame, g: Frame): seq<Event> {
    var yes := Answer(true, true);
    [] + [ImageMsg(f, yes)] + [ImageMsg(g, yes)] + [StartMsg(3, true, true)] + [StopMsg(9, [], Some(RecorderState.IDLE), true)]
  }

  /** With a queue of one frame the first of them is lost, although it is stamped in the episode. */
  lemma OvertakenStartLosesFrame(f: Frame, g: Frame)
    requires f.stamp == 5 && g.stamp == 6
    ensures var w := ObserveAll(1, OvertakenStart(f, g));
            && w.Some? && |w.value.episodes| == 1
            && Window(w.value.episodes[0]) == [f, g] && w.value.episodes[0].handed == [g]
  {
    hide HandedIn, Window, Filter;
    var yes := Answer(true, true);
    var e1, e2, e3, e4 := ImageMsg(f, yes), ImageMsg(g, yes), StartMsg(3, true, true), StopMsg(9, [], Some(RecorderState.IDLE), true);
    ObserveNext(1, [], e1);
    ObserveNext(1, [] + [e1], e2);
    ObserveNext(1, [] + [e1] + [e2], e3);
    var w3 := ObserveAll(1, [] + [e1] + [e2] + [e3]).value;
    assert w3.node.recording && w3.node.pending == [g] && w3.arrived == [f, g];
    HandedAfter([], Started);
    assert w3.node.calls == [] + [Started];
    ObserveNext(1, [] + [e1] + [e2] + [e3], e4);
    LastFlush(w3.node.(stopTs := 9, recording := false), g);
    HandedAfter(w3.node.calls + [Wrote(g)], Stopped(RecorderState.IDLE));
    var ep := Observe(w3, e4).episodes[0];
    WindowAll(ep);
  }

  lemma WindowAll(ep: Episode)
    requires AllFrom(ep.arrived, ep.start) && AllBefore(ep.arrived, ep.stop)
    ensures Window(ep) == ep.arrived
  {
    FilterAll(ep.arrived, StampedWithin(ep.start, ep.stop));
  }

  lemma LastFlush(n: Node, g: Frame)
    requires n.pending == [g] && g.stamp < 9 && HandedIn(n.calls) == []
    ensures var n' := Flush(n, 9, []); n'.calls == n.calls + [Wrote(g)] && HandedIn(n'.calls) == [g]
  {
    HandedAfter(n.calls, Wrote(g));
  }
}
