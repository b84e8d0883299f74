/** The node that cuts episodes out of an image stream.  Images are held back in a bounded queue, so
    that a start or stop message can arrive after images that are stamped later than it; a frame
    reaches the recorder when it is pushed out of the queue or when a stop flushes it. */
module ImageRecorderNode {
  import opened Frames
  import opened RecorderState
  import opened FfmpegRecorder
  import opened Wrappers

  /** What the recorder and the file system answer to one frame. */
  datatype Answer = Answer(written: bool, logged: bool)

  datatype Line = Line(index: nat, stamp: int)

  datatype Metadata = Metadata(nframe: nat, first: Option<int>, last: Option<int>)

  /** The open sidecar's lines, if it could be opened, and the counters for the metadata. */
  datatype Book = Book(sidecar: Option<seq<Line>>, index: nat, first: Option<int>, last: Option<int>)

  /** What a finished session leaves on disk. */
  datatype Files = Files(sidecar: Option<seq<Line>>, metadata: Option<Metadata>)

  /** limit is the length of the pending queue, calls are the completed calls to the recorder. */
  datatype Node = Node(
    limit: nat, recording: bool, startTs: int, stopTs: int, pending: seq<Frame>,
    book: Book, calls: seq<Call>, closed: seq<Files>)

  datatype Event =
    | ImageMsg(frame: Frame, answer: Answer)
    | StartMsg(ts: int, started: bool, logOpen: bool)
    | StopMsg(ts: int, answers: seq<Answer>, result: Option<RecorderState>, saved: bool)
    | IdleMsg

  function Record(b: Book, stamp: int, logged: bool): Book {
    Book(if b.sidecar.Some? && logged then Some(b.sidecar.value + [Line(b.index, stamp)]) else b.sidecar,
         b.index + 1, if b.first == None then Some(stamp) else b.first, Some(stamp))
  }

  function WriteFrame(n: Node, frame: Frame, answer: Answer): Node {
    if answer.written then n.(calls := n.calls + [Wrote(frame)], book := Record(n.book, frame.stamp, answer.logged))
    else n.(calls := n.calls + [WriteRefused(frame)])
  }

  function ProcessVictim(n: Node, victim: Frame, answer: Answer): Node {
    if (if n.recording then victim.stamp >= n.startTs else victim.stamp < n.stopTs)
    then WriteFrame(n, victim, answer)
    else n
  }

  function OnImage(n: Node, frame: Frame, answer: Answer): Node
    requires n.limit > 0
  {
    if !n.recording && n.stopTs > 0 && frame.stamp < n.stopTs then n
    else if |n.pending| == n.limit then
      ProcessVictim(n.(pending := n.pending[1..] + [frame]), n.pending[0], answer)
    else n.(pending := n.pending + [frame])
  }

  function DropBefore(pending: seq<Frame>, start: int): seq<Frame> {
    if pending == [] || pending[0].stamp >= start then pending else DropBefore(pending[1..], start)
  }

  function HandleStart(n: Node, ts: int, started: bool, logOpen: bool): Node {
    if n.recording then n
    else
      var n := n.(startTs := ts, pending := DropBefore(n.pending, ts));
      if started
      then n.(recording := true, calls := n.calls + [Started],
              book := Book(if logOpen then Some([]) else None, 0, None, None))
      else n.(calls := n.calls + [StartRefused])
  }

  /** The first answer; a write without one succeeds. */
  function NextAnswer(answers: seq<Answer>): Answer {
    if answers == [] then Answer(true, true) else answers[0]
  }

  function Rest(answers: seq<Answer>): seq<Answer> {
    if answers == [] then [] else answers[1..]
  }

  /** Hands over the frames at the front of the queue that are stamped before stop. */
  function Flush(n: Node, stop: int, answers: seq<Answer>): Node
    decreases |n.pending|
  {
    if n.pending == [] || n.pending[0].stamp >= stop then n
    else Flush(WriteFrame(n.(pending := n.pending[1..]), n.pending[0], NextAnswer(answers)), stop, Rest(answers))
  }

  function Close(n: Node, result: Option<RecorderState>, saved: bool): Node {
    if result == None then
      n.(calls := n.calls + [StopRefused], closed := n.closed + [Files(n.book.sidecar, None)],
         book := n.book.(sidecar := None))
    else
      n.(calls := n.calls + [Stopped(result.value)],
         closed := n.closed + [Files(n.book.sidecar,
           if saved then Some(Metadata(n.book.index, n.book.first, n.book.last)) else None)],
         book := n.book.(sidecar := None))
  }

  function HandleStop(n: Node, ts: int, answers: seq<Answer>, result: Option<RecorderState>, saved: bool): Node {
    if !n.recording then n
    else Close(Flush(n.(stopTs := ts, recording := false), ts, answers), result, saved)
  }

  function Step(n: Node, e: Event): Node
    requires n.limit > 0
  {
    match e
    case ImageMsg(frame, answer) => OnImage(n, frame, answer)
    case StartMsg(ts, started, logOpen) => HandleStart(n, ts, started, logOpen)
    case StopMsg(ts, answers, result, saved) => HandleStop(n, ts, answers, result, saved)
    case IdleMsg => n
  }

  function NewNode(limit: nat): Node {
    Node(limit, false, 0, 0, [], Book(None, 0, None, None), [], [])
  }

  // -------- the node object

  class RdfpImageRecorderNode {
    const limit: nat
    var recording: bool
    var startTs: int
    var stopTs: int
    var pending: seq<Frame>
    var book: Book
    var calls: seq<Call>
    var closed: seq<Files>

    ghost function Model(): Node
      reads this
    {
      Node(limit, recording, startTs, stopTs, pending, book, calls, closed)
    }

    constructor (limit: nat)
      ensures Model() == NewNode(limit)
    {
      this.limit := limit;
      recording, startTs, stopTs, pending := false, 0, 0, [];
      book, calls, closed := Book(None, 0, None, None), [], [];
    }

    method Write(frame: Frame, answer: Answer) returns (ok: bool)
      modifies this`calls, this`book
      ensures Model() == WriteFrame(old(Model()), frame, answer)
      ensures ok == answer.written
    {
      if !answer.written {
        calls := calls + [WriteRefused(frame)];
        return false;
      }
      calls := calls + [Wrote(frame)];
      if book.sidecar.Some? && answer.logged {
        book := book.(sidecar := Some(book.sidecar.value + [Line(book.index, frame.stamp)]));
      }
      if book.first == None {
        book := book.(first := Some(frame.stamp));
      }
      book := book.(last := Some(frame.stamp), index := book.index + 1);
      return true;
    }

    method OnVictim(victim: Frame, answer: Answer)
      modifies this`calls, this`book
      ensures Model() == ProcessVictim(old(Model()), victim, answer)
    {
      if recording {
        if victim.stamp >= startTs {
          var ok := Write(victim, answer);
        }
      } else if victim.stamp < stopTs {
        var ok := Write(victim, answer);
      }
    }

    method Image(frame: Frame, answer: Answer)
      requires limit > 0
      modifies this
      ensures Model() == OnImage(old(Model()), frame, answer)
    {
      if !recording && stopTs > 0 && frame.stamp < stopTs {
        return;
      }
      var victim := None;
      if |pending| == limit {
        victim := Some(pending[0]);
        pending := pending[1..];
      }
      pending := pending + [frame];
      if victim.Some? {
        OnVictim(victim.value, answer);
      }
    }

    method Start(ts: int, started: bool, logOpen: bool)
      modifies this
      ensures Model() == HandleStart(old(Model()), ts, started, logOpen)
    {
      if recording {
        return;
      }
      startTs := ts;
      while pending != [] && pending[0].stamp < ts
        invariant DropBefore(pending, ts) == DropBefore(old(pending), ts)
        invariant Model() == old(Model()).(startTs := ts, pending := pending)
        decreases |pending|
      {
        pending := pending[1..];
      }
      if !started {
        calls := calls + [StartRefused];
        return;
      }
      calls := calls + [Started];
      recording := true;
      book := Book(if logOpen then Some([]) else None, 0, None, None);
    }

    method Stop(ts: int, answers: seq<Answer>, result: Option<RecorderState>, saved: bool)
      modifies this
      ensures Model() == HandleStop(old(Model()), ts, answers, result, saved)
    {
      if !recording {
        return;
      }
      stopTs := ts;
      recording := false;
      ghost var stopped := Model();
      var left := answers;
      while pending != [] && pending[0].stamp < ts
        invariant Flush(Model(), ts, left) == Flush(stopped, ts, answers)
        decreases |pending|
      {
        var frame := pending[0];
        pending := pending[1..];
        var ok := Write(frame, NextAnswer(left));
        left := Rest(left);
      }
      calls := calls + [if result == None then StopRefused else Stopped(result.value)];
      closed := closed + [Files(book.sidecar,
        if result != None && saved then Some(Metadata(book.index, book.first, book.last)) else None)];
      book := book.(sidecar := None);
    }
  }
}
