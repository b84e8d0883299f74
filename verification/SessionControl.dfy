/** The session control node: a three-state protocol that publishes its state on a topic before
    each transition.  The message sequences it can publish are characterised exactly. */
module SessionControl {

  datatype SessionState = Idle | InSession | InEpisode

  datatype Message = Message(state: SessionState, taskLabel: string, outcome: string, metadata: string)

  datatype Command =
    | StartSession | StopSession | StartEpisode
    | StopEpisode(outcome: string, metadata: string)
    | SetTaskLabel(text: string)

  /** trace is everything published so far. */
  datatype Control = Control(state: SessionState, taskLabel: string, trace: seq<Message>)

  const VALID_OUTCOMES: set<string> := {"", "success", "failure"}

  const INITIAL: Control := Control(Idle, "", [Message(Idle, "", "", "")])

  predicate AcceptsClose(outcome: string, metadata: string, isObject: string -> bool) {
    outcome in VALID_OUTCOMES && (metadata == "" || isObject(metadata))
  }

  /** What a command publishes when the state accepts it, nothing when it is rejected. */
  function Publishes(c: Control, command: Command, isObject: string -> bool): seq<Message> {
    match command
    case StartSession => if c.state == Idle then [Message(InSession, c.taskLabel, "", "")] else []
    case StopSession =>
      (match c.state
       case Idle => []
       case InSession => [Message(Idle, c.taskLabel, "", "")]
       case InEpisode => [Message(InSession, c.taskLabel, "", ""), Message(Idle, c.taskLabel, "", "")])
    case StartEpisode => if c.state == InSession then [Message(InEpisode, c.taskLabel, "", "")] else []
    case StopEpisode(outcome, metadata) =>
      if c.state == InEpisode && AcceptsClose(outcome, metadata, isObject)
      then [Message(InSession, c.taskLabel, outcome, metadata)] else []
    case SetTaskLabel(text) => if c.state == InEpisode then [] else [Message(c.state, text, "", "")]
  }

  /** A rejected command changes nothing; an accepted one moves to what it published last. */
  function Handle(c: Control, command: Command, isObject: string -> bool): Control {
    var messages := Publishes(c, command, isObject);
    if messages == [] then c
    else
      var last := messages[|messages| - 1];
      Control(last.state, last.taskLabel, c.trace + messages)
  }

  function Run(commands: seq<Command>, isObject: string -> bool): Control
    decreases |commands|
  {
    if commands == [] then INITIAL
    else Handle(Run(commands[..|commands| - 1], isObject), commands[|commands| - 1], isObject)
  }

  /** The node's fields, one method per service; publishing comes before the state changes. */
  class SessionControlNode {
    const isObject: string -> bool
    var state: SessionState
    var taskLabel: string
    var published: seq<Message>

    ghost function Model(): Control
      reads this
    {
      Control(state, taskLabel, published)
    }

    constructor (isObject: string -> bool)
      ensures Model() == INITIAL && this.isObject == isObject
    {
      this.isObject, state, taskLabel := isObject, Idle, "";
      published := [Message(Idle, "", "", "")];
    }

    method Publish(next: SessionState, text: string, outcome: string, metadata: string)
      modifies this`published
      ensures published == old(published) + [Message(next, text, outcome, metadata)]
    {
      published := published + [Message(next, text, outcome, metadata)];
    }

    method HandleStartSession() returns (ok: bool)
      modifies this
      ensures Model() == Handle(old(Model()), StartSession, isObject)
      ensures ok <==> old(state) == Idle
    {
      if state != Idle {
        return false;
      }
      Publish(InSession, taskLabel, "", "");
      state := InSession;
      return true;
    }

    method HandleStopSession() returns (ok: bool)
      modifies this
      ensures Model() == Handle(old(Model()), StopSession, isObject)
      ensures ok <==> old(state) != Idle
    {
      if state == InSession {
        Publish(Idle, taskLabel, "", "");
        state := Idle;
        return true;
      }
      if state == InEpisode {
        Publish(InSession, taskLabel, "", "");
        Publish(Idle, taskLabel, "", "");
        assert published == old(published) + [Message(InSession, taskLabel, "", ""), Message(Idle, taskLabel, "", "")];
        state := Idle;
        return true;
      }
      return false;
    }

    method HandleStartEpisode() returns (ok: bool)
      modifies this
      ensures Model() == Handle(old(Model()), StartEpisode, isObject)
      ensures ok <==> old(state) == InSession
    {
      if state != InSession {
        return false;
      }
      Publish(InEpisode, taskLabel, "", "");
      state := InEpisode;
      return true;
    }

    method HandleStopEpisode(outcome: string, metadata: string) returns (ok: bool)
      modifies this
      ensures Model() == Handle(old(Model()), StopEpisode(outcome, metadata), isObject)
      ensures ok <==> old(state) == InEpisode && AcceptsClose(outcome, metadata, isObject)
    {
      if state != InEpisode {
        return false;
      }
      if outcome !in VALID_OUTCOMES {
        return false;
      }
      if metadata != "" && !isObject(metadata) {
        return false;
      }
      Publish(InSession, taskLabel, outcome, metadata);
      state := InSession;
      return true;
    }

    method HandleSetTaskLabel(text: string) returns (ok: bool)
      modifies this
      ensures Model() == Handle(old(Model()), SetTaskLabel(text), isObject)
      ensures ok <==> old(state) != InEpisode
    {
      if state == InEpisode {
        return false;
      }
      Publish(state, text, "", "");
      taskLabel := text;
      return true;
    }
  }

  // -------- the published sequences

  /** What may directly follow a message.  An episode is entered from and left to a session; the
      label changes only where the state does not, and not in an episode; outcome and metadata
      appear only on the message that closes an episode, and are valid there. */
  predicate MayFollow(a: Message, b: Message, isObject: string -> bool) {
    && (match (a.state, b.state)
        case (Idle, Idle) => true
        case (Idle, InSession) => a.taskLabel == b.taskLabel
        case (InSession, Idle) => a.taskLabel == b.taskLabel
        case (InSession, InSession) => true
        case (InSession, InEpisode) => a.taskLabel == b.taskLabel
        case (InEpisode, InSession) => a.taskLabel == b.taskLabel
        case (_, _) => false)
    && (a.state != InEpisode ==> b.outcome == "" && b.metadata == "")
    && AcceptsClose(b.outcome, b.metadata, isObject)
  }

  ghost predicate Legal(trace: seq<Message>, isObject: string -> bool) {
    && trace != [] && trace[0] == Message(Idle, "", "", "")
    && forall i :: 0 < i < |trace| ==> MayFollow(trace[i - 1], trace[i], isObject)
  }

  ghost predicate Consistent(c: Control, isObject: string -> bool) {
    && Legal(c.trace, isObject)
    && c.trace[|c.trace| - 1].state == c.state && c.trace[|c.trace| - 1].taskLabel == c.taskLabel
  }

  lemma LegalSnoc(trace: seq<Message>, m: Message, isObject: string -> bool)
    requires Legal(trace, isObject) && MayFollow(trace[|trace| - 1], m, isObject)
    ensures Legal(trace + [m], isObject)
  {
  }

  lemma HandleConsistent(c: Control, command: Command, isObject: string -> bool)
    requires Consistent(c, isObject)
    ensures Consistent(Handle(c, command, isObject), isObject)
  {
    var messages := Publishes(c, command, isObject);
    if messages != [] {
      assert MayFollow(c.trace[|c.trace| - 1], messages[0], isObject);
      LegalSnoc(c.trace, messages[0], isObject);
      if |messages| == 1 {
        assert c.trace + messages == c.trace + [messages[0]];
      } else {
        LegalSnoc(c.trace + [messages[0]], messages[1], isObject);
        assert c.trace + messages == c.trace + [messages[0]] + [messages[1]];
      }
    }
  }

  lemma {:induction false} RunConsistent(commands: seq<Command>, isObject: string -> bool)
    ensures Consistent(Run(commands, isObject), isObject)
    decreases |commands|
  {
    if commands != [] {
      RunConsistent(commands[..|commands| - 1], isObject);
      HandleConsistent(Run(commands[..|commands| - 1], isObject), commands[|commands| - 1], isObject);
    }
  }

  /** A command that publishes exactly m after a. */
  function CommandFor(a: Message, m: Message): Command {
    if a.state == m.state then SetTaskLabel(m.taskLabel)
    else if a.state == Idle then StartSession
    else if m.state == Idle then StopSession
    else if m.state == InEpisode then StartEpisode
    else StopEpisode(m.outcome, m.metadata)
  }

  lemma CommandPublishes(c: Control, m: Message, isObject: string -> bool)
    requires Consistent(c, isObject) && MayFollow(c.trace[|c.trace| - 1], m, isObject)
    ensures Handle(c, CommandFor(c.trace[|c.trace| - 1], m), isObject) == Control(m.state, m.taskLabel, c.trace + [m])
  {
  }

  lemma {:induction false} CommandsFor(trace: seq<Message>, isObject: string -> bool) returns (commands: seq<Command>)
    requires Legal(trace, isObject)
    ensures Run(commands, isObject).trace == trace
    decreases |trace|
  {
    if |trace| == 1 {
      commands := [];
    } else {
      var last := |trace| - 1;
      var before := CommandsFor(trace[..last], isObject);
      RunConsistent(before, isObject);
      assert MayFollow(trace[last - 1], trace[last], isObject);
      CommandPublishes(Run(before, isObject), trace[last], isObject);
      commands := before + [CommandFor(trace[last - 1], trace[last])];
      assert commands[..|commands| - 1] == before;
      assert trace == trace[..last] + [trace[last]];
    }
  }

  /** A message sequence can be published, by some sequence of service calls, exactly when it starts
      with the initial message and every message may follow the one before it. */
  lemma TracesAreExactlyLegal(trace: seq<Message>, isObject: string -> bool)
    ensures (exists commands :: Run(commands, isObject).trace == trace) <==> Legal(trace, isObject)
  {
    if Legal(trace, isObject) {
      var commands := CommandsFor(trace, isObject);
      assert Run(commands, isObject).trace == trace;
    }
    if exists commands :: Run(commands, isObject).trace == trace {
      var commands :| Run(commands, isObject).trace == trace;
      RunConsistent(commands, isObject);
    }
  }

  /** Through an episode the label stays what it was when the episode began, on the closing message
      too, and the episode is closed by an InSession message, never by Idle. */
  lemma EpisodeKeepsLabel(commands: seq<Command>, isObject: string -> bool, i: nat)
    requires 0 < i < |Run(commands, isObject).trace|
    ensures var t := Run(commands, isObject).trace;
            && (t[i].state == InEpisode ==> t[i - 1].state == InSession && t[i - 1].taskLabel == t[i].taskLabel)
            && (t[i - 1].state == InEpisode ==> t[i].state == InSession && t[i].taskLabel == t[i - 1].taskLabel)
            && (t[i].outcome != "" || t[i].metadata != "" ==> t[i - 1].state == InEpisode)
            && (t[i].taskLabel != t[i - 1].taskLabel ==> t[i].state == t[i - 1].state)
  {
    RunConsistent(commands, isObject);
    assert MayFollow(Run(commands, isObject).trace[i - 1], Run(commands, isObject).trace[i], isObject);
  }

  /** Which commands each state accepts. */
  predicate Accepts(c: Control, command: Command, isObject: string -> bool) {
    match command
    case StartSession => c.state == Idle
    case StopSession => c.state == InSession || c.state == InEpisode
    case StartEpisode => c.state == InSession
    case StopEpisode(outcome, metadata) =>
      && c.state == InEpisode
      && (outcome == "" || outcome == "success" || outcome == "failure")
      && (|metadata| == 0 || isObject(metadata))
    case SetTaskLabel(_) => c.state == Idle || c.state == InSession
  }

  /** A rejected command publishes and changes nothing; an accepted one publishes and ends in the
      command's state, with the label the node had or was given. */
  lemma AcceptedIff(c: Control, command: Command, isObject: string -> bool)
    ensures var next, accepted := Handle(c, command, isObject), Accepts(c, command, isObject);
            && (!accepted ==> next == c)
            && (accepted ==> |c.trace| < |next.trace| && c.trace == next.trace[..|c.trace|])
            && (accepted && command.StartSession? ==> next.state == InSession)
            && (accepted && command.StopSession? ==> next.state == Idle)
            && (accepted && command.StartEpisode? ==> next.state == InEpisode)
            && (accepted && command.StopEpisode? ==> next.state == InSession)
            && (accepted && command.SetTaskLabel? ==> next.state == c.state && next.taskLabel == command.text)
            && (!command.SetTaskLabel? ==> next.taskLabel == c.taskLabel)
  {
  }

  /** Stopping a session in an episode closes the episode first, without outcome, and then the session. */
  lemma StopSessionClosesEpisode(c: Control, isObject: string -> bool)
    requires c.state == InEpisode
    ensures Handle(c, StopSession, isObject)
         == Control(Idle, c.taskLabel, c.trace + [Message(InSession, c.taskLabel, "", ""), Message(Idle, c.taskLabel, "", "")])
  {
  }

  /** Stopping an episode publishes the outcome and metadata that were given. */
  lemma StopEpisodeReports(c: Control, outcome: string, metadata: string, isObject: string -> bool)
    requires c.state == InEpisode && (outcome == "" || outcome == "success" || outcome == "failure")
    requires |metadata| == 0 || isObject(metadata)
    ensures Handle(c, StopEpisode(outcome, metadata), isObject)
         == Control(InSession, c.taskLabel, c.trace + [Message(InSession, c.taskLabel, outcome, metadata)])
  {
  }
}
