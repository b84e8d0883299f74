/** The foot pedal node: press, release, unplugging and the heartbeat timer, as functions that
    give the new state and the commands sent, and the node as a class. */
module ClutchPedal {

  datatype Mode = Hold | Toggle

  datatype Command = Engage | Disengage | ToggleClutch | Heartbeat

  datatype Pedal = Pedal(mode: Mode, connected: bool, pressed: bool)

  function OnPress(p: Pedal): (Pedal, seq<Command>) {
    if p.pressed then (p, [])
    else (p.(pressed := true), if p.mode == Hold then [Engage] else [ToggleClutch])
  }

  function OnRelease(p: Pedal): (Pedal, seq<Command>) {
    if !p.pressed then (p, [])
    else (p.(pressed := false), if p.mode == Hold then [Disengage] else [])
  }

  /** Losing the device releases a pressed pedal at once, in either mode. */
  function DropDevice(p: Pedal): (Pedal, seq<Command>) {
    (p.(connected := false, pressed := false), if p.pressed then [Disengage] else [])
  }

  /** The heartbeat timer exists in hold mode only. */
  function PublishHeartbeat(p: Pedal): seq<Command> {
    if p.mode == Hold && p.pressed then [Heartbeat] else []
  }

  class ClutchPedalNode {
    const mode: Mode
    var connected: bool
    var pressed: bool
    var sent: seq<Command>

    function Model(): Pedal
      reads this
    {
      Pedal(mode, connected, pressed)
    }

    constructor (m: Mode)
      ensures Model() == Pedal(m, false, false) && sent == []
    {
      mode := m;
      connected, pressed, sent := false, false, [];
    }

    method EnsureDevice(found: bool)
      modifies `connected
      ensures connected == (old(connected) || found)
    {
      if !connected && found {
        connected := true;
      }
    }

    method Press()
      modifies this
      ensures Model() == OnPress(old(Model())).0
      ensures sent == old(sent) + OnPress(old(Model())).1
    {
      if pressed {
        return;
      }
      pressed := true;
      if mode == Hold {
        sent := sent + [Engage];
      } else {
        sent := sent + [ToggleClutch];
      }
    }

    method Release()
      modifies this
      ensures Model() == OnRelease(old(Model())).0
      ensures sent == old(sent) + OnRelease(old(Model())).1
    {
      if !pressed {
        return;
      }
      pressed := false;
      if mode == Hold {
        sent := sent + [Disengage];
      }
    }

    method LoseDevice()
      modifies this
      ensures Model() == DropDevice(old(Model())).0
      ensures sent == old(sent) + DropDevice(old(Model())).1
    {
      connected := false;
      if pressed {
        pressed := false;
        sent := sent + [Disengage];
      }
    }

    method BeatTimer()
      modifies `sent
      ensures sent == old(sent) + PublishHeartbeat(Model())
    {
      if mode == Hold && pressed {
        sent := sent + [Heartbeat];
      }
    }
  }

  // -------- what a pedal sends over time

  datatype Event = Pressed | Released | Lost | Found

  function Step(p: Pedal, e: Event): (Pedal, seq<Command>) {
    match e
    case Pressed => OnPress(p)
    case Released => OnRelease(p)
    case Lost => DropDevice(p)
    case Found => (p.(connected := true), [])
  }

  /** The pedal and the requests it has sent, from a released, unconnected pedal on. */
  function Run(mode: Mode, events: seq<Event>): (Pedal, seq<Command>)
    decreases |events|
  {
    if events == [] then (Pedal(mode, false, false), [])
    else
      var r := Run(mode, events[..|events| - 1]);
      var s := Step(r.0, events[|events| - 1]);
      (s.0, r.1 + s.1)
  }

  /** In hold mode the requests alternate, an engage first, and the last one is an engage exactly while
      the pedal is pressed: every press is followed by one disengage, by release or by unplugging. */
  ghost predicate Alternates(p: Pedal, sent: seq<Command>) {
    && (forall i :: 0 <= i < |sent| ==> sent[i] == if i % 2 == 0 then Engage else Disengage)
    && (p.pressed <==> |sent| % 2 == 1)
  }

  lemma {:induction false} HoldModeAlternates(events: seq<Event>)
    ensures Run(Hold, events).0.mode == Hold && Alternates(Run(Hold, events).0, Run(Hold, events).1)
    decreases |events|
  {
    if events != [] {
      HoldModeAlternates(events[..|events| - 1]);
    }
  }

  /** The pedal is pressed exactly if the last of its events that says so was a press, in either mode. */
  lemma PressedFollows(mode: Mode, events: seq<Event>, e: Event)
    ensures Run(mode, events + [e]).0.pressed <==> (e == Pressed || (e == Found && Run(mode, events).0.pressed))
  {
    assert (events + [e])[..|events|] == events;
  }

  /** In toggle mode a press toggles unless the pedal is down already, a release sends nothing, and
      unplugging a pressed pedal still disengages. */
  lemma ToggleModeSends(events: seq<Event>, e: Event)
    ensures var before, after := Run(Toggle, events), Run(Toggle, events + [e]);
            after.1 == before.1 + (if e == Pressed && !before.0.pressed then [ToggleClutch]
                                   else if e == Lost && before.0.pressed then [Disengage]
                                   else [])
  {
    assert (events + [e])[..|events|] == events;
    ModeStays(Toggle, events);
  }

  /** The heartbeat timer sends one exactly between an engage request and its disengage request; in
      toggle mode it sends none. */
  lemma BeatsWhileEngaging(events: seq<Event>)
    ensures PublishHeartbeat(Run(Hold, events).0) == (if |Run(Hold, events).1| % 2 == 1 then [Heartbeat] else [])
    ensures PublishHeartbeat(Run(Toggle, events).0) == []
  {
    HoldModeAlternates(events);
    ModeStays(Toggle, events);
  }

  lemma {:induction false} ModeStays(mode: Mode, events: seq<Event>)
    ensures Run(mode, events).0.mode == mode
    decreases |events|
  {
    if events != [] {
      ModeStays(mode, events[..|events| - 1]);
    }
  }
}
