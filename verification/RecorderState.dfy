/** The recorder's state machine: which transitions are allowed, and the object that checks them. */
module RecorderState {
  import opened Wrappers

  datatype RecorderState = IDLE | RECORDING | STOPPING | FAILED | SHUTDOWN

  function AllowedFrom(s: RecorderState): set<RecorderState> {
    match s
    case IDLE => {RECORDING, SHUTDOWN}
    case RECORDING => {STOPPING, FAILED, SHUTDOWN}
    case STOPPING => {IDLE, FAILED, SHUTDOWN}
    case FAILED => {RECORDING, SHUTDOWN}
    case SHUTDOWN => {}
  }

  /** A transition to the current state is a no-op and succeeds. */
  predicate Accepts(s: RecorderState, target: RecorderState) {
    target == s || target in AllowedFrom(s)
  }

  /** An optional filter on the state the transition may start from. */
  predicate AcceptsFrom(s: RecorderState, target: RecorderState, fromStates: Option<set<RecorderState>>) {
    (fromStates.Some? ==> s in fromStates.value) && Accepts(s, target)
  }

  /** From where each state can be entered: a recording from rest or after a failure, the stop of a
      recording, rest only from a stop, failure from a recording or its stop, shutdown from anywhere. */
  lemma EnteredFrom(s: RecorderState)
    ensures Accepts(s, RECORDING) <==> s in {IDLE, FAILED, RECORDING}
    ensures Accepts(s, STOPPING) <==> s in {RECORDING, STOPPING}
    ensures Accepts(s, IDLE) <==> s in {STOPPING, IDLE}
    ensures Accepts(s, FAILED) <==> s in {RECORDING, STOPPING, FAILED}
    ensures Accepts(s, SHUTDOWN)
  {
  }

  class RecorderStateMachine {
    var state: RecorderState

    constructor ()
      ensures state == IDLE
    {
      state := IDLE;
    }

    method Require(allowed: set<RecorderState>) returns (ok: bool)
      ensures ok <==> state in allowed
    {
      ok := state in allowed;
    }

    /** Leaves the state alone when it refuses. */
    method Transition(target: RecorderState) returns (ok: bool)
      modifies this
      ensures ok <==> Accepts(old(state), target)
      ensures state == if ok then target else old(state)
    {
      if target == state {
        return true;
      }
      if target !in AllowedFrom(state) {
        return false;
      }
      state := target;
      return true;
    }

    method TryTransition(target: RecorderState, fromStates: Option<set<RecorderState>>) returns (ok: bool)
      modifies this
      ensures ok <==> AcceptsFrom(old(state), target, fromStates)
      ensures state == if ok then target else old(state)
    {
      if fromStates.Some? && state !in fromStates.value {
        return false;
      }
      ok := Transition(target);
    }
  }

  // -------- runs of requests

  /** The states a machine goes through, refused requests leaving it where it is. */
  function StatesOf(s: RecorderState, requests: seq<RecorderState>): seq<RecorderState>
    decreases |requests|
  {
    if requests == [] then [s]
    else
      [s] + StatesOf(if Accepts(s, requests[0]) then requests[0] else s, requests[1..])
  }

  /** Whatever is requested: a recording comes back to IDLE only through STOPPING, and SHUTDOWN is
      never left. */
  lemma {:induction false} IdleOnlyThroughStopping(s: RecorderState, requests: seq<RecorderState>, j: nat)
    requires j < |StatesOf(s, requests)|
    ensures s == SHUTDOWN ==> StatesOf(s, requests)[j] == SHUTDOWN
    ensures s == RECORDING && StatesOf(s, requests)[j] == IDLE ==> STOPPING in StatesOf(s, requests)[..j]
    ensures s == FAILED && StatesOf(s, requests)[j] == IDLE ==> STOPPING in StatesOf(s, requests)[..j]
    decreases |requests|
  {
    if requests != [] && j > 0 {
      var states := StatesOf(s, requests);
      var next := if Accepts(s, requests[0]) then requests[0] else s;
      IdleOnlyThroughStopping(next, requests[1..], j - 1);
      assert states[..j] == [s] + StatesOf(next, requests[1..])[..j - 1];
      assert states[1] == next;
      if j > 1 {
        assert states[..j][1] == next;
      }
    }
  }
}
