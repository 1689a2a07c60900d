/**
 The state machine engine: a table of states with optional hooks and event handlers, a current state, and the
 dispatching of an event to the current state's handler followed by the jump it asks for.
 */
module StateMachineModule {

  import opened Base

  datatype Kind = ReadEvent | WriteEvent | BlockEvent

  /** Which callbacks a state defines. */
  datatype Definition = Definition(state: nat, arrival: bool, departure: bool, onRead: bool, onWrite: bool, onBlock: bool) {
    predicate Handles(kind: Kind) {
      match kind
      case ReadEvent => onRead
      case WriteEvent => onWrite
      case BlockEvent => onBlock
    }
  }

  /** The states of a proxied connection. */
  const HELLO_READ := 0
  const HELLO_WRITE := 1
  const USERPASS_READ := 2
  const USERPASS_WRITE := 3
  const REQUEST_READ := 4
  const REQUEST_RESOLV := 5
  const REQUEST_CONNECTING := 6
  const REQUEST_WRITE := 7
  const COPY := 8
  const DONE := 9
  const ERROR := 10

  const CLIENT_STATES: seq<Definition> := [
    Definition(HELLO_READ, true, true, true, false, false),
    Definition(HELLO_WRITE, true, true, false, true, false),
    Definition(USERPASS_READ, true, true, true, false, false),
    Definition(USERPASS_WRITE, true, true, false, true, false),
    Definition(REQUEST_READ, true, true, true, false, false),
    Definition(REQUEST_RESOLV, false, false, false, false, true),
    Definition(REQUEST_CONNECTING, true, true, false, true, false),
    Definition(REQUEST_WRITE, false, false, false, true, false),
    Definition(COPY, true, false, true, true, false),
    Definition(DONE, false, false, false, false, false),
    Definition(ERROR, false, false, false, false, false)
  ]

  /** The states of a management connection; the first five numbers mean the same as above. */
  const MNG_REQUEST_READ_INDEX := 4
  const MNG_REQUEST_READ := 5
  const MNG_REQUEST_WRITE := 6
  const MNG_DONE := 7
  const MNG_ERROR := 8

  const MNG_STATES: seq<Definition> := [
    Definition(0, true, true, true, false, false),
    Definition(1, true, true, false, true, false),
    Definition(2, true, true, true, false, false),
    Definition(3, true, true, false, true, false),
    Definition(4, true, true, true, false, false),
    Definition(5, true, true, true, false, false),
    Definition(6, true, true, false, true, false),
    Definition(7, false, false, false, false, false),
    Definition(8, false, false, false, false, false)
  ]

  /** The hooks that a state defines, in the order they run. */
  datatype Hook = Arrival(state: nat) | Departure(state: nat)

  /** The table is indexed by its own state numbers, and the initial state is not the last. */
  ghost predicate WellFormed(states: seq<Definition>, initial: nat) {
    && initial + 1 < |states|
    && forall i :: 0 <= i < |states| ==> states[i].state == i
  }

  lemma TablesAreWellFormed()
    ensures WellFormed(CLIENT_STATES, HELLO_READ) && WellFormed(MNG_STATES, 0)
  {
    assert |CLIENT_STATES| == 11 && |MNG_STATES| == 9;
  }

  /** Which event each state has a handler for. */
  lemma HandlersOf(st: nat)
    ensures st < |CLIENT_STATES| ==>
              && (CLIENT_STATES[st].Handles(ReadEvent) <==> st in {0, 2, 4, 8})
              && (CLIENT_STATES[st].Handles(WriteEvent) <==> st in {1, 3, 6, 7, 8})
              && (CLIENT_STATES[st].Handles(BlockEvent) <==> st == 5)
    ensures st < |MNG_STATES| ==>
              && (MNG_STATES[st].Handles(ReadEvent) <==> st in {0, 2, 4, 5})
              && (MNG_STATES[st].Handles(WriteEvent) <==> st in {1, 3, 6})
              && !MNG_STATES[st].Handles(BlockEvent)
    ensures |CLIENT_STATES| == 11 && |MNG_STATES| == 9
  {
  }

  function Enter(states: seq<Definition>, i: nat): seq<Hook>
    requires i < |states|
  {
    if states[i].arrival then [Arrival(i)] else []
  }

  function Leave(states: seq<Definition>, i: nat): seq<Hook>
    requires i < |states|
  {
    if states[i].departure then [Departure(i)] else []
  }

  /** A walk through the table that never stays. */
  ghost predicate IsPath(states: seq<Definition>, path: seq<nat>) {
    && (forall i :: 0 <= i < |path| ==> path[i] < |states|)
    && (forall i :: 0 <= i < |path| - 1 ==> path[i] != path[i + 1])
  }

  /** The hooks of a walk: every state is entered, and left before the next one is entered. */
  function Journal(states: seq<Definition>, path: seq<nat>): seq<Hook>
    requires forall i :: 0 <= i < |path| ==> path[i] < |states|
    decreases |path|
  {
    var n := |path|;
    if n == 0 then []
    else if n == 1 then Enter(states, path[0])
    else Journal(states, path[..n - 1]) + Leave(states, path[n - 2]) + Enter(states, path[n - 1])
  }

  lemma {:induction false} JournalEnd(states: seq<Definition>, path: seq<nat>)
    requires IsPath(states, path) && path != [] && states[path[|path| - 1]].arrival
    ensures var h := Journal(states, path); h != [] && h[|h| - 1] == Arrival(path[|path| - 1])
  {
  }

  /** What may precede and follow a hook in a journal. */
  ghost predicate Paired(states: seq<Definition>, h: seq<Hook>, i: nat)
    requires i < |h|
  {
    match h[i]
    case Arrival(s) => s < |states| && (i + 1 < |h| && states[s].departure ==> h[i + 1] == Departure(s))
    case Departure(s) => s < |states| && (states[s].arrival ==> i > 0 && h[i - 1] == Arrival(s))
  }

  /**
   Set-up and clean-up are paired: in every walk, the arrival hook of a state that also has a departure hook is
   followed by exactly that hook, and the departure hook comes right after its own arrival hook.
   */
  lemma {:induction false} HooksArePaired(states: seq<Definition>, path: seq<nat>)
    requires IsPath(states, path)
    ensures forall i :: 0 <= i < |Journal(states, path)| ==> Paired(states, Journal(states, path), i)
    decreases |path|
  {
    var n := |path|;
    if n > 1 {
      var front := path[..n - 1];
      var h := Journal(states, front);
      HooksArePaired(states, front);
      var left, entered := path[n - 2], path[n - 1];
      assert front[|front| - 1] == left;
      if states[left].arrival {
        JournalEnd(states, front);
      }
      LastArrival(states, front);
      var all := Journal(states, path);
      assert all == h + (Leave(states, left) + Enter(states, entered));
      forall i | 0 <= i < |all|
        ensures Paired(states, all, i)
      {
        if i < |h| {
          assert all[i] == h[i] && Paired(states, h, i);
        }
      }
    }
  }

  /** An arrival hook at the end of a journal, of a state that has a departure hook, is that of the current state. */
  lemma {:induction false} LastArrival(states: seq<Definition>, path: seq<nat>)
    requires IsPath(states, path)
    ensures var h := Journal(states, path);
            h != [] && h[|h| - 1].Arrival? ==>
              var s := h[|h| - 1].state; s < |states| && (states[s].departure ==> s == path[|path| - 1])
    decreases |path|
  {
    var n := |path|;
    if n > 1 {
      var front := path[..n - 1];
      LastArrival(states, front);
      var h := Journal(states, front);
      if states[path[n - 1]].arrival {
        JournalEnd(states, path);
      } else if states[path[n - 2]].departure {
        assert Journal(states, path) == h + [Departure(path[n - 2])];
      } else {
        assert Journal(states, path) == h;
      }
    }
  }

  lemma JournalSnoc(states: seq<Definition>, path: seq<nat>, next: nat)
    requires IsPath(states, path) && path != [] && path[|path| - 1] != next && next < |states|
    ensures IsPath(states, path + [next])
    ensures Journal(states, path + [next])
            == Journal(states, path) + Leave(states, path[|path| - 1]) + Enter(states, next)
  {
    assert (path + [next])[..|path|] == path;
  }

  class StateMachine {
    const states: seq<Definition>
    const initial: nat
    var current: Option<nat>
    ghost var path: seq<nat>
    ghost var hooks: seq<Hook>

    /** The hooks that have run are those of the walk that the machine has made. */
    ghost predicate Valid()
      reads this
    {
      && WellFormed(states, initial)
      && IsPath(states, path) && hooks == Journal(states, path)
      && current == if path == [] then None else Some(path[|path| - 1])
    }

    constructor (states: seq<Definition>, initial: nat)
      ensures this.states == states && this.initial == initial && current == None && path == []
      ensures WellFormed(states, initial) ==> Valid()
    {
      this.states, this.initial := states, initial;
      current, path, hooks := None, [], [];
    }

    /** `stm_init`: aborts when the table is not correlative or the initial state is the last one. */
    method Init() returns (aborted: bool)
      requires states != []
      ensures !aborted <==> WellFormed(states, initial)
    {
      aborted := false;
      var maxState := |states| - 1;
      for i := 0 to maxState + 1
        invariant !aborted <==> forall j :: 0 <= j < i ==> states[j].state == j
      {
        if i != states[i].state {
          aborted := true;
        }
      }
      if initial >= maxState {
        aborted := true;
      }
    }

    method HandleFirst()
      requires Valid()
      modifies this
      ensures Valid() && path == if old(current).None? then [initial] else old(path)
    {
      if current.None? {
        current := Some(initial);
        path := path + [initial];
        if states[initial].arrival {
          hooks := hooks + [Arrival(initial)];
        }
      }
    }

    method Jump(next: nat) returns (aborted: bool)
      requires Valid() && current.Some?
      modifies this
      ensures Valid() && (aborted <==> next >= |states|)
      ensures path == if aborted || old(current) == Some(next) then old(path) else old(path) + [next]
    {
      aborted := next >= |states|;
      if !aborted && current.value != next {
        if states[current.value].departure {
          hooks := hooks + [Departure(current.value)];
        }
        current := Some(next);
        JournalSnoc(states, path, next);
        path := path + [next];
        if states[next].arrival {
          hooks := hooks + [Arrival(next)];
        }
      }
    }

    /** `stm_handler_read`, `_write` and `_block`: `next` is what the state's handler returns. */
    method Handle(kind: Kind, next: nat) returns (aborted: bool)
      requires Valid()
      modifies this
      ensures Valid()
      ensures var at := if old(current).None? then initial else old(current).value;
              && (aborted <==> !states[at].Handles(kind) || next >= |states|)
              && (!aborted ==> current == Some(next))
      ensures old(path) <= path
    {
      HandleFirst();
      aborted := !states[current.value].Handles(kind);
      if !aborted {
        aborted := Jump(next);
      }
    }
  }
}
