/**
 What the proxy guarantees in every run: from start-up, through any sequence of events that the operating system
 may deliver.
 */
module ProxyTheorems {

  import opened Base
  import opened SelectorTable
  import opened StateMachineModule
  import opened UsersModule
  import opened ConnectionModule
  import opened ConnectionInvariantModule
  import opened WorldModule
  import opened WorldInvariantModule
  import Relay = RelayModule

  /** A state that some run reaches. */
  ghost predicate Reaches(w0: World, es: seq<Event>, w: World) {
    Initial(w0) && IsRun(w0, es) && Run(w0, es) == Continue(w)
  }

  /** No run aborts, calls a null handler, uses a released record or underflows a counter. */
  lemma NeverFaults(w0: World, es: seq<Event>)
    requires Initial(w0) && IsRun(w0, es)
    ensures Run(w0, es).Continue?
  {
    InitialInv(w0);
    RunOk(w0, es);
  }

  lemma ReachedInv(w0: World, es: seq<Event>, w: World)
    requires Reaches(w0, es, w)
    ensures Inv(w)
  {
    InitialInv(w0);
    RunOk(w0, es);
  }

  /** Event readiness: every descriptor the selector watches is in a state that handles what is watched. */
  lemma EveryArmedIsReady(w0: World, es: seq<Event>, w: World, fd: int)
    requires Reaches(w0, es, w) && fd in w.table
    ensures !InvalidFd(fd)
    ensures w.table[fd].handler == PassiveHandler ==> w.table[fd].interest == READ
    ensures w.table[fd].handler == SocksHandler ==>
              var id := w.table[fd].data;
              && id in w.conns && (fd == w.conns[id].clientFd || fd == w.conns[id].originFd)
              && Ready(StateOf(w.conns[id]), w.table[fd].interest)
  {
    ReachedInv(w0, es, w);
    assert SlotOk(w, fd);
    if w.table[fd].handler == SocksHandler {
      var id := w.table[fd].data;
      assert RecordOk(w, id);
      WiredIsReady(BundleOf(w, id));
    }
  }

  /** Every resolution in flight is that of a registered client that waits for it, and every such client has one. */
  lemma EveryJobIsWaitedFor(w0: World, es: seq<Event>, w: World, fd: int)
    requires Reaches(w0, es, w)
    ensures (w.resolving + multiset(w.jobs))[fd] == if Waiting(w, fd) then 1 else 0
    ensures fd in w.jobs || fd in w.resolving <==> Waiting(w, fd)
    ensures Waiting(w, fd) ==> w.table[fd].interest == NOOP
  {
    ReachedInv(w0, es, w);
    assert fd in w.jobs <==> fd in multiset(w.jobs);
    if Waiting(w, fd) {
      assert RecordOk(w, w.table[fd].data) && Ok(BundleOf(w, w.table[fd].data));
    }
  }

  // ----- References -----

  function SlotsOf(w: World, id: nat): set<int> {
    set fd | fd in w.table && w.table[fd].handler == SocksHandler && w.table[fd].data == id
  }

  lemma SlotsAreOwn(w: World, id: nat)
    requires Linked(w) && id in w.conns
    ensures var c := w.conns[id];
            SlotsOf(w, id) == {c.clientFd} + (if c.originFd in w.table then {c.originFd} else {})
  {
    var c := w.conns[id];
    assert RecordOk(w, id);
    forall fd | fd in SlotsOf(w, id)
      ensures fd == c.clientFd || fd == c.originFd
    {
      assert SlotOk(w, fd);
    }
  }

  lemma LinkedReferences(w: World, id: nat)
    requires Linked(w) && AllOk(w) && id in w.conns
    ensures w.conns[id].references == if w.conns[id].originFd in w.table then 2 else 1
    ensures w.conns[id].originFd != w.conns[id].clientFd
  {
    assert RecordOk(w, id);
    assert Sound(BundleOf(w, id));
  }

  /** The reference count of a live record is the number of its registrations. */
  lemma ReferencesCountSlots(w0: World, es: seq<Event>, w: World, id: nat)
    requires Reaches(w0, es, w) && id in w.conns
    ensures w.conns[id].references == |SlotsOf(w, id)|
  {
    ReachedInv(w0, es, w);
    SlotsAreOwn(w, id);
    LinkedReferences(w, id);
  }

  /** Released records are not referred to, and the pool's length stays within its own count and its limit. */
  lemma PoolIsSafe(w0: World, es: seq<Event>, w: World)
    requires Reaches(w0, es, w)
    ensures forall id: nat :: id in w.pool || id in w.freed ==> SlotsOf(w, id) == {} && id !in w.conns
    ensures forall id: nat :: !(id in w.pool && id in w.freed)
    ensures |w.pool| <= w.poolSize <= MAX_POOL
  {
    ReachedInv(w0, es, w);
    forall id: nat | id in w.pool || id in w.freed
      ensures SlotsOf(w, id) == {}
    {
      forall fd | fd in w.table
        ensures fd !in SlotsOf(w, id)
      {
        assert SlotOk(w, fd);
      }
    }
  }

  lemma CloseKeepsNext(w: World, fd: int)
    ensures CloseFd(w, fd).Continue? ==> CloseFd(w, fd).world.next == w.next && CloseFd(w, fd).world.counters == w.counters
  {
  }

  lemma FinishKeepsNext(w: World, id: nat)
    requires id in w.conns
    ensures Finish(w, id).Continue? ==> Finish(w, id).world.next == w.next && Finish(w, id).world.counters == w.counters
  {
    CloseKeepsNext(w, w.conns[id].clientFd);
    if CloseFd(w, w.conns[id].clientFd).Continue? {
      CloseKeepsNext(CloseFd(w, w.conns[id].clientFd).world, w.conns[id].originFd);
    }
    CloseKeepsNext(w, w.conns[id].originFd);
  }

  lemma HandleConnKeepsNext(w: World, id: nat, side: Side, kind: Kind, env: Env, resolved: bool)
    requires id in w.conns && w.conns[id].clientFd in w.table
    ensures var o := HandleConn(w, id, side, kind, env, resolved);
            o.Continue? ==>
              && o.world.next == w.next
              && var b := HandleFirst(BundleOf(w, id), w.authMethod);
                 Reactable(b, side, kind, env)
                 && o.world.counters == Count(w.counters, b, kind, env, React(b, side, kind, env, w.users, resolved).1)
  {
    var b := HandleFirst(BundleOf(w, id), w.authMethod);
    if Reactable(b, side, kind, env) {
      var (b1, next) := React(b, side, kind, env, w.users, resolved);
      if b1.conn.wb.Valid() && (next == COPY && b1.conn.current != Some(COPY) ==> b1.origin.Some?) {
        var w' := Jumped(w, id, b, Arrive(b1, next, env), kind, env, next);
        FinishKeepsNext(w', id);
      }
    }
  }

  /** A record that goes out of use has lost its last registration, and is from then on pooled or freed, not both. */
  lemma ReleasedOnce(w0: World, es: seq<Event>, w: World, e: Event, id: nat)
    requires Reaches(w0, es, w) && CanHappen(w, e)
    requires id in w.conns && Step(w, e).Continue? && id !in Step(w, e).world.conns
    ensures var w' := Step(w, e).world;
            && SlotsOf(w, id) != {} && SlotsOf(w', id) == {}
            && (id in w'.pool <==> id !in w'.freed)
            && id !in w.pool && id !in w.freed
  {
    ReachedInv(w0, es, w);
    StepOk(w, e);
    StepKeepsNext(w, e);
    var w' := Step(w, e).world;
    assert RecordOk(w, id);
    assert w.conns[id].clientFd in SlotsOf(w, id);
    forall fd | fd in w'.table
      ensures fd !in SlotsOf(w', id)
    {
      assert SlotOk(w', fd);
    }
  }

  lemma StepKeepsNext(w: World, e: Event)
    ensures Step(w, e).Continue? ==> Step(w, e).world.next >= w.next
  {
    match e
    case ReadyFd(fd, write, env, accepted) =>
      if fd in w.table {
        DeliverKeepsNext(w, fd, if write then WriteEvent else ReadEvent, env, accepted, false);
      }
    case Notify(resolved, env) =>
      if w.jobs != [] && w.jobs[0] in w.table {
        DeliverKeepsNext(w.(jobs := w.jobs[1..]), w.jobs[0], BlockEvent, env, None, resolved);
      }
    case _ =>
  }

  lemma DeliverKeepsNext(w: World, fd: int, kind: Kind, env: Env, accepted: Option<int>, resolved: bool)
    requires fd in w.table
    ensures var o := Deliver(w, fd, kind, env, accepted, resolved); o.Continue? ==> o.world.next >= w.next
  {
    var id := w.table[fd].data;
    if w.table[fd].handler == SocksHandler && id in w.conns && w.conns[id].clientFd in w.table {
      HandleConnKeepsNext(w, id, SideOf(w.conns[id], fd), kind, env, resolved);
    }
  }

  // ----- The authentication gate -----

  /**
   Nobody gets as far as a request unless the client offered the selected method, and either that method is 0x00,
   or it is 0x02 and the pair that the client sent was in the user table when it was checked.
   */
  lemma GateHolds(w0: World, es: seq<Event>, w: World, id: nat)
    requires Reaches(w0, es, w) && id in w.conns && StateOf(w.conns[id]) >= REQUEST_READ
    ensures GatePassed(w.conns[id])
  {
    ReachedInv(w0, es, w);
    assert RecordOk(w, id) && Ok(BundleOf(w, id));
  }

  /** A check is made against the table of that moment, and remembered unchanged. */
  ghost predicate RemembersCheck(users: seq<User>, before: Option<Checked>, after: Option<Checked>) {
    after.Some? ==> after == before || after.value.table == users
  }

  lemma ReactRemembers(b: Bundle, side: Side, kind: Kind, env: Env, table: seq<User>, resolved: bool)
    requires Reactable(b, side, kind, env)
    ensures RemembersCheck(table, b.conn.checked, React(b, side, kind, env, table, resolved).0.conn.checked)
  {
  }

  lemma ArriveRemembers(b: Bundle, next: nat, env: Env)
    requires b.conn.wb.Valid() && (next == COPY && b.conn.current != Some(COPY) ==> b.origin.Some?)
    ensures Arrive(b, next, env).conn.checked == b.conn.checked
  {
  }

  /** Every check remembered after a step was remembered before it, or made against the table before it. */
  ghost predicate ChecksKept(w: World, w': World) {
    forall id :: id in w'.conns && w'.conns[id].checked.Some? ==>
      w'.conns[id].checked.value.table == w.users
      || (id in w.conns && w.conns[id].checked == w'.conns[id].checked)
  }

  lemma CloseKeepsChecks(w: World, fd: int)
    ensures CloseFd(w, fd).Continue? ==>
              forall id :: id in CloseFd(w, fd).world.conns ==>
                id in w.conns && CloseFd(w, fd).world.conns[id].checked == w.conns[id].checked
  {
  }

  lemma FinishKeepsChecks(w: World, id: nat)
    requires id in w.conns
    ensures Finish(w, id).Continue? ==>
              forall i :: i in Finish(w, id).world.conns ==>
                i in w.conns && Finish(w, id).world.conns[i].checked == w.conns[i].checked
  {
    CloseKeepsChecks(w, w.conns[id].clientFd);
    if CloseFd(w, w.conns[id].clientFd).Continue? {
      CloseKeepsChecks(CloseFd(w, w.conns[id].clientFd).world, w.conns[id].originFd);
    }
    CloseKeepsChecks(w, w.conns[id].originFd);
  }

  lemma JumpedKeepsChecks(w: World, id: nat, b: Bundle, b2: Bundle, kind: Kind, env: Env, next: nat)
    requires id in w.conns && w.conns[id].clientFd in w.table
    requires RemembersCheck(w.users, w.conns[id].checked, b2.conn.checked)
    ensures ChecksKept(w, Jumped(w, id, b, b2, kind, env, next))
    ensures var o := Finish(Jumped(w, id, b, b2, kind, env, next), id); o.Continue? ==> ChecksKept(w, o.world)
  {
    FinishKeepsChecks(Jumped(w, id, b, b2, kind, env, next), id);
  }

  /** What an event of a connection leads to, short of a fault. */
  lemma HandleConnOutcome(w: World, id: nat, side: Side, kind: Kind, env: Env, resolved: bool)
    returns (b: Bundle, b1: Bundle, next: nat)
    requires id in w.conns && w.conns[id].clientFd in w.table
    requires HandleConn(w, id, side, kind, env, resolved).Continue?
    ensures b == HandleFirst(BundleOf(w, id), w.authMethod) && Reactable(b, side, kind, env)
    ensures (b1, next) == React(b, side, kind, env, w.users, resolved)
    ensures b1.conn.wb.Valid() && (next == COPY && b1.conn.current != Some(COPY) ==> b1.origin.Some?)
    ensures HandleConn(w, id, side, kind, env, resolved) ==
            if Terminal(next) then Finish(Jumped(w, id, b, Arrive(b1, next, env), kind, env, next), id)
            else Continue(Jumped(w, id, b, Arrive(b1, next, env), kind, env, next))
  {
    b := HandleFirst(BundleOf(w, id), w.authMethod);
    var r := React(b, side, kind, env, w.users, resolved);
    b1, next := r.0, r.1;
  }

  lemma HandleConnKeepsChecks(w: World, id: nat, side: Side, kind: Kind, env: Env, resolved: bool)
    requires id in w.conns && w.conns[id].clientFd in w.table
    ensures var o := HandleConn(w, id, side, kind, env, resolved); o.Continue? ==> ChecksKept(w, o.world)
  {
    if HandleConn(w, id, side, kind, env, resolved).Continue? {
      var b, b1, next := HandleConnOutcome(w, id, side, kind, env, resolved);
      ReactRemembers(b, side, kind, env, w.users, resolved);
      ArriveRemembers(b1, next, env);
      JumpedKeepsChecks(w, id, b, Arrive(b1, next, env), kind, env, next);
    }
  }

  lemma DeliverKeepsChecks(w: World, fd: int, kind: Kind, env: Env, accepted: Option<int>, resolved: bool)
    requires fd in w.table
    ensures var o := Deliver(w, fd, kind, env, accepted, resolved); o.Continue? ==> ChecksKept(w, o.world)
  {
    var id := w.table[fd].data;
    if w.table[fd].handler == SocksHandler && id in w.conns && w.conns[id].clientFd in w.table {
      HandleConnKeepsChecks(w, id, SideOf(w.conns[id], fd), kind, env, resolved);
    }
  }

  lemma StepKeepsChecks(w: World, e: Event)
    ensures Step(w, e).Continue? ==> ChecksKept(w, Step(w, e).world)
  {
    match e
    case ReadyFd(fd, write, env, accepted) =>
      if fd in w.table {
        DeliverKeepsChecks(w, fd, if write then WriteEvent else ReadEvent, env, accepted, false);
      }
    case Notify(resolved, env) =>
      if w.jobs != [] && w.jobs[0] in w.table {
        DeliverKeepsChecks(w.(jobs := w.jobs[1..]), w.jobs[0], BlockEvent, env, None, resolved);
      }
    case _ =>
  }

  /** Some state of the run had this user table. */
  ghost predicate TableOnTheWay(w: World, es: seq<Event>, table: seq<User>)
    decreases |es|
  {
    w.users == table || (es != [] && Step(w, es[0]).Continue? && TableOnTheWay(Step(w, es[0]).world, es[1..], table))
  }

  lemma {:induction false} ChecksComeFromRun(w: World, es: seq<Event>, id: nat)
    requires Run(w, es).Continue? && id in Run(w, es).world.conns && Run(w, es).world.conns[id].checked.Some?
    ensures var k := Run(w, es).world.conns[id].checked;
            TableOnTheWay(w, es, k.value.table) || (id in w.conns && w.conns[id].checked == k)
    decreases |es|
  {
    if es != [] {
      ChecksComeFromRun(Step(w, es[0]).world, es[1..], id);
      StepKeepsChecks(w, es[0]);
    }
  }

  /** The table that a pair was checked against is one that the server really had earlier in the run. */
  lemma CheckedAgainstRealTable(w0: World, es: seq<Event>, w: World, id: nat)
    requires Reaches(w0, es, w) && id in w.conns && w.conns[id].checked.Some?
    ensures TableOnTheWay(w0, es, w.conns[id].checked.value.table)
  {
    ChecksComeFromRun(w0, es, id);
  }

  // ----- Counters -----

  /** The connections that are relaying. */
  function Copying(w: World): set<nat> {
    set id | id in w.conns && w.conns[id].current == Some(COPY)
  }

  lemma CountersAgree(w0: World, es: seq<Event>, w: World)
    requires Reaches(w0, es, w)
    ensures var k := w.counters;
            && k.concurrent == k.historic - k.closed
            && |Copying(w)| <= k.concurrent <= k.maxConcurrent
            && k.historic <= k.attempts
  {
    ReachedInv(w0, es, w);
    Subset(Copying(w), CountedSet(w.conns));
  }

  lemma {:induction false} Subset(a: set<nat>, b: set<nat>)
    requires a <= b
    ensures |a| <= |b|
  {
    assert b == a + (b - a);
  }

  /** The greatest number of concurrent connections over a run. */
  ghost function Peak(w: World, es: seq<Event>): nat
    decreases |es|
  {
    if es == [] || Step(w, es[0]).Fault? then w.counters.concurrent
    else Max(w.counters.concurrent, Peak(Step(w, es[0]).world, es[1..]))
  }

  lemma StepTracksPeak(w: World, e: Event)
    requires Inv(w) && CanHappen(w, e) && Step(w, e).Continue?
    ensures var k := Step(w, e).world.counters; k.maxConcurrent == Max(w.counters.maxConcurrent, k.concurrent)
  {
    match e
    case ReadyFd(fd, write, env, accepted) =>
      DeliverTracksPeak(w, fd, if write then WriteEvent else ReadEvent, env, accepted, false);
    case Notify(resolved, env) =>
      if w.jobs[0] in w.table {
        DeliverTracksPeak(w.(jobs := w.jobs[1..]), w.jobs[0], BlockEvent, env, None, resolved);
      }
    case _ =>
  }

  lemma DeliverTracksPeak(w: World, fd: int, kind: Kind, env: Env, accepted: Option<int>, resolved: bool)
    requires fd in w.table && w.counters.concurrent <= w.counters.maxConcurrent
    ensures var o := Deliver(w, fd, kind, env, accepted, resolved);
            o.Continue? ==> o.world.counters.maxConcurrent == Max(w.counters.maxConcurrent, o.world.counters.concurrent)
  {
    var id := w.table[fd].data;
    if w.table[fd].handler == SocksHandler && id in w.conns && w.conns[id].clientFd in w.table {
      HandleConnKeepsNext(w, id, SideOf(w.conns[id], fd), kind, env, resolved);
    }
  }

  lemma {:induction false} RunTracksPeak(w: World, es: seq<Event>)
    requires Inv(w) && IsRun(w, es)
    ensures Run(w, es).Continue?
    ensures Run(w, es).world.counters.maxConcurrent == Max(w.counters.maxConcurrent, Peak(w, es))
    decreases |es|
  {
    if es != [] {
      StepOk(w, es[0]);
      StepTracksPeak(w, es[0]);
      RunTracksPeak(Step(w, es[0]).world, es[1..]);
    }
  }

  /** The maximum that the server reports is the peak of the whole run. */
  lemma MaxConcurrentIsPeak(w0: World, es: seq<Event>, w: World)
    requires Reaches(w0, es, w)
    ensures w.counters.maxConcurrent == Peak(w0, es)
  {
    InitialInv(w0);
    RunTracksPeak(w0, es);
  }

  // ----- Replies -----

  /**
   A client whose connection is under way gets one reply, whatever becomes of it. One whose connection failed from
   the start gets its reply twice, from the arrival hook and from the write handler.
   */
  lemma OneReplyIffConnecting(w0: World, es: seq<Event>, w: World, id: nat, side: Side, soError: SocketError)
    requires Reaches(w0, es, w) && id in w.conns && w.conns[id].current == Some(REQUEST_CONNECTING)
    ensures w.conns[id].clientFd in w.table
    ensures var b := BundleOf(w, id);
            b.conn.wb.Valid() &&
            var (r, next) := ConnectingWrite(b, side, soError);
            var reply := RequestReply(r.conn.status);
            && next == REQUEST_WRITE
            && (r.conn.wb.bytes == reply <==> b.origin.Some?)
            && (r.conn.wb.bytes == reply + reply <==> b.origin.None?)
            && (r.conn.status == SUCCEEDED <==> b.origin.Some? && soError == Pending(0))
  {
    ReachedInv(w0, es, w);
    assert RecordOk(w, id);
    AnsweredOnceOrTwice(BundleOf(w, id), side, soError);
    AppendToEmpty(RequestReply(ConnectingWrite(BundleOf(w, id), side, soError).0.conn.status));
  }

  lemma ArrivesConnecting(b: Bundle, side: Side, kind: Kind, env: Env, table: seq<User>, resolved: bool)
    requires Ok(b) && b.conn.current.Some? && b.conn.current != Some(REQUEST_CONNECTING)
    requires Armed(b, side, kind) && Reactable(b, side, kind, env) && ConnectAllowed(b, env.connect)
    ensures var (b1, next) := React(b, side, kind, env, table, resolved);
            next == REQUEST_CONNECTING ==> b1.conn.wb.Valid() && b1.origin == None && b1.conn.current == b.conn.current
  {
    var (b1, next) := React(b, side, kind, env, table, resolved);
    ReactOk(b, side, kind, env, table, resolved);
    ReactKeepsFds(b, side, kind, env, table, resolved);
    ReactLeads(b, side, kind, env, table, resolved);
    NoOriginBeforeConnecting(b, b1, next);
  }

  /** An event of a reachable world that can happen to a connection which is not connecting yet. */
  ghost predicate Coming(w: World, id: nat, side: Side, kind: Kind, env: Env) {
    && id in w.conns && w.conns[id].clientFd in w.table && w.conns[id].current != Some(REQUEST_CONNECTING)
    && var b := HandleFirst(BundleOf(w, id), w.authMethod);
       b.conn.current.Some? && Armed(b, side, kind) && Possible(b, side, kind, env)
  }

  /** What `connect` will return plays no part before the connection is asked for. */
  lemma ReactsBeforeConnecting(w: World, id: nat, side: Side, kind: Kind, env: Env, resolved: bool)
    requires Inv(w) && Coming(w, id, side, kind, env)
    ensures var b := HandleFirst(BundleOf(w, id), w.authMethod);
            Reactable(b, side, kind, env) &&
            var (b1, next) := React(b, side, kind, env, w.users, resolved);
            next == REQUEST_CONNECTING ==>
              && b1.conn.wb.Valid() && b1.origin == None && b1.conn.current != Some(next) && b.conn.current != Some(COPY)
              && b1.conn.clientFd == w.conns[id].clientFd
  {
    var b := HandleFirst(BundleOf(w, id), w.authMethod);
    var quiet := env.(connect := NoSocket);
    assert RecordOk(w, id);
    HandleFirstOk(BundleOf(w, id), w.authMethod);
    ArmedIsReactable(b, side, kind, env);
    ArmedIsReactable(b, side, kind, quiet);
    SameReaction(b, side, kind, env, quiet, w.users, resolved);
    ArrivesConnecting(b, side, kind, quiet, w.users, resolved);
    ReactKeepsFds(b, side, kind, quiet, w.users, resolved);
    ReactLeads(b, side, kind, quiet, w.users, resolved);
  }

  lemma SameReaction(b: Bundle, side: Side, kind: Kind, env: Env, env': Env, table: seq<User>, resolved: bool)
    requires Reactable(b, side, kind, env) && env' == env.(connect := env'.connect) && Reactable(b, side, kind, env')
    ensures React(b, side, kind, env', table, resolved) == React(b, side, kind, env, table, resolved)
  {
  }

  /** An event that takes a connection of a run to REQUEST_CONNECTING leaves it under way if and only if `connect` waits. */
  lemma ConnectingIffWaits(w0: World, es: seq<Event>, w: World, id: nat, side: Side, kind: Kind, env: Env, resolved: bool)
    requires Reaches(w0, es, w) && Coming(w, id, side, kind, env) && !env.connect.Immediate?
    ensures var b := HandleFirst(BundleOf(w, id), w.authMethod);
            Reactable(b, side, kind, env) &&
            var (b1, next) := React(b, side, kind, env, w.users, resolved);
            next == REQUEST_CONNECTING ==>
              b1.conn.wb.Valid() && (Arrive(b1, next, env).origin.Some? <==> Waits(env.connect))
  {
    ReachedInv(w0, es, w);
    ReactsBeforeConnecting(w, id, side, kind, env, resolved);
    var (b1, next) := React(HandleFirst(BundleOf(w, id), w.authMethod), side, kind, env, w.users, resolved);
    if next == REQUEST_CONNECTING {
      PatientArrival(b1, env);
    }
  }

  lemma PatientArrival(b1: Bundle, env: Env)
    requires b1.conn.wb.Valid() && b1.origin == None && b1.conn.current != Some(REQUEST_CONNECTING)
    requires !env.connect.Immediate?
    ensures Arrive(b1, REQUEST_CONNECTING, env).origin.Some? <==> Waits(env.connect)
  {
  }

  // ----- Connecting at once -----

  lemma ImmediateArrival(b1: Bundle, env: Env)
    requires b1.conn.wb.Valid() && b1.origin == None && b1.conn.current != Some(REQUEST_CONNECTING)
    requires env.connect.Immediate? && !InvalidFd(env.connect.fd)
    ensures var b2 := Arrive(b1, REQUEST_CONNECTING, env);
            && b2.client == READ && b2.origin == Some(READ) && b2.conn.originFd == env.connect.fd
            && b2.conn.clientFd == b1.conn.clientFd && b2.conn.current == Some(REQUEST_CONNECTING)
  {
  }

  /** Whatever the descriptor's connection receives while it is connecting faults. */
  lemma ReadingWhileConnecting(w: World, id: nat, env: Env, accepted: Option<int>)
    requires id in w.conns && w.conns[id].current == Some(REQUEST_CONNECTING)
    requires var fd := w.conns[id].clientFd;
             fd in w.table && w.table[fd].handler == SocksHandler && w.table[fd].data == id
    ensures Step(w, ReadyFd(w.conns[id].clientFd, false, env, accepted)).Fault?
  {
  }

  /**
   Why connecting must not succeed at once: in any reachable world it would leave the client watched for reading in
   a state that has no read handler, and the next bytes from the client abort the server.
   */
  lemma ImmediateFaults(w0: World, es: seq<Event>, w: World, id: nat, side: Side, kind: Kind, env: Env, resolved: bool,
                        env': Env, accepted: Option<int>)
    requires Reaches(w0, es, w) && Coming(w, id, side, kind, env)
    requires env.connect.Immediate? && !InvalidFd(env.connect.fd) && Fresh(w, env.connect.fd)
    requires var b := HandleFirst(BundleOf(w, id), w.authMethod);
             Reactable(b, side, kind, env) && React(b, side, kind, env, w.users, resolved).1 == REQUEST_CONNECTING
    ensures var o, fd := HandleConn(w, id, side, kind, env, resolved), w.conns[id].clientFd;
            && o.Continue? && Wants(o.world.table, fd, false)
            && Step(o.world, ReadyFd(fd, false, env', accepted)).Fault?
  {
    ReachedInv(w0, es, w);
    assert RecordOk(w, id);
    ReactsBeforeConnecting(w, id, side, kind, env, resolved);
    var b := HandleFirst(BundleOf(w, id), w.authMethod);
    var b1 := React(b, side, kind, env, w.users, resolved).0;
    var b2 := Arrive(b1, REQUEST_CONNECTING, env);
    ImmediateArrival(b1, env);
    HandleConnIs(w, id, side, kind, env, resolved, b, b2, REQUEST_CONNECTING);
    JumpedWatches(w, id, b, b2, kind, env);
    ReadingWhileConnecting(Jumped(w, id, b, b2, kind, env, REQUEST_CONNECTING), id, env', accepted);
  }

  lemma JumpedWatches(w: World, id: nat, b: Bundle, b2: Bundle, kind: Kind, env: Env)
    requires id in w.conns && RecordOk(w, id) && b2.conn.clientFd == w.conns[id].clientFd && b2.conn.originFd !in w.table
    ensures var w', fd := Jumped(w, id, b, b2, kind, env, REQUEST_CONNECTING), w.conns[id].clientFd;
            && id in w'.conns && w'.conns[id] == b2.conn
            && fd in w'.table && w'.table[fd] == Slot(b2.client, SocksHandler, id)
  {
  }

  // ----- Entering the relay -----

  /**
   A connection starts to relay with the reply delivered in full, so nothing waits for the client, and with the
   bytes that the client sent behind its request first in line for the origin.
   */
  lemma RelayStartsClean(b: Bundle, sent: Option<nat>, env: Env)
    requires Ok(b) && b.conn.current == Some(REQUEST_WRITE) && (sent.Some? ==> sent.value <= |b.conn.wb.bytes|)
    requires RequestWrite(b, sent).1 == COPY
    ensures var b1 := RequestWrite(b, sent).0;
            && b1.origin.Some?
            && var r := RelayOf(Arrive(b1, COPY, env));
               && Relay.Inv(r) && r == Relay.Begin(b.conn.rb, r.toClient)
               && r.toClient.bytes == []
               && r.toOrigin.bytes == b.conn.input[|b.conn.input| - |r.toOrigin.bytes|..]
  {
    RequestWriteOk(b, sent, env);
  }
}
