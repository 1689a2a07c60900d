/**
 The whole proxy as a state machine: the selector's registrations, every live connection record, the pool of
 records, the name resolutions in flight, the user table and the counters. Any event that the operating system
 may deliver is a step; an abort, a null handler, a dangling record or a counter underflow is a fault.
 */
module WorldModule {

  import opened Base
  import opened SelectorTable
  import opened StateMachineModule
  import opened UsersModule
  import opened ConnectionModule
  import opened ConnectionInvariantModule
  import H = HelloParserModule
  import Relay = RelayModule

  const MAX_POOL := 50

  /** `closed` counts the COPY handlers that returned DONE; the others are the server's metrics. */
  datatype Counters = Counters(
    historic: nat, concurrent: nat, maxConcurrent: nat, attempts: nat, authAttempts: nat, closed: nat)

  /**
   `conns` are the records in use, by address; `pool` those kept for reuse and `freed` those returned to the
   allocator; addresses from `next` on have never been allocated. `resolving` are the descriptors of the resolver
   threads at work, `jobs` the list of those that have finished.
   */
  datatype World = World(
    table: Table,
    conns: map<nat, Conn>,
    pool: seq<nat>,
    poolSize: nat,
    freed: set<nat>,
    next: nat,
    resolving: multiset<int>,
    jobs: seq<int>,
    users: seq<User>,
    authMethod: Byte,
    counters: Counters)

  datatype Outcome = Continue(world: World) | Fault

  // ----- Records -----

  /** `socks5_destroy`. */
  function Destroy(w: World, id: nat): Outcome {
    if id !in w.conns then Fault
    else if w.conns[id].references == 1 then
      var gone := w.(conns := w.conns - {id});
      if w.poolSize < MAX_POOL then Continue(gone.(pool := [id] + w.pool, poolSize := w.poolSize + 1))
      else Continue(gone.(freed := w.freed + {id}))
    else if w.conns[id].references == 0 then Fault
    else Continue(w.(conns := w.conns[id := w.conns[id].(references := w.conns[id].references - 1)]))
  }

  /** One turn of the loop of `socksv5_done`: a descriptor that is not registered aborts the server. */
  function CloseFd(w: World, fd: int): Outcome {
    if fd !in w.table then Fault
    else
      var w' := w.(table := w.table - {fd});
      if w.table[fd].handler == SocksHandler then Destroy(w', w.table[fd].data) else Continue(w')
  }

  /** `socksv5_done`. */
  function Finish(w: World, id: nat): Outcome
    requires id in w.conns
  {
    var client, origin := w.conns[id].clientFd, w.conns[id].originFd;
    var w1 := if client == -1 then Continue(w) else CloseFd(w, client);
    if w1.Fault? || origin == -1 then w1 else CloseFd(w1.world, origin)
  }

  /** `socks5_new` takes a record from the pool, whose size is not counted down, or allocates one. */
  function Allocate(w: World): (World, nat) {
    if w.pool == [] then (w.(next := w.next + 1), w.next) else (w.(pool := w.pool[1..]), w.pool[0])
  }

  /** `socksv5_passive_accept`: a descriptor that cannot be registered gives the record back. */
  function Accept(w: World, accepted: Option<int>): Outcome {
    if accepted.None? then Continue(w)
    else
      var fd := accepted.value;
      var (w1, id) := Allocate(w);
      var w2 := w1.(conns := w1.conns[id := NewConn(fd)]);
      var op := Register(fd, Slot(READ, SocksHandler, id));
      if StatusOf(w2.table, op) == Success then Continue(w2.(table := Apply(w2.table, op))) else Destroy(w2, id)
  }

  // ----- Connections -----

  function BundleOf(w: World, id: nat): Bundle
    requires id in w.conns && w.conns[id].clientFd in w.table
  {
    var c := w.conns[id];
    Bundle(c, w.table[c.clientFd].interest, if c.originFd in w.table then Some(w.table[c.originFd].interest) else None)
  }

  /** The calls a handler made on the selector for its own connection, and the record it leaves. */
  function Put(w: World, id: nat, b: Bundle): World
    requires id in w.conns && w.conns[id].clientFd in w.table
  {
    var fd := w.conns[id].clientFd;
    var t := w.table[fd := w.table[fd].(interest := b.client)];
    w.(table := if b.origin.Some? then t[b.conn.originFd := Slot(b.origin.value, SocksHandler, id)] else t,
       conns := w.conns[id := b.conn])
  }

  predicate Established(b: Bundle, kind: Kind, env: Env) {
    && b.conn.current == Some(REQUEST_CONNECTING) && kind.WriteEvent?
    && b.conn.status == SUCCEEDED && env.soError == Pending(0)
  }

  /** The metrics, once the connection `b` has reacted and moves to `next`. */
  function Count(k: Counters, b: Bundle, kind: Kind, env: Env, next: nat): Counters {
    var st := if b.conn.current.None? then HELLO_READ else b.conn.current.value;
    var k1 := if Established(b, kind, env) then
                k.(historic := k.historic + 1, concurrent := k.concurrent + 1,
                   maxConcurrent := Max(k.maxConcurrent, k.concurrent + 1))
              else k;
    var k2 := if next == REQUEST_CONNECTING && st != REQUEST_CONNECTING && Attempts(env.connect) then
                k1.(attempts := k1.attempts + 1)
              else k1;
    var k3 := if st == USERPASS_READ && next == USERPASS_WRITE then k2.(authAttempts := k2.authAttempts + 1) else k2;
    if st == COPY && next == DONE && k3.concurrent > 0 then
      k3.(concurrent := k3.concurrent - 1, closed := k3.closed + 1)
    else k3
  }

  /** What the handler of the current state relies on. */
  predicate Reactable(b: Bundle, side: Side, kind: Kind, env: Env) {
    && b.conn.current.Some? && b.conn.current.value < |CLIENT_STATES|
    && CLIENT_STATES[b.conn.current.value].Handles(kind)
    && b.conn.rb.Valid() && b.conn.wb.Valid() && Possible(b, side, kind, env)
    && (b.conn.current == Some(COPY) ==>
          && b.origin.Some?
          && (kind.ReadEvent? ==> Relay.Enabled(RelayOf(b), Relay.Recv(side, env.recv)))
          && (kind.WriteEvent? ==> Relay.Enabled(RelayOf(b), Relay.Send(side, env.sent))))
  }

  predicate Terminal(st: nat) {
    st == DONE || st == ERROR
  }

  /** `socksv5_read`, `socksv5_write` and `socksv5_block`. */
  function HandleConn(w: World, id: nat, side: Side, kind: Kind, env: Env, resolved: bool): Outcome
    requires id in w.conns && w.conns[id].clientFd in w.table
  {
    var b := HandleFirst(BundleOf(w, id), w.authMethod);
    if !Reactable(b, side, kind, env) then Fault
    else
      var (b1, next) := React(b, side, kind, env, w.users, resolved);
      if !b1.conn.wb.Valid() || (next == COPY && b1.conn.current != Some(COPY) && b1.origin.None?) then Fault
      else if b.conn.current == Some(COPY) && next == DONE && w.counters.concurrent == 0 then Fault
      else
        var b2 := Arrive(b1, next, env);
        var w' := Put(w, id, b2).(
          counters := Count(w.counters, b, kind, env, next),
          resolving := if next == REQUEST_RESOLV && b.conn.current != Some(REQUEST_RESOLV)
                       then w.resolving + multiset{b.conn.clientFd} else w.resolving);
        if Terminal(next) then Finish(w', id) else Continue(w')
  }

  /** The side a descriptor belongs to; the origin's is looked at first. */
  function SideOf(c: Conn, fd: int): Side {
    if fd == c.originFd then Side.Origin else Side.Client
  }

  /** The call of a slot's handler: a null handler or a dangling record is a fault. */
  function Deliver(w: World, fd: int, kind: Kind, env: Env, accepted: Option<int>, resolved: bool): Outcome
    requires fd in w.table
  {
    var slot := w.table[fd];
    if slot.handler == PassiveHandler then (if kind.ReadEvent? then Accept(w, accepted) else Fault)
    else if slot.data !in w.conns || w.conns[slot.data].clientFd !in w.table then Fault
    else HandleConn(w, slot.data, SideOf(w.conns[slot.data], fd), kind, env, resolved)
  }

  // ----- Steps -----

  /**
   An event of a ready descriptor; a resolver thread finishing; a finished job taken from the list; and what the
   management server changes.
   */
  datatype Event =
    | ReadyFd(fd: int, write: bool, env: Env, accepted: Option<int>)
    | ThreadDone(fd: int)
    | Notify(resolved: bool, env: Env)
    | ChangeUsers(op: TableOp)
    | ChangeAuth(authMethod: Byte)

  function Step(w: World, e: Event): Outcome {
    match e
    case ReadyFd(fd, write, env, accepted) =>
      if fd in w.table then Deliver(w, fd, if write then WriteEvent else ReadEvent, env, accepted, false) else Fault
    case ThreadDone(fd) =>
      Continue(w.(resolving := w.resolving - multiset{fd}, jobs := [fd] + w.jobs))
    case Notify(resolved, env) =>
      if w.jobs == [] then Fault
      else
        var w' := w.(jobs := w.jobs[1..]);
        if w.jobs[0] in w.table then Deliver(w', w.jobs[0], BlockEvent, env, None, resolved) else Continue(w')
    case ChangeUsers(op) => Continue(w.(users := ChangeTable(w.users, op)))
    case ChangeAuth(m) => Continue(w.(authMethod := m))
  }

  // ----- What the environment may do -----

  /** A descriptor that the operating system can hand out: it is not open. */
  ghost predicate Fresh(w: World, fd: int) {
    fd >= 0 && fd !in w.table && forall id :: id in w.conns ==> w.conns[id].originFd != fd
  }

  function NewFd(connect: Connect): Option<int> {
    match connect
    case NoSocket => None
    case NoFlags(fd) => Some(fd)
    case Failed(fd, _) => Some(fd)
    case InProgress(fd) => Some(fd)
    case Immediate(fd) => Some(fd)
  }

  /** New descriptors are fresh, a failed `connect` has an error number, and connecting never succeeds at once. */
  ghost predicate EnvAllowed(w: World, env: Env) {
    && (NewFd(env.connect).Some? ==> Fresh(w, NewFd(env.connect).value))
    && (env.connect.Failed? ==> env.connect.errno != 0)
    && !env.connect.Immediate?
  }

  /** The results of `recv` and `send` stay within what the handler asked for. */
  ghost predicate ResultsPossible(w: World, fd: int, kind: Kind, env: Env) {
    fd in w.table && w.table[fd].handler == SocksHandler && w.table[fd].data in w.conns
    && w.conns[w.table[fd].data].clientFd in w.table ==>
      var id := w.table[fd].data;
      Possible(HandleFirst(BundleOf(w, id), w.authMethod), SideOf(w.conns[id], fd), kind, env)
  }

  ghost predicate CanHappen(w: World, e: Event) {
    match e
    case ReadyFd(fd, write, env, accepted) =>
      && Wants(w.table, fd, write) && EnvAllowed(w, env)
      && ResultsPossible(w, fd, if write then WriteEvent else ReadEvent, env)
      && (accepted.Some? ==> Fresh(w, accepted.value))
    case ThreadDone(fd) => fd in w.resolving
    case Notify(resolved, env) => w.jobs != [] && EnvAllowed(w, env) && ResultsPossible(w, w.jobs[0], BlockEvent, env)
    case ChangeUsers(op) => true
    case ChangeAuth(m) => m == H.NO_AUTHENTICATION || m == H.USERNAME_PASSWORD
  }

  ghost predicate IsRun(w: World, es: seq<Event>)
    decreases |es|
  {
    es == [] || (CanHappen(w, es[0]) && (Step(w, es[0]).Continue? ==> IsRun(Step(w, es[0]).world, es[1..])))
  }

  ghost function Run(w: World, es: seq<Event>): Outcome
    decreases |es|
  {
    if es == [] then Continue(w)
    else if Step(w, es[0]).Fault? then Fault else Run(Step(w, es[0]).world, es[1..])
  }

  /** The server after start-up: nothing but its listening sockets. */
  ghost predicate Initial(w: World) {
    && (forall fd :: fd in w.table ==> !InvalidFd(fd) && w.table[fd] == Slot(READ, PassiveHandler, 0))
    && w.conns == map[] && w.pool == [] && w.poolSize == 0 && w.freed == {} && w.next == 0
    && w.resolving == multiset{} && w.jobs == []
    && KnownMethod(w.authMethod)
    && w.counters == Counters(0, 0, 0, 0, 0, 0)
  }
}
