/**
 What the clients of the proxy see, in every run: which of their bytes make a connection go on, what they are
 answered, byte by byte, and what the server counts.
 */
module ProtocolTheorems {

  import opened Base
  import opened Buffers
  import opened SelectorTable
  import opened StateMachineModule
  import opened UsersModule
  import opened ConnectionModule
  import opened ConnectionInvariantModule
  import opened StageTheorems
  import opened WorldModule
  import opened WorldInvariantModule
  import opened ProxyTheorems
  import Relay = RelayModule

  // ----- One event of one connection -----

  /** The event calls a handler of the connection `id`. */
  predicate Concerns(w: World, e: Event, id: nat) {
    match e
    case ReadyFd(fd, _, _, _) => fd in w.table && w.table[fd].handler == SocksHandler && w.table[fd].data == id
    case Notify(_, _) =>
      w.jobs != [] && w.jobs[0] in w.table && w.table[w.jobs[0]].handler == SocksHandler && w.table[w.jobs[0]].data == id
    case _ => false
  }

  function FdOf(w: World, e: Event): int
    requires e.ReadyFd? || (e.Notify? && w.jobs != [])
  {
    if e.ReadyFd? then e.fd else w.jobs[0]
  }

  function KindOf(e: Event): Kind {
    if e.Notify? then BlockEvent else if e.ReadyFd? && e.write then WriteEvent else ReadEvent
  }

  function EnvOf(e: Event): Env
    requires e.ReadyFd? || e.Notify?
  {
    e.env
  }

  function ResolvedOf(e: Event): bool {
    e.Notify? && e.resolved
  }

  /** The world that the handler finds. */
  function Found(w: World, e: Event): World {
    if e.Notify? && w.jobs != [] then w.(jobs := w.jobs[1..]) else w
  }

  lemma FoundIsSound(w: World, e: Event)
    requires Inv(w) && CanHappen(w, e) && (e.ReadyFd? || e.Notify?)
    ensures var f := Found(w, e);
            Structured(f) && CountersOk(f.counters, f.conns) && EnvAllowed(f, EnvOf(e))
  {
    SameLinks(w, Found(w, e));
    SameRecords(w, Found(w, e));
  }

  /** The connection, as its handler finds it. */
  function Entering(w: World, id: nat): Bundle
    requires id in w.conns && w.conns[id].clientFd in w.table
  {
    HandleFirst(BundleOf(w, id), w.authMethod)
  }

  lemma EnteringIsOk(w: World, id: nat)
    requires Structured(w) && id in w.conns
    ensures w.conns[id].clientFd in w.table
    ensures Ok(Entering(w, id)) && Entering(w, id).conn.current == Some(StateOf(w.conns[id]))
  {
    assert RecordOk(w, id);
    HandleFirstOk(BundleOf(w, id), w.authMethod);
  }

  /** The selector delivers this event to the connection, and its results are ones the handler can get. */
  ghost predicate Delivered(w: World, e: Event, id: nat)
    requires id in w.conns && w.conns[id].clientFd in w.table && (e.ReadyFd? || (e.Notify? && w.jobs != []))
  {
    var b, side := Entering(w, id), SideOf(w.conns[id], FdOf(w, e));
    b.conn.current.Some? && Armed(b, side, KindOf(e)) && Possible(b, side, KindOf(e), EnvOf(e))
  }

  lemma ReadyIsDelivered(w: World, e: Event, id: nat)
    requires Structured(w) && CanHappen(w, e) && e.ReadyFd? && Concerns(w, e, id)
    ensures id in w.conns && w.conns[id].clientFd in w.table && Delivered(w, e, id)
  {
    WantsIsArmed(w, e.fd, e.write);
  }

  lemma NotifyIsDelivered(w: World, e: Event, id: nat)
    requires Linked(w) && TicketsOk(w) && CanHappen(w, e) && e.Notify? && Concerns(w, e, id)
    ensures id in w.conns && w.conns[id].clientFd in w.table && Delivered(w, e, id)
  {
    JobIsWaitedFor(w);
    WaiterIsArmed(w, w.jobs[0]);
  }

  lemma FoundIsArmed(w: World, e: Event, id: nat)
    requires Inv(w) && CanHappen(w, e) && Concerns(w, e, id)
    ensures id in w.conns && w.conns[id].clientFd in w.table && Entering(Found(w, e), id) == Entering(w, id)
    ensures Ok(Entering(w, id)) && Entering(w, id).conn.current == Some(StateOf(w.conns[id]))
    ensures Delivered(w, e, id)
  {
    if e.ReadyFd? {
      ReadyIsDelivered(w, e, id);
    } else {
      NotifyIsDelivered(w, e, id);
    }
    EnteringIsOk(w, id);
  }

  lemma StepIsHandled(w: World, e: Event, id: nat)
    requires Concerns(w, e, id) && id in w.conns && w.conns[id].clientFd in w.table
    ensures Step(w, e) == HandleConn(Found(w, e), id, SideOf(w.conns[id], FdOf(w, e)), KindOf(e), EnvOf(e), ResolvedOf(e))
  {
  }

  lemma SettledMoves(w: World, id: nat, b: Bundle, b2: Bundle, kind: Kind, env: Env, next: nat)
    requires Linked(w) && id in w.conns && w.conns[id].clientFd in w.table
    requires JumpedApart(w, Jumped(w, id, b, b2, kind, env, next), id, b2)
    ensures var s := Settled(w, id, b, b2, kind, env, next);
            && s.counters == Count(w.counters, b, kind, env, next)
            && s.conns.Keys <= w.conns.Keys && s.users == w.users && s.authMethod == w.authMethod
            && (forall other :: other in w.conns && other != id ==> other in s.conns && s.conns[other] == w.conns[other])
            && if Ends(next) then id !in s.conns
               else id in s.conns && s.conns[id].clientFd in s.table && BundleOf(s, id) == b2
  {
  }

  /** A connection that does not handle the event is as before, in its registrations too. */
  lemma SettledBesides(w: World, id: nat, b: Bundle, b2: Bundle, kind: Kind, env: Env, next: nat, other: nat)
    requires Linked(w) && id in w.conns && w.conns[id].clientFd in w.table && other in w.conns && other != id
    requires JumpedApart(w, Jumped(w, id, b, b2, kind, env, next), id, b2)
    ensures In(w, other).Some? && In(Settled(w, id, b, b2, kind, env, next), other) == In(w, other)
  {
    var w' := Jumped(w, id, b, b2, kind, env, next);
    assert RecordOk(w, other);
    if Terminal(next) {
      RetiredKeepsLinks(w', id);
    }
  }

  /** A record that is no longer used is kept for reuse if fewer than 50 have been, and freed otherwise. */
  lemma SettledPool(w: World, id: nat, b: Bundle, b2: Bundle, kind: Kind, env: Env, next: nat)
    requires id in w.conns && w.conns[id].clientFd in w.table
    ensures var s := Settled(w, id, b, b2, kind, env, next);
            s.next == w.next &&
            if Ends(next) && w.poolSize < 50 then s.pool == [id] + w.pool && s.poolSize == w.poolSize + 1 && s.freed == w.freed
            else s.pool == w.pool && s.poolSize == w.poolSize && s.freed == w.freed + (if Ends(next) then {id} else {})
  {
  }

  /** What becomes of a connection that handles an event: nothing, when it ends. */
  function AfterOf(b: Bundle, side: Side, kind: Kind, env: Env, table: seq<User>, resolved: bool): Option<Bundle>
    requires Reactable(b, side, kind, env)
  {
    var (b1, next) := React(b, side, kind, env, table, resolved);
    if Ends(next) || !b1.conn.wb.Valid() || (next == COPY && b1.conn.current != Some(COPY) && b1.origin.None?) then None
    else Some(Arrive(b1, next, env))
  }

  /** The connection in a world, if it is there. */
  function In(w: World, id: nat): Option<Bundle> {
    if id in w.conns && w.conns[id].clientFd in w.table then Some(BundleOf(w, id)) else None
  }

  /** The world after an event. */
  function Next(w: World, e: Event): World
    requires Step(w, e).Continue?
  {
    Step(w, e).world
  }

  /** Every event of a connection comes down to a reaction, a jump, and possibly the end of the connection. */
  lemma EventSettles(w: World, e: Event, id: nat) returns (b2: Bundle, next: nat)
    requires Inv(w) && CanHappen(w, e) && Concerns(w, e, id)
    ensures id in w.conns && w.conns[id].clientFd in w.table && Entering(Found(w, e), id) == Entering(w, id)
    ensures Ok(Entering(w, id)) && Entering(w, id).conn.current == Some(StateOf(w.conns[id]))
    ensures var b, side, kind, env := Entering(w, id), SideOf(w.conns[id], FdOf(w, e)), KindOf(e), EnvOf(e);
            && Armed(b, side, kind) && ConnectAllowed(b, env.connect)
            && Lands(b, side, kind, env, w.users, ResolvedOf(e), b2, next)
            && Linked(Found(w, e))
            && JumpedApart(Found(w, e), Jumped(Found(w, e), id, b, b2, kind, env, next), id, b2)
            && Step(w, e) == Continue(Settled(Found(w, e), id, b, b2, kind, env, next))
  {
    var f, side, kind, env := Found(w, e), SideOf(w.conns[id], FdOf(w, e)), KindOf(e), EnvOf(e);
    FoundIsSound(w, e);
    FoundIsArmed(w, e, id);
    StepIsHandled(w, e, id);
    AllowedForConn(f, id, env);
    b2, next := HandleConnOk(f, id, side, kind, env, ResolvedOf(e));
  }

  /** How the handler is called, and what becomes of the connection and of the others. */
  lemma EventHandled(w: World, e: Event, id: nat)
    requires Inv(w) && CanHappen(w, e) && Concerns(w, e, id)
    ensures id in w.conns && w.conns[id].clientFd in w.table && Step(w, e).Continue?
    ensures Ok(Entering(w, id)) && Entering(w, id).conn.current == Some(StateOf(w.conns[id]))
    ensures var b, side, kind, env := Entering(w, id), SideOf(w.conns[id], FdOf(w, e)), KindOf(e), EnvOf(e);
            && Armed(b, side, kind) && Reactable(b, side, kind, env) && ConnectAllowed(b, env.connect)
            && In(Next(w, e), id) == AfterOf(b, side, kind, env, w.users, ResolvedOf(e))
            && Next(w, e).counters == Count(w.counters, b, kind, env, React(b, side, kind, env, w.users, ResolvedOf(e)).1)
    ensures Next(w, e).conns.Keys <= w.conns.Keys && Next(w, e).users == w.users && Next(w, e).authMethod == w.authMethod
    ensures id in Next(w, e).conns <==> In(Next(w, e), id).Some?
    ensures forall other :: other in w.conns && other != id ==>
              other in Next(w, e).conns && Next(w, e).conns[other] == w.conns[other]
  {
    var b2, n := EventSettles(w, e, id);
    SettledMoves(Found(w, e), id, Entering(w, id), b2, KindOf(e), EnvOf(e), n);
  }

  /** The others keep their registrations too. */
  lemma EventBesides(w: World, e: Event, id: nat, other: nat)
    requires Inv(w) && CanHappen(w, e) && Concerns(w, e, id) && other in w.conns && other != id
    ensures Step(w, e).Continue? && In(w, other).Some? && In(Next(w, e), other) == In(w, other)
  {
    var b2, n := EventSettles(w, e, id);
    SettledBesides(Found(w, e), id, Entering(w, id), b2, KindOf(e), EnvOf(e), n, other);
    FoundShows(w, e, other);
  }

  lemma FoundShows(w: World, e: Event, id: nat)
    ensures In(Found(w, e), id) == In(w, id)
  {
  }

  /** What becomes of the record of a connection that ends. */
  lemma EventPool(w: World, e: Event, id: nat)
    requires Inv(w) && CanHappen(w, e) && Concerns(w, e, id)
    ensures Step(w, e).Continue? && Next(w, e).next == w.next
    ensures if id !in Next(w, e).conns && w.poolSize < 50 then
              Next(w, e).pool == [id] + w.pool && Next(w, e).poolSize == w.poolSize + 1 && Next(w, e).freed == w.freed
            else
              && Next(w, e).pool == w.pool && Next(w, e).poolSize == w.poolSize
              && Next(w, e).freed == w.freed + (if id in Next(w, e).conns then {} else {id})
  {
    var b2, n := EventSettles(w, e, id);
    SettledPool(Found(w, e), id, Entering(w, id), b2, KindOf(e), EnvOf(e), n);
    SettledMoves(Found(w, e), id, Entering(w, id), b2, KindOf(e), EnvOf(e), n);
  }

  // ----- What each stage does -----

  /** The selector delivers such an event to this connection. */
  ghost predicate Arrives(b: Bundle, side: Side, kind: Kind, env: Env, st: nat) {
    && Ok(b) && b.conn.current == Some(st) && Armed(b, side, kind) && Reactable(b, side, kind, env)
    && ConnectAllowed(b, env.connect)
  }

  lemma OpeningStage(b: Bundle, side: Side, kind: Kind, env: Env, table: seq<User>, resolved: bool)
    requires Arrives(b, side, kind, env, HELLO_READ)
    ensures kind.ReadEvent?
    ensures OpeningOutcome(b.conn.input, VersionByte(b.conn), b.conn.hello.wanted, env.recv,
                           AfterOf(b, side, kind, env, table, resolved))
  {
    OpeningIsAnswered(b, env.recv);
    HelloKeepsWanted(b, env.recv);
  }

  lemma HelloKeepsWanted(b: Bundle, recv: Option<seq<Byte>>)
    requires Ok(b) && b.conn.current == Some(HELLO_READ) && (recv.Some? ==> 0 < |recv.value| <= b.conn.rb.Room())
    ensures var c := HelloRead(b, recv).0.conn; c.hello.wanted == b.conn.hello.wanted && c.isSocks == b.conn.isSocks
  {
    if recv.Some? {
      HelloConsumed(b.conn, recv.value);
    }
  }

  lemma MethodStage(b: Bundle, side: Side, kind: Kind, env: Env, table: seq<User>, resolved: bool)
    requires Arrives(b, side, kind, env, HELLO_WRITE)
    ensures kind.WriteEvent? && MethodOutcome(b.conn, env.sent, AfterOf(b, side, kind, env, table, resolved))
  {
    MethodDecides(b, env.sent);
  }

  lemma CredentialsStage(b: Bundle, side: Side, kind: Kind, env: Env, table: seq<User>, resolved: bool)
    requires Arrives(b, side, kind, env, USERPASS_READ)
    ensures kind.ReadEvent? && CredentialsOutcome(b.conn, env.recv, table, AfterOf(b, side, kind, env, table, resolved))
  {
    CredentialsAreRead(b, env.recv, table);
    if env.recv.Some? {
      forall user, pass | LoginMessage(CredentialsInput(b.conn, env.recv.value), user, pass)
        ensures var c := AuthRead(b, env.recv, table).0.conn;
                && c.authentication == (if InTable(table, user, pass) then 0 else 1)
                && (b.conn.isSocks && InTable(table, user, pass) ==> IsFirst(table, c.userIndex, user, pass))
      {
        CredentialsAreChecked(b, env.recv.value, table, user, pass);
      }
    }
  }

  lemma VerdictStage(b: Bundle, side: Side, kind: Kind, env: Env, table: seq<User>, resolved: bool)
    requires Arrives(b, side, kind, env, USERPASS_WRITE)
    ensures kind.WriteEvent? && VerdictOutcome(b.conn, env.sent, AfterOf(b, side, kind, env, table, resolved))
  {
    CredentialsAreAnswered(b, env.sent);
  }

  lemma RequestStage(b: Bundle, side: Side, kind: Kind, env: Env, table: seq<User>, resolved: bool)
    requires Arrives(b, side, kind, env, REQUEST_READ)
    ensures kind.ReadEvent? && RequestOutcome(b.conn, env.recv, env.connect, AfterOf(b, side, kind, env, table, resolved))
  {
    RequestIsServed(b, env.recv);
    RequestKeeps(b, env);
    var (b1, next) := RequestRead(b, env.recv);
    if env.recv.Some? {
      RequestLands(b1, next, env, AfterOf(b, side, kind, env, table, resolved));
    }
  }

  /** Where the connection is after the request stage and the jump. */
  lemma RequestLands(b1: Bundle, next: nat, env: Env, after: Option<Bundle>)
    requires b1.conn.wb == Empty(BUFFER_SIZE) && b1.origin == None && b1.conn.current == Some(REQUEST_READ)
    requires ConnectAllowed(b1, env.connect)
    requires (next == REQUEST_RESOLV && b1.client == NOOP) || next == REQUEST_CONNECTING || (next == REQUEST_READ && b1.client == READ)
    requires after == Some(Arrive(b1, next, env))
    ensures after.value.conn.input == b1.conn.input && after.value.conn.rb == b1.conn.rb
    ensures Lives(after, 5, NOOP) <==> next == REQUEST_RESOLV
    ensures ConnectStarted(env.connect, after) <==> next == REQUEST_CONNECTING
    ensures Lives(after, 4, READ) <==> next == REQUEST_READ
  {
    if next == REQUEST_CONNECTING {
      ConnectBegins(b1, env);
    }
  }

  lemma RequestKeeps(b: Bundle, env: Env)
    requires Ok(b) && b.conn.current == Some(REQUEST_READ) && (env.recv.Some? ==> 0 < |env.recv.value| <= b.conn.rb.Room())
    requires ConnectAllowed(b, env.connect)
    ensures var (b1, next) := RequestRead(b, env.recv);
            && b1.conn.wb == Empty(BUFFER_SIZE) && b1.origin == None && b1.conn.current == b.conn.current
            && ConnectAllowed(b1, env.connect)
            && (next == REQUEST_RESOLV ==> b1.client == NOOP)
  {
  }

  /** Entering the connecting state leaves the client's bytes alone. */
  lemma ConnectBegins(b: Bundle, env: Env)
    requires b.conn.wb == Empty(BUFFER_SIZE) && b.origin == None && ConnectAllowed(b, env.connect)
    requires b.conn.current != Some(REQUEST_CONNECTING)
    ensures var e := Arrive(b, REQUEST_CONNECTING, env);
            ConnectStarted(env.connect, Some(e)) && e.conn.input == b.conn.input && e.conn.rb == b.conn.rb
  {
    FailureIsReported(b, env);
    ConnectsOnArrival(b, env);
  }

  lemma ResolutionStage(b: Bundle, side: Side, kind: Kind, env: Env, table: seq<User>, resolved: bool)
    requires Arrives(b, side, kind, env, REQUEST_RESOLV)
    ensures kind.BlockEvent? && ResolutionOutcome(resolved, env.connect, AfterOf(b, side, kind, env, table, resolved))
  {
    ResolutionDecides(b, resolved);
    if resolved {
      ConnectBegins(b, env);
    }
  }

  lemma ConnectStage(b: Bundle, side: Side, kind: Kind, env: Env, table: seq<User>, resolved: bool)
    requires Arrives(b, side, kind, env, REQUEST_CONNECTING)
    ensures kind.WriteEvent?
    ensures ConnectOutcome(b.conn, b.origin.Some?, env.soError, AfterOf(b, side, kind, env, table, resolved))
  {
    OutcomeIsReported(b, side, env.soError);
  }

  lemma ReplyStage(b: Bundle, side: Side, kind: Kind, env: Env, table: seq<User>, resolved: bool)
    requires Arrives(b, side, kind, env, REQUEST_WRITE)
    ensures kind.WriteEvent? && ReplyOutcome(b.conn, env.sent, AfterOf(b, side, kind, env, table, resolved))
  {
    ReplyDecides(b, env.sent);
    var (b1, next) := RequestWrite(b, env.sent);
    if next == COPY {
      RelayBegins(b1, env);
    }
  }

  /** The relay's event that an event of one of its descriptors is. */
  function RelayEvent(side: Side, kind: Kind, env: Env): Relay.Event {
    if kind.ReadEvent? then Relay.Recv(side, env.recv) else Relay.Send(side, env.sent)
  }

  lemma RelayStage(b: Bundle, side: Side, kind: Kind, env: Env, table: seq<User>, resolved: bool)
    requires Arrives(b, side, kind, env, COPY)
    ensures b.origin.Some? && Relay.Enabled(RelayOf(b), RelayEvent(side, kind, env))
    ensures RelayOutcome(b, RelayEvent(side, kind, env), AfterOf(b, side, kind, env, table, resolved))
  {
    if kind.ReadEvent? {
      RelayReads(b, side, env.recv);
    } else {
      RelayWrites(b, side, env.sent);
    }
  }
}
