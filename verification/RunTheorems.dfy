/**
 What every run of the proxy shows its clients, stage by stage and byte by byte; what it counts; and that accepting,
 configuring and relaying do over whole runs what they do in one step.
 */
module RunTheorems {

  import opened Base
  import opened Buffers
  import opened SelectorTable
  import opened StateMachineModule
  import opened UsersModule
  import opened ConnectionModule
  import opened ConnectionInvariantModule
  import opened StageTheorems
  import opened WorldModule
  import opened WorldInvariantModule
  import opened ProxyTheorems
  import opened ProtocolTheorems
  import D = DissectorModule
  import Relay = RelayModule

  /** After some run, this event can happen, to this connection in this state. */
  ghost predicate Happens(w0: World, es: seq<Event>, w: World, e: Event, id: nat, st: nat) {
    Reaches(w0, es, w) && CanHappen(w, e) && Concerns(w, e, id) && id in w.conns && StateOf(w.conns[id]) == st
  }

  /** The event comes from a descriptor, not from the list of finished resolutions. */
  predicate IsReady(e: Event, write: bool) {
    e.ReadyFd? && e.write == write
  }

  // ----- What each stage does, over all runs -----

  /** The method that the connection's hello parser looks for once the event has been handled. */
  function WantedBy(w: World, c: Conn): Byte {
    if c.current.Some? then c.hello.wanted else if c.isSocks then w.authMethod else 2
  }

  lemma EnteringWants(w: World, id: nat)
    requires id in w.conns && w.conns[id].clientFd in w.table
    ensures var c, d := w.conns[id], Entering(w, id).conn;
            d.input == c.input && d.isSocks == c.isSocks && d.hello.wanted == WantedBy(w, c)
  {
  }

  /** The opening is answered as soon as it is complete. */
  lemma OpeningOverRuns(w0: World, es: seq<Event>, w: World, e: Event, id: nat)
    requires Happens(w0, es, w, e, id, HELLO_READ)
    ensures IsReady(e, false) && Step(w, e).Continue?
    ensures var c := w.conns[id];
            OpeningOutcome(c.input, VersionByte(c), WantedBy(w, c), e.env.recv, In(Next(w, e), id))
  {
    ReachedInv(w0, es, w);
    EventHandled(w, e, id);
    EnteringWants(w, id);
    OpeningStage(Entering(w, id), SideOf(w.conns[id], FdOf(w, e)), KindOf(e), EnvOf(e), w.users, ResolvedOf(e));
  }

  /** The selected method decides what follows the answer. */
  lemma MethodOverRuns(w0: World, es: seq<Event>, w: World, e: Event, id: nat)
    requires Happens(w0, es, w, e, id, HELLO_WRITE)
    ensures IsReady(e, true) && Step(w, e).Continue?
    ensures MethodOutcome(w.conns[id], e.env.sent, In(Next(w, e), id))
  {
    ReachedInv(w0, es, w);
    EventHandled(w, e, id);
    MethodStage(Entering(w, id), SideOf(w.conns[id], FdOf(w, e)), KindOf(e), EnvOf(e), w.users, ResolvedOf(e));
  }

  /** Credentials are checked as soon as their message is complete, against the users as they are at that moment. */
  lemma CredentialsOverRuns(w0: World, es: seq<Event>, w: World, e: Event, id: nat)
    requires Happens(w0, es, w, e, id, USERPASS_READ)
    ensures IsReady(e, false) && Step(w, e).Continue?
    ensures CredentialsOutcome(w.conns[id], e.env.recv, w.users, In(Next(w, e), id))
  {
    ReachedInv(w0, es, w);
    EventHandled(w, e, id);
    CredentialsStage(Entering(w, id), SideOf(w.conns[id], FdOf(w, e)), KindOf(e), EnvOf(e), w.users, ResolvedOf(e));
  }

  /** Only a grant leads to the request, and the client is told which it was. */
  lemma VerdictOverRuns(w0: World, es: seq<Event>, w: World, e: Event, id: nat)
    requires Happens(w0, es, w, e, id, USERPASS_WRITE)
    ensures IsReady(e, true) && Step(w, e).Continue? && w.conns[id].wb.Valid()
    ensures VerdictOutcome(w.conns[id], e.env.sent, In(Next(w, e), id))
  {
    ReachedInv(w0, es, w);
    EventHandled(w, e, id);
    VerdictStage(Entering(w, id), SideOf(w.conns[id], FdOf(w, e)), KindOf(e), EnvOf(e), w.users, ResolvedOf(e));
  }

  /** The request behind the opening and the credentials is what is resolved or connected to. */
  lemma RequestOverRuns(w0: World, es: seq<Event>, w: World, e: Event, id: nat)
    requires Happens(w0, es, w, e, id, REQUEST_READ)
    ensures IsReady(e, false) && Step(w, e).Continue?
    ensures RequestOutcome(w.conns[id], e.env.recv, e.env.connect, In(Next(w, e), id))
  {
    ReachedInv(w0, es, w);
    EventHandled(w, e, id);
    RequestStage(Entering(w, id), SideOf(w.conns[id], FdOf(w, e)), KindOf(e), EnvOf(e), w.users, ResolvedOf(e));
  }

  /** A finished resolution concerns the client that waits for it: a name is connected to, or refused. */
  lemma ResolutionOverRuns(w0: World, es: seq<Event>, w: World, resolved: bool, env: Env)
    requires Reaches(w0, es, w) && CanHappen(w, Notify(resolved, env))
    ensures w.jobs[0] in w.table && Step(w, Notify(resolved, env)).Continue?
    ensures var id := w.table[w.jobs[0]].data;
            && id in w.conns && w.conns[id].clientFd == w.jobs[0] && w.conns[id].current == Some(REQUEST_RESOLV)
            && ResolutionOutcome(resolved, env.connect, In(Next(w, Notify(resolved, env)), id))
  {
    ReachedInv(w0, es, w);
    JobIsWaitedFor(w);
    var e, id := Notify(resolved, env), w.table[w.jobs[0]].data;
    EventHandled(w, e, id);
    ResolutionStage(Entering(w, id), SideOf(w.conns[id], FdOf(w, e)), KindOf(e), EnvOf(e), w.users, ResolvedOf(e));
  }

  /** The outcome of connecting, as the client is told it. */
  lemma ConnectOverRuns(w0: World, es: seq<Event>, w: World, e: Event, id: nat)
    requires Happens(w0, es, w, e, id, REQUEST_CONNECTING)
    ensures IsReady(e, true) && Step(w, e).Continue?
    ensures ConnectOutcome(w.conns[id], w.conns[id].originFd in w.table, e.env.soError, In(Next(w, e), id))
  {
    ReachedInv(w0, es, w);
    EventHandled(w, e, id);
    ConnectStage(Entering(w, id), SideOf(w.conns[id], FdOf(w, e)), KindOf(e), EnvOf(e), w.users, ResolvedOf(e));
  }

  /** Once the reply has been sent, the connection is relayed or ends. */
  lemma ReplyOverRuns(w0: World, es: seq<Event>, w: World, e: Event, id: nat)
    requires Happens(w0, es, w, e, id, REQUEST_WRITE)
    ensures IsReady(e, true) && Step(w, e).Continue?
    ensures ReplyOutcome(w.conns[id], e.env.sent, In(Next(w, e), id))
  {
    ReachedInv(w0, es, w);
    EventHandled(w, e, id);
    ReplyStage(Entering(w, id), SideOf(w.conns[id], FdOf(w, e)), KindOf(e), EnvOf(e), w.users, ResolvedOf(e));
  }

  /** The relay's event, and the side it is on: the origin's if it comes from the origin's descriptor. */
  function RelayEventOf(w: World, e: Event, id: nat): Relay.Event
    requires e.ReadyFd? && id in w.conns
  {
    var side := if e.fd == w.conns[id].originFd then Relay.Origin else Relay.Client;
    if e.write then Relay.Send(side, e.env.sent) else Relay.Recv(side, e.env.recv)
  }

  lemma RelayOverRuns(w0: World, es: seq<Event>, w: World, e: Event, id: nat)
    requires Happens(w0, es, w, e, id, COPY)
    ensures e.ReadyFd? && Step(w, e).Continue? && In(w, id).Some?
    ensures var b := In(w, id).value;
            && b.origin.Some? && Relay.Inv(RelayOf(b)) && Relay.Enabled(RelayOf(b), RelayEventOf(w, e, id))
            && RelayOutcome(b, RelayEventOf(w, e, id), In(Next(w, e), id))
  {
    ReachedInv(w0, es, w);
    EventHandled(w, e, id);
    RelayStage(Entering(w, id), SideOf(w.conns[id], FdOf(w, e)), KindOf(e), EnvOf(e), w.users, ResolvedOf(e));
  }

  // ----- What a step does to the records -----

  /** The record of a connection that has just been accepted. */
  ghost predicate IsNew(w: World, e: Event, c: Conn) {
    e.ReadyFd? && e.fd in w.table && w.table[e.fd].handler == PassiveHandler && e.accepted.Some? && c == NewConn(e.accepted.value)
  }

  lemma AcceptRecords(w: World, accepted: Option<int>, id: nat)
    requires PoolOk(w) && Accept(w, accepted).Continue? && id in Accept(w, accepted).world.conns
    ensures if id in w.conns then Accept(w, accepted).world.conns[id] == w.conns[id]
            else accepted.Some? && Accept(w, accepted).world.conns[id] == NewConn(accepted.value)
  {
    AllocateIsNew(w);
  }

  /** A record is as before, or new, or its connection has handled the event. */
  lemma StepRecords(w: World, e: Event, id: nat)
    requires Inv(w) && CanHappen(w, e) && Step(w, e).Continue? && id in Next(w, e).conns
    ensures id !in w.conns ==> IsNew(w, e, Next(w, e).conns[id])
    ensures id in w.conns && Next(w, e).conns[id] != w.conns[id] ==> Concerns(w, e, id)
  {
    if e.ReadyFd? && w.table[e.fd].handler == PassiveHandler {
      AcceptRecords(w, e.accepted, id);
    } else if e.ReadyFd? {
      EventHandled(w, e, w.table[e.fd].data);
    } else if e.Notify? {
      JobIsWaitedFor(w);
      EventHandled(w, e, w.table[w.jobs[0]].data);
    }
  }

  // ----- The method -----

  /** A jump changes neither the kind of a connection nor its hello parser. */
  lemma AfterKeepsHello(b: Bundle, side: Side, kind: Kind, env: Env, table: seq<User>, resolved: bool)
    requires Reactable(b, side, kind, env)
    ensures var b1, after := React(b, side, kind, env, table, resolved).0, AfterOf(b, side, kind, env, table, resolved);
            after.Some? ==> after.value.conn.isSocks == b1.conn.isSocks && after.value.conn.hello == b1.conn.hello
                            && after.value.conn.current.Some?
  {
    var (b1, next) := React(b, side, kind, env, table, resolved);
    if b1.conn.wb.Valid() && (next == COPY && b1.conn.current != Some(COPY) ==> b1.origin.Some?) {
      ArriveKeepsHello(b1, next, env);
    }
  }

  /** A handler changes neither the kind of its connection nor the method it looks for. */
  lemma ReactKeepsWanted(b: Bundle, side: Side, kind: Kind, env: Env, table: seq<User>, resolved: bool)
    requires Ok(b) && Reactable(b, side, kind, env)
    ensures var c := React(b, side, kind, env, table, resolved).0.conn;
            c.isSocks == b.conn.isSocks && c.hello.wanted == b.conn.hello.wanted
  {
    if b.conn.current == Some(HELLO_READ) {
      HelloKeepsWanted(b, env.recv);
    } else {
      ReactKeepsHello(b, side, kind, env, table, resolved);
    }
  }

  lemma ReactKeepsHello(b: Bundle, side: Side, kind: Kind, env: Env, table: seq<User>, resolved: bool)
    requires Reactable(b, side, kind, env) && b.conn.current != Some(HELLO_READ)
    ensures var b1 := React(b, side, kind, env, table, resolved).0;
            b1.conn.isSocks == b.conn.isSocks && b1.conn.hello == b.conn.hello
  {
  }

  lemma ArriveKeepsHello(b: Bundle, next: nat, env: Env)
    requires b.conn.wb.Valid() && (next == COPY && b.conn.current != Some(COPY) ==> b.origin.Some?)
    ensures var e := Arrive(b, next, env);
            e.conn.isSocks == b.conn.isSocks && e.conn.hello == b.conn.hello && e.conn.current == Some(next)
  {
  }

  /** The method a connection looks for is that of the world in which its first event comes, and stays. */
  lemma MethodIsFixed(w: World, e: Event, id: nat)
    requires Inv(w) && CanHappen(w, e) && Step(w, e).Continue? && id in w.conns && id in Next(w, e).conns
    ensures var c, c2 := w.conns[id], Next(w, e).conns[id];
            && c2.isSocks == c.isSocks
            && (c2.current.None? ==> c.current.None?)
            && (c2.current.Some? ==> c2.hello.wanted == WantedBy(w, c))
  {
    StepRecords(w, e, id);
    if Next(w, e).conns[id] != w.conns[id] {
      EventHandled(w, e, id);
      EnteringWants(w, id);
      var side := SideOf(w.conns[id], FdOf(w, e));
      ReactKeepsWanted(Entering(w, id), side, KindOf(e), EnvOf(e), w.users, ResolvedOf(e));
      AfterKeepsHello(Entering(w, id), side, KindOf(e), EnvOf(e), w.users, ResolvedOf(e));
    }
  }

  /** The run configures the method again and again, but always to one that satisfies `good`. */
  ghost predicate AlwaysConfigured(w: World, es: seq<Event>, good: Byte) {
    w.authMethod == good && forall e :: e in es && e.ChangeAuth? ==> e.authMethod == good
  }

  ghost predicate AllWant(w: World, m: Byte) {
    w.authMethod == m && forall id :: id in w.conns ==> w.conns[id].isSocks && (w.conns[id].current.Some? ==> w.conns[id].hello.wanted == m)
  }

  lemma AcceptKeepsSettings(w: World, accepted: Option<int>)
    requires Accept(w, accepted).Continue?
    ensures var w2 := Accept(w, accepted).world; w2.users == w.users && w2.authMethod == w.authMethod
  {
  }

  lemma ConnKeepsSettings(w: World, e: Event)
    requires Inv(w) && CanHappen(w, e) && Step(w, e).Continue? && (e.ReadyFd? || e.Notify?)
    ensures Next(w, e).users == w.users && Next(w, e).authMethod == w.authMethod
  {
    if e.Notify? {
      JobIsWaitedFor(w);
      EventHandled(w, e, w.table[w.jobs[0]].data);
    } else if w.table[e.fd].handler == SocksHandler {
      EventHandled(w, e, w.table[e.fd].data);
    } else {
      PassiveStep(w, e);
      AcceptKeepsSettings(w, e.accepted);
    }
  }

  /** Only the management server changes the users and the method. */
  lemma StepSettings(w: World, e: Event)
    requires Inv(w) && CanHappen(w, e) && Step(w, e).Continue?
    ensures Next(w, e).users == if e.ChangeUsers? then ChangeTable(w.users, e.op) else w.users
    ensures Next(w, e).authMethod == if e.ChangeAuth? then e.authMethod else w.authMethod
  {
    if e.ReadyFd? || e.Notify? {
      ConnKeepsSettings(w, e);
    }
  }

  lemma {:induction false} RunWants(w: World, es: seq<Event>, m: Byte)
    requires Inv(w) && IsRun(w, es) && AllWant(w, m) && AlwaysConfigured(w, es, m)
    ensures Run(w, es).Continue? && AllWant(Run(w, es).world, m)
    decreases |es|
  {
    if es != [] {
      var e := es[0];
      StepOk(w, e);
      StepSettings(w, e);
      forall id | id in Next(w, e).conns
        ensures Next(w, e).conns[id].isSocks && (Next(w, e).conns[id].current.Some? ==> Next(w, e).conns[id].hello.wanted == m)
      {
        StepRecords(w, e, id);
        if id in w.conns {
          MethodIsFixed(w, e, id);
        }
      }
      RunWants(Next(w, e), es[1..], m);
    }
  }

  /**
   A proxy that is configured to ask for credentials, and stays so, serves nobody without: whoever gets to a request
   offered that method, and sent a pair that was in the table when it was checked.
   */
  lemma GateAsksForCredentials(w0: World, es: seq<Event>, w: World, id: nat)
    requires Reaches(w0, es, w) && AlwaysConfigured(w0, es, 2)
    requires id in w.conns && StateOf(w.conns[id]) >= REQUEST_READ
    ensures var c := w.conns[id];
            && 2 <= c.helloLength <= |c.input| && c.hello.selected == 2 && 2 in c.input[2..c.helloLength]
            && CheckedAgainst(c) && c.checked.value.status == 0 && TableOnTheWay(w0, es, c.checked.value.table)
            && InTable(c.checked.value.table, c.checked.value.user, c.checked.value.pass)
  {
    InitialInv(w0);
    RunWants(w0, es, 2);
    ReachedInv(w0, es, w);
    var c := w.conns[id];
    assert RecordOk(w, id) && Ok(BundleOf(w, id));
    assert Offered(c);
    CheckedAgainstRealTable(w0, es, w, id);
    CStringOfStored(c.checked.value.user);
    CStringOfStored(c.checked.value.pass);
    InTableIsGranted(c.checked.value.table, c.checked.value.user, c.checked.value.pass);
  }

  /** A proxy that is configured not to ask, and stays so, selects only 0x00. */
  lemma OpenProxyAsksNothing(w0: World, es: seq<Event>, w: World, id: nat)
    requires Reaches(w0, es, w) && AlwaysConfigured(w0, es, 0)
    requires id in w.conns && StateOf(w.conns[id]) >= REQUEST_READ
    ensures var c := w.conns[id];
            2 <= c.helloLength <= |c.input| && c.hello.selected == 0 && 0 in c.input[2..c.helloLength]
  {
    InitialInv(w0);
    RunWants(w0, es, 0);
    ReachedInv(w0, es, w);
    assert RecordOk(w, id) && Ok(BundleOf(w, id));
    assert Offered(w.conns[id]);
  }

  // ----- The settings -----

  /** The changes to the user table among the events of a run. */
  function TableChanges(es: seq<Event>): seq<TableOp> {
    if es == [] then [] else (if es[0].ChangeUsers? then [es[0].op] else []) + TableChanges(es[1..])
  }

  /** The method that the last of the events which configure one sets. */
  function MethodAfter(es: seq<Event>, m: Byte): Byte
    decreases |es|
  {
    if es == [] then m else MethodAfter(es[1..], if es[0].ChangeAuth? then es[0].authMethod else m)
  }

  lemma FirstChange(t: seq<User>, es: seq<Event>)
    requires es != []
    ensures ChangeAll(t, TableChanges(es))
            == ChangeAll(if es[0].ChangeUsers? then ChangeTable(t, es[0].op) else t, TableChanges(es[1..]))
  {
    var more := TableChanges(es[1..]);
    if es[0].ChangeUsers? {
      assert ([es[0].op] + more)[1..] == more;
    } else {
      assert [] + more == more;
    }
  }

  /** The users and the method are those that the changes of the run make of the ones it started with. */
  lemma {:induction false} SettingsFollowChanges(w: World, es: seq<Event>)
    requires Inv(w) && IsRun(w, es)
    ensures Run(w, es).Continue?
    ensures Run(w, es).world.users == ChangeAll(w.users, TableChanges(es))
    ensures Run(w, es).world.authMethod == MethodAfter(es, w.authMethod)
    decreases |es|
  {
    if es != [] {
      StepOk(w, es[0]);
      StepSettings(w, es[0]);
      SettingsFollowChanges(Next(w, es[0]), es[1..]);
      FirstChange(w.users, es);
    }
  }

  // ----- The counters -----

  function One(b: bool): nat {
    if b then 1 else 0
  }

  /**
   What an event counts, by the state of its connection before and after, if there is one: connections that come
   about, relays that end, calls of `connect`, and checks of credentials.
   */
  predicate Counts(st: nat, origin: bool, env: Env, k: Counters, after: Option<nat>, k2: Counters) {
    var connects := st == 6 && origin && env.soError == Pending(0);
    && k2.historic == k.historic + One(connects)
    && k2.concurrent == k.concurrent + One(connects) - One(st == 8 && after.None?)
    && k2.maxConcurrent == (if connects then Max(k.maxConcurrent, k.concurrent + 1) else k.maxConcurrent)
    && k2.attempts == k.attempts + One(st != 6 && after == Some(6) && !env.connect.NoSocket? && !env.connect.NoFlags?)
    && k2.authAttempts == k.authAttempts + One(st == 2 && after == Some(3))
  }

  lemma CountCounts(b: Bundle, kind: Kind, env: Env, next: nat, k: Counters)
    requires b.conn.current.Some? && (b.conn.current == Some(COPY) ==> k.concurrent > 0 && (next == COPY || next == DONE))
    requires b.conn.current == Some(REQUEST_CONNECTING) ==> kind.WriteEvent? && (b.conn.status == SUCCEEDED <==> b.origin.Some?)
    ensures Counts(b.conn.current.value, b.origin.Some?, env, k, if Ends(next) then None else Some(next),
                   Count(k, b, kind, env, next))
  {
  }

  function StateAfter(after: Option<Bundle>): Option<nat> {
    if after.None? then None else after.value.conn.current
  }

  lemma AfterIsNext(b: Bundle, side: Side, kind: Kind, env: Env, table: seq<User>, resolved: bool)
    requires Ok(b) && Armed(b, side, kind) && Reactable(b, side, kind, env) && ConnectAllowed(b, env.connect)
    ensures var next := React(b, side, kind, env, table, resolved).1;
            StateAfter(AfterOf(b, side, kind, env, table, resolved)) == if Ends(next) then None else Some(next)
  {
    var (b1, next) := React(b, side, kind, env, table, resolved);
    ReactArrives(b, side, kind, env, table, resolved);
    ArriveKeepsHello(b1, next, env);
  }

  lemma CountedEvents(b: Bundle, side: Side, kind: Kind, env: Env, table: seq<User>, resolved: bool, k: Counters)
    requires Ok(b) && Armed(b, side, kind) && Reactable(b, side, kind, env) && ConnectAllowed(b, env.connect)
    requires b.conn.current == Some(COPY) ==> k.concurrent > 0
    ensures Counts(b.conn.current.value, b.origin.Some?, env, k, StateAfter(AfterOf(b, side, kind, env, table, resolved)),
                   Count(k, b, kind, env, React(b, side, kind, env, table, resolved).1))
  {
    AfterIsNext(b, side, kind, env, table, resolved);
    CopyingStaysOrEnds(b, side, kind, env, table, resolved);
    CountCounts(b, kind, env, React(b, side, kind, env, table, resolved).1, k);
  }

  lemma CopyingStaysOrEnds(b: Bundle, side: Side, kind: Kind, env: Env, table: seq<User>, resolved: bool)
    requires Reactable(b, side, kind, env)
    ensures b.conn.current == Some(COPY) ==>
              var next := React(b, side, kind, env, table, resolved).1; next == COPY || next == DONE
  {
  }

  /** What the server counts of a connection's event. */
  lemma CountersOverRuns(w0: World, es: seq<Event>, w: World, e: Event, id: nat)
    requires Reaches(w0, es, w) && CanHappen(w, e) && Concerns(w, e, id)
    ensures id in w.conns && Step(w, e).Continue?
    ensures id in Next(w, e).conns <==> In(Next(w, e), id).Some?
    ensures Counts(StateOf(w.conns[id]), w.conns[id].originFd in w.table, EnvOf(e), w.counters,
                   StateAfter(In(Next(w, e), id)), Next(w, e).counters)
  {
    ReachedInv(w0, es, w);
    EventHandled(w, e, id);
    ConnCounted(w, id);
    CountedEvents(Entering(w, id), SideOf(w.conns[id], FdOf(w, e)), KindOf(e), EnvOf(e), w.users, ResolvedOf(e), w.counters);
    EnteringShows(w, id);
  }

  lemma ConnCounted(w: World, id: nat)
    requires CountersOk(w.counters, w.conns) && id in w.conns
    ensures w.conns[id].current == Some(COPY) ==> w.counters.concurrent > 0
  {
    if w.conns[id].current == Some(COPY) {
      assert id in CountedSet(w.conns);
    }
  }

  lemma EnteringShows(w: World, id: nat)
    requires id in w.conns && w.conns[id].clientFd in w.table
    ensures var c, b := w.conns[id], Entering(w, id);
            && (b.origin.Some? <==> c.originFd in w.table)
            && (c.current.Some? ==> b.conn == c) && (c.current.None? ==> b.conn.current == Some(HELLO_READ))
  {
  }

  /** An event of a listening socket is an accept. */
  lemma PassiveStep(w: World, e: Event)
    requires Linked(w) && CanHappen(w, e) && e.ReadyFd? && w.table[e.fd].handler == PassiveHandler
    ensures Step(w, e) == Accept(w, e.accepted)
  {
    assert SlotOk(w, e.fd);
  }

  lemma AcceptCountsNothing(w: World, accepted: Option<int>)
    ensures Accept(w, accepted).Continue? ==> Accept(w, accepted).world.counters == w.counters
  {
  }

  /** Nothing else counts: accepting clients, resolver threads, and the management server's changes. */
  lemma CountersElsewhere(w: World, e: Event)
    requires Inv(w) && CanHappen(w, e) && Step(w, e).Continue?
    requires !e.Notify? && (e.ReadyFd? ==> w.table[e.fd].handler == PassiveHandler)
    ensures Next(w, e).counters == w.counters
  {
    if e.ReadyFd? {
      PassiveStep(w, e);
      AcceptCountsNothing(w, e.accepted);
    }
  }

  // ----- Accepting, and the pool -----

  /** What accepting makes of the world, with `id` for the record. */
  ghost predicate Accepts(w: World, accepted: Option<int>, id: nat, w2: World) {
    && id !in w.conns
    && (accepted == None ==> w2 == w)
    && (accepted.Some? && InvalidFd(accepted.value) ==> w2.conns == w.conns && w2.table == w.table)
    && (accepted.Some? && !InvalidFd(accepted.value) ==>
          && w2.conns.Keys == w.conns.Keys + {id} && (forall other :: other in w.conns ==> w2.conns[other] == w.conns[other])
          && w2.table == w.table[accepted.value := Slot(READ, SocksHandler, id)]
          && StartsOut(w2.conns[id], accepted.value)
          && if w.pool == [] then id == w.next && w2.next == w.next + 1 && w2.pool == []
             else id == w.pool[0] && w2.next == w.next && w2.pool == w.pool[1..])
  }

  lemma AcceptAccepts(w: World, accepted: Option<int>) returns (id: nat)
    requires PoolOk(w) && (accepted.Some? ==> Fresh(w, accepted.value))
    ensures Accept(w, accepted).Continue? && Accepts(w, accepted, id, Accept(w, accepted).world)
  {
    AllocateIsNew(w);
    id := Allocate(w).1;
    if accepted.Some? && InvalidFd(accepted.value) {
      RejectedIs(w, accepted.value);
    } else if accepted.Some? {
      AdmittedIs(w, accepted.value);
      NewStartsOut(accepted.value);
    }
  }

  /** An accepted client gets a record, from the pool if there is one there, and is watched for its opening. */
  lemma AcceptOverRuns(w0: World, es: seq<Event>, w: World, e: Event) returns (id: nat)
    requires Reaches(w0, es, w) && CanHappen(w, e) && e.ReadyFd? && w.table[e.fd].handler == PassiveHandler
    ensures Step(w, e).Continue? && Accepts(w, e.accepted, id, Next(w, e))
  {
    ReachedInv(w0, es, w);
    PassiveStep(w, e);
    id := AcceptAccepts(w, e.accepted);
  }

  /** A fresh record: nothing received, nothing to send, and no origin. */
  predicate StartsOut(c: Conn, fd: int) {
    && c.clientFd == fd && c.originFd == -1 && c.isSocks && c.current == None && c.references == 1
    && c.rb == Buf(2048, 0, []) && c.wb == Buf(2048, 0, []) && c.input == [] && c.checked == None
    && c.dissector == D.INITIAL
  }

  lemma NewStartsOut(fd: int)
    ensures StartsOut(NewConn(fd), fd)
  {
  }

  lemma AdmittedIs(w: World, fd: int)
    requires Fresh(w, fd) && !InvalidFd(fd) && PoolOk(w)
    ensures Accept(w, Some(fd)) == Continue(Admitted(w, fd))
    ensures var w2, id := Admitted(w, fd), Allocate(w).1;
            && w2.conns == w.conns[id := NewConn(fd)] && w2.table == w.table[fd := Slot(READ, SocksHandler, id)]
            && if w.pool == [] then id == w.next && w2.next == w.next + 1 && w2.pool == []
               else id == w.pool[0] && w2.next == w.next && w2.pool == w.pool[1..]
  {
    AllocateIsNew(w);
  }

  /** A record that goes out of use is kept for the next client unless 50 have been kept before. */
  lemma ReleaseOverRuns(w0: World, es: seq<Event>, w: World, e: Event, id: nat)
    requires Reaches(w0, es, w) && CanHappen(w, e) && Concerns(w, e, id)
    ensures Step(w, e).Continue?
    ensures id !in Next(w, e).conns ==>
              if w.poolSize < 50 then Next(w, e).pool == [id] + w.pool && Next(w, e).poolSize == w.poolSize + 1
              else Next(w, e).pool == w.pool && Next(w, e).freed == w.freed + {id}
  {
    ReachedInv(w0, es, w);
    EventPool(w, e, id);
  }
}
