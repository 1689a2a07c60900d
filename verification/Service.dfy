/**
 The proxy serves: from every reachable state, a client that has just been accepted and speaks the protocol can be
 taken through its stages to the relay, whatever other connections there are. No theorem over all runs holds only
 because there are no runs.
 */
module Service {

  import opened Base
  import opened Buffers
  import opened SelectorTable
  import opened StateMachineModule
  import opened UsersModule
  import opened ConnectionModule
  import opened ConnectionInvariantModule
  import opened StageTheorems
  import opened WorldModule
  import opened WorldInvariantModule
  import opened ProxyTheorems
  import opened ProtocolTheorems
  import opened RunTheorems
  import R = RequestParserModule
  import F = FieldParserModule

  // ----- Events of the client and the origin -----

  const NOTHING := Env(None, None, NoSocket, Unavailable)

  function Receives(fd: int, bytes: seq<Byte>, connect: Connect): Event {
    ReadyFd(fd, false, Env(Some(bytes), None, connect, Unavailable), None)
  }

  function Sends(fd: int, n: nat): Event {
    ReadyFd(fd, true, Env(None, Some(n), NoSocket, Unavailable), None)
  }

  /** The outcome of connecting: the socket has no error. */
  function Connects(fd: int): Event {
    ReadyFd(fd, true, Env(None, None, NoSocket, Pending(0)), None)
  }

  /** A sound world with this connection in it. */
  ghost predicate Has(w: World, id: nat, st: nat) {
    Inv(w) && id in w.conns && StateOf(w.conns[id]) == st
  }

  /** The events have happened, and led from one world to the other. */
  ghost predicate Leads(w: World, es: seq<Event>, w2: World) {
    IsRun(w, es) && Run(w, es) == Continue(w2)
  }

  lemma {:induction false} LeadsOn(w: World, es: seq<Event>, w2: World, e: Event)
    requires Leads(w, es, w2) && CanHappen(w2, e) && Step(w2, e).Continue?
    ensures Leads(w, es + [e], Next(w2, e))
    decreases |es|
  {
    if es == [] {
      assert [] + [e] == [e] && [e][1..] == [];
      assert IsRun(Next(w, e), []) && Run(Next(w, e), []) == Continue(Next(w, e));
    } else {
      assert (es + [e])[1..] == es[1..] + [e];
      LeadsOn(Next(w, es[0]), es[1..], w2, e);
    }
  }

  /** An event that the connection is watched for, and that fits it, can happen. */
  lemma ClientEventHappens(w: World, id: nat, e: Event)
    requires Inv(w) && id in w.conns && e.ReadyFd? && e.accepted == None && EnvAllowed(w, e.env)
    requires e.fd == w.conns[id].clientFd && e.fd in w.table
    requires if e.write then w.table[e.fd].interest.write else w.table[e.fd].interest.read
    requires Entering(w, id).conn.current.Some? && Possible(Entering(w, id), Side.Client, KindOf(e), e.env)
    ensures CanHappen(w, e) && Concerns(w, e, id) && SideOf(w.conns[id], e.fd) == Side.Client
  {
    assert RecordOk(w, id) && Ok(BundleOf(w, id));
  }

  lemma OriginEventHappens(w: World, id: nat, e: Event)
    requires Inv(w) && id in w.conns && e.ReadyFd? && e.accepted == None && EnvAllowed(w, e.env)
    requires e.fd == w.conns[id].originFd && e.fd in w.table
    requires if e.write then w.table[e.fd].interest.write else w.table[e.fd].interest.read
    requires w.conns[id].clientFd in w.table
    requires Entering(w, id).conn.current.Some? && Possible(Entering(w, id), Side.Origin, KindOf(e), e.env)
    ensures CanHappen(w, e) && Concerns(w, e, id) && SideOf(w.conns[id], e.fd) == Side.Origin
  {
    assert RecordOk(w, id);
  }

  /** What is known of a connection when an event comes. */
  lemma HereNow(w: World, id: nat, st: nat)
    requires Has(w, id, st)
    ensures w.conns[id].clientFd in w.table && In(w, id).Some?
    ensures Ok(Entering(w, id)) && Entering(w, id).conn.current == Some(st)
    ensures Entering(w, id).client == w.table[w.conns[id].clientFd].interest
    ensures w.conns[id].current.Some? ==> Entering(w, id) == In(w, id).value
  {
    EnteringIsOk(w, id);
  }

  /** The other connections do not mind: a descriptor that nobody has stays so, unless this connection opens it. */
  lemma StaysFresh(w: World, e: Event, id: nat, fd: int)
    requires Inv(w) && CanHappen(w, e) && Concerns(w, e, id) && Fresh(w, fd)
    requires Step(w, e).Continue? && id in Next(w, e).conns && Next(w, e).conns[id].originFd != fd
    ensures Fresh(Next(w, e), fd)
  {
    var b2, n := EventSettles(w, e, id);
    JumpedStaysFresh(Found(w, e), id, Entering(w, id), b2, KindOf(e), EnvOf(e), n, fd);
  }

  lemma JumpedStaysFresh(w: World, id: nat, b: Bundle, b2: Bundle, kind: Kind, env: Env, next: nat, fd: int)
    requires Linked(w) && id in w.conns && w.conns[id].clientFd in w.table && Fresh(w, fd)
    requires JumpedApart(w, Jumped(w, id, b, b2, kind, env, next), id, b2)
    requires var s := Settled(w, id, b, b2, kind, env, next); id in s.conns && s.conns[id].originFd != fd
    ensures Fresh(Settled(w, id, b, b2, kind, env, next), fd)
  {
  }

  /** What one event of the client or the origin comes down to. */
  ghost predicate Handled(w: World, e: Event, id: nat, side: Side) {
    && id in w.conns && w.conns[id].clientFd in w.table && e.ReadyFd?
    && CanHappen(w, e) && Concerns(w, e, id) && Step(w, e).Continue? && Inv(Next(w, e))
    && Next(w, e).users == w.users
    && Arrives(Entering(w, id), side, KindOf(e), e.env, StateOf(w.conns[id]))
    && In(Next(w, e), id) == AfterOf(Entering(w, id), side, KindOf(e), e.env, w.users, false)
    && (id in Next(w, e).conns <==> In(Next(w, e), id).Some?)
  }

  lemma ClientEventHandled(w: World, id: nat, e: Event)
    requires Inv(w) && id in w.conns && e.ReadyFd? && e.accepted == None && EnvAllowed(w, e.env)
    requires e.fd == w.conns[id].clientFd && e.fd in w.table
    requires if e.write then w.table[e.fd].interest.write else w.table[e.fd].interest.read
    requires Entering(w, id).conn.current.Some? && Possible(Entering(w, id), Side.Client, KindOf(e), e.env)
    ensures Handled(w, e, id, Side.Client)
  {
    ClientEventHappens(w, id, e);
    StepOk(w, e);
    EventHandled(w, e, id);
  }

  lemma OriginEventHandled(w: World, id: nat, e: Event)
    requires Inv(w) && id in w.conns && e.ReadyFd? && e.accepted == None && EnvAllowed(w, e.env)
    requires e.fd == w.conns[id].originFd && e.fd in w.table && w.conns[id].clientFd in w.table
    requires if e.write then w.table[e.fd].interest.write else w.table[e.fd].interest.read
    requires Entering(w, id).conn.current.Some? && Possible(Entering(w, id), Side.Origin, KindOf(e), e.env)
    ensures Handled(w, e, id, Side.Origin)
  {
    OriginEventHappens(w, id, e);
    StepOk(w, e);
    EventHandled(w, e, id);
  }

  // ----- The stages -----

  /** A whole opening that offers this method. */
  predicate Offers(s: seq<Byte>, m: Byte) {
    OpeningMessage(s, 5) && |s| == 2 + s[1] as int && m in s[2..]
  }

  /** The answer to the opening waits to be sent. */
  ghost predicate Opened(c: Conn, s: seq<Byte>, m: Byte) {
    c.current == Some(HELLO_WRITE) && c.input == s && c.wb.bytes == [5, m] && c.hello.selected == m && c.isSocks
  }

  /** The opening arrives whole, and is answered. */
  lemma Opens(w: World, id: nat, s: seq<Byte>)
    requires Has(w, id, HELLO_READ) && w.conns[id].current == None && w.conns[id].isSocks && Offers(s, w.authMethod)
    ensures var e := Receives(w.conns[id].clientFd, s, NoSocket);
            Handled(w, e, id, Side.Client) && Has(Next(w, e), id, HELLO_WRITE) && Opened(Next(w, e).conns[id], s, w.authMethod)
  {
    var e := Receives(w.conns[id].clientFd, s, NoSocket);
    HereNow(w, id, HELLO_READ);
    EnteringWants(w, id);
    ClientEventHandled(w, id, e);
    OpensBundle(Entering(w, id), s, w.authMethod, e.env, w.users);
    SoundlyWired(Next(w, e), id);
  }

  lemma OpensBundle(b: Bundle, s: seq<Byte>, m: Byte, env: Env, table: seq<User>)
    requires Arrives(b, Side.Client, ReadEvent, env, HELLO_READ) && env.recv == Some(s)
    requires b.conn.input == [] && b.conn.isSocks && b.conn.hello.wanted == m && Offers(s, m)
    ensures var after := AfterOf(b, Side.Client, ReadEvent, env, table, false);
            after.Some? && var c := after.value.conn;
            c.current == Some(HELLO_WRITE) && c.input == s && c.wb.bytes == [5, m] && c.hello.selected == m && c.isSocks
  {
    ReactKeepsWanted(b, Side.Client, ReadEvent, env, table, false);
    AfterKeepsHello(b, Side.Client, ReadEvent, env, table, false);
    OpeningStage(b, Side.Client, ReadEvent, env, table, false);
    assert [] + s == s;
  }

  lemma SoundlyWired(w: World, id: nat)
    requires Inv(w) && id in w.conns
    ensures RecordOk(w, id) && Ok(BundleOf(w, id))
  {
  }

  /** An empty buffer has all its room. */
  lemma AllRoom(b: Bundle)
    requires Ok(b) && b.conn.rb.bytes == []
    ensures b.conn.rb.Room() == 2048
  {
  }

  /** The answer to the opening is sent in one go. */
  lemma Answers(w: World, id: nat, s: seq<Byte>, m: Byte)
    requires Has(w, id, HELLO_WRITE) && Opened(w.conns[id], s, m) && (m == 0 || m == 2)
    ensures var e := Sends(w.conns[id].clientFd, 2);
            && Handled(w, e, id, Side.Client) && Has(Next(w, e), id, if m == 0 then REQUEST_READ else USERPASS_READ)
            && Next(w, e).conns[id].input == s && Next(w, e).conns[id].hello == w.conns[id].hello
            && Next(w, e).conns[id].isSocks == w.conns[id].isSocks
  {
    var e := Sends(w.conns[id].clientFd, 2);
    HereNow(w, id, HELLO_WRITE);
    SoundlyWired(w, id);
    ClientEventHandled(w, id, e);
    MethodStage(Entering(w, id), Side.Client, KindOf(e), e.env, w.users, false);
    AfterKeepsHello(Entering(w, id), Side.Client, KindOf(e), e.env, w.users, false);
    ReactKeepsHello(Entering(w, id), Side.Client, KindOf(e), e.env, w.users, false);
  }

  /** The opening is all that has been received, and it has been consumed. */
  lemma OnlyOpening(w: World, id: nat, s: seq<Byte>, m: Byte)
    requires Has(w, id, if m == 0 then REQUEST_READ else USERPASS_READ) && (m == 0 || m == 2)
    requires w.conns[id].current.Some? && w.conns[id].isSocks
    requires w.conns[id].input == s && w.conns[id].hello.selected == m && Offers(s, w.conns[id].hello.selected)
    ensures w.conns[id].rb.bytes == [] && w.conns[id].helloLength == |s|
    ensures m == 0 ==> RequestStart(w.conns[id]) == |s|
  {
    SoundlyWired(w, id);
  }

  /** The credentials arrive whole, and are granted. */
  lemma LogsIn(w: World, id: nat, user: seq<Byte>, pass: seq<Byte>)
    requires Has(w, id, USERPASS_READ) && w.conns[id].rb.bytes == [] && w.conns[id].helloLength == |w.conns[id].input|
    requires |user| <= 255 && |pass| <= 255 && InTable(w.users, user, pass)
    ensures var e := Receives(w.conns[id].clientFd, F.EncodeCredentials(user, pass), NoSocket);
            && Handled(w, e, id, Side.Client) && Has(Next(w, e), id, USERPASS_WRITE)
            && var c := Next(w, e).conns[id];
               && c.input == w.conns[id].input + F.EncodeCredentials(user, pass) && c.authentication == 0
               && c.wb.bytes == [] && c.hello == w.conns[id].hello && c.isSocks == w.conns[id].isSocks
  {
    var message := F.EncodeCredentials(user, pass);
    var e := Receives(w.conns[id].clientFd, message, NoSocket);
    HereNow(w, id, USERPASS_READ);
    SoundlyWired(w, id);
    AllRoom(Entering(w, id));
    ClientEventHandled(w, id, e);
    CredentialsStage(Entering(w, id), Side.Client, KindOf(e), e.env, w.users, false);
    assert CredentialsInput(w.conns[id], message) == message;
    assert LoginMessage(message, user, pass);
    AfterKeepsHello(Entering(w, id), Side.Client, KindOf(e), e.env, w.users, false);
    ReactKeepsHello(Entering(w, id), Side.Client, KindOf(e), e.env, w.users, false);
  }

  /** The client is told that it may go on. */
  lemma Admits(w: World, id: nat)
    requires Has(w, id, USERPASS_WRITE) && w.conns[id].authentication == 0 && w.conns[id].wb.bytes == []
    ensures var e := Sends(w.conns[id].clientFd, 2);
            && Handled(w, e, id, Side.Client) && Has(Next(w, e), id, REQUEST_READ)
            && Next(w, e).conns[id].input == w.conns[id].input && Next(w, e).conns[id].hello == w.conns[id].hello
            && Next(w, e).conns[id].isSocks == w.conns[id].isSocks
  {
    var e := Sends(w.conns[id].clientFd, 2);
    HereNow(w, id, USERPASS_WRITE);
    SoundlyWired(w, id);
    OffersTwo(Entering(w, id));
    ClientEventHandled(w, id, e);
    VerdictStage(Entering(w, id), Side.Client, KindOf(e), e.env, w.users, false);
    AfterKeepsHello(Entering(w, id), Side.Client, KindOf(e), e.env, w.users, false);
    ReactKeepsHello(Entering(w, id), Side.Client, KindOf(e), e.env, w.users, false);
  }

  lemma OffersTwo(b: Bundle)
    requires Ok(b) && b.conn.wb.bytes == []
    ensures b.conn.wb.Valid() && AuthReply(b.conn).bytes == [1, b.conn.authentication] && b.conn.wb.Room() == 2048
  {
    assert [] + [1, b.conn.authentication] == [1, b.conn.authentication];
  }

  /** The opening and the credentials are all that has been received, and they have been consumed. */
  lemma OnlyLogin(w: World, id: nat, s: seq<Byte>, user: seq<Byte>, pass: seq<Byte>)
    requires Has(w, id, REQUEST_READ) && |user| <= 255 && |pass| <= 255
    requires w.conns[id].isSocks && w.conns[id].input == s + F.EncodeCredentials(user, pass)
    requires w.conns[id].hello.selected == 2 && Offers(s, 2)
    ensures w.conns[id].rb.bytes == [] && RequestStart(w.conns[id]) == |w.conns[id].input|
  {
    SoundlyWired(w, id);
    var c := w.conns[id];
    assert c.input[c.helloLength..] == F.EncodeCredentials(user, pass);
    SameLengths(F.EncodeCredentials(user, pass), c.checked.value.user, c.checked.value.pass, user, pass);
  }

  lemma SameLengths(t: seq<Byte>, u: seq<Byte>, v: seq<Byte>, user: seq<Byte>, pass: seq<Byte>)
    requires |u| <= 255 && |v| <= 255 && |user| <= 255 && |pass| <= 255
    requires t == F.EncodeCredentials(user, pass) && F.EncodeCredentials(u, v) <= t
    ensures |u| == |user| && |v| == |pass|
  {
    assert t[1] == |user| && t[1] == |u|;
    assert t[2 + |user|] == |pass| && t[2 + |u|] == |v|;
  }

  // ----- From the request to the relay -----

  /** A request that the parser accepts. */
  predicate Requests(q: seq<Byte>, r: R.Request) {
    r.Accepted() && q == r.Encode() && |q| >= 4
  }

  lemma RequestIsShort(r: R.Request)
    requires r.Accepted()
    ensures 4 <= |r.Encode()| <= 300 && r.Encode()[3] in {1, 3, 4}
  {
  }

  /** The origin is being connected. */
  ghost predicate Connecting(w: World, id: nat) {
    && Has(w, id, REQUEST_CONNECTING) && w.conns[id].clientFd in w.table
    && BundleOf(w, id).origin == Some(WRITE) && w.conns[id].wb.bytes == []
  }

  lemma ConnectingNow(w: World, id: nat, connect: Connect)
    requires Inv(w) && ConnectStarted(connect, In(w, id)) && Waits(connect)
    ensures Connecting(w, id)
  {
  }

  function Towards(fd: int): Connect {
    InProgress(fd)
  }

  lemma TowardsAllowed(w: World, fd: int, recv: Option<seq<Byte>>)
    requires Fresh(w, fd) && !InvalidFd(fd)
    ensures EnvAllowed(w, Env(recv, None, Towards(fd), Unavailable)) && Waits(Towards(fd))
  {
  }

  /** A request for an address arrives whole, and is being connected. */
  lemma AsksForAddress(w: World, id: nat, q: seq<Byte>, r: R.Request, fd: int)
    requires Has(w, id, REQUEST_READ) && w.conns[id].rb.bytes == [] && RequestStart(w.conns[id]) == |w.conns[id].input|
    requires Requests(q, r) && q[3] != 3 && Fresh(w, fd) && !InvalidFd(fd)
    ensures var e := Receives(w.conns[id].clientFd, q, Towards(fd));
            && Handled(w, e, id, Side.Client) && Connecting(Next(w, e), id)
            && Next(w, e).conns[id].input == w.conns[id].input + q
  {
    var e := Receives(w.conns[id].clientFd, q, Towards(fd));
    RequestArrives(w, id, q, r, Towards(fd), e);
    ConnectingNow(Next(w, e), id, Towards(fd));
  }

  /** A request for a name arrives whole, and is being resolved. */
  lemma AsksForName(w: World, id: nat, q: seq<Byte>, r: R.Request)
    requires Has(w, id, REQUEST_READ) && w.conns[id].rb.bytes == [] && RequestStart(w.conns[id]) == |w.conns[id].input|
    requires Requests(q, r) && q[3] == 3
    ensures var e := Receives(w.conns[id].clientFd, q, NoSocket);
            && Handled(w, e, id, Side.Client) && Has(Next(w, e), id, REQUEST_RESOLV)
            && Next(w, e).conns[id].input == w.conns[id].input + q
  {
    var e := Receives(w.conns[id].clientFd, q, NoSocket);
    RequestArrives(w, id, q, r, NoSocket, e);
  }

  lemma RequestArrives(w: World, id: nat, q: seq<Byte>, r: R.Request, connect: Connect, e: Event)
    requires Has(w, id, REQUEST_READ) && w.conns[id].rb.bytes == [] && RequestStart(w.conns[id]) == |w.conns[id].input|
    requires Requests(q, r) && e == Receives(w.conns[id].clientFd, q, connect) && EnvAllowed(w, e.env)
    ensures Handled(w, e, id, Side.Client)
    ensures var after := In(Next(w, e), id);
            && after.Some? && after.value.conn.input == w.conns[id].input + q
            && (q[3] == 3 ==> Lives(after, 5, NOOP)) && (q[3] != 3 ==> ConnectStarted(connect, after))
  {
    HereNow(w, id, REQUEST_READ);
    SoundlyWired(w, id);
    AllRoom(Entering(w, id));
    RequestIsShort(r);
    ClientEventHandled(w, id, e);
    RequestStage(Entering(w, id), Side.Client, KindOf(e), e.env, w.users, false);
    assert RequestInput(w.conns[id], q) == q;
    assert RequestMessage(q, r, q[3]);
  }

  /** The origin accepts the connection. */
  lemma OriginAccepts(w: World, id: nat)
    requires Connecting(w, id)
    ensures var e := Connects(w.conns[id].originFd);
            && Handled(w, e, id, Side.Origin) && Has(Next(w, e), id, REQUEST_WRITE)
            && var c := Next(w, e).conns[id];
               c.input == w.conns[id].input && c.status == 0 && IsReply(c.wb.bytes, 0)
  {
    var e := Connects(w.conns[id].originFd);
    HereNow(w, id, REQUEST_CONNECTING);
    SoundlyWired(w, id);
    OriginEventHandled(w, id, e);
    ConnectStage(Entering(w, id), Side.Origin, KindOf(e), e.env, w.users, false);
    ConnectKeepsInput(Entering(w, id), e.env, w.users);
  }

  lemma ConnectKeepsInput(b: Bundle, env: Env, table: seq<User>)
    requires Arrives(b, Side.Origin, WriteEvent, env, REQUEST_CONNECTING)
    ensures var after := AfterOf(b, Side.Origin, WriteEvent, env, table, false);
            after.Some? ==> after.value.conn.input == b.conn.input
  {
  }

  /** The reply is sent in one go, and the relay begins. */
  lemma Relays(w: World, id: nat)
    requires Has(w, id, REQUEST_WRITE) && w.conns[id].status == 0 && IsReply(w.conns[id].wb.bytes, 0)
    ensures var e := Sends(w.conns[id].clientFd, 10);
            && Handled(w, e, id, Side.Client) && Has(Next(w, e), id, COPY)
            && Next(w, e).conns[id].input == w.conns[id].input
  {
    var e := Sends(w.conns[id].clientFd, 10);
    HereNow(w, id, REQUEST_WRITE);
    SoundlyWired(w, id);
    ClientEventHandled(w, id, e);
    ReplyStage(Entering(w, id), Side.Client, KindOf(e), e.env, w.users, false);
  }

  // ----- Resolving -----

  lemma JobsStay(w: World, e: Event, id: nat)
    requires Inv(w) && CanHappen(w, e) && Concerns(w, e, id) && e.ReadyFd? && Step(w, e).Continue?
    ensures Next(w, e).jobs == w.jobs
  {
    var b2, n := EventSettles(w, e, id);
    SettledJobs(w, id, Entering(w, id), b2, KindOf(e), EnvOf(e), n);
  }

  lemma SettledJobs(w: World, id: nat, b: Bundle, b2: Bundle, kind: Kind, env: Env, next: nat)
    requires id in w.conns && w.conns[id].clientFd in w.table
    ensures Settled(w, id, b, b2, kind, env, next).jobs == w.jobs
  {
  }

  /** The resolver thread of a name just asked for is at work. */
  lemma ThreadAtWork(w: World, e: Event, id: nat)
    requires Handled(w, e, id, Side.Client) && Inv(w) && StateOf(w.conns[id]) == REQUEST_READ
    requires Has(Next(w, e), id, REQUEST_RESOLV)
    ensures Next(w, e).conns[id].clientFd in Next(w, e).resolving
  {
    JobsStay(w, e, id);
    var w2, fd := Next(w, e), Next(w, e).conns[id].clientFd;
    SoundlyWired(w2, id);
    SoundlyWired(w, id);
    SameClient(w, e, id);
    assert Waiting(w2, fd) && !Waiting(w, fd);
    assert (w.resolving + multiset(w.jobs))[fd] == 0;
    assert (w2.resolving + multiset(w2.jobs))[fd] == 1;
  }

  lemma SameClient(w: World, e: Event, id: nat)
    requires Handled(w, e, id, Side.Client) && Inv(w) && In(Next(w, e), id).Some?
    ensures Next(w, e).conns[id].clientFd == w.conns[id].clientFd
  {
    HereNow(w, id, StateOf(w.conns[id]));
    JumpKeepsFds(Entering(w, id), Side.Client, KindOf(e), e.env, w.users, false);
  }

  /** The client's name has been resolved, and its job is at the head of the list. */
  ghost predicate Resolved(w: World, id: nat) {
    Has(w, id, REQUEST_RESOLV) && w.jobs != [] && w.conns[id].clientFd == w.jobs[0]
  }

  lemma ThreadFinishes(w: World, id: nat, fd: int)
    requires Has(w, id, REQUEST_RESOLV) && w.conns[id].clientFd in w.resolving && Fresh(w, fd)
    ensures var e := ThreadDone(w.conns[id].clientFd);
            && CanHappen(w, e) && Step(w, e).Continue? && Resolved(Next(w, e), id) && Fresh(Next(w, e), fd)
            && Next(w, e).conns[id].input == w.conns[id].input
  {
    ThreadDoneOk(w, w.conns[id].clientFd);
  }

  lemma JobConcerns(w: World, id: nat, e: Event)
    requires Resolved(w, id) && e.Notify? && EnvAllowed(w, e.env)
    ensures CanHappen(w, e) && Concerns(w, e, id)
  {
    SoundlyWired(w, id);
  }

  /** The name is being connected to. */
  lemma NameConnects(w: World, id: nat, fd: int)
    requires Resolved(w, id) && Fresh(w, fd) && !InvalidFd(fd)
    ensures var e := Notify(true, Env(None, None, Towards(fd), Unavailable));
            && CanHappen(w, e) && Step(w, e).Continue? && Connecting(Next(w, e), id)
            && Next(w, e).conns[id].input == w.conns[id].input
  {
    var e := Notify(true, Env(None, None, Towards(fd), Unavailable));
    TowardsAllowed(w, fd, None);
    JobConcerns(w, id, e);
    StepOk(w, e);
    EventHandled(w, e, id);
    HereNow(w, id, REQUEST_RESOLV);
    ResolutionStage(Entering(w, id), SideOf(w.conns[id], FdOf(w, e)), KindOf(e), EnvOf(e), w.users, true);
    ResolutionKeepsInput(Entering(w, id), SideOf(w.conns[id], FdOf(w, e)), EnvOf(e), w.users);
    ConnectingNow(Next(w, e), id, Towards(fd));
  }

  lemma ResolutionKeepsInput(b: Bundle, side: Side, env: Env, table: seq<User>)
    requires Arrives(b, side, BlockEvent, env, REQUEST_RESOLV)
    ensures var after := AfterOf(b, side, BlockEvent, env, table, true);
            after.Some? ==> after.value.conn.input == b.conn.input
  {
  }

  // ----- The whole way -----

  lemma EarlyStaysFresh(w: World, e: Event, id: nat, fd: int)
    requires Inv(w) && Handled(w, e, id, Side.Client) && Fresh(w, fd)
    requires id in Next(w, e).conns && StateOf(Next(w, e).conns[id]) <= REQUEST_RESOLV
    ensures Fresh(Next(w, e), fd)
  {
    SoundlyWired(Next(w, e), id);
    StaysFresh(w, e, id, fd);
  }

  /** The connection waits for its request, and has consumed everything before. */
  ghost predicate AwaitsRequest(w: World, id: nat, input: seq<Byte>) {
    && Has(w, id, REQUEST_READ) && w.conns[id].rb.bytes == [] && w.conns[id].input == input
    && RequestStart(w.conns[id]) == |input|
  }

  /** The connection waits for its credentials, and has consumed the opening. */
  ghost predicate AwaitsLogin(w: World, id: nat, s: seq<Byte>) {
    && Has(w, id, USERPASS_READ) && w.conns[id].rb.bytes == [] && w.conns[id].input == s
    && w.conns[id].helloLength == |s| && w.conns[id].hello.selected == 2 && w.conns[id].isSocks && Offers(s, 2)
  }

  /** From the first byte to the answered opening. */
  lemma Greets(w: World, id: nat, s: seq<Byte>, fd: int) returns (es: seq<Event>, w2: World)
    requires Has(w, id, HELLO_READ) && w.conns[id].current == None && w.conns[id].isSocks
    requires Offers(s, w.authMethod) && Fresh(w, fd)
    ensures Leads(w, es, w2) && Fresh(w2, fd) && w2.users == w.users
    ensures if w.authMethod == 0 then AwaitsRequest(w2, id, s) else w.authMethod == 2 && AwaitsLogin(w2, id, s)
  {
    var e1 := Receives(w.conns[id].clientFd, s, NoSocket);
    Opens(w, id, s);
    var w1 := Next(w, e1);
    EarlyStaysFresh(w, e1, id, fd);
    var e2 := Sends(w1.conns[id].clientFd, 2);
    Answers(w1, id, s, w.authMethod);
    w2 := Next(w1, e2);
    EarlyStaysFresh(w1, e2, id, fd);
    OnlyOpening(w2, id, s, w.authMethod);
    LeadsOn(w, [], w, e1);
    LeadsOn(w, [] + [e1], w1, e2);
    es := [] + [e1] + [e2];
  }

  /** From the opening to the granted credentials. */
  lemma Authenticates(w: World, id: nat, s: seq<Byte>, user: seq<Byte>, pass: seq<Byte>, fd: int)
    returns (es: seq<Event>, w2: World)
    requires AwaitsLogin(w, id, s) && Fresh(w, fd) && |user| <= 255 && |pass| <= 255 && InTable(w.users, user, pass)
    ensures Leads(w, es, w2) && Fresh(w2, fd) && AwaitsRequest(w2, id, s + F.EncodeCredentials(user, pass))
  {
    var e1 := Receives(w.conns[id].clientFd, F.EncodeCredentials(user, pass), NoSocket);
    LogsIn(w, id, user, pass);
    var w1 := Next(w, e1);
    EarlyStaysFresh(w, e1, id, fd);
    var e2 := Sends(w1.conns[id].clientFd, 2);
    Admits(w1, id);
    w2 := Next(w1, e2);
    EarlyStaysFresh(w1, e2, id, fd);
    OnlyLogin(w2, id, s, user, pass);
    LeadsOn(w, [], w, e1);
    LeadsOn(w, [] + [e1], w1, e2);
    es := [] + [e1] + [e2];
  }

  /** From the request to the connection under way. */
  lemma Asks(w: World, id: nat, input: seq<Byte>, r: R.Request, fd: int) returns (es: seq<Event>, w2: World)
    requires AwaitsRequest(w, id, input) && r.Accepted() && Fresh(w, fd) && !InvalidFd(fd)
    ensures Leads(w, es, w2) && Connecting(w2, id) && w2.conns[id].input == input + r.Encode()
  {
    var q := r.Encode();
    RequestIsShort(r);
    if q[3] != 3 {
      var e := Receives(w.conns[id].clientFd, q, Towards(fd));
      AsksForAddress(w, id, q, r, fd);
      LeadsOn(w, [], w, e);
      es, w2 := [] + [e], Next(w, e);
    } else {
      var e := Receives(w.conns[id].clientFd, q, NoSocket);
      AsksForName(w, id, q, r);
      EarlyStaysFresh(w, e, id, fd);
      ThreadAtWork(w, e, id);
      LeadsOn(w, [], w, e);
      es, w2 := GetsResolved(w, [] + [e], Next(w, e), id, fd);
    }
  }

  lemma GetsResolved(w: World, before: seq<Event>, w1: World, id: nat, fd: int) returns (es: seq<Event>, w2: World)
    requires Leads(w, before, w1)
    requires Has(w1, id, REQUEST_RESOLV) && w1.conns[id].clientFd in w1.resolving && Fresh(w1, fd) && !InvalidFd(fd)
    ensures Leads(w, es, w2) && Connecting(w2, id) && w2.conns[id].input == w1.conns[id].input
  {
    var e1, e2 := ThreadDone(w1.conns[id].clientFd), Notify(true, Env(None, None, Towards(fd), Unavailable));
    ThreadFinishes(w1, id, fd);
    NameConnects(Next(w1, e1), id, fd);
    w2 := Next(Next(w1, e1), e2);
    LeadsOn(w, before, w1, e1);
    LeadsOn(w, before + [e1], Next(w1, e1), e2);
    es := before + [e1] + [e2];
  }

  /** From there to the relay. */
  lemma Finishes(w: World, id: nat) returns (es: seq<Event>, w2: World)
    requires Connecting(w, id)
    ensures Leads(w, es, w2) && Has(w2, id, COPY) && w2.conns[id].input == w.conns[id].input
  {
    var e1 := Connects(w.conns[id].originFd);
    OriginAccepts(w, id);
    var w1 := Next(w, e1);
    var e2 := Sends(w1.conns[id].clientFd, 10);
    Relays(w1, id);
    LeadsOn(w, [], w, e1);
    LeadsOn(w, [] + [e1], w1, e2);
    es, w2 := [] + [e1] + [e2], Next(w1, e2);
  }

  lemma {:induction false} LeadsThere(w: World, es: seq<Event>, w1: World, more: seq<Event>, w2: World)
    requires Leads(w, es, w1) && Leads(w1, more, w2)
    ensures Leads(w, es + more, w2)
    decreases |es|
  {
    if es == [] {
      assert [] + more == more;
    } else {
      assert (es + more)[1..] == es[1..] + more;
      LeadsThere(Next(w, es[0]), es[1..], w1, more, w2);
    }
  }

  /** What a client sends before its request: its opening and, if the server asks for them, its credentials. */
  function Introduction(m: Byte, s: seq<Byte>, user: seq<Byte>, pass: seq<Byte>): seq<Byte>
    requires |user| <= 255 && |pass| <= 255
  {
    if m == 2 then s + F.EncodeCredentials(user, pass) else s
  }

  /** From the first byte to the request. */
  lemma IsIntroduced(w: World, id: nat, s: seq<Byte>, user: seq<Byte>, pass: seq<Byte>, fd: int)
    returns (es: seq<Event>, w2: World)
    requires Has(w, id, HELLO_READ) && w.conns[id].current == None && w.conns[id].isSocks
    requires Offers(s, w.authMethod) && Fresh(w, fd) && |user| <= 255 && |pass| <= 255
    requires w.authMethod == 2 ==> InTable(w.users, user, pass)
    ensures Leads(w, es, w2) && Fresh(w2, fd) && AwaitsRequest(w2, id, Introduction(w.authMethod, s, user, pass))
  {
    es, w2 := Greets(w, id, s, fd);
    if w.authMethod == 2 {
      var more, w3 := Authenticates(w2, id, s, user, pass, fd);
      LeadsThere(w, es, w2, more, w3);
      es, w2 := es + more, w3;
    }
  }

  /** From the request to the relay. */
  lemma IsServed(w: World, id: nat, input: seq<Byte>, r: R.Request, fd: int) returns (es: seq<Event>, w2: World)
    requires AwaitsRequest(w, id, input) && r.Accepted() && Fresh(w, fd) && !InvalidFd(fd)
    ensures Leads(w, es, w2) && Has(w2, id, COPY) && w2.conns[id].input == input + r.Encode()
  {
    var asks, w1 := Asks(w, id, input, r, fd);
    var last, w3 := Finishes(w1, id);
    LeadsThere(w, asks, w1, last, w3);
    es, w2 := asks + last, w3;
  }

  lemma JustAccepted(w0: World, before: seq<Event>, w: World, id: nat)
    requires Reaches(w0, before, w) && id in w.conns && w.conns[id].current == None
    ensures Has(w, id, HELLO_READ) && w.conns[id].isSocks
  {
    ReachedInv(w0, before, w);
    InitialInv(w0);
    RunServesProxy(w0, before);
  }

  lemma StepServesProxy(w: World, e: Event, id: nat)
    requires Inv(w) && CanHappen(w, e) && Step(w, e).Continue? && id in Next(w, e).conns
    requires id in w.conns ==> w.conns[id].isSocks
    ensures Next(w, e).conns[id].isSocks
  {
    StepRecords(w, e, id);
    if id in w.conns {
      MethodIsFixed(w, e, id);
    }
  }

  /** Every connection of the proxy is one. */
  lemma {:induction false} RunServesProxy(w: World, es: seq<Event>)
    requires Inv(w) && IsRun(w, es) && forall id :: id in w.conns ==> w.conns[id].isSocks
    ensures Run(w, es).Continue? && forall id :: id in Run(w, es).world.conns ==> Run(w, es).world.conns[id].isSocks
    decreases |es|
  {
    if es != [] {
      StepOk(w, es[0]);
      forall id | id in Next(w, es[0]).conns
        ensures Next(w, es[0]).conns[id].isSocks
      {
        StepServesProxy(w, es[0], id);
      }
      RunServesProxy(Next(w, es[0]), es[1..]);
    }
  }

  lemma RelayingNow(w: World, id: nat)
    requires Has(w, id, COPY)
    ensures w.conns[id].current == Some(COPY)
  {
  }

  /**
   Whoever speaks the protocol can be served: in every reachable state, a client that has just been accepted, offers
   the method the server is configured for and, if that is 0x02, has an entry in the table, has a run before it that
   ends with its connection relayed, for every request that the parser accepts.
   */
  lemma ClientsCanBeServed(w0: World, before: seq<Event>, w: World, id: nat, s: seq<Byte>, user: seq<Byte>, pass: seq<Byte>,
                           r: R.Request, fd: int)
    returns (es: seq<Event>, w2: World)
    requires Reaches(w0, before, w) && id in w.conns && w.conns[id].current == None
    requires Offers(s, w.authMethod) && |user| <= 255 && |pass| <= 255
    requires w.authMethod == 2 ==> InTable(w.users, user, pass)
    requires r.Accepted() && Fresh(w, fd) && !InvalidFd(fd)
    ensures IsRun(w, es) && Run(w, es) == Continue(w2)
    ensures id in w2.conns && w2.conns[id].current == Some(COPY)
    ensures w2.conns[id].input == Introduction(w.authMethod, s, user, pass) + r.Encode()
  {
    JustAccepted(w0, before, w, id);
    var first, w1 := IsIntroduced(w, id, s, user, pass, fd);
    var rest, w3 := IsServed(w1, id, Introduction(w.authMethod, s, user, pass), r, fd);
    LeadsThere(w, first, w1, rest, w3);
    RelayingNow(w3, id);
    es, w2 := first + rest, w3;
  }
}
