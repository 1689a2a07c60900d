/**
 One proxied connection: its record, the interests of its descriptors, and what each stage does with an event.
 Results of system calls are parameters of the events.
 */
module ConnectionModule {

  import opened Base
  import opened Buffers
  import opened Feeding
  import opened SelectorTable
  import opened StateMachineModule
  import opened UsersModule
  import H = HelloParserModule
  import F = FieldParserModule
  import R = RequestParserModule
  import D = DissectorModule
  import Relay = RelayModule

  const BUFFER_SIZE := 2048
  const SOCKS_VERSION: Byte := 5
  const MNG_VERSION: Byte := 1
  const GRANTED: Byte := 0
  const DENIED: Byte := 1

  /** Reply codes of RFC 1928 section 6. */
  const SUCCEEDED: Byte := 0
  const GENERAL_FAILURE: Byte := 1

  const ECONNREFUSED := 111
  const EHOSTUNREACH := 113
  const ENETUNREACH := 101
  const ETIMEDOUT := 110

  function ErrnoToSocks(e: nat): Byte {
    if e == 0 then SUCCEEDED
    else if e == ECONNREFUSED then 5
    else if e == EHOSTUNREACH then 4
    else if e == ENETUNREACH then 3
    else if e == ETIMEDOUT then 6
    else GENERAL_FAILURE
  }

  /** What the credentials check was given, the table it searched, and its answer. */
  datatype Checked = Checked(user: seq<Byte>, pass: seq<Byte>, table: seq<User>, status: Byte)

  /**
   The connection record. `isSocks` tells the proxy from the management server, which share the stages up to
   authentication. The last three fields are a history that no handler reads: every byte received from the
   client, how many of them the opening message took, and the credentials check.
   */
  datatype Conn = Conn(
    isSocks: bool,
    clientFd: int,
    originFd: int,
    current: Option<nat>,
    rb: Buf,
    wb: Buf,
    hello: H.Hello,
    auth: F.Parser,
    authentication: Byte,
    userIndex: int,
    request: R.Parser,
    status: Byte,
    clientFlags: Interest,
    originFlags: Interest,
    references: nat,
    dissector: D.Dissector,
    input: seq<Byte>,
    helloLength: nat,
    checked: Option<Checked>)

  /** `socks5_new`. */
  function NewConn(clientFd: int): Conn {
    Conn(true, clientFd, -1, None, Empty(BUFFER_SIZE), Empty(BUFFER_SIZE), H.Initial(SOCKS_VERSION, 0), F.Start([]),
         0, 0, R.INITIAL, SUCCEEDED, NOOP, NOOP, 1, D.INITIAL, [], 0, None)
  }

  /** A connection with the interests its descriptors are registered with; the origin's may be absent. */
  datatype Bundle = Bundle(conn: Conn, client: Interest, origin: Option<Interest>)

  /** The sides of a connection, by the descriptor an event arrives on. */
  type Side = Relay.Side

  function Version(c: Conn): Byte {
    if c.isSocks then SOCKS_VERSION else MNG_VERSION
  }

  // ----- Results of system calls -----

  /**
   Creating and connecting the origin's socket: no socket; a socket whose flags cannot be set; a failure with an
   error number; in progress; and at once.
   */
  datatype Connect = NoSocket | NoFlags(fd: int) | Failed(fd: int, errno: nat) | InProgress(fd: int) | Immediate(fd: int)

  /** `getsockopt(SO_ERROR)`. */
  datatype SocketError = Unavailable | Pending(code: nat)

  /**
   What the system calls made while an event is handled return: `recv` (None for zero or an error), `send` (None
   for an error), the origin's `connect`, and the socket error of a connection in progress.
   */
  datatype Env = Env(recv: Option<seq<Byte>>, sent: Option<nat>, connect: Connect, soError: SocketError)

  // ----- Opening message and authentication -----

  /** `hello_read_init`: the management server always wants a user name and password. */
  function HelloInit(c: Conn, authMethod: Byte): Conn {
    c.(hello := H.Initial(Version(c), if c.isSocks then authMethod else H.USERNAME_PASSWORD))
  }

  /** `hello_consume` on a chunk that has just arrived. */
  function HelloConsume(c: Conn, chunk: seq<Byte>): Conn
    requires c.rb.Valid() && |chunk| <= c.rb.Room()
  {
    var rb := c.rb.Append(chunk);
    var (p, n) := Consume(H.Feed, H.Stops, c.hello, rb.bytes);
    var taken := |c.input| - |c.rb.bytes| + n;
    c.(rb := rb.Advance(n), hello := p, input := c.input + chunk, helloLength := if taken >= 0 then taken else 0)
  }

  /** The rest of `hello_read`, once the parser has stopped or run out of bytes. */
  function HelloAnswer(b: Bundle): (Bundle, nat)
    requires b.conn.wb.Valid()
  {
    var c := b.conn;
    if !H.Stops(c.hello) then (b, HELLO_READ)
    else if c.wb.Room() < 2 then (b.(client := WRITE), ERROR)
    else
      (Bundle(c.(wb := c.wb.Append([Version(c), c.hello.selected])), WRITE, b.origin),
       if c.hello.state == H.ErrorUnsupportedVersion then ERROR else HELLO_WRITE)
  }

  function HelloRead(b: Bundle, recv: Option<seq<Byte>>): (Bundle, nat)
    requires b.conn.rb.Valid() && b.conn.wb.Valid()
    requires recv.Some? ==> |recv.value| <= b.conn.rb.Room()
  {
    if recv.None? then (b, ERROR) else HelloAnswer(b.(conn := HelloConsume(b.conn, recv.value)))
  }

  function HelloWrite(b: Bundle, sent: Option<nat>): (Bundle, nat)
    requires b.conn.wb.Valid() && (sent.Some? ==> sent.value <= |b.conn.wb.bytes|)
  {
    if sent.None? then (b, ERROR)
    else
      var c := b.conn.(wb := b.conn.wb.Advance(sent.value));
      if c.wb.CanRead() then (b.(conn := c), HELLO_WRITE)
      else if c.hello.selected == H.NO_ACCEPTABLE_METHODS then (b.(conn := c), DONE)
      else
        (b.(conn := c, client := READ),
         if c.hello.selected == H.NO_AUTHENTICATION then REQUEST_READ
         else if c.hello.selected == H.USERNAME_PASSWORD then USERPASS_READ else HELLO_WRITE)
  }

  /** The pair that a finished credentials parser holds, as C strings. */
  function PairOf(p: F.Parser): User
    requires |p.steps| == 5
  {
    User(CString(p.steps[2].result), CString(p.steps[4].result))
  }

  function DropNul(s: seq<Byte>): seq<Byte> {
    if s == [] then s else s[..|s| - 1]
  }

  /** `auth_process`, against the users of the proxy or the administrators. */
  function AuthProcess(c: Conn, table: seq<User>): Conn
    requires |c.auth.steps| == 5
  {
    var pair := PairOf(c.auth);
    var status := if Granted(table, pair) then GRANTED else DENIED;
    c.(authentication := status,
       userIndex := if c.isSocks && status == GRANTED then FirstMatch(table, pair) else c.userIndex,
       checked := Some(Checked(DropNul(c.auth.steps[2].result), DropNul(c.auth.steps[4].result), table, status)))
  }

  function AuthConsume(c: Conn, chunk: seq<Byte>): Conn
    requires c.rb.Valid() && |chunk| <= c.rb.Room()
  {
    var rb := c.rb.Append(chunk);
    var (p, n) := Consume(F.Feed, F.Stops, c.auth, rb.bytes);
    c.(rb := rb.Advance(n), auth := p, input := c.input + chunk)
  }

  /** A bad sub-negotiation version ends the connection before any credentials are looked up. */
  function AuthAnswer(b: Bundle, table: seq<User>): (Bundle, nat) {
    var c := b.conn;
    if !F.Stops(c.auth) then (b, USERPASS_READ)
    else if c.auth.current == F.ErrorRead || |c.auth.steps| != 5 then (b.(client := WRITE), ERROR)
    else (Bundle(AuthProcess(c, table), WRITE, b.origin), USERPASS_WRITE)
  }

  function AuthRead(b: Bundle, recv: Option<seq<Byte>>, table: seq<User>): (Bundle, nat)
    requires b.conn.rb.Valid() && (recv.Some? ==> |recv.value| <= b.conn.rb.Room())
  {
    if recv.None? then (b, ERROR) else AuthAnswer(b.(conn := AuthConsume(b.conn, recv.value)), table)
  }

  /** The reply is appended again on every call, if there is room for it. */
  function AuthReply(c: Conn): Buf
    requires c.wb.Valid()
  {
    if c.wb.Room() < 2 then c.wb else c.wb.Append([F.USERPASS_VERSION, c.authentication])
  }

  function AuthWrite(b: Bundle, sent: Option<nat>): (Bundle, nat)
    requires b.conn.wb.Valid() && (sent.Some? ==> sent.value <= |AuthReply(b.conn).bytes|)
  {
    if sent.None? then (b.(conn := b.conn.(wb := AuthReply(b.conn))), ERROR)
    else
      var c := b.conn.(wb := AuthReply(b.conn).Advance(sent.value));
      if c.wb.CanRead() then (b.(conn := c), USERPASS_WRITE)
      else if c.authentication != GRANTED then (b.(conn := c), DONE)
      else (b.(conn := c, client := READ), REQUEST_READ)
  }

  // ----- Request, connection and reply -----

  function RequestReply(status: Byte): seq<Byte> {
    [SOCKS_VERSION, status, 0, R.ATYP_IPV4, 0, 0, 0, 0, 0, 0]
  }

  /** `request_marshall`: nothing is written when ten bytes do not fit. */
  function Marshall(wb: Buf, status: Byte): (b: Buf)
    requires wb.Valid()
    ensures b.Valid() && b.limit == wb.limit
  {
    if wb.Room() < 10 then wb else wb.Append(RequestReply(status))
  }

  /** `error_handler_to_client`: the origin, if it is registered, is silenced. */
  function ErrorToClient(b: Bundle): Bundle
    requires b.conn.wb.Valid()
  {
    b.(conn := b.conn.(wb := Marshall(b.conn.wb, b.conn.status)), client := WRITE,
       origin := if b.origin.Some? then Some(NOOP) else None)
  }

  function RequestConsume(c: Conn, chunk: seq<Byte>): Conn
    requires c.rb.Valid() && |chunk| <= c.rb.Room()
  {
    var rb := c.rb.Append(chunk);
    var (p, n) := Consume(R.Feed, R.IsDone, c.request, rb.bytes);
    c.(rb := rb.Advance(n), request := p, input := c.input + chunk)
  }

  /** `request_process`: a rejected request is never done, and its connection stays in this state. */
  function RequestAnswer(b: Bundle): (Bundle, nat) {
    if !R.IsDone(b.conn.request) then (b, REQUEST_READ)
    else if b.conn.request.atyp == R.ATYP_DOMAIN then (b.(client := NOOP), REQUEST_RESOLV)
    else (b, REQUEST_CONNECTING)
  }

  function RequestRead(b: Bundle, recv: Option<seq<Byte>>): (Bundle, nat)
    requires b.conn.rb.Valid() && (recv.Some? ==> |recv.value| <= b.conn.rb.Room())
  {
    if recv.None? then (b, ERROR) else RequestAnswer(b.(conn := RequestConsume(b.conn, recv.value)))
  }

  /** `request_resolv_done`: an empty resolution is answered with a general failure. */
  function ResolvDone(b: Bundle, resolved: bool): (Bundle, nat)
    requires b.conn.wb.Valid()
  {
    if resolved then (b, REQUEST_CONNECTING)
    else
      var c := b.conn.(status := GENERAL_FAILURE);
      (b.(conn := c.(wb := Marshall(c.wb, GENERAL_FAILURE)), client := WRITE), REQUEST_WRITE)
  }

  /** `connecting_init` and `connection`. A new descriptor is not registered yet; one beyond FD_SETSIZE never is. */
  function ConnectingInit(b: Bundle, connect: Connect): Bundle
    requires b.conn.wb.Valid()
  {
    var c := b.conn.(status := SUCCEEDED);
    match connect
    case NoSocket => ErrorToClient(b.(conn := c.(originFd := -1, status := GENERAL_FAILURE)))
    case NoFlags(fd) => ErrorToClient(b.(conn := c.(originFd := fd, status := GENERAL_FAILURE)))
    case Failed(fd, errno) => ErrorToClient(b.(conn := c.(originFd := fd, status := ErrnoToSocks(errno))))
    case InProgress(fd) =>
      if InvalidFd(fd) then
        var e := ErrorToClient(b.(conn := c.(originFd := fd, status := GENERAL_FAILURE)));
        e.(conn := e.conn.(originFd := -1))
      else Bundle(c.(originFd := fd, references := c.references + 1), NOOP, Some(WRITE))
    case Immediate(fd) =>
      if InvalidFd(fd) then ErrorToClient(b.(conn := c.(originFd := fd, status := GENERAL_FAILURE, references := c.references + 1)))
      else Bundle(c.(originFd := fd, references := c.references + 1), READ, Some(READ))
  }

  /** A `connect` was attempted, successfully or not. */
  predicate Attempts(connect: Connect) {
    !connect.NoSocket? && !connect.NoFlags?
  }

  function SetKey(b: Bundle, side: Side, i: Interest): Bundle {
    if side.Client? then b.(client := i) else b.(origin := if b.origin.Some? then Some(i) else None)
  }

  /**
   `connecting_write`, with no further address to try. When connecting has failed from the start, the origin's
   descriptor is closed; it is not registered then, so unregistering it has no effect.
   */
  function ConnectingWrite(b: Bundle, side: Side, soError: SocketError): (Bundle, nat)
    requires b.conn.wb.Valid()
  {
    if b.conn.status != SUCCEEDED then
      (ErrorToClient(b.(conn := b.conn.(originFd := -1))), REQUEST_WRITE)
    else if soError.Unavailable? then
      (ErrorToClient(b.(conn := b.conn.(status := GENERAL_FAILURE))), REQUEST_WRITE)
    else if soError.code != 0 then
      (ErrorToClient(b.(conn := b.conn.(status := ErrnoToSocks(soError.code)))), REQUEST_WRITE)
    else if b.conn.wb.Room() < 10 then (b, ERROR)
    else
      var answered := b.(conn := b.conn.(wb := Marshall(b.conn.wb, SUCCEEDED)), client := WRITE);
      (SetKey(answered, side, NOOP), REQUEST_WRITE)
  }

  function RequestWrite(b: Bundle, sent: Option<nat>): (Bundle, nat)
    requires b.conn.wb.Valid() && (sent.Some? ==> sent.value <= |b.conn.wb.bytes|)
  {
    if sent.None? then (b, ERROR)
    else
      var c := b.conn.(wb := b.conn.wb.Advance(sent.value));
      if c.wb.CanRead() then (b.(conn := c), REQUEST_WRITE)
      else if c.status == SUCCEEDED then
        (Bundle(c, READ, if b.origin.Some? then Some(READ) else None), COPY)
      else (b.(conn := c, client := NOOP), DONE)
  }

  // ----- Relaying -----

  function RelayOf(b: Bundle): Relay.Relay
    requires b.origin.Some?
  {
    Relay.Relay(Relay.End(b.conn.clientFlags, b.client), Relay.End(b.conn.originFlags, b.origin.value), b.conn.rb, b.conn.wb)
  }

  function WithRelay(b: Bundle, r: Relay.Relay): Bundle {
    Bundle(b.conn.(clientFlags := r.client.flags, originFlags := r.origin.flags, rb := r.toOrigin, wb := r.toClient),
           r.client.armed, Some(r.origin.armed))
  }

  function CopyInit(b: Bundle): Bundle
    requires b.origin.Some?
  {
    WithRelay(b, Relay.Begin(b.conn.rb, b.conn.wb))
  }

  function CopyRead(b: Bundle, side: Side, recv: Option<seq<Byte>>): (Bundle, nat)
    requires b.origin.Some? && b.conn.rb.Valid() && b.conn.wb.Valid()
    requires Relay.Enabled(RelayOf(b), Relay.Recv(side, recv))
  {
    var e := Relay.Recv(side, recv);
    var b' := WithRelay(b, Relay.Step(RelayOf(b), e));
    var c := b'.conn.(input := if side.Client? && recv.Some? then b.conn.input + recv.value else b.conn.input,
                      dissector := if recv.Some? then FeedAll(D.Feed, b.conn.dissector, recv.value) else b.conn.dissector);
    (b'.(conn := c), if Relay.Ends(RelayOf(b), e) then DONE else COPY)
  }

  function CopyWrite(b: Bundle, side: Side, sent: Option<nat>): (Bundle, nat)
    requires b.origin.Some? && b.conn.rb.Valid() && b.conn.wb.Valid()
    requires Relay.Enabled(RelayOf(b), Relay.Send(side, sent))
  {
    var e := Relay.Send(side, sent);
    (WithRelay(b, Relay.Step(RelayOf(b), e)), if Relay.Ends(RelayOf(b), e) then DONE else COPY)
  }

  // ----- The engine -----

  /** `handle_first`: the first event of a connection enters the initial state. */
  function HandleFirst(b: Bundle, authMethod: Byte): Bundle {
    if b.conn.current.None? then b.(conn := HelloInit(b.conn.(current := Some(HELLO_READ)), authMethod)) else b
  }

  /** The results of `recv` and `send` stay within what the handler of the state asked for. */
  predicate Possible(b: Bundle, side: Side, kind: Kind, env: Env)
    requires b.conn.current.Some?
  {
    var c := b.conn;
    var st := c.current.value;
    if kind.ReadEvent? then
      env.recv.Some? ==> 0 < |env.recv.value| <= (if st == COPY && side.Origin? then c.wb.Room() else c.rb.Room())
    else if kind.WriteEvent? then
      env.sent.Some? ==>
        env.sent.value <= (if st == USERPASS_WRITE && c.wb.Valid() then |AuthReply(c).bytes|
                           else if st == COPY && side.Origin? then |c.rb.bytes| else |c.wb.bytes|)
    else true
  }

  /** The handler of the current state; `resolved` is the result of a name resolution. */
  function React(b: Bundle, side: Side, kind: Kind, env: Env, table: seq<User>, resolved: bool): (Bundle, nat)
    requires b.conn.current.Some? && b.conn.current.value < |CLIENT_STATES|
    requires CLIENT_STATES[b.conn.current.value].Handles(kind)
    requires b.conn.rb.Valid() && b.conn.wb.Valid() && Possible(b, side, kind, env)
    requires b.conn.current == Some(COPY) ==> b.origin.Some?
    requires b.conn.current == Some(COPY) && kind.ReadEvent? ==> Relay.Enabled(RelayOf(b), Relay.Recv(side, env.recv))
    requires b.conn.current == Some(COPY) && kind.WriteEvent? ==> Relay.Enabled(RelayOf(b), Relay.Send(side, env.sent))
  {
    var st := b.conn.current.value;
    if st == HELLO_READ then HelloRead(b, env.recv)
    else if st == HELLO_WRITE then HelloWrite(b, env.sent)
    else if st == USERPASS_READ then AuthRead(b, env.recv, table)
    else if st == USERPASS_WRITE then AuthWrite(b, env.sent)
    else if st == REQUEST_READ then RequestRead(b, env.recv)
    else if st == REQUEST_RESOLV then ResolvDone(b, resolved)
    else if st == REQUEST_CONNECTING then ConnectingWrite(b, side, env.soError)
    else if st == REQUEST_WRITE then RequestWrite(b, env.sent)
    else if kind.ReadEvent? then CopyRead(b, side, env.recv)
    else CopyWrite(b, side, env.sent)
  }

  /** `jump`, with the arrival hooks that change the connection. */
  function Arrive(b: Bundle, next: nat, env: Env): Bundle
    requires b.conn.wb.Valid() && (next == COPY && b.conn.current != Some(COPY) ==> b.origin.Some?)
  {
    if b.conn.current == Some(next) then b
    else
      var e := b.(conn := b.conn.(current := Some(next)));
      if next == USERPASS_READ then e.(conn := e.conn.(auth := F.Start(F.AUTH_FIELDS)))
      else if next == REQUEST_READ then e.(conn := e.conn.(request := R.INITIAL))
      else if next == REQUEST_CONNECTING then ConnectingInit(e, env.connect)
      else if next == COPY then CopyInit(e)
      else e
  }
}
