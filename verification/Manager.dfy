/**
 The management server: its connections share the stages up to authentication with the proxy's, and then carry
 one request that reads the server's state or changes it.
 */
module ManagerModule {

  import opened Base
  import opened Feeding
  import opened SelectorTable
  import opened StateMachineModule
  import opened UsersModule
  import opened ConnectionModule
  import H = HelloParserModule
  import F = FieldParserModule
  import M = ManagementModule

  /** Statuses of a reply. */
  const SERVER_ERROR: Byte := 1
  const MAX_USERS_REACHED: Byte := 3

  const SUPPORTED_INDEXES: Byte := 0
  const LIST_USERS: Byte := 1
  const ADD_USER: Byte := 10
  const DELETE_USER: Byte := 11
  const DISABLE_AUTH: Byte := 12
  const DISABLE_DISSECTORS: Byte := 13

  /** What requests can change. */
  datatype Settings = Settings(users: seq<User>, authMethod: Byte, dissectors: Byte)

  /**
   A management connection: the part it shares with the proxy's connections, the interest of its descriptor, the
   parser of the request stages, and the request's index. The status field of the original matters only when an
   allocation has failed.
   */
  datatype Manager = Manager(conn: Conn, client: Interest, parser: F.Parser, index: Byte)

  /** `mng_new`. */
  function NewManager(fd: int): Manager {
    Manager(NewConn(fd).(isSocks := false), READ, F.Start([]), 0)
  }

  function Shared(m: Manager): Bundle {
    Bundle(m.conn, m.client, None)
  }

  /** What one event's system calls return. */
  datatype Answer = Answer(recv: Option<seq<Byte>>, sent: Option<nat>)

  function EnvOf(a: Answer): Env {
    Env(a.recv, a.sent, NoSocket, Unavailable)
  }

  /** Where a handler sends its connection; `Overrun` is a list reply that runs past the end of the buffer. */
  datatype Reaction = Goes(manager: Manager, next: nat, settings: Settings) | Overrun

  // ----- The request -----

  /** Puts a reply into the write buffer if there is room, and waits for the client to take it. */
  function Reply(m: Manager, bytes: seq<Byte>, room: nat): Manager
    requires m.conn.wb.Valid() && |bytes| <= room
  {
    m.(conn := m.conn.(wb := if m.conn.wb.Room() < room then m.conn.wb else m.conn.wb.Append(bytes)), client := WRITE)
  }

  function Consumed(m: Manager, chunk: seq<Byte>): Manager
    requires m.conn.rb.Valid() && |chunk| <= m.conn.rb.Room()
  {
    var rb := m.conn.rb.Append(chunk);
    var (p, n) := Consume(F.Feed, F.Stops, m.parser, rb.bytes);
    m.(conn := m.conn.(rb := rb.Advance(n), input := m.conn.input + chunk), parser := p)
  }

  function Field(p: F.Parser, k: nat): seq<Byte> {
    if k < |p.steps| then p.steps[k].result else []
  }

  function FirstByte(s: seq<Byte>): Byte {
    if s == [] then 0 else s[0]
  }

  /** `supported_indexes_mng_request_marshall` asks for more room than it uses. */
  const SUPPORTED_REPLY: seq<Byte> := [0x00, 0x0E, 0, 1, 2, 3, 4, 5, 6, 7, 8, 9, 10, 11, 12, 13]

  /** The counters and averages of the server, as they are when an event is handled. */
  datatype Metrics = Metrics(
    historic: nat, concurrent: nat, maxConcurrent: nat, bytesTransferred: nat,
    authAttempts: nat, attempts: nat, bytesPerRead: nat, bytesPerWrite: nat)

  const HISTORIC_CONNECTIONS: Byte := 2
  const CONCURRENT_CONNECTIONS: Byte := 3
  const MAX_CONCURRENT_CONNECTIONS: Byte := 4
  const BYTES_TRANSFERRED: Byte := 5
  const AUTH_ATTEMPTS: Byte := 6
  const CONNECTION_ATTEMPTS: Byte := 7
  const AVERAGE_BYTES_PER_READ: Byte := 8

  /** The metric that an index between those of the list and of adding users asks for. */
  function MetricOf(index: Byte, metrics: Metrics): nat {
    if index == HISTORIC_CONNECTIONS then metrics.historic
    else if index == CONCURRENT_CONNECTIONS then metrics.concurrent
    else if index == MAX_CONCURRENT_CONNECTIONS then metrics.maxConcurrent
    else if index == BYTES_TRANSFERRED then metrics.bytesTransferred
    else if index == AUTH_ATTEMPTS then metrics.authAttempts
    else if index == CONNECTION_ATTEMPTS then metrics.attempts
    else if index == AVERAGE_BYTES_PER_READ then metrics.bytesPerRead
    else metrics.bytesPerWrite
  }

  /** `process_mng_index`. */
  function ProcessIndex(m: Manager, s: Settings, metrics: Metrics): Reaction
    requires m.conn.wb.Valid()
  {
    if m.index == SUPPORTED_INDEXES then Goes(Reply(m, SUPPORTED_REPLY, 18), MNG_REQUEST_WRITE, s)
    else if m.index == LIST_USERS then
      var room := m.conn.wb.Room();
      if !M.CheckPasses(M.Reserved(room), s.users) then Goes(m.(client := WRITE), MNG_REQUEST_WRITE, s)
      else if M.Overruns(room, s.users) then Overrun
      else Goes(m.(conn := m.conn.(wb := m.conn.wb.Append(M.ListReply(s.users))), client := WRITE), MNG_REQUEST_WRITE, s)
    else if m.index < ADD_USER then Goes(Reply(m, M.MetricReply(MetricOf(m.index, metrics)), 5), MNG_REQUEST_WRITE, s)
    else if m.index <= DISABLE_DISSECTORS then Goes(m.(client := READ), MNG_REQUEST_READ, s)
    else Goes(m, MNG_ERROR, s)
  }

  /** The rest of `mng_request_index_read`, once the parser has stopped or run out of bytes. */
  function AfterIndex(q: Manager, s: Settings, metrics: Metrics): Reaction
    requires q.conn.wb.Valid()
  {
    if !F.Stops(q.parser) then Goes(q, MNG_REQUEST_READ_INDEX, s)
    else if q.parser.current == F.ErrorRead then Goes(Reply(q, [F.INDEX_NOT_SUPPORTED], 1), MNG_REQUEST_WRITE, s)
    else ProcessIndex(q.(index := FirstByte(Field(q.parser, 0))), s, metrics)
  }

  /** `mng_request_index_read`: receives one byte, although the index may have arrived before. */
  function ReadIndex(m: Manager, recv: Option<seq<Byte>>, s: Settings, metrics: Metrics): Reaction
    requires m.conn.rb.Valid() && m.conn.wb.Valid() && (recv.Some? ==> |recv.value| <= m.conn.rb.Room())
  {
    if m.conn.rb.Room() == 0 then Goes(Reply(m, [SERVER_ERROR], 1), MNG_REQUEST_WRITE, s)
    else if recv.None? then Goes(m, MNG_ERROR, s)
    else
      AfterIndex(Consumed(m, recv.value), s, metrics)
  }

  /** `process_mng_params_request`: the new settings and the status of the reply. */
  function Process(index: Byte, p: F.Parser, s: Settings): (Settings, Byte) {
    if index == ADD_USER then
      if |s.users| == MAX_USERS then (s, MAX_USERS_REACHED)
      else (s.(users := Add(s.users, User(CString(Field(p, 1)), CString(Field(p, 3))))), M.STATUS_SUCCEEDED)
    else if index == DELETE_USER then (s.(users := Delete(s.users, CString(Field(p, 1)))), M.STATUS_SUCCEEDED)
    else if index == DISABLE_AUTH then
      (s.(authMethod := if FirstByte(Field(p, 0)) == 0 then H.USERNAME_PASSWORD else H.NO_AUTHENTICATION), M.STATUS_SUCCEEDED)
    else if index == DISABLE_DISSECTORS then (s.(dissectors := FirstByte(Field(p, 0))), M.STATUS_SUCCEEDED)
    else (s, SERVER_ERROR)
  }

  /** The rest of `mng_request_read`, once the parser has stopped or run out of bytes. */
  function AfterParameters(q: Manager, s: Settings): Reaction
    requires q.conn.wb.Valid()
  {
    if !F.Stops(q.parser) then Goes(q, MNG_REQUEST_READ, s)
    else if q.parser.current == F.ErrorRead then Goes(q.(client := WRITE), MNG_ERROR, s)
    else
      var (s', status) := Process(q.index, q.parser, s);
      Goes(Reply(q, [status], 1), MNG_REQUEST_WRITE, s')
  }

  /** `mng_request_read`. */
  function ReadRequest(m: Manager, recv: Option<seq<Byte>>, s: Settings): Reaction
    requires m.conn.rb.Valid() && m.conn.wb.Valid() && (recv.Some? ==> |recv.value| <= m.conn.rb.Room())
  {
    if recv.None? then Goes(m, MNG_ERROR, s)
    else
      AfterParameters(Consumed(m, recv.value), s)
  }

  /** `mng_request_write`. */
  function WriteReply(m: Manager, sent: Option<nat>, s: Settings): Reaction
    requires m.conn.wb.Valid() && (sent.Some? ==> sent.value <= |m.conn.wb.bytes|)
  {
    if sent.None? then Goes(m, MNG_ERROR, s)
    else
      var q := m.(conn := m.conn.(wb := m.conn.wb.Advance(sent.value)));
      Goes(q, if q.conn.wb.CanRead() then MNG_REQUEST_WRITE else MNG_DONE, s)
  }

  // ----- The engine -----

  /** The shared handlers name the terminal states of the connection they serve. */
  function Terminal(next: nat): nat {
    if next == DONE then MNG_DONE else if next == ERROR then MNG_ERROR else next
  }

  function Entered(m: Manager): Manager {
    m.(conn := HandleFirst(Shared(m), H.USERNAME_PASSWORD).conn)
  }

  /** The results of `recv` and `send` stay within what the handler of the state asked for. */
  predicate Fits(m: Manager, kind: Kind, a: Answer)
    requires m.conn.current.Some?
  {
    if m.conn.current.value < MNG_REQUEST_READ_INDEX then ConnectionModule.Possible(Shared(m), Side.Client, kind, EnvOf(a))
    else if kind.ReadEvent? then
      a.recv.Some? ==>
        0 < |a.recv.value| <= (if m.conn.current == Some(MNG_REQUEST_READ_INDEX) then Min(1, m.conn.rb.Room()) else m.conn.rb.Room())
    else a.sent.Some? ==> a.sent.value <= |m.conn.wb.bytes|
  }

  /** What the handler of the current state relies on. */
  predicate Reactable(m: Manager, kind: Kind, a: Answer) {
    && m.conn.current.Some? && m.conn.current.value < |MNG_STATES|
    && MNG_STATES[m.conn.current.value].Handles(kind)
    && m.conn.rb.Valid() && m.conn.wb.Valid() && Fits(m, kind, a)
  }

  /** The handler of the current state. */
  function Respond(m: Manager, kind: Kind, a: Answer, admins: seq<User>, s: Settings, metrics: Metrics): Reaction
    requires Reactable(m, kind, a)
  {
    var st := m.conn.current.value;
    if st < MNG_REQUEST_READ_INDEX then
      var (b, next) := ConnectionModule.React(Shared(m), Side.Client, kind, EnvOf(a), admins, false);
      Goes(m.(conn := b.conn, client := b.client), Terminal(next), s)
    else if st == MNG_REQUEST_READ_INDEX then ReadIndex(m, a.recv, s, metrics)
    else if st == MNG_REQUEST_READ then ReadRequest(m, a.recv, s)
    else WriteReply(m, a.sent, s)
  }

  /** The layouts of the requests that take parameters. */
  function FieldsOf(index: Byte): seq<F.Field> {
    if index == ADD_USER then F.ADD_USER_FIELDS
    else if index == DELETE_USER then F.DELETE_USER_FIELDS
    else F.OPTION_FIELDS
  }

  predicate TakesParameters(index: Byte) {
    ADD_USER <= index <= DISABLE_DISSECTORS
  }

  /** `jump` with its arrival hooks; `mng_request_init` aborts on an index without parameters. */
  function MoveTo(m: Manager, next: nat): Option<Manager> {
    if m.conn.current == Some(next) then Some(m)
    else
      var e := m.(conn := m.conn.(current := Some(next)));
      if next == USERPASS_READ then Some(e.(conn := e.conn.(auth := F.Start(F.AUTH_FIELDS))))
      else if next == MNG_REQUEST_READ_INDEX then Some(e.(parser := F.Start(F.INDEX_FIELDS)))
      else if next == MNG_REQUEST_READ then
        (if TakesParameters(e.index) then Some(e.(parser := F.Start(FieldsOf(e.index)))) else None)
      else Some(e)
  }

  // ----- The server -----

  /** The connections by descriptor, the administrators, and the settings of the whole server. */
  datatype Server = Server(conns: map<int, Manager>, admins: seq<User>, settings: Settings)

  datatype Outcome = Continue(server: Server) | Fault

  datatype Event = Accept(fd: int) | Ready(fd: int, write: bool, answer: Answer, metrics: Metrics)

  /** One event of one connection: a null handler, an abort and a buffer overrun are faults. */
  function Handle(w: Server, fd: int, kind: Kind, a: Answer, metrics: Metrics): Outcome
    requires fd in w.conns
  {
    var m := Entered(w.conns[fd]);
    if !Reactable(m, kind, a) then Fault else After(w, fd, Respond(m, kind, a, w.admins, w.settings, metrics))
  }

  /** The jump, and the end of a connection that has reached a terminal state. */
  function After(w: Server, fd: int, r: Reaction): Outcome {
    match r
    case Overrun => Fault
    case Goes(m1, next, s) =>
      if next == MNG_DONE || next == MNG_ERROR then Continue(w.(conns := w.conns - {fd}, settings := s))
      else
        match MoveTo(m1, next)
        case None => Fault
        case Some(m2) => Continue(w.(conns := w.conns[fd := m2], settings := s))
  }

  function Step(w: Server, e: Event): Outcome {
    match e
    case Accept(fd) => Continue(if InvalidFd(fd) then w else w.(conns := w.conns[fd := NewManager(fd)]))
    case Ready(fd, write, a, metrics) =>
      if fd in w.conns then Handle(w, fd, if write then WriteEvent else ReadEvent, a, metrics) else Fault
  }

  /** Accepted descriptors are not in use, and the selector delivers what it watches. */
  predicate CanHappen(w: Server, e: Event) {
    match e
    case Accept(fd) => fd >= 0 && fd !in w.conns
    case Ready(fd, write, a, metrics) =>
      && fd in w.conns
      && (if write then w.conns[fd].client.write else w.conns[fd].client.read)
      && var m := Entered(w.conns[fd]);
         m.conn.current.Some? && Fits(m, if write then WriteEvent else ReadEvent, a)
  }

  ghost predicate IsRun(w: Server, es: seq<Event>)
    decreases |es|
  {
    es == [] || (CanHappen(w, es[0]) && (Step(w, es[0]).Continue? ==> IsRun(Step(w, es[0]).server, es[1..])))
  }

  ghost function Run(w: Server, es: seq<Event>): Outcome
    decreases |es|
  {
    if es == [] then Continue(w)
    else if Step(w, es[0]).Fault? then Fault else Run(Step(w, es[0]).server, es[1..])
  }

  /** The server after start-up, with the users, administrators and settings it was started with. */
  predicate Initial(w: Server) {
    w.conns == map[]
  }
}
