/**
 What the management server guarantees in every run: nobody gets to a request without an administrator's
 credentials, only such requests change the server's settings, and they change them as the client asked.
 */
module ManagerTheorems {

  import opened Base
  import opened Feeding
  import opened SelectorTable
  import opened StateMachineModule
  import opened UsersModule
  import opened ConnectionModule
  import opened ConnectionInvariantModule
  import opened ManagerModule
  import WI = WorldInvariantModule
  import W = WorldModule
  import P = ProxyTheorems
  import H = HelloParserModule
  import F = FieldParserModule
  import M = ManagementModule

  // ----- The invariant -----

  /** The client offered user name and password, and the pair that it sent is an administrator's. */
  ghost predicate Admitted(c: Conn, admins: seq<User>) {
    && Offered(c) && c.hello.selected == H.USERNAME_PASSWORD
    && CheckedAgainst(c) && c.checked.value.status == GRANTED && c.checked.value.table == admins
  }

  /** The bytes behind the request's index, as far as they have been read. */
  function Parameters(m: Manager): seq<Byte>
    requires m.conn.checked.Some? && LoginEnd(m.conn) < |m.conn.input| - |m.conn.rb.bytes|
  {
    m.conn.input[LoginEnd(m.conn) + 1..|m.conn.input| - |m.conn.rb.bytes|]
  }

  /** The input behind the credentials: the request's index, and as much of its parameters as the parser has read. */
  ghost predicate InCommand(m: Manager)
    requires m.conn.checked.Some?
  {
    && TakesParameters(m.index)
    && LoginEnd(m.conn) < |m.conn.input| - |m.conn.rb.bytes| && m.conn.input[LoginEnd(m.conn)] == m.index
    && Takes(F.Feed, F.Stops, F.Start(FieldsOf(m.index)), Parameters(m), m.parser)
    && !F.Stops(m.parser)
  }

  ghost predicate InRequestStages(m: Manager, admins: seq<User>) {
    var c, st := m.conn, m.conn.current;
    && Admitted(c, admins) && Tracks(c)
    && (st == Some(MNG_REQUEST_READ_INDEX) ==>
          && m.client == READ && c.wb.bytes == [] && m.parser == F.Start(F.INDEX_FIELDS)
          && |c.input| == LoginEnd(c) + |c.rb.bytes|)
    && (st == Some(MNG_REQUEST_READ) ==> m.client == READ && c.wb.bytes == [] && InCommand(m))
    && (st == Some(MNG_REQUEST_WRITE) ==> m.client == WRITE)
  }

  ghost predicate ManagerOk(m: Manager, admins: seq<User>) {
    && !m.conn.isSocks && m.conn.originFd == -1 && Sound(Shared(m))
    && (m.conn.checked.Some? ==> m.conn.checked.value.table == admins)
    && StateOf(m.conn) <= MNG_REQUEST_WRITE
    && if StateOf(m.conn) < MNG_REQUEST_READ_INDEX then
         Ok(Shared(m)) && (m.conn.current.Some? ==> m.conn.hello.wanted == H.USERNAME_PASSWORD)
       else InRequestStages(m, admins)
  }

  lemma NewManagerIsOk(fd: int, admins: seq<User>)
    requires !InvalidFd(fd)
    ensures ManagerOk(NewManager(fd), admins)
  {
  }

  lemma EnteredIsOk(m: Manager, admins: seq<User>)
    requires ManagerOk(m, admins)
    ensures ManagerOk(Entered(m), admins) && Entered(m).conn.current == Some(StateOf(m.conn))
    ensures Entered(m).client == m.client && Entered(m).conn.clientFd == m.conn.clientFd
  {
    if m.conn.current.None? {
      WI.HandleFirstOk(Shared(m), H.USERNAME_PASSWORD);
    }
  }

  /** The event ends the connection, or leaves it as it should be. */
  ghost predicate Lands(m: Manager, r: Reaction, admins: seq<User>) {
    r.Goes? && r.next != MNG_DONE && r.next != MNG_ERROR ==>
      var m2 := MoveTo(r.manager, r.next);
      m2.Some? && ManagerOk(m2.value, admins) && m2.value.conn.clientFd == m.conn.clientFd
  }

  // ----- The shared stages -----

  predicate Armed(m: Manager, kind: Kind) {
    if kind.WriteEvent? then m.client.write else kind.ReadEvent? && m.client.read
  }

  /** A connection at one of the shared stages, about to handle an event. */
  ghost predicate Opening(m: Manager, kind: Kind, a: Answer, admins: seq<User>) {
    && ManagerOk(m, admins) && m.conn.current.Some? && m.conn.current.value < MNG_REQUEST_READ_INDEX
    && Armed(m, kind) && Fits(m, kind, a)
  }

  lemma OpeningIsReactable(m: Manager, kind: Kind, a: Answer, admins: seq<User>)
    requires Opening(m, kind, a, admins)
    ensures Reactable(m, kind, a) && W.Reactable(Shared(m), Side.Client, kind, EnvOf(a))
    ensures WI.Armed(Shared(m), Side.Client, kind) && ConnectAllowed(Shared(m), EnvOf(a).connect)
  {
    WI.ArmedIsReactable(Shared(m), Side.Client, kind, EnvOf(a));
  }

  /** What no shared stage changes, and what the reply stages leave alone besides. */
  lemma OpeningFrame(m: Manager, kind: Kind, a: Answer, admins: seq<User>)
    requires W.Reactable(Shared(m), Side.Client, kind, EnvOf(a)) && m.conn.current.value < MNG_REQUEST_READ_INDEX
    ensures var c, c' := m.conn, React(Shared(m), Side.Client, kind, EnvOf(a), admins, false).0.conn;
            && c'.isSocks == c.isSocks && c'.clientFd == c.clientFd && c'.current == c.current
            && c'.hello.wanted == c.hello.wanted
            && (c.current == Some(HELLO_WRITE) || c.current == Some(USERPASS_WRITE) ==>
                  c' == c.(wb := c'.wb))
  {
    if m.conn.current == Some(HELLO_READ) && a.recv.Some? {
      ReadingKeepsWanted(m.conn, a.recv.value);
    }
  }

  lemma ReadingKeepsWanted(c: Conn, chunk: seq<Byte>)
    requires c.rb.Valid() && |chunk| <= c.rb.Room()
    ensures HelloConsume(c, chunk).hello.wanted == c.hello.wanted
  {
    H.WantedStays(c.hello, c.rb.Append(chunk).bytes);
  }

  /** The management server always wants a user name and password, so only those who have been checked get on. */
  lemma OnlyCheckedGetOn(m: Manager, kind: Kind, a: Answer, admins: seq<User>)
    requires Opening(m, kind, a, admins) && W.Reactable(Shared(m), Side.Client, kind, EnvOf(a))
    requires React(Shared(m), Side.Client, kind, EnvOf(a), admins, false).1 == REQUEST_READ
    ensures m.conn.current == Some(USERPASS_WRITE) && m.conn.hello.selected == H.USERNAME_PASSWORD
    ensures m.conn.checked.Some? && |m.conn.input| == LoginEnd(m.conn) + |m.conn.rb.bytes|
  {
    WI.ReactLeads(Shared(m), Side.Client, kind, EnvOf(a), admins, false);
  }

  /** Where a shared stage leads, short of the end. */
  lemma OpeningOk(m: Manager, kind: Kind, a: Answer, admins: seq<User>)
    requires Opening(m, kind, a, admins)
    ensures Reactable(m, kind, a)
    ensures var (b, next) := React(Shared(m), Side.Client, kind, EnvOf(a), admins, false);
            forall s: Settings :: Lands(m, Goes(m.(conn := b.conn, client := b.client), Terminal(next), s), admins)
  {
    OpeningIsReactable(m, kind, a, admins);
    var b0, env := Shared(m), EnvOf(a);
    var (b, next) := React(b0, Side.Client, kind, env, admins, false);
    WI.ReactOk(b0, Side.Client, kind, env, admins, false);
    WI.ReactLeads(b0, Side.Client, kind, env, admins, false);
    P.ReactRemembers(b0, Side.Client, kind, env, admins, false);
    OpeningFrame(m, kind, a, admins);
    var m1 := m.(conn := b.conn, client := b.client);
    if next < REQUEST_READ {
      SharedArrival(m1, b, next, env, admins);
    } else if next == REQUEST_READ {
      OnlyCheckedGetOn(m, kind, a, admins);
      RequestArrival(m1, b, env, admins);
    }
  }

  lemma SharedArrival(m1: Manager, b: Bundle, next: nat, env: Env, admins: seq<User>)
    requires b.conn == m1.conn && b.client == m1.client && next < REQUEST_READ && Passed(b, next, env)
    requires !b.conn.isSocks && b.conn.hello.wanted == H.USERNAME_PASSWORD
    requires b.conn.checked.Some? ==> b.conn.checked.value.table == admins
    ensures var m2 := MoveTo(m1, next);
            m2.Some? && ManagerOk(m2.value, admins) && m2.value.conn.clientFd == m1.conn.clientFd
  {
    SharedIsOk(Arrive(b, next, env), MoveTo(m1, next).value, admins);
  }

  lemma SharedIsOk(e: Bundle, m: Manager, admins: seq<User>)
    requires Ok(e) && m.conn == e.conn && m.client == e.client
    requires e.conn.current.Some? && e.conn.current.value < REQUEST_READ
    requires !e.conn.isSocks && e.conn.hello.wanted == H.USERNAME_PASSWORD
    requires e.conn.checked.Some? ==> e.conn.checked.value.table == admins
    ensures ManagerOk(m, admins)
  {
    assert Shared(m) == e;
  }

  lemma RequestArrival(m1: Manager, b: Bundle, env: Env, admins: seq<User>)
    requires b.conn == m1.conn && b.client == m1.client && Passed(b, REQUEST_READ, env)
    requires b.conn.current == Some(USERPASS_WRITE) && !b.conn.isSocks && b.conn.hello.selected == H.USERNAME_PASSWORD
    requires b.conn.checked.Some? && b.conn.checked.value.table == admins
    requires |b.conn.input| == LoginEnd(b.conn) + |b.conn.rb.bytes|
    ensures var m2 := MoveTo(m1, MNG_REQUEST_READ_INDEX);
            m2.Some? && ManagerOk(m2.value, admins) && m2.value.conn.clientFd == m1.conn.clientFd
  {
    var c := Arrive(b, REQUEST_READ, env).conn;
    assert GatePassed(c) && Tracks(c);
    assert SameHistory(c, MoveTo(m1, MNG_REQUEST_READ_INDEX).value.conn);
  }

  // ----- The request stages -----

  /** The input, split where the unread bytes begin. */
  lemma InputSplit(c: Conn, more: seq<Byte>)
    requires Tracks(c)
    ensures var k := |c.input| - |c.rb.bytes|;
            c.input + more == c.input[..k] + (c.rb.bytes + more)
  {
    var k := |c.input| - |c.rb.bytes|;
    assert c.input == c.input[..k] + c.rb.bytes;
  }

  /** What reading and consuming keeps. */
  lemma ConsumedKeeps(m: Manager, chunk: seq<Byte>, admins: seq<User>)
    requires Admitted(m.conn, admins) && Tracks(m.conn) && m.conn.rb.Valid() && |chunk| <= m.conn.rb.Room()
    ensures var (p, n) := Consume(F.Feed, F.Stops, m.parser, m.conn.rb.bytes + chunk);
            var q := Consumed(m, chunk);
            && q == m.(conn := m.conn.(rb := q.conn.rb, input := m.conn.input + chunk), parser := p)
            && q.conn.rb.Valid() && q.conn.rb.limit == m.conn.rb.limit
            && q.conn.rb.bytes == (m.conn.rb.bytes + chunk)[n..]
            && Admitted(q.conn, admins) && Tracks(q.conn)
  {
    var (p, n) := Consume(F.Feed, F.Stops, m.parser, m.conn.rb.bytes + chunk);
    var q := Consumed(m, chunk);
    AdvanceBytes(m.conn.rb.Append(chunk), n);
    TracksStep(m.conn, chunk, n, q.conn);
    OfferedGrows(m.conn, q.conn, chunk);
    CheckedGrows(m.conn, q.conn, chunk);
  }

  lemma ReplyKeeps(m: Manager, bytes: seq<Byte>, room: nat, admins: seq<User>)
    requires m.conn.wb.Valid() && |bytes| <= room && Admitted(m.conn, admins) && Tracks(m.conn)
    ensures var r := Reply(m, bytes, room);
            && r == m.(conn := m.conn.(wb := r.conn.wb), client := WRITE)
            && r.conn.wb.Valid() && r.conn.wb.limit == m.conn.wb.limit
            && Admitted(r.conn, admins) && Tracks(r.conn)
  {
  }

  /** A connection at one of the request's stages, apart from what the stage itself is about. */
  ghost predicate AtRequest(m: Manager, admins: seq<User>) {
    && !m.conn.isSocks && m.conn.originFd == -1 && Sound(Shared(m))
    && m.conn.current.Some? && MNG_REQUEST_READ_INDEX <= m.conn.current.value
    && Admitted(m.conn, admins) && Tracks(m.conn)
  }

  lemma WaitsToWrite(m: Manager, admins: seq<User>)
    requires AtRequest(m, admins) && m.client == WRITE && m.conn.current.value < MNG_REQUEST_WRITE
    ensures var m2 := MoveTo(m, MNG_REQUEST_WRITE); m2.Some? && ManagerOk(m2.value, admins)
  {
  }

  lemma WaitsToRead(m: Manager, admins: seq<User>)
    requires AtRequest(m, admins) && m.conn.current == Some(MNG_REQUEST_READ_INDEX) && m.client == READ && m.conn.wb.bytes == []
    requires TakesParameters(m.index) && |m.conn.input| == LoginEnd(m.conn) + 1 + |m.conn.rb.bytes|
    requires m.conn.input[LoginEnd(m.conn)] == m.index
    ensures var m2 := MoveTo(m, MNG_REQUEST_READ); m2.Some? && ManagerOk(m2.value, admins)
  {
    var m2 := MoveTo(m, MNG_REQUEST_READ).value;
    var c, k := m2.conn, LoginEnd(m2.conn);
    assert Parameters(m2) == [];
    F.LayoutHead(FieldsOf(m.index));
    assert Admitted(c, admins) && Tracks(c) && InCommand(m2);
  }

  /** The first unread byte is the index of the list request. */
  predicate AsksForList(m: Manager, recv: Option<seq<Byte>>) {
    m.conn.rb.Room() > 0 && recv.Some? && FirstByte(m.conn.rb.bytes + recv.value) == LIST_USERS
  }

  lemma ListKeeps(m: Manager, s: Settings, metrics: Metrics, admins: seq<User>)
    requires AtRequest(m, admins) && m.index == LIST_USERS
    ensures var r := ProcessIndex(m, s, metrics);
            r.Goes? ==>
              && r.next == MNG_REQUEST_WRITE && r.settings == s && r.manager.client == WRITE
              && r.manager == m.(conn := m.conn.(wb := r.manager.conn.wb), client := WRITE)
              && AtRequest(r.manager, admins)
  {
    var r := ProcessIndex(m, s, metrics);
    if r.Goes? {
      assert SameHistory(m.conn, r.manager.conn);
    }
  }

  lemma IndexProcessed(m: Manager, s: Settings, metrics: Metrics, admins: seq<User>)
    requires AtRequest(m, admins) && m.conn.current == Some(MNG_REQUEST_READ_INDEX) && m.client == READ && m.conn.wb.bytes == []
    requires |m.conn.input| == LoginEnd(m.conn) + 1 + |m.conn.rb.bytes| && m.conn.input[LoginEnd(m.conn)] == m.index
    ensures var r := ProcessIndex(m, s, metrics);
            && (r.Overrun? <==> m.index == LIST_USERS && M.Overruns(BUFFER_SIZE, s.users))
            && (r.Goes? ==> r.settings == s) && Lands(m, r, admins)
  {
    var r := ProcessIndex(m, s, metrics);
    if m.index == SUPPORTED_INDEXES {
      ReplyKeeps(m, SUPPORTED_REPLY, 18, admins);
      WaitsToWrite(r.manager, admins);
    } else if m.index == LIST_USERS {
      if r.Goes? {
        ListKeeps(m, s, metrics, admins);
        WaitsToWrite(r.manager, admins);
      }
    } else if m.index < ADD_USER {
      ReplyKeeps(m, M.MetricReply(MetricOf(m.index, metrics)), 5, admins);
      WaitsToWrite(r.manager, admins);
    } else if m.index <= DISABLE_DISSECTORS {
      WaitsToRead(r.manager, admins);
    }
  }

  /** The index is the byte behind the credentials, and one byte is all it takes. */
  lemma IndexConsumed(m: Manager, chunk: seq<Byte>, admins: seq<User>)
    requires ManagerOk(m, admins) && m.conn.current == Some(MNG_REQUEST_READ_INDEX) && 0 < |chunk| <= m.conn.rb.Room()
    ensures var q, index := Consumed(m, chunk), FirstByte(m.conn.rb.bytes + chunk);
            && AtRequest(q, admins) && q == m.(conn := m.conn.(rb := q.conn.rb, input := q.conn.input), parser := q.parser)
            && F.Stops(q.parser) && (q.parser.current == F.ErrorRead <==> index > DISABLE_DISSECTORS)
            && FirstByte(Field(q.parser, 0)) == index
            && |q.conn.input| == LoginEnd(q.conn) + 1 + |q.conn.rb.bytes| && q.conn.input[LoginEnd(q.conn)] == index
  {
    F.IndexIsChecked(m.conn.rb.bytes + chunk);
    ConsumedKeeps(m, chunk, admins);
    InputSplit(m.conn, chunk);
  }

  /** Where the index leads; a list that the size check lets through although it does not fit is all that goes wrong. */
  lemma IndexOk(m: Manager, recv: Option<seq<Byte>>, s: Settings, metrics: Metrics, admins: seq<User>)
    requires ManagerOk(m, admins) && m.conn.current == Some(MNG_REQUEST_READ_INDEX)
    requires recv.Some? ==> 0 < |recv.value| <= m.conn.rb.Room()
    ensures var r := ReadIndex(m, recv, s, metrics);
            && (r.Overrun? <==> AsksForList(m, recv) && M.Overruns(BUFFER_SIZE, s.users))
            && (r.Goes? ==> r.settings == s) && Lands(m, r, admins)
  {
    if m.conn.rb.Room() == 0 {
      ReplyKeeps(m, [SERVER_ERROR], 1, admins);
      WaitsToWrite(Reply(m, [SERVER_ERROR], 1), admins);
    } else if recv.Some? {
      var q := Consumed(m, recv.value);
      IndexConsumed(m, recv.value, admins);
      if q.parser.current == F.ErrorRead {
        ReplyKeeps(q, [F.INDEX_NOT_SUPPORTED], 1, admins);
        WaitsToWrite(Reply(q, [F.INDEX_NOT_SUPPORTED], 1), admins);
      } else {
        IndexProcessed(q.(index := FirstByte(m.conn.rb.bytes + recv.value)), s, metrics, admins);
      }
    }
  }

  // ----- The parameters -----

  /** `c` has sent, right behind its credentials, this index and these parameters. */
  ghost predicate Requests(c: Conn, index: Byte, vals: seq<seq<Byte>>) {
    && c.checked.Some? && TakesParameters(index)
    && LoginEnd(c) < |c.input| && c.input[LoginEnd(c)] == index
    && F.Accepted(FieldsOf(index), vals) && F.Encode(FieldsOf(index), vals) <= c.input[LoginEnd(c) + 1..]
  }

  /** What such a request asks for. */
  function Performed(index: Byte, vals: seq<seq<Byte>>, s: Settings): Settings
    requires F.Accepted(FieldsOf(index), vals)
  {
    if index == ADD_USER then s.(users := Add(s.users, User(CString(vals[0]), CString(vals[1]))))
    else if index == DELETE_USER then s.(users := Delete(s.users, CString(vals[0])))
    else if index == DISABLE_AUTH then
      s.(authMethod := if FirstByte(vals[0]) == 0 then H.USERNAME_PASSWORD else H.NO_AUTHENTICATION)
    else if index == DISABLE_DISSECTORS then s.(dissectors := FirstByte(vals[0]))
    else s
  }

  /** A parser that holds the parameters makes the server do what they ask for. */
  lemma ProcessPerforms(index: Byte, vals: seq<seq<Byte>>, s: Settings)
    requires TakesParameters(index) && F.Accepted(FieldsOf(index), vals)
    ensures Process(index, F.At(F.Filled(FieldsOf(index), vals), []), s).0 == Performed(index, vals, s)
  {
    var p := F.At(F.Filled(FieldsOf(index), vals), []);
    assert p.steps == F.Filled(FieldsOf(index), vals);
    CStringOfStored(vals[0]);
    if index == ADD_USER {
      F.PairIsFields(vals[0], vals[1]);
      assert vals == [vals[0], vals[1]];
      CStringOfStored(vals[1]);
    } else {
      F.FieldInFront(FieldsOf(index)[0], [], vals[0], []);
      assert FieldsOf(index) == [FieldsOf(index)[0]] + [] && vals == [vals[0]] + [];
    }
  }

  lemma FieldsArePositive(index: Byte)
    ensures FieldsOf(index) != [] && F.Positive(FieldsOf(index))
  {
  }

  /** A finished parser and the message it was given. */
  ghost predicate HoldsMessage(fields: seq<F.Field>, bytes: seq<Byte>, p: F.Parser, vals: seq<seq<Byte>>) {
    F.Accepted(fields, vals) && F.Encode(fields, vals) <= bytes && p == F.At(F.Filled(fields, vals), [])
  }

  lemma MessageHeld(fields: seq<F.Field>, bytes: seq<Byte>) returns (vals: seq<seq<Byte>>)
    requires fields != [] && F.Positive(fields)
    requires Consume(F.Feed, F.Stops, F.Start(fields), bytes).0.current == F.DoneRead
    ensures HoldsMessage(fields, bytes, Consume(F.Feed, F.Stops, F.Start(fields), bytes).0, vals)
  {
    vals := F.FinishedMessage(fields, bytes);
  }

  lemma ParsedFurther(fields: seq<F.Field>, taken: seq<Byte>, p: F.Parser, all: seq<Byte>)
    requires fields != [] && F.Positive(fields)
    requires Takes(F.Feed, F.Stops, F.Start(fields), taken, p) && !F.Stops(p)
    ensures var (q, n) := Consume(F.Feed, F.Stops, p, all);
            && (!F.Stops(q) ==> n == |all| && Takes(F.Feed, F.Stops, F.Start(fields), taken + all, q))
            && (q.current == F.DoneRead ==> exists vals :: HoldsMessage(fields, taken + all, q, vals))
  {
    TakesThen(F.Feed, F.Stops, F.Start(fields), taken, p, all);
    if Consume(F.Feed, F.Stops, p, all).0.current == F.DoneRead {
      var vals := MessageHeld(fields, taken + all);
    }
  }

  lemma InputBehindIndex(m: Manager, chunk: seq<Byte>)
    requires Tracks(m.conn) && m.conn.checked.Some? && LoginEnd(m.conn) < |m.conn.input| - |m.conn.rb.bytes|
    ensures var input, k := m.conn.input + chunk, LoginEnd(m.conn);
            input[k] == m.conn.input[k] && input[k + 1..] == Parameters(m) + (m.conn.rb.bytes + chunk)
  {
    InputSplit(m.conn, chunk);
  }

  /** The parameters, one chunk further. */
  lemma CommandConsumed(m: Manager, chunk: seq<Byte>, admins: seq<User>)
    requires InRequestStages(m, admins) && m.conn.current == Some(MNG_REQUEST_READ)
    requires m.conn.rb.Valid() && |chunk| <= m.conn.rb.Room()
    ensures var q := Consumed(m, chunk);
            && (!F.Stops(q.parser) ==> InCommand(q))
            && (q.parser.current == F.DoneRead ==> exists vals :: Asks(q, vals))
  {
    ConsumedKeeps(m, chunk, admins);
    FieldsArePositive(m.index);
    InputBehindIndex(m, chunk);
    ParsedFurther(FieldsOf(m.index), Parameters(m), m.parser, m.conn.rb.bytes + chunk);
    CommandPlaced(m, chunk, Consumed(m, chunk));
  }

  /** What the parser knows about its bytes, said of the input. */
  lemma CommandPlaced(m: Manager, chunk: seq<Byte>, q: Manager)
    requires m.conn.checked.Some? && InCommand(m) && q.index == m.index
    requires q.conn == m.conn.(rb := q.conn.rb, input := m.conn.input + chunk)
    requires q.conn.input[LoginEnd(m.conn)] == m.index
    requires q.conn.input[LoginEnd(m.conn) + 1..] == Parameters(m) + (m.conn.rb.bytes + chunk)
    ensures q.conn.rb.bytes == [] && !F.Stops(q.parser)
            && Takes(F.Feed, F.Stops, F.Start(FieldsOf(m.index)), Parameters(m) + (m.conn.rb.bytes + chunk), q.parser)
            ==> InCommand(q)
    ensures forall vals :: HoldsMessage(FieldsOf(m.index), Parameters(m) + (m.conn.rb.bytes + chunk), q.parser, vals) ==> Asks(q, vals)
  {
    if q.conn.rb.bytes == [] {
      assert Parameters(q) == q.conn.input[LoginEnd(m.conn) + 1..];
    }
  }

  /** The connection's parser holds what its client asks for. */
  ghost predicate Asks(q: Manager, vals: seq<seq<Byte>>) {
    Requests(q.conn, q.index, vals) && q.parser == F.At(F.Filled(FieldsOf(q.index), vals), [])
  }

  /** A reaction to a request that has been read in full. */
  ghost predicate Performs(r: Reaction, vals: seq<seq<Byte>>, s: Settings)
    requires r.Goes?
  {
    Requests(r.manager.conn, r.manager.index, vals) && r.settings == Performed(r.manager.index, vals, s)
  }

  lemma CommandDone(q: Manager, vals: seq<seq<Byte>>, s: Settings, admins: seq<User>)
    requires AtRequest(q, admins) && q.conn.current == Some(MNG_REQUEST_READ) && Asks(q, vals)
    ensures var (s', status) := Process(q.index, q.parser, s);
            var r := Goes(Reply(q, [status], 1), MNG_REQUEST_WRITE, s');
            Lands(q, r, admins) && Admitted(r.manager.conn, admins) && Performs(r, vals, s)
  {
    ProcessPerforms(q.index, vals, s);
    Replied(q, Process(q.index, q.parser, s).1, vals, admins);
  }

  lemma Replied(q: Manager, status: Byte, vals: seq<seq<Byte>>, admins: seq<User>)
    requires AtRequest(q, admins) && q.conn.current == Some(MNG_REQUEST_READ) && Requests(q.conn, q.index, vals)
    ensures var r := Reply(q, [status], 1);
            && Admitted(r.conn, admins) && r.index == q.index && Requests(r.conn, r.index, vals)
            && forall s: Settings :: Lands(q, Goes(r, MNG_REQUEST_WRITE, s), admins)
  {
    ReplyKeeps(q, [status], 1, admins);
    WaitsToWrite(Reply(q, [status], 1), admins);
  }

  /** Where the parameters lead, and what they change. */
  lemma CommandOk(m: Manager, recv: Option<seq<Byte>>, s: Settings, admins: seq<User>)
    requires ManagerOk(m, admins) && m.conn.current == Some(MNG_REQUEST_READ)
    requires recv.Some? ==> 0 < |recv.value| <= m.conn.rb.Room()
    ensures var r := ReadRequest(m, recv, s); r.Goes? && Lands(m, r, admins) && ChangesAsAsked(m, r, admins, s)
  {
    if recv.Some? {
      var q := Consumed(m, recv.value);
      ConsumedKeeps(m, recv.value, admins);
      CommandConsumed(m, recv.value, admins);
      if q.parser.current == F.DoneRead {
        var vals :| Asks(q, vals);
        CommandDone(q, vals, s, admins);
      }
    }
  }

  lemma WriteOk(m: Manager, sent: Option<nat>, s: Settings, admins: seq<User>)
    requires ManagerOk(m, admins) && m.conn.current == Some(MNG_REQUEST_WRITE)
    requires sent.Some? ==> sent.value <= |m.conn.wb.bytes|
    ensures var r := WriteReply(m, sent, s);
            r.Goes? && r.settings == s && Lands(m, r, admins)
  {
    var r := WriteReply(m, sent, s);
    assert SameHistory(m.conn, r.manager.conn);
  }

  // ----- Every event -----

  /** The one thing that goes wrong: a list is asked for that passes the size check and does not fit. */
  predicate ListOverruns(m: Manager, a: Answer, s: Settings) {
    m.conn.current == Some(MNG_REQUEST_READ_INDEX) && AsksForList(m, a.recv) && M.Overruns(BUFFER_SIZE, s.users)
  }

  /** The event comes from an administrator's connection, which has asked for the change. */
  ghost predicate ChangesAsAsked(m: Manager, r: Reaction, admins: seq<User>, s: Settings)
    requires r.Goes?
  {
    r.settings == s
    || (m.conn.current == Some(MNG_REQUEST_READ) && Admitted(r.manager.conn, admins) && r.next == MNG_REQUEST_WRITE
        && exists vals :: Performs(r, vals, s))
  }

  lemma RespondOk(m: Manager, kind: Kind, a: Answer, admins: seq<User>, s: Settings, metrics: Metrics)
    requires ManagerOk(m, admins) && m.conn.current.Some? && Armed(m, kind) && Fits(m, kind, a)
    ensures Reactable(m, kind, a)
    ensures var r := Respond(m, kind, a, admins, s, metrics);
            && (r.Overrun? <==> ListOverruns(m, a, s))
            && (r.Goes? ==> ChangesAsAsked(m, r, admins, s)) && Lands(m, r, admins)
  {
    var st := m.conn.current.value;
    if st < MNG_REQUEST_READ_INDEX {
      OpeningOk(m, kind, a, admins);
    } else if st == MNG_REQUEST_READ_INDEX {
      IndexOk(m, a.recv, s, metrics, admins);
    } else if st == MNG_REQUEST_READ {
      CommandOk(m, a.recv, s, admins);
    } else {
      WriteOk(m, a.sent, s, admins);
    }
  }

  // ----- Every run -----

  ghost predicate Inv(w: Server) {
    forall fd :: fd in w.conns ==> !InvalidFd(fd) && w.conns[fd].conn.clientFd == fd && ManagerOk(w.conns[fd], w.admins)
  }

  /** The event asks for a list that passes the size check and does not fit. */
  predicate Overrunning(w: Server, e: Event) {
    e.Ready? && e.fd in w.conns && !e.write && ListOverruns(w.conns[e.fd], e.answer, w.settings)
  }

  lemma ReadyOk(w: Server, fd: int, write: bool, a: Answer, metrics: Metrics)
    requires Inv(w) && CanHappen(w, Ready(fd, write, a, metrics))
    ensures Step(w, Ready(fd, write, a, metrics)).Fault? <==> Overrunning(w, Ready(fd, write, a, metrics))
    ensures var o := Step(w, Ready(fd, write, a, metrics)); o.Continue? ==> Inv(o.server) && o.server.admins == w.admins
    ensures var o := Step(w, Ready(fd, write, a, metrics)); o.Continue? ==> AsAsked(w, o.server, fd)
  {
    var kind := if write then WriteEvent else ReadEvent;
    var m := Entered(w.conns[fd]);
    EnteredIsOk(w.conns[fd], w.admins);
    RespondOk(m, kind, a, w.admins, w.settings, metrics);
    var r := Respond(m, kind, a, w.admins, w.settings, metrics);
    AfterOk(w, fd, m, r);
    if r.Goes? {
      AfterAsAsked(w, fd, m, r);
    }
  }

  lemma AfterOk(w: Server, fd: int, m: Manager, r: Reaction)
    requires Inv(w) && fd in w.conns && m.conn.clientFd == fd && Lands(m, r, w.admins)
    ensures After(w, fd, r).Fault? <==> r.Overrun?
    ensures After(w, fd, r).Continue? ==> Inv(After(w, fd, r).server) && After(w, fd, r).server.admins == w.admins
  {
  }

  lemma AfterAsAsked(w: Server, fd: int, m: Manager, r: Reaction)
    requires fd in w.conns && m == Entered(w.conns[fd]) && r.Goes? && ChangesAsAsked(m, r, w.admins, w.settings)
    ensures After(w, fd, r).Continue? ==> AsAsked(w, After(w, fd, r).server, fd)
  {
    if r.settings != w.settings && After(w, fd, r).Continue? {
      var vals :| Performs(r, vals, w.settings);
      MovedStillAsks(r.manager, vals, w.admins);
    }
  }

  lemma MovedStillAsks(q: Manager, vals: seq<seq<Byte>>, admins: seq<User>)
    requires Admitted(q.conn, admins) && Requests(q.conn, q.index, vals)
    ensures var m2 := MoveTo(q, MNG_REQUEST_WRITE);
            m2.Some? && m2.value.index == q.index && Admitted(m2.value.conn, admins) && Requests(m2.value.conn, q.index, vals)
  {
    var m2 := MoveTo(q, MNG_REQUEST_WRITE).value;
    assert SameHistory(q.conn, m2.conn);
  }

  /** The settings are as before, or as the administrator at `fd` has asked for. */
  ghost predicate AsAsked(w: Server, w2: Server, fd: int) {
    w2.settings == w.settings
    || (fd in w.conns && fd in w2.conns
        && w.conns[fd].conn.current == Some(MNG_REQUEST_READ)
        && var m := w2.conns[fd];
           Admitted(m.conn, w.admins)
           && exists vals :: Requests(m.conn, m.index, vals) && w2.settings == Performed(m.index, vals, w.settings))
  }

  /** A step faults if and only if it overruns the reply buffer, and otherwise keeps the invariant. */
  lemma StepOk(w: Server, e: Event)
    requires Inv(w) && CanHappen(w, e)
    ensures Step(w, e).Fault? <==> Overrunning(w, e)
    ensures Step(w, e).Continue? ==> Inv(Step(w, e).server) && Step(w, e).server.admins == w.admins
  {
    match e
    case Accept(fd) =>
      if !InvalidFd(fd) {
        NewManagerIsOk(fd, w.admins);
      }
    case Ready(fd, write, a, metrics) => ReadyOk(w, fd, write, a, metrics);
  }

  ghost predicate Reaches(w0: Server, es: seq<Event>, w: Server) {
    Initial(w0) && IsRun(w0, es) && Run(w0, es) == Continue(w)
  }

  lemma {:induction false} RunKeeps(w: Server, es: seq<Event>)
    requires Inv(w) && IsRun(w, es) && Run(w, es).Continue?
    ensures Inv(Run(w, es).server) && Run(w, es).server.admins == w.admins
    decreases |es|
  {
    if es != [] {
      StepOk(w, es[0]);
      RunKeeps(Step(w, es[0]).server, es[1..]);
    }
  }

  /**
   The gate: nobody gets as far as a request unless it offered user name and password, the method that was
   selected, and the pair it sent is in the administrators' table.
   */
  lemma GateHolds(w0: Server, es: seq<Event>, w: Server, fd: int)
    requires Reaches(w0, es, w) && fd in w.conns && StateOf(w.conns[fd].conn) >= MNG_REQUEST_READ_INDEX
    ensures var c := w.conns[fd].conn;
            && Offered(c) && c.hello.selected == H.USERNAME_PASSWORD
            && CheckedAgainst(c) && c.checked.value.status == GRANTED && c.checked.value.table == w0.admins
            && Granted(w0.admins, User(CString(c.checked.value.user + [0]), CString(c.checked.value.pass + [0])))
  {
    RunKeeps(w0, es);
  }

  /** Event readiness: what the selector watches is something the connection's state handles. */
  lemma EveryArmedIsReady(w0: Server, es: seq<Event>, w: Server, fd: int)
    requires Reaches(w0, es, w) && fd in w.conns
    ensures var m := w.conns[fd];
            && m.conn.clientFd == fd && StateOf(m.conn) < |MNG_STATES|
            && (m.client.read ==> MNG_STATES[StateOf(m.conn)].onRead)
            && (m.client.write ==> MNG_STATES[StateOf(m.conn)].onWrite)
            && m.client != NOOP
  {
    RunKeeps(w0, es);
    if StateOf(w.conns[fd].conn) < MNG_REQUEST_READ_INDEX {
      WiredIsReady(Shared(w.conns[fd]));
    }
  }

  /** After any run, an event faults if and only if it asks for a list that passes the size check and does not fit. */
  lemma FaultsIffOverrun(w0: Server, es: seq<Event>, w: Server, e: Event)
    requires Reaches(w0, es, w) && CanHappen(w, e)
    ensures Step(w, e).Fault? <==> Overrunning(w, e)
  {
    RunKeeps(w0, es);
    StepOk(w, e);
  }

  /**
   Only administrators change the settings, and only as asked: a change comes from a connection that has passed
   the gate, and is the one that the bytes behind its credentials encode.
   */
  lemma ChangesAreRequested(w0: Server, es: seq<Event>, w: Server, e: Event)
    requires Reaches(w0, es, w) && CanHappen(w, e) && Step(w, e).Continue? && Step(w, e).server.settings != w.settings
    ensures e.Ready? && e.fd in w.conns && e.fd in Step(w, e).server.conns
    ensures var m, s := Step(w, e).server.conns[e.fd], Step(w, e).server.settings;
            Admitted(m.conn, w0.admins)
            && exists vals :: Requests(m.conn, m.index, vals) && s == Performed(m.index, vals, w.settings)
  {
    RunKeeps(w0, es);
    match e
    case Accept(fd) =>
    case Ready(fd, write, a, metrics) => ReadyOk(w, fd, write, a, metrics);
  }

  /** What a request changes, the proxy sees as a run of its own. */
  lemma ChangesAreProxyRuns(index: Byte, vals: seq<seq<Byte>>, s: Settings, p: W.World)
    requires TakesParameters(index) && F.Accepted(FieldsOf(index), vals)
    requires p.users == s.users && p.authMethod == s.authMethod
    ensures var s' := Performed(index, vals, s);
            exists es :: W.IsRun(p, es) && W.Run(p, es) == W.Continue(p.(users := s'.users, authMethod := s'.authMethod))
  {
    var s' := Performed(index, vals, s);
    var e :=
      if index == ADD_USER then W.ChangeUsers(UsersModule.AddUser(User(CString(vals[0]), CString(vals[1]))))
      else if index == DELETE_USER then W.ChangeUsers(UsersModule.DeleteUser(CString(vals[0])))
      else W.ChangeAuth(s'.authMethod);
    var p' := p.(users := s'.users, authMethod := s'.authMethod);
    if index == DISABLE_DISSECTORS {
      assert W.Run(p, []) == W.Continue(p');
      assert W.IsRun(p, []);
    } else {
      assert W.Step(p, e) == W.Continue(p');
      assert [e][1..] == [];
      assert W.Run(p', []) == W.Continue(p') && W.IsRun(p', []);
      assert W.IsRun(p, [e]) && W.Run(p, [e]) == W.Continue(p');
    }
  }
}
