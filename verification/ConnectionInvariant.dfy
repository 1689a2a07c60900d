/**
 What every stage of a connection keeps: the interests of its descriptors fit its state, so that the selector
 never delivers an event that the state does not handle; its references count its registrations; and its history
 justifies how far it has come.
 */
module ConnectionInvariantModule {

  import opened Base
  import opened Buffers
  import opened Feeding
  import opened SelectorTable
  import opened StateMachineModule
  import opened UsersModule
  import opened ConnectionModule
  import H = HelloParserModule
  import F = FieldParserModule
  import R = RequestParserModule
  import Relay = RelayModule

  /** The state an event would find: `handle_first` enters the initial one. */
  function StateOf(c: Conn): nat {
    if c.current.None? then HELLO_READ else c.current.value
  }

  /** What the selector watches is something the state handles. */
  predicate Ready(st: nat, i: Interest) {
    && st < |CLIENT_STATES|
    && (i.read ==> CLIENT_STATES[st].onRead)
    && (i.write ==> CLIENT_STATES[st].onWrite)
  }

  // ----- Resources -----

  /** Buffers, descriptors and the reference count. */
  ghost predicate Sound(b: Bundle) {
    var c := b.conn;
    && c.rb.Valid() && c.wb.Valid() && c.rb.limit == c.wb.limit == BUFFER_SIZE
    && !InvalidFd(c.clientFd) && c.clientFd != c.originFd
    && c.references == (if b.origin.Some? then 2 else 1)
    && (b.origin.Some? ==> !InvalidFd(c.originFd))
  }

  /** The interests of the two descriptors in each state between events. */
  ghost predicate Wired(b: Bundle) {
    var c, st := b.conn, StateOf(b.conn);
    if st == HELLO_READ || st == USERPASS_READ || st == REQUEST_READ then
      b.client == READ && b.origin == None && c.originFd == -1
    else if st == HELLO_WRITE || st == USERPASS_WRITE then
      b.client == WRITE && b.origin == None && c.originFd == -1
    else if st == REQUEST_RESOLV then
      b.client == NOOP && b.origin == None && c.originFd == -1
    else if st == REQUEST_CONNECTING then
      if c.status == SUCCEEDED then b.client == NOOP && b.origin == Some(WRITE)
      else b.client == WRITE && b.origin == None
    else if st == REQUEST_WRITE then
      b.client == WRITE &&
      if b.origin.None? then c.originFd == -1 && c.status != SUCCEEDED else b.origin == Some(NOOP)
    else
      st == COPY && b.origin.Some? && Relay.Inv(RelayOf(b))
  }

  /** Both descriptors that the record names are registered: closing the connection finds them. */
  ghost predicate Closable(b: Bundle) {
    b.origin.None? ==> b.conn.originFd == -1
  }

  /** Every armed descriptor of a wired connection is in a state that handles its events. */
  lemma WiredIsReady(b: Bundle)
    requires Wired(b)
    ensures Ready(StateOf(b.conn), b.client)
    ensures b.origin.Some? ==> Ready(StateOf(b.conn), b.origin.value)
  {
  }

  /**
   What waits to be sent: nothing while the client's next message is awaited or a name is resolved; while
   connecting, a reply if it is already clear that there will be no connection.
   */
  ghost predicate Flushed(c: Conn) {
    var st := StateOf(c);
    && (st == HELLO_READ || st == USERPASS_READ || st == REQUEST_READ || st == REQUEST_RESOLV ==> c.wb.bytes == [])
    && (st == REQUEST_CONNECTING ==> c.wb.start == 0 && c.wb.bytes == if c.status == SUCCEEDED then [] else RequestReply(c.status))
  }

  // ----- History -----

  /** The unread bytes are the last ones received. */
  ghost predicate Tracks(c: Conn) {
    |c.rb.bytes| <= |c.input| && c.input[|c.input| - |c.rb.bytes|..] == c.rb.bytes
  }

  /** The opening message has been read, and the selected method is the configured one if the client offered it. */
  ghost predicate Opened(c: Conn) {
    && H.Opens(c.input, Version(c), c.helloLength)
    && c.helloLength + |c.rb.bytes| <= |c.input|
    && c.hello.selected == H.Select(c.hello.wanted, c.input[2..c.helloLength])
  }

  /** The client offered the method that was selected, which is the one that was wanted. */
  ghost predicate Offered(c: Conn) {
    && H.Opens(c.input, Version(c), c.helloLength)
    && c.hello.selected in c.input[2..c.helloLength]
    && c.hello.selected == c.hello.wanted
  }

  /** The credentials message follows the opening message, and the check searched the table for its pair. */
  ghost predicate CheckedAgainst(c: Conn) {
    && H.Opens(c.input, Version(c), c.helloLength)
    && c.checked.Some?
    && var k := c.checked.value;
       && |k.user| <= 255 && |k.pass| <= 255
       && F.EncodeCredentials(k.user, k.pass) <= c.input[c.helloLength..]
       && (k.status == GRANTED <==> Granted(k.table, User(CString(k.user + [0]), CString(k.pass + [0]))))
       && c.authentication == k.status
  }

  /**
   The gate: the client offered the selected method, and either that method asks for nothing, or the pair it
   sent was in the table when it was checked.
   */
  ghost predicate GatePassed(c: Conn) {
    && Offered(c)
    && (c.hello.selected == H.NO_AUTHENTICATION
        || (c.hello.selected == H.USERNAME_PASSWORD && CheckedAgainst(c) && c.checked.value.status == GRANTED))
  }

  /** Where the credentials message ends in the input. */
  function LoginEnd(c: Conn): nat
    requires c.checked.Some?
  {
    c.helloLength + 3 + |c.checked.value.user| + |c.checked.value.pass|
  }

  /** Where the request begins in the input: behind the credentials, if any were asked for. */
  function RequestStart(c: Conn): nat {
    if c.hello.selected == H.USERNAME_PASSWORD && c.checked.Some? then LoginEnd(c) else c.helloLength
  }

  /** The request parser has read what has been consumed behind the opening and the credentials. */
  ghost predicate ReadingRequest(c: Conn) {
    && RequestStart(c) + |c.rb.bytes| <= |c.input|
    && Takes(R.Feed, R.IsDone, R.INITIAL, c.input[RequestStart(c)..|c.input| - |c.rb.bytes|], c.request)
    && !R.IsDone(c.request)
  }

  /** The request parser has stopped, and everything behind the request is still in the buffer. */
  ghost predicate Asked(c: Conn) {
    && RequestStart(c) + |c.rb.bytes| <= |c.input| && R.IsDone(c.request)
    && var (q, n) := Consume(R.Feed, R.IsDone, R.INITIAL, c.input[RequestStart(c)..]);
       q == c.request && |c.input| == RequestStart(c) + n + |c.rb.bytes|
  }

  ghost predicate KnownMethod(m: Byte) {
    m == H.NO_AUTHENTICATION || m == H.USERNAME_PASSWORD
  }

  /** What the bytes received so far justify in each state. */
  ghost predicate Justified(c: Conn) {
    var st := StateOf(c);
    && Tracks(c)
    && (c.current.None? ==> c.input == [])
    && (c.current == Some(HELLO_READ) ==>
          && c.rb.bytes == [] && KnownMethod(c.hello.wanted)
          && Takes(H.Feed, H.Stops, H.Initial(Version(c), c.hello.wanted), c.input, c.hello)
          && !H.Stops(c.hello))
    && (st == HELLO_WRITE ==>
          Opened(c) && KnownMethod(c.hello.wanted) && c.helloLength + |c.rb.bytes| == |c.input|)
    && (st == USERPASS_READ ==>
          && Opened(c) && KnownMethod(c.hello.wanted) && c.hello.selected == H.USERNAME_PASSWORD
          && Takes(F.Feed, F.Stops, F.Start(F.AUTH_FIELDS), c.input[c.helloLength..|c.input| - |c.rb.bytes|], c.auth)
          && !F.Stops(c.auth))
    && (st == USERPASS_WRITE ==>
          && Opened(c) && KnownMethod(c.hello.wanted) && c.hello.selected == H.USERNAME_PASSWORD && CheckedAgainst(c)
          && |c.input| == LoginEnd(c) + |c.rb.bytes|)
    && (st >= REQUEST_READ ==> GatePassed(c))
    && (st == REQUEST_READ ==> ReadingRequest(c))
    && (REQUEST_READ < st < COPY ==> Asked(c))
  }

  /** A connection between events. */
  ghost predicate Ok(b: Bundle) {
    Sound(b) && Wired(b) && Flushed(b.conn) && Justified(b.conn)
  }

  lemma NewConnIsOk(clientFd: int)
    requires !InvalidFd(clientFd)
    ensures Ok(Bundle(NewConn(clientFd), READ, None))
  {
  }

  // ----- Growing input -----

  /** Bytes that arrive later change nothing about the messages that came first. */
  lemma OfferedGrows(c: Conn, c': Conn, more: seq<Byte>)
    requires Offered(c) && c'.input == c.input + more
    requires c'.isSocks == c.isSocks && c'.helloLength == c.helloLength && c'.hello == c.hello
    ensures Offered(c')
  {
    assert c'.input[2..c.helloLength] == c.input[2..c.helloLength];
  }

  lemma CheckedGrows(c: Conn, c': Conn, more: seq<Byte>)
    requires CheckedAgainst(c) && c'.input == c.input + more
    requires c'.isSocks == c.isSocks && c'.helloLength == c.helloLength && c'.checked == c.checked
    requires c'.authentication == c.authentication
    ensures CheckedAgainst(c')
  {
    assert c'.input[c.helloLength..] == c.input[c.helloLength..] + more;
  }

  lemma GateGrows(c: Conn, c': Conn, more: seq<Byte>)
    requires GatePassed(c) && c'.input == c.input + more
    requires c'.isSocks == c.isSocks && c'.helloLength == c.helloLength && c'.hello == c.hello
    requires c'.checked == c.checked && c'.authentication == c.authentication
    ensures GatePassed(c')
  {
    OfferedGrows(c, c', more);
    if c.hello.selected != H.NO_AUTHENTICATION {
      CheckedGrows(c, c', more);
    }
  }

  /** Appending to the read buffer and consuming from its front keeps track of the input. */
  lemma TracksStep(c: Conn, more: seq<Byte>, n: nat, c': Conn)
    requires Tracks(c) && c.rb.Valid() && |more| <= c.rb.Room()
    requires n <= |c.rb.bytes + more|
    requires c'.input == c.input + more && c'.rb.bytes == (c.rb.bytes + more)[n..]
    ensures Tracks(c')
  {
    var all := c.rb.bytes + more;
    assert c'.input[|c.input| - |c.rb.bytes|..] == all;
    assert c'.input[|c'.input| - (|all| - n)..] == all[n..];
  }

  lemma AdvanceBytes(b: Buf, n: nat)
    requires b.Valid() && n <= |b.bytes|
    ensures b.Advance(n).bytes == b.bytes[n..] && b.Advance(n).limit == b.limit
  {
  }

  // ----- Stage by stage -----

  /** A stage has done its part: the connection can be closed, or the jump leads to a connection between events. */
  ghost predicate Passed(b: Bundle, next: nat, env: Env) {
    if next == DONE || next == ERROR then Sound(b) && Closable(b)
    else
      && next < DONE && b.conn.wb.Valid()
      && (next == COPY && b.conn.current != Some(COPY) ==> b.origin.Some?)
      && Ok(Arrive(b, next, env))
  }

  lemma InHelloRead(c: Conn)
    requires c.current == Some(HELLO_READ) && Tracks(c) && c.rb.bytes == [] && KnownMethod(c.hello.wanted)
    requires Takes(H.Feed, H.Stops, H.Initial(Version(c), c.hello.wanted), c.input, c.hello) && !H.Stops(c.hello)
    ensures Justified(c)
  {
  }

  lemma InHelloWrite(c: Conn)
    requires c.current == Some(HELLO_WRITE) && Tracks(c) && Opened(c) && KnownMethod(c.hello.wanted)
    requires c.helloLength + |c.rb.bytes| == |c.input|
    ensures Justified(c)
  {
  }

  lemma HelloTaken(c: Conn, more: seq<Byte>)
    requires c.rb.Valid() && |more| <= c.rb.Room() && c.rb.bytes == []
    ensures var d := HelloConsume(c, more);
            var (p, n) := Consume(H.Feed, H.Stops, c.hello, more);
            && d.rb == c.rb.Append(more).Advance(n) && d.hello == p && d.isSocks == c.isSocks
            && d.input == c.input + more && d.helloLength == |c.input| + n
  {
    assert c.rb.Append(more).bytes == more;
  }

  /** Behind an empty read buffer, what is left of the new bytes is the end of the input. */
  lemma HelloTracks(c: Conn, more: seq<Byte>, n: nat, d: Conn)
    requires c.rb.Valid() && |more| <= c.rb.Room() && c.rb.bytes == [] && n <= |more|
    requires d.input == c.input + more && d.rb == c.rb.Append(more).Advance(n)
    ensures d.rb.Valid() && d.rb.limit == c.rb.limit && Tracks(d) && d.rb.bytes == more[n..]
  {
    assert c.rb.Append(more).bytes == more;
    assert d.rb.bytes == more[n..];
  }

  lemma HelloConsumed(c: Conn, more: seq<Byte>)
    requires c.rb.Valid() && |more| <= c.rb.Room() && c.rb.bytes == []
    requires Takes(H.Feed, H.Stops, H.Initial(Version(c), c.hello.wanted), c.input, c.hello) && !H.Stops(c.hello)
    ensures var d := HelloConsume(c, more);
            && d.rb.Valid() && d.rb.limit == c.rb.limit && Tracks(d) && d.hello.wanted == c.hello.wanted
            && (!H.Stops(d.hello) ==>
                  d.rb.bytes == [] && Takes(H.Feed, H.Stops, H.Initial(Version(c), c.hello.wanted), d.input, d.hello))
            && (d.hello.state == H.Done ==> Opened(d) && d.helloLength + |d.rb.bytes| == |d.input|)
  {
    HelloTaken(c, more);
    HelloTracks(c, more, Consume(H.Feed, H.Stops, c.hello, more).1, HelloConsume(c, more));
    H.StoppedLater(Version(c), c.hello.wanted, c.input, c.hello, more);
  }

  lemma HelloReadOk(b: Bundle, recv: Option<seq<Byte>>, env: Env)
    requires Ok(b) && b.conn.current == Some(HELLO_READ)
    requires recv.Some? ==> 0 < |recv.value| <= b.conn.rb.Room()
    ensures var (b', next) := HelloRead(b, recv); Passed(b', next, env)
  {
    if recv.Some? {
      HelloConsumed(b.conn, recv.value);
      var d := HelloConsume(b.conn, recv.value);
      if !H.Stops(d.hello) {
        InHelloRead(d);
      } else if d.hello.state == H.Done {
        var answered := d.(current := Some(HELLO_WRITE), wb := HelloRead(b, recv).0.conn.wb);
        assert Opened(answered) && Tracks(answered);
        InHelloWrite(answered);
      }
    }
  }

  lemma SelectedIsOffered(c: Conn)
    requires Opened(c) && KnownMethod(c.hello.wanted) && c.hello.selected != H.NO_ACCEPTABLE_METHODS
    ensures Offered(c) && KnownMethod(c.hello.selected)
  {
  }

  lemma HelloWriteOk(b: Bundle, sent: Option<nat>, env: Env)
    requires Ok(b) && b.conn.current == Some(HELLO_WRITE)
    requires sent.Some? ==> sent.value <= |b.conn.wb.bytes|
    ensures var (b', next) := HelloWrite(b, sent); Passed(b', next, env)
  {
    if sent.Some? {
      var (b', next) := HelloWrite(b, sent);
      var c := Arrive(b', next, env).conn;
      if next == HELLO_WRITE {
        InHelloWrite(c);
      } else if next == USERPASS_READ {
        SelectedIsOffered(b.conn);
        StartsUserpass(c);
      } else if next == REQUEST_READ {
        SelectedIsOffered(b.conn);
        StartsRequest(c);
      }
    }
  }

  lemma StartsRequest(c: Conn)
    requires c.current == Some(REQUEST_READ) && Tracks(c) && GatePassed(c) && c.request == R.INITIAL
    requires |c.input| == RequestStart(c) + |c.rb.bytes|
    ensures Justified(c)
  {
    assert c.input[RequestStart(c)..|c.input| - |c.rb.bytes|] == [];
  }

  lemma StartsUserpass(c: Conn)
    requires c.current == Some(USERPASS_READ) && Tracks(c) && Opened(c) && c.auth == F.Start(F.AUTH_FIELDS)
    requires KnownMethod(c.hello.wanted) && c.hello.selected == H.USERNAME_PASSWORD
    requires c.helloLength + |c.rb.bytes| == |c.input|
    ensures Justified(c)
  {
    assert c.input[c.helloLength..|c.input| - |c.rb.bytes|] == [];
    F.LayoutHead(F.AUTH_FIELDS);
  }

  lemma BehindHello(c: Conn, more: seq<Byte>)
    requires Tracks(c) && c.helloLength + |c.rb.bytes| <= |c.input|
    ensures (c.input + more)[c.helloLength..]
            == c.input[c.helloLength..|c.input| - |c.rb.bytes|] + (c.rb.bytes + more)
  {
    Behind(c, c.helloLength, more);
  }

  /** What follows a message that ends at `k`: the bytes already taken, the unread ones, and the new ones. */
  lemma Behind(c: Conn, k: nat, more: seq<Byte>)
    requires Tracks(c) && k + |c.rb.bytes| <= |c.input|
    ensures (c.input + more)[k..] == c.input[k..|c.input| - |c.rb.bytes|] + (c.rb.bytes + more)
  {
    var front := c.input[..|c.input| - |c.rb.bytes|];
    assert c.input == front + c.rb.bytes;
    assert c.input + more == front + (c.rb.bytes + more);
  }

  /** A finished credentials parser holds the pair that its input starts with. */
  ghost predicate Presented(p: F.Parser, s: seq<Byte>, user: seq<Byte>, pass: seq<Byte>) {
    && |user| <= 255 && |pass| <= 255 && F.EncodeCredentials(user, pass) <= s
    && |p.steps| == 5 && p.steps[2].result == user + [0] && p.steps[4].result == pass + [0]
  }

  ghost predicate HoldsPair(p: F.Parser, s: seq<Byte>) {
    exists user: seq<Byte>, pass: seq<Byte> :: Presented(p, s, user, pass)
  }

  /** The credentials message, one chunk further. */
  lemma AuthHistory(c: Conn, more: seq<Byte>)
    requires Tracks(c) && c.helloLength + |c.rb.bytes| <= |c.input|
    requires Takes(F.Feed, F.Stops, F.Start(F.AUTH_FIELDS), c.input[c.helloLength..|c.input| - |c.rb.bytes|], c.auth)
    requires !F.Stops(c.auth)
    ensures var all := c.rb.bytes + more;
            var input := c.input + more;
            var (p, n) := Consume(F.Feed, F.Stops, c.auth, all);
            && (!F.Stops(p) ==> n == |all| && Takes(F.Feed, F.Stops, F.Start(F.AUTH_FIELDS), input[c.helloLength..], p))
            && (p.current == F.DoneRead ==> |p.steps| == 5 && HoldsPair(p, input[c.helloLength..]))
  {
    BehindHello(c, more);
    AuthResumed(c.input[c.helloLength..|c.input| - |c.rb.bytes|], c.auth, c.rb.bytes + more);
  }

  lemma AuthResumed(q: seq<Byte>, auth: F.Parser, all: seq<Byte>)
    requires Takes(F.Feed, F.Stops, F.Start(F.AUTH_FIELDS), q, auth) && !F.Stops(auth)
    ensures var (p, n) := Consume(F.Feed, F.Stops, auth, all);
            && (!F.Stops(p) ==> n == |all| && Takes(F.Feed, F.Stops, F.Start(F.AUTH_FIELDS), q + all, p))
            && (p.current == F.DoneRead ==> |p.steps| == 5 && HoldsPair(p, q + all))
  {
    TakesThen(F.Feed, F.Stops, F.Start(F.AUTH_FIELDS), q, auth, all);
    var (p, n) := Consume(F.Feed, F.Stops, auth, all);
    if p.current == F.DoneRead {
      DonePresents(q + all);
    }
  }

  lemma DonePresents(s: seq<Byte>)
    requires Consume(F.Feed, F.Stops, F.Start(F.AUTH_FIELDS), s).0.current == F.DoneRead
    ensures var p := Consume(F.Feed, F.Stops, F.Start(F.AUTH_FIELDS), s).0; |p.steps| == 5 && HoldsPair(p, s)
  {
    var user, pass := F.FinishedCredentials(s);
    assert Presented(Consume(F.Feed, F.Stops, F.Start(F.AUTH_FIELDS), s).0, s, user, pass);
  }

  /** Of a message that has arrived in parts, exactly its bytes are taken. */
  lemma AuthTaken(q: seq<Byte>, auth: F.Parser, all: seq<Byte>, user: seq<Byte>, pass: seq<Byte>)
    requires Takes(F.Feed, F.Stops, F.Start(F.AUTH_FIELDS), q, auth) && !F.Stops(auth)
    requires |user| <= 255 && |pass| <= 255 && F.EncodeCredentials(user, pass) <= q + all
    ensures |q| + Consume(F.Feed, F.Stops, auth, all).1 == 3 + |user| + |pass|
  {
    TakesThen(F.Feed, F.Stops, F.Start(F.AUTH_FIELDS), q, auth, all);
    F.CredentialsTaken(user, pass, q + all);
  }

  lemma DropNulOfTerminated(t: seq<Byte>)
    ensures DropNul(t + [0]) == t
  {
  }

  lemma OpenedGrows(c: Conn, c': Conn, more: seq<Byte>)
    requires Opened(c) && c'.input == c.input + more && |c'.rb.bytes| <= |c.rb.bytes| + |more|
    requires c'.isSocks == c.isSocks && c'.helloLength == c.helloLength && c'.hello == c.hello
    ensures Opened(c')
  {
    assert c'.input[2..c.helloLength] == c.input[2..c.helloLength];
  }

  lemma AuthProcessed(c: Conn, table: seq<User>, user: seq<Byte>, pass: seq<Byte>)
    requires Opened(c) && Presented(c.auth, c.input[c.helloLength..], user, pass)
    requires |c.input| == c.helloLength + 3 + |user| + |pass| + |c.rb.bytes|
    ensures var d := AuthProcess(c, table).(current := Some(USERPASS_WRITE));
            CheckedAgainst(d) && |d.input| == LoginEnd(d) + |d.rb.bytes|
  {
    DropNulOfTerminated(user);
    DropNulOfTerminated(pass);
  }

  lemma InUserpassWrite(c: Conn)
    requires c.current == Some(USERPASS_WRITE) && Tracks(c) && Opened(c) && CheckedAgainst(c)
    requires KnownMethod(c.hello.wanted) && c.hello.selected == H.USERNAME_PASSWORD
    requires |c.input| == LoginEnd(c) + |c.rb.bytes|
    ensures Justified(c)
  {
  }

  lemma InUserpassRead(c: Conn)
    requires c.current == Some(USERPASS_READ) && Tracks(c) && Opened(c)
    requires KnownMethod(c.hello.wanted) && c.hello.selected == H.USERNAME_PASSWORD
    requires c.rb.bytes == []
    requires Takes(F.Feed, F.Stops, F.Start(F.AUTH_FIELDS), c.input[c.helloLength..], c.auth) && !F.Stops(c.auth)
    ensures Justified(c)
  {
    assert c.input[c.helloLength..|c.input|] == c.input[c.helloLength..];
  }

  lemma InRequest(c: Conn)
    requires c.current.Some? && c.current.value > REQUEST_READ && Tracks(c) && GatePassed(c)
    requires c.current.value < COPY ==> Asked(c)
    ensures Justified(c)
  {
  }

  /** Nothing that the gate looks at has changed. */
  predicate SameHistory(c: Conn, c': Conn) {
    && c'.isSocks == c.isSocks && c'.input == c.input && c'.helloLength == c.helloLength && c'.hello == c.hello
    && c'.checked == c.checked && c'.authentication == c.authentication
  }

  lemma StillInRequest(c: Conn, c': Conn)
    requires GatePassed(c) && Tracks(c) && SameHistory(c, c') && c'.rb.bytes == c.rb.bytes
    requires c'.current.Some? && c'.current.value > REQUEST_READ
    requires c'.current.value < COPY ==> Asked(c) && c'.request == c.request
    ensures Justified(c')
  {
    assert GatePassed(c') && Tracks(c');
    if c'.current.value < COPY {
      assert Asked(c');
    }
    InRequest(c');
  }

  lemma AuthConsumed(c: Conn, more: seq<Byte>, table: seq<User>)
    requires c.current == Some(USERPASS_READ) && Justified(c) && c.rb.Valid() && |more| <= c.rb.Room()
    ensures var d := AuthConsume(c, more);
            && d.rb.Valid() && d.rb.limit == c.rb.limit && Tracks(d) && Opened(d)
            && (!F.Stops(d.auth) ==> Justified(d))
            && (d.auth.current == F.DoneRead ==>
                  && |d.auth.steps| == 5
                  && var e := AuthProcess(d, table).(current := Some(USERPASS_WRITE));
                     CheckedAgainst(e) && |e.input| == LoginEnd(e) + |e.rb.bytes|)
  {
    var (p, n) := Consume(F.Feed, F.Stops, c.auth, c.rb.bytes + more);
    AuthHistory(c, more);
    AdvanceBytes(c.rb.Append(more), n);
    var d := AuthConsume(c, more);
    TracksStep(c, more, n, d);
    OpenedGrows(c, d, more);
    if !F.Stops(p) {
      InUserpassRead(d);
    } else if p.current == F.DoneRead {
      var user: seq<Byte>, pass: seq<Byte> :| Presented(p, d.input[c.helloLength..], user, pass);
      BehindHello(c, more);
      AuthTaken(c.input[c.helloLength..|c.input| - |c.rb.bytes|], c.auth, c.rb.bytes + more, user, pass);
      AuthProcessed(d, table, user, pass);
    }
  }

  lemma AuthReadOk(b: Bundle, recv: Option<seq<Byte>>, table: seq<User>, env: Env)
    requires Ok(b) && b.conn.current == Some(USERPASS_READ)
    requires recv.Some? ==> 0 < |recv.value| <= b.conn.rb.Room()
    ensures var (b', next) := AuthRead(b, recv, table); Passed(b', next, env)
  {
    if recv.Some? {
      AuthConsumed(b.conn, recv.value, table);
      var d := AuthConsume(b.conn, recv.value);
      if d.auth.current == F.DoneRead {
        AfterAuthProcess(b, d, table);
      }
    }
  }

  lemma AfterAuthProcess(b: Bundle, read: Conn, table: seq<User>)
    requires Sound(b.(conn := read)) && b.origin == None && read.originFd == -1 && |read.auth.steps| == 5
    requires Tracks(read) && Opened(read) && KnownMethod(read.hello.wanted) && read.hello.selected == H.USERNAME_PASSWORD
    requires var e := AuthProcess(read, table).(current := Some(USERPASS_WRITE));
             CheckedAgainst(e) && |e.input| == LoginEnd(e) + |e.rb.bytes|
    ensures Ok(Bundle(AuthProcess(read, table).(current := Some(USERPASS_WRITE)), WRITE, b.origin))
  {
    var c := AuthProcess(read, table).(current := Some(USERPASS_WRITE));
    assert Tracks(c) && Opened(c);
    InUserpassWrite(c);
  }

  lemma AuthWriteOk(b: Bundle, sent: Option<nat>, env: Env)
    requires Ok(b) && b.conn.current == Some(USERPASS_WRITE)
    requires sent.Some? ==> sent.value <= |AuthReply(b.conn).bytes|
    ensures var (b', next) := AuthWrite(b, sent); Passed(b', next, env)
  {
    SelectedIsOffered(b.conn);
    if sent.Some? {
      var (b', next) := AuthWrite(b, sent);
      if next == REQUEST_READ {
        StartsRequest(Arrive(b', next, env).conn);
      } else if next == USERPASS_WRITE {
        assert CheckedAgainst(b'.conn);
      }
    }
  }

  lemma RequestConsumed(c: Conn, more: seq<Byte>)
    requires GatePassed(c) && Tracks(c) && c.rb.Valid() && |more| <= c.rb.Room() && ReadingRequest(c)
    ensures var d := RequestConsume(c, more);
            && d.rb.Valid() && d.rb.limit == c.rb.limit && GatePassed(d) && Tracks(d)
            && (if R.IsDone(d.request) then Asked(d) else ReadingRequest(d))
  {
    var (p, n) := Consume(R.Feed, R.IsDone, c.request, c.rb.bytes + more);
    AdvanceBytes(c.rb.Append(more), n);
    TracksStep(c, more, n, RequestConsume(c, more));
    GateGrows(c, RequestConsume(c, more), more);
    RequestPlaced(c, more, RequestConsume(c, more), n);
  }

  /** The request, one chunk further. */
  lemma RequestPlaced(c: Conn, more: seq<Byte>, d: Conn, n: nat)
    requires Tracks(c) && ReadingRequest(c) && RequestStart(d) == RequestStart(c) && d.input == c.input + more
    requires (d.request, n) == Consume(R.Feed, R.IsDone, c.request, c.rb.bytes + more)
    requires |d.rb.bytes| == |c.rb.bytes| + |more| - n
    ensures if R.IsDone(d.request) then Asked(d) else ReadingRequest(d)
  {
    var k := RequestStart(c);
    var taken := c.input[k..|c.input| - |c.rb.bytes|];
    var s := taken + (c.rb.bytes + more);
    Behind(c, k, more);
    RequestResumed(taken, c.request, c.rb.bytes + more, s, d.request, n);
    if R.IsDone(d.request) {
      RequestEnds(d, s);
    } else {
      RequestGoesOn(d, s);
    }
  }

  lemma RequestResumed(taken: seq<Byte>, p: R.Parser, all: seq<Byte>, s: seq<Byte>, q: R.Parser, n: nat)
    requires Takes(R.Feed, R.IsDone, R.INITIAL, taken, p) && !R.IsDone(p) && s == taken + all
    requires Consume(R.Feed, R.IsDone, p, all) == (q, n)
    ensures var (r, m) := Consume(R.Feed, R.IsDone, R.INITIAL, s); r == q && m == |taken| + n
    ensures !R.IsDone(q) ==> n == |all| && Takes(R.Feed, R.IsDone, R.INITIAL, s, q)
  {
    TakesThen(R.Feed, R.IsDone, R.INITIAL, taken, p, all);
  }

  lemma RequestEnds(d: Conn, s: seq<Byte>)
    requires RequestStart(d) <= |d.input| && d.input[RequestStart(d)..] == s && R.IsDone(d.request)
    requires var (q, n) := Consume(R.Feed, R.IsDone, R.INITIAL, s);
             q == d.request && |d.input| == RequestStart(d) + n + |d.rb.bytes|
    ensures Asked(d)
  {
  }

  lemma RequestGoesOn(d: Conn, s: seq<Byte>)
    requires RequestStart(d) <= |d.input| && d.input[RequestStart(d)..] == s && !R.IsDone(d.request)
    requires Takes(R.Feed, R.IsDone, R.INITIAL, s, d.request) && d.rb.bytes == []
    ensures ReadingRequest(d)
  {
    assert d.input[RequestStart(d)..|d.input|] == s;
  }

  lemma RequestReadOk(b: Bundle, recv: Option<seq<Byte>>, env: Env)
    requires Ok(b) && b.conn.current == Some(REQUEST_READ)
    requires recv.Some? ==> 0 < |recv.value| <= b.conn.rb.Room()
    requires ConnectAllowed(b, env.connect)
    ensures var (b', next) := RequestRead(b, recv); Passed(b', next, env)
  {
    if recv.Some? {
      RequestConsumed(b.conn, recv.value);
      RequestAnswerOk(b.(conn := RequestConsume(b.conn, recv.value)), env);
    }
  }

  lemma InRequestRead(c: Conn)
    requires c.current == Some(REQUEST_READ) && Tracks(c) && GatePassed(c) && ReadingRequest(c)
    ensures Justified(c)
  {
  }

  lemma RequestAnswerOk(b: Bundle, env: Env)
    requires Sound(b) && b.client == READ && b.origin == None && b.conn.originFd == -1 && b.conn.wb.bytes == []
    requires b.conn.current == Some(REQUEST_READ) && GatePassed(b.conn) && Tracks(b.conn)
    requires if R.IsDone(b.conn.request) then Asked(b.conn) else ReadingRequest(b.conn)
    requires ConnectAllowed(b, env.connect)
    ensures var (b', next) := RequestAnswer(b); Passed(b', next, env)
  {
    var next := RequestAnswer(b).1;
    if next == REQUEST_READ {
      InRequestRead(b.conn);
    } else if next == REQUEST_RESOLV {
      NameAsked(b, env);
    } else {
      AddressAsked(b, env);
    }
  }

  lemma NameAsked(b: Bundle, env: Env)
    requires Sound(b) && b.origin == None && b.conn.originFd == -1 && b.conn.wb.bytes == []
    requires b.conn.current == Some(REQUEST_READ) && GatePassed(b.conn) && Tracks(b.conn) && Asked(b.conn)
    ensures Passed(b.(client := NOOP), REQUEST_RESOLV, env)
  {
    StillInRequest(b.conn, b.conn.(current := Some(REQUEST_RESOLV)));
  }

  lemma AddressAsked(b: Bundle, env: Env)
    requires Sound(b) && b.origin == None && b.conn.wb.bytes == [] && ConnectAllowed(b, env.connect)
    requires b.conn.current == Some(REQUEST_READ) && GatePassed(b.conn) && Tracks(b.conn) && Asked(b.conn)
    ensures Passed(b, REQUEST_CONNECTING, env)
  {
    var entered := b.conn.(current := Some(REQUEST_CONNECTING));
    SameRequest(b.conn, entered);
    ConnectingInitOk(b.(conn := entered), env.connect);
    ConnectsOnArrival(b, env);
  }

  lemma SameRequest(c: Conn, c': Conn)
    requires GatePassed(c) && Tracks(c) && Asked(c)
    requires SameHistory(c, c') && c'.rb.bytes == c.rb.bytes && c'.request == c.request
    ensures GatePassed(c') && Tracks(c') && Asked(c')
  {
  }

  lemma ConnectsOnArrival(b: Bundle, env: Env)
    requires b.conn.wb.Valid() && b.conn.current != Some(REQUEST_CONNECTING)
    ensures Arrive(b, REQUEST_CONNECTING, env)
            == ConnectingInit(b.(conn := b.conn.(current := Some(REQUEST_CONNECTING))), env.connect)
  {
  }

  /** The new descriptor is not the client's, an error number is not zero, and connecting takes its time. */
  predicate ConnectAllowed(b: Bundle, connect: Connect) {
    && (connect.NoFlags? || connect.Failed? || connect.InProgress? || connect.Immediate? ==>
          connect.fd >= 0 && connect.fd != b.conn.clientFd)
    && (connect.Failed? ==> connect.errno != 0)
    && !connect.Immediate?
  }

  lemma ConnectingInitOk(b: Bundle, connect: Connect)
    requires Sound(b) && b.origin == None && Tracks(b.conn) && GatePassed(b.conn) && Asked(b.conn)
    requires b.conn.current == Some(REQUEST_CONNECTING) && ConnectAllowed(b, connect) && b.conn.wb.bytes == []
    ensures Ok(ConnectingInit(b, connect))
  {
    ConnectAnswer(b, connect);
    StillInRequest(b.conn, ConnectingInit(b, connect).conn);
  }

  lemma ResolvDoneOk(b: Bundle, resolved: bool, env: Env)
    requires Ok(b) && b.conn.current == Some(REQUEST_RESOLV) && ConnectAllowed(b, env.connect)
    ensures var (b', next) := ResolvDone(b, resolved); Passed(b', next, env)
  {
    if resolved {
      var entered := b.conn.(current := Some(REQUEST_CONNECTING));
      StillInRequest(b.conn, entered);
      ConnectingInitOk(b.(conn := entered), env.connect);
    } else {
      var (b', next) := ResolvDone(b, resolved);
      StillInRequest(b.conn, b'.conn.(current := Some(next)));
    }
  }

  lemma ConnectingWriteOk(b: Bundle, side: Side, soError: SocketError, env: Env)
    requires Ok(b) && b.conn.current == Some(REQUEST_CONNECTING)
    requires (if side.Client? then b.client else if b.origin.Some? then b.origin.value else NOOP).write
    ensures var (b', next) := ConnectingWrite(b, side, soError); Passed(b', next, env)
  {
    var c := b.conn;
    if c.status != SUCCEEDED {
      ErrorReported(b, c.(originFd := -1), env);
    } else if soError.Unavailable? {
      ErrorReported(b, c.(status := GENERAL_FAILURE), env);
    } else if soError.code != 0 {
      ErrorReported(b, c.(status := ErrnoToSocks(soError.code)), env);
    } else {
      var (b', next) := ConnectingWrite(b, side, soError);
      StillInRequest(c, b'.conn.(current := Some(next)));
    }
  }

  /** A failure is reported to the client, and nothing else is watched meanwhile. */
  lemma ErrorReported(b: Bundle, c: Conn, env: Env)
    requires Ok(b) && b.conn.current == Some(REQUEST_CONNECTING)
    requires c == b.conn.(originFd := c.originFd, status := c.status) && c.status != SUCCEEDED
    requires if b.origin.Some? then c.originFd == b.conn.originFd else c.originFd == -1
    ensures Passed(ErrorToClient(b.(conn := c)), REQUEST_WRITE, env)
  {
    StillInRequest(b.conn, ErrorToClient(b.(conn := c)).conn.(current := Some(REQUEST_WRITE)));
  }

  lemma RequestWriteOk(b: Bundle, sent: Option<nat>, env: Env)
    requires Ok(b) && b.conn.current == Some(REQUEST_WRITE)
    requires sent.Some? ==> sent.value <= |b.conn.wb.bytes|
    ensures var (b', next) := RequestWrite(b, sent); Passed(b', next, env)
  {
    if sent.Some? {
      var (b', next) := RequestWrite(b, sent);
      if next == COPY {
        Relay.BeginInv(b'.conn.rb, b'.conn.wb);
        StillInRequest(b.conn, Arrive(b', next, env).conn);
      } else if next == REQUEST_WRITE {
        StillInRequest(b.conn, b'.conn);
      }
    }
  }

  lemma RelayStepOk(b: Bundle, e: Relay.Event, c: Conn)
    requires Ok(b) && b.conn.current == Some(COPY) && Relay.Enabled(RelayOf(b), e)
    requires c.current == Some(COPY) && Tracks(c) && GatePassed(c)
    requires var w := WithRelay(b, Relay.Step(RelayOf(b), e)).conn;
             c == w.(input := c.input, dissector := c.dissector)
    ensures Ok(WithRelay(b, Relay.Step(RelayOf(b), e)).(conn := c))
  {
    Relay.StepKeepsInv(RelayOf(b), e);
    StepKeepsLimits(RelayOf(b), e);
    var b' := WithRelay(b, Relay.Step(RelayOf(b), e)).(conn := c);
    assert RelayOf(b') == Relay.Step(RelayOf(b), e);
    InRequest(c);
  }

  lemma StepKeepsLimits(r: Relay.Relay, e: Relay.Event)
    requires Relay.Inv(r) && Relay.Enabled(r, e)
    ensures Relay.Step(r, e).toOrigin.limit == r.toOrigin.limit && Relay.Step(r, e).toClient.limit == r.toClient.limit
  {
  }

  lemma CopyReadOk(b: Bundle, side: Side, recv: Option<seq<Byte>>, env: Env)
    requires Ok(b) && b.conn.current == Some(COPY) && Relay.Enabled(RelayOf(b), Relay.Recv(side, recv))
    ensures var (b', next) := CopyRead(b, side, recv); Passed(b', next, env)
  {
    var (b', next) := CopyRead(b, side, recv);
    var more := if side.Client? && recv.Some? then recv.value else [];
    assert b'.conn.input == b.conn.input + more;
    assert b'.conn.rb.bytes == (b.conn.rb.bytes + more)[0..];
    TracksStep(b.conn, more, 0, b'.conn);
    GateGrows(b.conn, b'.conn, more);
    RelayStepOk(b, Relay.Recv(side, recv), b'.conn);
  }

  lemma CopyWriteOk(b: Bundle, side: Side, sent: Option<nat>, env: Env)
    requires Ok(b) && b.conn.current == Some(COPY) && Relay.Enabled(RelayOf(b), Relay.Send(side, sent))
    ensures var (b', next) := CopyWrite(b, side, sent); Passed(b', next, env)
  {
    var (b', next) := CopyWrite(b, side, sent);
    var n := if side.Origin? && sent.Some? then sent.value else 0;
    assert b'.conn.input == b.conn.input + [];
    AdvanceBytes(b.conn.rb, n);
    assert b'.conn.rb.bytes == (b.conn.rb.bytes + [])[n..];
    TracksStep(b.conn, [], n, b'.conn);
    GateGrows(b.conn, b'.conn, []);
    RelayStepOk(b, Relay.Send(side, sent), b'.conn);
  }

  // ----- What the assumptions exclude, and what the client is told -----

  /**
   Connecting leaves every armed descriptor with a handler if and only if it does not succeed at once: an
   immediate success arms both descriptors for reading in a state that has no read handler.
   */
  lemma ReadyIffNotImmediate(b: Bundle, connect: Connect)
    requires b.conn.wb.Valid() && b.origin == None && b.conn.current == Some(REQUEST_CONNECTING)
    ensures var e := ConnectingInit(b, connect);
            Ready(REQUEST_CONNECTING, e.client) && (e.origin.Some? ==> Ready(REQUEST_CONNECTING, e.origin.value))
            <==> !connect.Immediate? || InvalidFd(connect.fd)
  {
  }

  /** `connect` will complete later, on a descriptor that can be watched. */
  predicate Waits(connect: Connect) {
    connect.InProgress? && !InvalidFd(connect.fd)
  }

  /** What the client will have been told once connecting is over: once, or twice if it failed from the start. */
  lemma AnsweredOnceOrTwice(b: Bundle, side: Side, soError: SocketError)
    requires Ok(b) && b.conn.current == Some(REQUEST_CONNECTING)
    ensures var (r, next) := ConnectingWrite(b, side, soError);
            && next == REQUEST_WRITE
            && r.conn.wb.bytes == (if b.origin.Some? then [] else RequestReply(r.conn.status)) + RequestReply(r.conn.status)
            && (r.conn.status == SUCCEEDED <==> b.origin.Some? && soError == Pending(0))
  {
    AppendToEmpty(RequestReply(ConnectingWrite(b, side, soError).0.conn.status));
  }

  lemma AppendToEmpty(s: seq<Byte>)
    ensures [] + s == s
  {
  }

  /** The arrival hook answers exactly the connections that will not come about. */
  lemma ConnectAnswer(b: Bundle, connect: Connect)
    requires b.conn.wb == Empty(BUFFER_SIZE) && b.origin == None && ConnectAllowed(b, connect)
    ensures var e := ConnectingInit(b, connect);
            && e.conn.wb.Valid() && e.conn.wb.limit == BUFFER_SIZE && e.conn.wb.start == 0
            && (e.conn.status == SUCCEEDED <==> Waits(connect))
            && e.conn.wb.bytes == if Waits(connect) then [] else RequestReply(e.conn.status)
  {
    AppendToEmpty(RequestReply(ConnectingInit(b, connect).conn.status));
  }
}
