/**
 What each stage of a connection does, told in bytes: which input makes it go on, what it answers, and where it
 goes. Connections of the proxy and of the management server share the first four stages.
 */
module StageTheorems {

  import opened Base
  import opened Buffers
  import opened Feeding
  import opened SelectorTable
  import opened StateMachineModule
  import opened UsersModule
  import opened ConnectionModule
  import opened ConnectionInvariantModule
  import H = HelloParserModule
  import F = FieldParserModule
  import R = RequestParserModule
  import D = DissectorModule
  import Relay = RelayModule

  /** The handler gives up the connection. */
  predicate Ends(next: nat) {
    next == 9 || next == 10
  }

  // ----- The opening message -----

  /** The version byte of each protocol. */
  function VersionByte(c: Conn): Byte {
    if c.isSocks then 5 else 1
  }

  /** A whole opening message of this version is at the front of `s`. */
  predicate OpeningMessage(s: seq<Byte>, version: Byte) {
    |s| >= 2 && s[0] == version && |s| >= 2 + s[1] as int
  }

  /**
   The opening message is answered as soon as it is complete, with the wanted method if the client offers it and
   0xFF otherwise; another version ends the connection.
   */
  lemma OpeningIsAnswered(b: Bundle, recv: Option<seq<Byte>>)
    requires Ok(b) && b.conn.current == Some(HELLO_READ)
    requires recv.Some? ==> 0 < |recv.value| <= b.conn.rb.Room()
    ensures var (b', next) := HelloRead(b, recv);
            if recv.None? then Ends(next)
            else
              var s, version := b.conn.input + recv.value, VersionByte(b.conn);
              && b'.conn.input == s
              && (Ends(next) <==> s[0] != version)
              && (next == HELLO_WRITE <==> OpeningMessage(s, version))
              && (next == HELLO_READ <==> s[0] == version && !OpeningMessage(s, version))
              && (next == HELLO_WRITE ==>
                    var answer := if b.conn.hello.wanted in s[2..2 + s[1] as int] then b.conn.hello.wanted else 255;
                    && b'.client == WRITE && b'.conn.wb.bytes == [version, answer]
                    && b'.conn.hello.selected == answer)
  {
    if recv.Some? {
      var c, more := b.conn, recv.value;
      HelloTaken(c, more);
      HelloStops(Version(c), c.hello.wanted, c.input, c.hello, more);
      AnswerIs(b.(conn := HelloConsume(c, more)));
    }
  }

  /** What follows a parser that has stopped. */
  lemma AnswerIs(b: Bundle)
    requires b.conn.wb.Valid() && b.conn.wb.bytes == [] && b.conn.wb.Room() >= 2
    ensures var (b', next) := HelloAnswer(b);
            && b'.conn.hello == b.conn.hello && b'.conn.input == b.conn.input
            && (Ends(next) <==> b.conn.hello.state == H.ErrorUnsupportedVersion)
            && (next == HELLO_WRITE <==> b.conn.hello.state == H.Done)
            && (next == HELLO_READ <==> !H.Stops(b.conn.hello))
            && (next == HELLO_WRITE ==>
                  b'.client == WRITE && b'.conn.wb.bytes == [VersionByte(b.conn), b.conn.hello.selected])
  {
    assert [] + [Version(b.conn), b.conn.hello.selected] == [Version(b.conn), b.conn.hello.selected];
  }

  /** Where the parser is after a message that arrived in parts. */
  lemma HelloStops(version: Byte, wanted: Byte, read: seq<Byte>, hello: H.Hello, more: seq<Byte>)
    requires Takes(H.Feed, H.Stops, H.Initial(version, wanted), read, hello) && !H.Stops(hello) && more != []
    ensures var p, s := Consume(H.Feed, H.Stops, hello, more).0, read + more;
            && (p.state == H.Done <==> OpeningMessage(s, version))
            && (p.state == H.ErrorUnsupportedVersion <==> s[0] != version)
            && (p.state == H.Done ==> p.selected == if wanted in s[2..2 + s[1] as int] then wanted else 255)
  {
    TakesThen(H.Feed, H.Stops, H.Initial(version, wanted), read, hello, more);
    H.StopsIffOpens(version, wanted, read + more);
  }

  /** Once the answer has been sent in full, the selected method decides what follows. */
  lemma MethodDecides(b: Bundle, sent: Option<nat>)
    requires Ok(b) && b.conn.current == Some(HELLO_WRITE)
    requires sent.Some? ==> sent.value <= |b.conn.wb.bytes|
    ensures HelloWrite(b, sent).0.conn.input == b.conn.input
    ensures var (b', next) := HelloWrite(b, sent);
            if sent.None? then Ends(next)
            else if sent.value < |b.conn.wb.bytes| then
              next == HELLO_WRITE && b'.client == WRITE && b'.conn.wb.bytes == b.conn.wb.bytes[sent.value..]
            else
              && (next == REQUEST_READ <==> b.conn.hello.selected == 0)
              && (next == USERPASS_READ <==> b.conn.hello.selected == 2)
              && (Ends(next) <==> b.conn.hello.selected == 255)
              && (!Ends(next) ==> b'.client == READ && b'.conn.wb.bytes == [])
  {
  }

  // ----- Credentials -----

  /** A message with this pair is at the front of `s` (RFC 1929 section 2). */
  predicate LoginMessage(s: seq<Byte>, user: seq<Byte>, pass: seq<Byte>) {
    |user| <= 255 && |pass| <= 255 && [1, |user|] + user + [|pass|] + pass <= s
  }

  /** Some entry of the table has this name and this password, both as C strings. */
  predicate InTable(table: seq<User>, user: seq<Byte>, pass: seq<Byte>) {
    exists i :: 0 <= i < |table| && table[i].name == CString(user) && table[i].pass == CString(pass)
  }

  /** `k` is the first position with this name and this password. */
  predicate IsFirst(table: seq<User>, k: int, user: seq<Byte>, pass: seq<Byte>) {
    && 0 <= k < |table| && table[k].name == CString(user) && table[k].pass == CString(pass)
    && forall i :: 0 <= i < k ==> !(table[i].name == CString(user) && table[i].pass == CString(pass))
  }

  lemma InTableIsGranted(table: seq<User>, user: seq<Byte>, pass: seq<Byte>)
    ensures InTable(table, user, pass) <==> Granted(table, User(CString(user), CString(pass)))
    ensures InTable(table, user, pass) ==> IsFirst(table, FirstMatch(table, User(CString(user), CString(pass))), user, pass)
  {
    var pair := User(CString(user), CString(pass));
    forall i | 0 <= i < |table| && table[i].name == CString(user) && table[i].pass == CString(pass)
      ensures pair in table
    {
      assert table[i] == pair;
    }
    if pair in table {
      var i :| 0 <= i < |table| && table[i] == pair;
    }
  }

  /** The credentials' message: what the client has sent behind its opening, with the bytes that now arrive. */
  function CredentialsInput(c: Conn, more: seq<Byte>): seq<Byte>
    requires c.helloLength <= |c.input|
  {
    (c.input + more)[c.helloLength..]
  }

  /** The message is waited for until it is complete; another version ends the connection. */
  lemma CredentialsAreRead(b: Bundle, recv: Option<seq<Byte>>, table: seq<User>)
    requires Ok(b) && b.conn.current == Some(USERPASS_READ)
    requires recv.Some? ==> 0 < |recv.value| <= b.conn.rb.Room()
    ensures var (b', next) := AuthRead(b, recv, table);
            if recv.None? then Ends(next)
            else
              b.conn.helloLength <= |b.conn.input| &&
              var s := CredentialsInput(b.conn, recv.value);
              && b'.conn.input == b.conn.input + recv.value
              && s != [] && (Ends(next) <==> s[0] != 1)
              && (next == USERPASS_WRITE <==> exists user, pass :: LoginMessage(s, user, pass))
              && (!Ends(next) && next != USERPASS_WRITE ==> next == USERPASS_READ)
              && (next == USERPASS_WRITE ==> b'.client == WRITE && b'.conn.wb.bytes == [])
  {
    if recv.Some? {
      var c, more := b.conn, recv.value;
      BehindHello(c, more);
      AuthStops(c.input[c.helloLength..|c.input| - |c.rb.bytes|], c.auth, c.rb.bytes + more);
      SameMessage(CredentialsInput(c, more));
    }
  }

  /** A complete message is checked against the table as it then is; the index is that of the first entry. */
  lemma CredentialsAreChecked(b: Bundle, more: seq<Byte>, table: seq<User>, user: seq<Byte>, pass: seq<Byte>)
    requires Ok(b) && b.conn.current == Some(USERPASS_READ) && 0 < |more| <= b.conn.rb.Room()
    requires b.conn.helloLength <= |b.conn.input| && LoginMessage(CredentialsInput(b.conn, more), user, pass)
    ensures var c' := AuthRead(b, Some(more), table).0.conn;
            && c'.authentication == (if InTable(table, user, pass) then 0 else 1)
            && (b.conn.isSocks && InTable(table, user, pass) ==> IsFirst(table, c'.userIndex, user, pass))
  {
    var c := b.conn;
    BehindHello(c, more);
    PairIsChecked(c, c.input[c.helloLength..|c.input| - |c.rb.bytes|], more, table, user, pass);
  }

  lemma SameMessage(s: seq<Byte>)
    ensures (exists user, pass :: LoginMessage(s, user, pass))
            <==> exists u: seq<Byte>, v: seq<Byte> :: |u| <= 255 && |v| <= 255 && F.EncodeCredentials(u, v) <= s
  {
    forall u: seq<Byte>, v: seq<Byte> | |u| <= 255 && |v| <= 255 && F.EncodeCredentials(u, v) <= s
      ensures LoginMessage(s, u, v)
    {
    }
    forall u: seq<Byte>, v: seq<Byte> | LoginMessage(s, u, v)
      ensures F.EncodeCredentials(u, v) <= s
    {
    }
  }

  /** Where the parser is after a message that arrived in parts. */
  lemma AuthStops(q: seq<Byte>, auth: F.Parser, all: seq<Byte>)
    requires Takes(F.Feed, F.Stops, F.Start(F.AUTH_FIELDS), q, auth) && !F.Stops(auth)
    ensures var p, s := Consume(F.Feed, F.Stops, auth, all).0, q + all;
            && (p.current == F.DoneRead <==>
                  exists u: seq<Byte>, v: seq<Byte> :: |u| <= 255 && |v| <= 255 && F.EncodeCredentials(u, v) <= s)
            && (p.current == F.ErrorRead <==> s != [] && s[0] != 1)
            && (p.current == F.DoneRead ==> |p.steps| == 5)
  {
    TakesThen(F.Feed, F.Stops, F.Start(F.AUTH_FIELDS), q, auth, all);
    F.CredentialsStopIff(q + all);
    AuthResumed(q, auth, all);
  }

  lemma PairIsChecked(c: Conn, q: seq<Byte>, more: seq<Byte>, table: seq<User>, user: seq<Byte>, pass: seq<Byte>)
    requires c.rb.Valid() && |more| <= c.rb.Room()
    requires Takes(F.Feed, F.Stops, F.Start(F.AUTH_FIELDS), q, c.auth) && !F.Stops(c.auth)
    requires LoginMessage(q + (c.rb.bytes + more), user, pass)
    ensures var d := AuthConsume(c, more);
            && d.auth.current == F.DoneRead && |d.auth.steps| == 5
            && var c' := AuthProcess(d, table);
               && c'.authentication == (if InTable(table, user, pass) then 0 else 1)
               && (c.isSocks && InTable(table, user, pass) ==> IsFirst(table, c'.userIndex, user, pass))
  {
    TakesThen(F.Feed, F.Stops, F.Start(F.AUTH_FIELDS), q, c.auth, c.rb.bytes + more);
    F.CredentialsTaken(user, pass, q + (c.rb.bytes + more));
    CStringOfStored(user);
    CStringOfStored(pass);
    InTableIsGranted(table, user, pass);
  }

  /** The reply to the credentials is offered in full on every call; only a grant leads to the request. */
  lemma CredentialsAreAnswered(b: Bundle, sent: Option<nat>)
    requires Ok(b) && b.conn.current == Some(USERPASS_WRITE)
    requires sent.Some? ==> sent.value <= |AuthReply(b.conn).bytes|
    ensures AuthWrite(b, sent).0.conn.input == b.conn.input
    ensures var (b', next) := AuthWrite(b, sent);
            var offered := b.conn.wb.bytes + if b.conn.wb.Room() >= 2 then [1, b.conn.authentication] else [];
            && AuthReply(b.conn).bytes == offered
            && if sent.None? then Ends(next)
               else if sent.value < |offered| then
                 next == USERPASS_WRITE && b'.client == WRITE && b'.conn.wb.bytes == offered[sent.value..]
               else
                 && (next == REQUEST_READ <==> b.conn.authentication == 0)
                 && (Ends(next) <==> b.conn.authentication != 0)
                 && (!Ends(next) ==> b'.client == READ && b'.conn.wb.bytes == [])
  {
  }

  // ----- The request -----

  /** The request: what the client has sent behind its opening and its credentials. */
  function RequestInput(c: Conn, more: seq<Byte>): seq<Byte>
    requires RequestStart(c) <= |c.input|
  {
    (c.input + more)[RequestStart(c)..]
  }

  /** `s` starts with this request (RFC 1928 section 4), which names its destination by `atyp`. */
  predicate RequestMessage(s: seq<Byte>, r: R.Request, atyp: Byte) {
    r.Accepted() && r.Encode() <= s && |s| >= 4 && s[3] == atyp
  }

  /**
   The request is acted on as soon as it is complete: a name is resolved, an address is connected to. What the
   client has sent behind it stays unread. A stream that never becomes a request is read on and on.
   */
  lemma RequestIsServed(b: Bundle, recv: Option<seq<Byte>>)
    requires Ok(b) && b.conn.current == Some(REQUEST_READ)
    requires recv.Some? ==> 0 < |recv.value| <= b.conn.rb.Room()
    ensures var (b', next) := RequestRead(b, recv);
            if recv.None? then Ends(next)
            else
              RequestStart(b.conn) <= |b.conn.input| &&
              var s := RequestInput(b.conn, recv.value);
              && b'.conn.input == b.conn.input + recv.value && !Ends(next)
              && (next == REQUEST_RESOLV <==> exists r :: RequestMessage(s, r, 3))
              && (next == REQUEST_CONNECTING <==> exists r :: RequestMessage(s, r, 1) || RequestMessage(s, r, 4))
              && (next != REQUEST_RESOLV && next != REQUEST_CONNECTING ==> next == REQUEST_READ && b'.client == READ)
              && (forall r, a :: RequestMessage(s, r, a) ==> b'.conn.rb.bytes == s[|r.Encode()|..])
  {
    if recv.Some? {
      var c, more := b.conn, recv.value;
      RequestConsumed(c, more);
      RequestStops(c, more);
      var s := RequestInput(c, more);
      RequestFound(s, RequestConsume(c, more).request, Consume(R.Feed, R.IsDone, R.INITIAL, s).1);
      RequestAnswerIs(b.(conn := RequestConsume(c, more)));
    }
  }

  /** What follows a request parser that is done, or not. */
  lemma RequestAnswerIs(b: Bundle)
    ensures var (b', next) := RequestAnswer(b);
            && b'.conn == b.conn && !Ends(next)
            && (next == REQUEST_RESOLV <==> R.IsDone(b.conn.request) && b.conn.request.atyp == 3)
            && (next == REQUEST_CONNECTING <==> R.IsDone(b.conn.request) && b.conn.request.atyp != 3)
            && (next != REQUEST_RESOLV && next != REQUEST_CONNECTING ==> next == REQUEST_READ && b'.client == b.client)
  {
  }

  lemma RequestStops(c: Conn, more: seq<Byte>)
    requires Tracks(c) && ReadingRequest(c) && c.rb.Valid() && |more| <= c.rb.Room()
    ensures var d, s := RequestConsume(c, more), RequestInput(c, more);
            var (q, m) := Consume(R.Feed, R.IsDone, R.INITIAL, s);
            d.request == q && d.rb.bytes == s[m..]
  {
    var taken, all, s := c.input[RequestStart(c)..|c.input| - |c.rb.bytes|], c.rb.bytes + more, RequestInput(c, more);
    var (p, n) := Consume(R.Feed, R.IsDone, c.request, all);
    Behind(c, RequestStart(c), more);
    RequestResumed(taken, c.request, all, s, p, n);
    AdvanceBytes(c.rb.Append(more), n);
    assert all[n..] == s[|taken| + n..];
  }

  /** What the consuming loop says about the bytes it is given. */
  lemma RequestFound(s: seq<Byte>, p: R.Parser, n: nat)
    requires var (q, m) := Consume(R.Feed, R.IsDone, R.INITIAL, s); q == p && m == n
    ensures R.IsDone(p) && p.atyp == 3 <==> exists r :: RequestMessage(s, r, 3)
    ensures R.IsDone(p) && p.atyp != 3 <==> exists r :: RequestMessage(s, r, 1) || RequestMessage(s, r, 4)
    ensures forall r, a :: RequestMessage(s, r, a) ==> n == |r.Encode()|
  {
    if R.IsDone(p) {
      RequestHeld(s, p, n);
    }
    forall r: R.Request, a: Byte | RequestMessage(s, r, a)
      ensures R.IsDone(p) && p.atyp == a && n == |r.Encode()|
    {
      R.RequestTaken(r, s);
      RequestHeld(s, p, n);
    }
  }

  lemma RequestHeld(s: seq<Byte>, p: R.Parser, n: nat)
    requires var (q, m) := Consume(R.Feed, R.IsDone, R.INITIAL, s); q == p && m == n
    requires R.IsDone(p)
    ensures |s| >= 4 && p.atyp == s[3] && (s[3] == 1 || s[3] == 3 || s[3] == 4)
    ensures RequestMessage(s, R.RequestOf(p, s[2]), s[3])
  {
    R.FinishedRequest(s);
  }

  // ----- Resolution and connection -----

  /** The ten bytes of a reply that carries this code (RFC 1928 section 6). */
  predicate IsReply(bytes: seq<Byte>, code: Byte) {
    bytes == [5, code, 0, 1, 0, 0, 0, 0, 0, 0]
  }

  /** The code that reports a failure to connect with this error number. */
  predicate Reports(code: Byte, errno: nat) {
    && (errno == 111 ==> code == 5)
    && (errno == 113 ==> code == 4)
    && (errno == 101 ==> code == 3)
    && (errno == 110 ==> code == 6)
    && (errno != 111 && errno != 113 && errno != 101 && errno != 110 ==> code == 1)
  }

  /** A name that resolves is connected to; one that does not is answered with a general failure. */
  lemma ResolutionDecides(b: Bundle, resolved: bool)
    requires Ok(b) && b.conn.current == Some(REQUEST_RESOLV)
    ensures var (b', next) := ResolvDone(b, resolved);
            if resolved then b' == b && next == REQUEST_CONNECTING
            else next == REQUEST_WRITE && b'.client == WRITE && IsReply(b'.conn.wb.bytes, 1) && b'.conn.status == 1
  {
    AppendToEmpty(RequestReply(GENERAL_FAILURE));
  }

  /** A connection that cannot be waited for is reported at once, with the reason. */
  lemma FailureIsReported(b: Bundle, env: Env)
    requires b.conn.wb == Empty(BUFFER_SIZE) && b.origin == None && ConnectAllowed(b, env.connect)
    requires b.conn.current != Some(REQUEST_CONNECTING)
    ensures var e := Arrive(b, REQUEST_CONNECTING, env);
            if Waits(env.connect) then e.conn.wb.bytes == [] && e.conn.status == 0
            else
              && e.client == WRITE && e.conn.status != 0 && IsReply(e.conn.wb.bytes, e.conn.status)
              && (env.connect.Failed? ==> Reports(e.conn.status, env.connect.errno))
              && (!env.connect.Failed? ==> e.conn.status == 1)
  {
    ConnectsOnArrival(b, env);
    AppendToEmpty(RequestReply(ConnectingInit(b.(conn := b.conn.(current := Some(REQUEST_CONNECTING))), env.connect).conn.status));
  }

  /**
   The outcome of a connection that was waited for is reported with one reply, which says success if and only if
   the socket has no error. One that had failed already is reported again, in the same words.
   */
  lemma OutcomeIsReported(b: Bundle, side: Side, soError: SocketError)
    requires Ok(b) && b.conn.current == Some(REQUEST_CONNECTING)
    requires side.Client? ==> b.client.write
    ensures var (b', next) := ConnectingWrite(b, side, soError);
            var code := b'.conn.status;
            && next == REQUEST_WRITE && b'.client == WRITE
            && if b.origin.Some? then
                 && IsReply(b'.conn.wb.bytes, code)
                 && (code == 0 <==> soError == Pending(0))
                 && (soError.Pending? && soError.code != 0 ==> Reports(code, soError.code))
                 && (soError.Unavailable? ==> code == 1)
               else
                 code == b.conn.status && code != 0
                 && IsReply(b.conn.wb.bytes, code) && b'.conn.wb.bytes == b.conn.wb.bytes + b.conn.wb.bytes
  {
    AppendToEmpty(RequestReply(ConnectingWrite(b, side, soError).0.conn.status));
  }

  /** Once the reply has been sent in full, a connection that was reported as established is relayed. */
  lemma ReplyDecides(b: Bundle, sent: Option<nat>)
    requires Ok(b) && b.conn.current == Some(REQUEST_WRITE)
    requires sent.Some? ==> sent.value <= |b.conn.wb.bytes|
    ensures var (b', next) := RequestWrite(b, sent);
            && b'.conn.status == b.conn.status && b'.conn.input == b.conn.input
            && if sent.None? then Ends(next)
               else if sent.value < |b.conn.wb.bytes| then
                 next == REQUEST_WRITE && b'.client == WRITE && b'.conn.wb.bytes == b.conn.wb.bytes[sent.value..]
               else
                 && (next == COPY <==> b.conn.status == 0)
                 && (Ends(next) <==> b.conn.status != 0)
  {
  }

  /** A relay begins with both directions open, and with the two buffers as they are. */
  lemma RelayBegins(b: Bundle, env: Env)
    requires b.conn.wb.Valid() && b.origin.Some? && b.conn.current != Some(COPY)
    ensures var e := Arrive(b, COPY, env);
            && e.origin.Some?
            && e.conn.clientFlags == Interest(true, true) && e.conn.originFlags == Interest(true, true)
            && e.conn.rb == b.conn.rb && e.conn.wb == b.conn.wb && e.conn.dissector == b.conn.dissector
            && e.conn.input == b.conn.input
  {
  }

  // ----- The relay -----

  /** Reading in the relay is the relay's read, ends the connection exactly when that closes both directions, and
      shows the dissector what was read. */
  lemma RelayReads(b: Bundle, side: Side, recv: Option<seq<Byte>>)
    requires Ok(b) && b.conn.current == Some(COPY) && Relay.Enabled(RelayOf(b), Relay.Recv(side, recv))
    ensures var (b', next) := CopyRead(b, side, recv);
            && b'.origin.Some? && RelayOf(b') == Relay.Step(RelayOf(b), Relay.Recv(side, recv))
            && (Ends(next) <==> !Relay.Open(RelayOf(b'), Relay.Client) && !Relay.Open(RelayOf(b'), Relay.Origin))
            && (!Ends(next) ==> next == COPY)
            && b'.conn.dissector == FeedAll(D.Feed, b.conn.dissector, if recv.Some? then recv.value else [])
            && b'.conn.input == b.conn.input + (if side.Client? && recv.Some? then recv.value else [])
  {
    Relay.StepKeepsInv(RelayOf(b), Relay.Recv(side, recv));
  }

  lemma RelayWrites(b: Bundle, side: Side, sent: Option<nat>)
    requires Ok(b) && b.conn.current == Some(COPY) && Relay.Enabled(RelayOf(b), Relay.Send(side, sent))
    ensures var (b', next) := CopyWrite(b, side, sent);
            && b'.origin.Some? && RelayOf(b') == Relay.Step(RelayOf(b), Relay.Send(side, sent))
            && (Ends(next) <==> !Relay.Open(RelayOf(b'), Relay.Client) && !Relay.Open(RelayOf(b'), Relay.Origin))
            && (!Ends(next) ==> next == COPY)
            && b'.conn.dissector == b.conn.dissector && b'.conn.input == b.conn.input
  {
    Relay.StepKeepsInv(RelayOf(b), Relay.Send(side, sent));
  }

  // ----- The stages, as seen from outside -----

  /** The connection goes on in this state, with its client watched like this. */
  predicate Lives(after: Option<Bundle>, st: nat, client: Interest) {
    after.Some? && after.value.conn.current == Some(st) && after.value.client == client
  }

  /** What is left for the client to be sent. */
  predicate Queued(after: Option<Bundle>, bytes: seq<Byte>) {
    after.Some? && after.value.conn.wb.bytes == bytes
  }

  ghost predicate OpeningOutcome(input: seq<Byte>, version: Byte, wanted: Byte, recv: Option<seq<Byte>>, after: Option<Bundle>) {
    if recv.None? then after == None
    else
      var s := input + recv.value;
      && s != [] && (after == None <==> s[0] != version)
      && (after.Some? ==> after.value.conn.input == s && after.value.conn.hello.wanted == wanted)
      && (OpeningMessage(s, version) ==>
            var answer := if wanted in s[2..2 + s[1] as int] then wanted else 255;
            Lives(after, 1, WRITE) && Queued(after, [version, answer]) && after.value.conn.hello.selected == answer)
      && (s[0] == version && !OpeningMessage(s, version) ==> Lives(after, 0, READ))
  }

  ghost predicate MethodOutcome(c: Conn, sent: Option<nat>, after: Option<Bundle>) {
    (after.Some? ==> after.value.conn.input == c.input) &&
    if sent.None? then after == None
    else if sent.value < |c.wb.bytes| then Lives(after, 1, WRITE) && Queued(after, c.wb.bytes[sent.value..])
    else
      && (c.hello.selected == 0 || c.hello.selected == 2 || c.hello.selected == 255)
      && (c.hello.selected == 0 ==> Lives(after, 4, READ))
      && (c.hello.selected == 2 ==> Lives(after, 2, READ))
      && (c.hello.selected == 255 ==> after == None)
  }

  ghost predicate CredentialsOutcome(c: Conn, recv: Option<seq<Byte>>, table: seq<User>, after: Option<Bundle>) {
    if recv.None? then after == None
    else
      c.helloLength <= |c.input| &&
      var s := CredentialsInput(c, recv.value);
      && s != [] && (after == None <==> s[0] != 1)
      && (after.Some? ==> after.value.conn.input == c.input + recv.value)
      && (after.Some? && !Lives(after, 3, WRITE) ==> Lives(after, 2, READ))
      && (Lives(after, 3, WRITE) <==> exists user, pass :: LoginMessage(s, user, pass))
      && (Lives(after, 3, WRITE) ==> Queued(after, []))
      && (forall user, pass :: LoginMessage(s, user, pass) && after.Some? ==>
            && after.value.conn.authentication == (if InTable(table, user, pass) then 0 else 1)
            && (c.isSocks && InTable(table, user, pass) ==> IsFirst(table, after.value.conn.userIndex, user, pass)))
  }

  ghost predicate VerdictOutcome(c: Conn, sent: Option<nat>, after: Option<Bundle>)
    requires c.wb.Valid()
  {
    var offered := c.wb.bytes + if c.wb.Room() >= 2 then [1, c.authentication] else [];
    (after.Some? ==> after.value.conn.input == c.input) &&
    if sent.None? then after == None
    else if sent.value < |offered| then Lives(after, 3, WRITE) && Queued(after, offered[sent.value..])
    else if c.authentication == 0 then Lives(after, 4, READ)
    else after == None
  }

  /** The origin is being connected, or the client is being told why it is not. */
  ghost predicate ConnectStarted(connect: Connect, after: Option<Bundle>) {
    && after.Some? && after.value.conn.current == Some(6)
    && if Waits(connect) then
         after.value.client == NOOP && after.value.origin == Some(WRITE) && Queued(after, [])
       else
         && after.value.client == WRITE && after.value.origin == None
         && after.value.conn.status != 0 && IsReply(after.value.conn.wb.bytes, after.value.conn.status)
         && (connect.Failed? ==> Reports(after.value.conn.status, connect.errno))
         && (!connect.Failed? ==> after.value.conn.status == 1)
  }

  ghost predicate RequestOutcome(c: Conn, recv: Option<seq<Byte>>, connect: Connect, after: Option<Bundle>) {
    if recv.None? then after == None
    else
      RequestStart(c) <= |c.input| &&
      var s := RequestInput(c, recv.value);
      && after.Some? && after.value.conn.input == c.input + recv.value
      && (Lives(after, 5, NOOP) <==> exists r :: RequestMessage(s, r, 3))
      && (ConnectStarted(connect, after) <==> exists r :: RequestMessage(s, r, 1) || RequestMessage(s, r, 4))
      && (!Lives(after, 5, NOOP) && !ConnectStarted(connect, after) ==> Lives(after, 4, READ))
      && (forall r, a :: RequestMessage(s, r, a) ==> after.value.conn.rb.bytes == s[|r.Encode()|..])
  }

  ghost predicate ResolutionOutcome(resolved: bool, connect: Connect, after: Option<Bundle>) {
    if resolved then ConnectStarted(connect, after)
    else Lives(after, 7, WRITE) && Queued(after, [5, 1, 0, 1, 0, 0, 0, 0, 0, 0])
  }

  /** `connecting` says that the origin is registered, waiting for the outcome. */
  ghost predicate ConnectOutcome(c: Conn, connecting: bool, soError: SocketError, after: Option<Bundle>) {
    && Lives(after, 7, WRITE)
    && var code := after.value.conn.status;
       if connecting then
         && IsReply(after.value.conn.wb.bytes, code)
         && (code == 0 <==> soError == Pending(0))
         && (soError.Pending? && soError.code != 0 ==> Reports(code, soError.code))
         && (soError.Unavailable? ==> code == 1)
       else
         && code == c.status && code != 0 && IsReply(c.wb.bytes, code)
         && Queued(after, c.wb.bytes + c.wb.bytes)
  }

  ghost predicate ReplyOutcome(c: Conn, sent: Option<nat>, after: Option<Bundle>) {
    (after.Some? ==> after.value.conn.input == c.input) &&
    if sent.None? then after == None
    else if sent.value < |c.wb.bytes| then
      Lives(after, 7, WRITE) && Queued(after, c.wb.bytes[sent.value..]) && after.value.conn.status == c.status
    else if c.status == 0 then
      && after.Some? && after.value.conn.current == Some(8) && after.value.origin.Some?
      && after.value.conn.clientFlags == Interest(true, true) && after.value.conn.originFlags == Interest(true, true)
      && after.value.conn.rb == c.rb && Queued(after, [])
    else after == None
  }

  /** The step that the relay makes, and what the dissector and the history see of it. */
  ghost predicate RelayOutcome(b: Bundle, e: Relay.Event, after: Option<Bundle>)
    requires b.origin.Some? && b.conn.rb.Valid() && b.conn.wb.Valid() && Relay.Enabled(RelayOf(b), e)
  {
    var r := Relay.Step(RelayOf(b), e);
    var heard := if e.Recv? && e.data.Some? then e.data.value else [];
    && (after == None <==> !Relay.Open(r, Relay.Client) && !Relay.Open(r, Relay.Origin))
    && (after.Some? ==>
          && after.value.conn.current == Some(8) && after.value.origin.Some? && RelayOf(after.value) == r
          && after.value.conn.dissector == FeedAll(D.Feed, b.conn.dissector, heard)
          && after.value.conn.input == b.conn.input + (if e.side.Client? then heard else []))
  }
}
