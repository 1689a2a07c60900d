/**
 The connection record as the server holds it, with its two buffers and its parsers as objects, and the handlers
 of the stages before the relay as they run: each is proved to do what the stage function of ConnectionModule says.
 */
module SessionModule {

  import opened Base
  import opened Buffers
  import opened SelectorTable
  import opened SelectorModule
  import opened StateMachineModule
  import opened UsersModule
  import C = ConnectionModule
  import H = HelloParserModule
  import F = FieldParserModule
  import R = RequestParserModule
  import D = DissectorModule
  import Feeding

  class Session {
    const isSocks: bool
    const clientFd: int
    var originFd: int
    var current: Option<nat>
    const rb: Buffer
    const wb: Buffer
    var hello: H.HelloParser
    var auth: F.FieldParser
    var request: R.RequestParser
    var authentication: Byte
    var userIndex: int
    var status: Byte
    var references: nat
    ghost var input: seq<Byte>
    ghost var helloLength: nat
    ghost var checked: Option<C.Checked>

    /** The parts of the record are apart from each other. */
    ghost predicate Apart()
      reads this, request
    {
      && rb != wb && rb.data != wb.data
      && request.address != rb.data && request.address != wb.data
      && request.host != rb.data && request.host != wb.data
      && request.destPort != rb.data && request.destPort != wb.data
    }

    ghost predicate Valid()
      reads this, rb, rb.data, wb, wb.data, request, request.address, request.host, request.destPort
    {
      Apart() && rb.Valid() && wb.Valid() && request.Valid()
    }

    /** The relay's flags and the dissector play no part before the relay. */
    ghost function View(): C.Conn
      requires Valid()
      reads this, rb, rb.data, wb, wb.data, hello, auth, auth.steps, request, request.address, request.host, request.destPort
    {
      C.Conn(isSocks, clientFd, originFd, current, rb.View(), wb.View(), hello.View(), auth.View(), authentication,
             userIndex, request.View(), status, NOOP, NOOP, references, D.INITIAL, input, helloLength, checked)
    }

    /** `socks5_new` and `mng_new`. */
    constructor (clientFd: int, isSocks: bool)
      ensures Valid() && View() == C.NewConn(clientFd).(isSocks := isSocks)
      ensures fresh(rb) && fresh(rb.data) && fresh(wb) && fresh(wb.data) && fresh(hello) && fresh(auth) && fresh(auth.steps)
      ensures fresh(request) && fresh(request.address) && fresh(request.host) && fresh(request.destPort)
    {
      this.isSocks, this.clientFd, originFd, current := isSocks, clientFd, -1, None;
      var a := new Byte[C.BUFFER_SIZE];
      var b := new Byte[C.BUFFER_SIZE];
      rb := new Buffer(a);
      wb := new Buffer(b);
      hello := new H.HelloParser(C.SOCKS_VERSION, 0);
      auth := new F.FieldParser([]);
      request := new R.RequestParser();
      authentication, userIndex, status, references := 0, 0, C.SUCCEEDED, 1;
      input, helloLength, checked := [], 0, None;
    }

    /** The client's descriptor is registered; so is the origin's if the record names one that is. */
    ghost predicate Registered(s: Selector)
      reads this, s, s.fds
    {
      && s.Valid() && s.Roomy() && clientFd in s.Table() && clientFd != originFd
    }

    ghost function Bundle(s: Selector): C.Bundle
      requires Valid() && Registered(s)
      reads this, rb, rb.data, wb, wb.data, hello, auth, auth.steps, request, request.address, request.host, request.destPort
      reads s, s.fds
    {
      C.Bundle(View(), s.Table()[clientFd].interest,
               if originFd in s.Table() then Some(s.Table()[originFd].interest) else None)
    }

    /** `selector_set_interest` on the client's descriptor. */
    method WatchClient(s: Selector, i: Interest) returns (ok: bool)
      requires Valid() && Registered(s)
      modifies s, s.fds
      ensures Registered(s) && ok && s.fds == old(s.fds) && s.jobs == old(s.jobs)
      ensures Valid() && Bundle(s) == old(Bundle(s)).(client := i)
      ensures s.Table().Keys == old(s.Table().Keys)
    {
      var status := s.SetInterest(clientFd, i);
      ok := status == Success;
    }

    /** `recv` has put a chunk into the read buffer. */
    method Receive(chunk: seq<Byte>)
      requires Valid() && |chunk| <= rb.View().Room()
      modifies rb, rb.data, this`input
      ensures Valid() && View() == old(View()).(rb := old(rb.View()).Append(chunk), input := old(input) + chunk)
    {
      rb.Fill(chunk);
      input := input + chunk;
    }

    /** `hello_consume` on the bytes in the read buffer; it takes `n` of them. */
    method ConsumeHello() returns (st: H.State, ghost n: nat)
      requires Valid()
      modifies rb, rb.data, hello
      ensures Valid() && st == View().hello.state
      ensures var c := old(View());
              var (p, m) := Feeding.Consume(H.Feed, H.Stops, c.hello, c.rb.bytes);
              n == m && View() == c.(hello := p, rb := c.rb.Advance(m))
    {
      n := Feeding.Consume(H.Feed, H.Stops, hello.View(), rb.View().bytes).1;
      st := hello.ConsumeFrom(rb);
    }

    method HelloConsume(chunk: seq<Byte>) returns (st: H.State)
      requires Valid() && |chunk| <= rb.View().Room()
      modifies this`input, this`helloLength, rb, rb.data, hello
      ensures Valid() && View() == C.HelloConsume(old(View()), chunk) && st == View().hello.state
    {
      ghost var was := View();
      Receive(chunk);
      ghost var n;
      st, n := ConsumeHello();
      ghost var taken := |was.input| - |was.rb.bytes| + n;
      helloLength := if taken >= 0 then taken else 0;
    }

    /** Puts bytes into the write buffer, if they fit. */
    method Queue(bytes: seq<Byte>) returns (fits: bool)
      requires Valid()
      modifies wb, wb.data
      ensures Valid() && (fits <==> |bytes| <= old(wb.View()).Room())
      ensures View() == if fits then old(View()).(wb := old(wb.View()).Append(bytes)) else old(View())
    {
      var n := wb.WriteWindow();
      fits := |bytes| <= n;
      if fits {
        wb.Fill(bytes);
      }
    }

    /** `hello_marshal` and the end of `hello_read`. */
    method HelloAnswer(s: Selector, st: H.State) returns (next: nat)
      requires Valid() && Registered(s) && st == View().hello.state
      modifies wb, wb.data, s, s.fds
      ensures Valid() && Registered(s) && (Bundle(s), next) == C.HelloAnswer(old(Bundle(s)))
    {
      next := HELLO_READ;
      if st == H.Done || st == H.ErrorUnsupportedVersion {
        ghost var b := Bundle(s);
        var ok := WatchClient(s, WRITE);
        assert Bundle(s) == b.(client := WRITE);
        var fits := Queue([if isSocks then C.SOCKS_VERSION else C.MNG_VERSION, hello.selected]);
        assert Bundle(s).client == WRITE && Bundle(s).origin == b.origin;
        next := if !fits || st == H.ErrorUnsupportedVersion then ERROR else HELLO_WRITE;
      }
    }

    method HelloRead(s: Selector, recv: Option<seq<Byte>>) returns (next: nat)
      requires Valid() && Registered(s) && (recv.Some? ==> |recv.value| <= rb.View().Room())
      modifies this`input, this`helloLength, rb, rb.data, wb, wb.data, hello, s, s.fds
      ensures Valid() && Registered(s) && (Bundle(s), next) == C.HelloRead(old(Bundle(s)), recv)
    {
      if recv.None? {
        return ERROR;
      }
      var st := HelloConsume(recv.value);
      next := HelloAnswer(s, st);
    }

    method Sent(count: nat) returns (more: bool)
      requires Valid() && count <= |wb.View().bytes|
      modifies wb, wb.data
      ensures Valid() && View() == old(View()).(wb := old(wb.View()).Advance(count))
      ensures more == wb.View().CanRead()
    {
      ghost var was := wb.View();
      wb.ReadAdvance(count);
      assert wb.View() == was.Advance(count);
      more := wb.CanRead();
    }

    method HelloWrite(s: Selector, sent: Option<nat>) returns (next: nat)
      requires Valid() && Registered(s) && (sent.Some? ==> sent.value <= |wb.View().bytes|)
      modifies wb, wb.data, s, s.fds
      ensures Valid() && Registered(s) && (Bundle(s), next) == C.HelloWrite(old(Bundle(s)), sent)
    {
      if sent.None? {
        return ERROR;
      }
      next := HELLO_WRITE;
      var more := Sent(sent.value);
      if !more {
        if hello.selected == H.NO_ACCEPTABLE_METHODS {
          return DONE;
        }
        var ok := WatchClient(s, READ);
        if hello.selected == H.NO_AUTHENTICATION {
          next := REQUEST_READ;
        }
        if hello.selected == H.USERNAME_PASSWORD {
          next := USERPASS_READ;
        }
      }
    }

    // ----- Authentication -----

    /** `auth_read_init`. */
    method AuthReadInit()
      requires Valid()
      modifies this`auth
      ensures Valid() && fresh(auth) && fresh(auth.steps)
      ensures View() == old(View()).(auth := F.Start(F.AUTH_FIELDS))
    {
      assert [] + F.Layout(F.AUTH_FIELDS) == F.Layout(F.AUTH_FIELDS);
      auth := new F.FieldParser(F.Layout(F.AUTH_FIELDS));
    }

    method AuthConsume(chunk: seq<Byte>) returns (st: F.Phase)
      requires Valid() && |chunk| <= rb.View().Room()
      modifies this`input, rb, rb.data, auth, auth.steps
      ensures Valid() && View() == C.AuthConsume(old(View()), chunk) && st == View().auth.current
    {
      Receive(chunk);
      st := auth.ConsumeFrom(rb);
    }

    method ReadCredentials(s: Selector, chunk: seq<Byte>) returns (st: F.Phase)
      requires Valid() && Registered(s) && |chunk| <= rb.View().Room()
      modifies this`input, rb, rb.data, auth, auth.steps
      ensures Valid() && Registered(s) && st == View().auth.current
      ensures Bundle(s) == old(Bundle(s)).(conn := C.AuthConsume(old(View()), chunk))
    {
      st := AuthConsume(chunk);
    }

    /** `auth_process`, against the proxy's users or the administrators. */
    method AuthProcess(table: UserTable)
      requires Valid() && table.Valid() && auth.steps.Length == 5
      modifies this`authentication, this`userIndex, this`checked
      ensures Valid() && View() == C.AuthProcess(old(View()), table.Contents())
    {
      ghost var was := View();
      var username, password := auth.steps[2].result, auth.steps[4].result;
      assert was.auth.steps[2].result == username && was.auth.steps[4].result == password;
      var result, index := table.CheckCredentials(username, password);
      NoteResult(result, index, C.Checked(C.DropNul(username), C.DropNul(password), table.Contents(), result));
    }

    method NoteResult(result: Byte, index: int, ghost check: C.Checked)
      requires Valid()
      modifies this`authentication, this`userIndex, this`checked
      ensures Valid()
      ensures View() == old(View()).(authentication := result, checked := Some(check),
                                     userIndex := if isSocks && result == C.GRANTED then index else old(userIndex))
    {
      Remember(check);
      if isSocks && result == C.GRANTED {
        SetUser(index);
      }
      authentication := result;
    }

    method SetUser(index: int)
      requires Valid()
      modifies this`userIndex
      ensures Valid() && View() == old(View()).(userIndex := index)
    {
      userIndex := index;
    }

    ghost method Remember(check: C.Checked)
      requires Valid()
      modifies this`checked
      ensures Valid() && View() == old(View()).(checked := Some(check))
    {
      checked := Some(check);
    }

    method AuthAnswer(s: Selector, table: UserTable, st: F.Phase) returns (next: nat)
      requires Valid() && Registered(s) && table.Valid() && st == View().auth.current
      modifies this`authentication, this`userIndex, this`checked, s, s.fds
      ensures Valid() && Registered(s) && (Bundle(s), next) == C.AuthAnswer(old(Bundle(s)), table.Contents())
    {
      next := USERPASS_READ;
      if st == F.DoneRead || st == F.ErrorRead {
        ghost var b := Bundle(s);
        var ok := WatchClient(s, WRITE);
        assert Bundle(s) == b.(client := WRITE);
        if st == F.ErrorRead || auth.steps.Length != 5 {
          next := ERROR;
        } else {
          AuthProcess(table);
          assert Bundle(s).client == WRITE && Bundle(s).origin == b.origin;
          next := USERPASS_WRITE;
        }
      }
    }

    method AuthRead(s: Selector, recv: Option<seq<Byte>>, table: UserTable) returns (next: nat)
      requires Valid() && Registered(s) && table.Valid()
      requires recv.Some? ==> |recv.value| <= rb.View().Room()
      modifies this`input, this`authentication, this`userIndex, this`checked, rb, rb.data, auth, auth.steps, s, s.fds
      ensures Valid() && Registered(s) && (Bundle(s), next) == C.AuthRead(old(Bundle(s)), recv, table.Contents())
    {
      if recv.None? {
        return ERROR;
      }
      var st := ReadCredentials(s, recv.value);
      next := AuthAnswer(s, table, st);
    }

    /** `auth_write`, which appends the reply on every call. */
    method AuthWrite(s: Selector, sent: Option<nat>) returns (next: nat)
      requires Valid() && Registered(s) && (sent.Some? ==> sent.value <= |C.AuthReply(View()).bytes|)
      modifies wb, wb.data, s, s.fds
      ensures Valid() && Registered(s) && (Bundle(s), next) == C.AuthWrite(old(Bundle(s)), sent)
    {
      var fits := Queue([F.USERPASS_VERSION, authentication]);
      if sent.None? {
        return ERROR;
      }
      var more := Sent(sent.value);
      if more {
        next := USERPASS_WRITE;
      } else if authentication != C.GRANTED {
        next := DONE;
      } else {
        var ok := WatchClient(s, READ);
        next := REQUEST_READ;
      }
    }

    // ----- Request and connection -----

    /** `request_init`. */
    method RequestInit()
      requires Valid()
      modifies this`request
      ensures Valid() && View() == old(View()).(request := R.INITIAL)
    {
      request := new R.RequestParser();
    }

    /** `request_consume` on the bytes in the read buffer. */
    method ConsumeRequest()
      requires Valid()
      modifies rb, rb.data, request, request.address, request.host, request.destPort
      ensures Valid()
      ensures var c := old(View());
              var (p, n) := Feeding.Consume(R.Feed, R.IsDone, c.request, c.rb.bytes);
              View() == c.(request := p, rb := c.rb.Advance(n))
    {
      var st := request.ConsumeFrom(rb);
    }

    method RequestConsume(chunk: seq<Byte>) returns (st: R.State)
      requires Valid() && |chunk| <= rb.View().Room()
      modifies this`input, rb, rb.data, request, request.address, request.host, request.destPort
      ensures Valid() && View() == C.RequestConsume(old(View()), chunk) && st == View().request.state
    {
      ghost var was := View();
      Receive(chunk);
      ghost var received := View();
      assert received.request == was.request;
      ConsumeRequest();
      st := request.state;
    }

    /** `request_process`; starting the resolver thread is the caller's. */
    method RequestProcess(s: Selector, st: R.State) returns (next: nat)
      requires Valid() && Registered(s) && st == View().request.state
      modifies s, s.fds
      ensures Valid() && Registered(s) && (Bundle(s), next) == C.RequestAnswer(old(Bundle(s)))
    {
      next := REQUEST_READ;
      if st == R.Done {
        if request.atyp == R.ATYP_DOMAIN {
          var ok := WatchClient(s, NOOP);
          next := REQUEST_RESOLV;
        } else {
          next := REQUEST_CONNECTING;
        }
      }
    }

    method RequestRead(s: Selector, recv: Option<seq<Byte>>) returns (next: nat)
      requires Valid() && Registered(s) && (recv.Some? ==> |recv.value| <= rb.View().Room())
      modifies this`input, rb, rb.data, request, request.address, request.host, request.destPort, s, s.fds
      ensures Valid() && Registered(s) && (Bundle(s), next) == C.RequestRead(old(Bundle(s)), recv)
    {
      if recv.None? {
        return ERROR;
      }
      var st := RequestConsume(recv.value);
      next := RequestProcess(s, st);
    }

    /** `selector_set_interest` on the origin's descriptor, which fails harmlessly if it is not registered. */
    method WatchOrigin(s: Selector, i: Interest)
      requires Valid() && Registered(s)
      modifies s, s.fds
      ensures Registered(s) && s.fds == old(s.fds) && s.jobs == old(s.jobs)
      ensures Valid() && Bundle(s) == C.SetKey(old(Bundle(s)), C.Side.Origin, i)
    {
      if originFd != -1 {
        var ignored := s.SetInterest(originFd, i);
      }
    }

    /** `error_handler_to_client`. */
    method ErrorToClient(s: Selector) returns (next: nat)
      requires Valid() && Registered(s)
      modifies wb, wb.data, s, s.fds
      ensures Valid() && Registered(s) && s.fds == old(s.fds) && next == REQUEST_WRITE
      ensures Bundle(s) == C.ErrorToClient(old(Bundle(s)))
    {
      var fits := Queue([C.SOCKS_VERSION, status, 0, R.ATYP_IPV4, 0, 0, 0, 0, 0, 0]);
      var ok := WatchClient(s, WRITE);
      WatchOrigin(s, NOOP);
      next := REQUEST_WRITE;
    }

    /** `request_resolv_done`. */
    method ResolvDone(s: Selector, resolved: bool) returns (next: nat)
      requires Valid() && Registered(s)
      modifies this`status, wb, wb.data, s, s.fds
      ensures Valid() && Registered(s) && (Bundle(s), next) == C.ResolvDone(old(Bundle(s)), resolved)
    {
      if !resolved {
        Unresolved();
        var ok := WatchClient(s, WRITE);
        return REQUEST_WRITE;
      }
      next := REQUEST_CONNECTING;
    }

    method Unresolved()
      requires Valid()
      modifies this`status, wb, wb.data
      ensures Valid()
      ensures View() == old(View()).(status := C.GENERAL_FAILURE, wb := C.Marshall(old(wb.View()), C.GENERAL_FAILURE))
    {
      status := C.GENERAL_FAILURE;
      var fits := Queue([C.SOCKS_VERSION, status, 0, R.ATYP_IPV4, 0, 0, 0, 0, 0, 0]);
    }

    /** A descriptor the system has just created: it is not the client's and not registered. */
    ghost predicate NewFd(s: Selector, connect: C.Connect)
      reads this, s, s.fds
    {
      !connect.NoSocket? ==> connect.fd >= 0 && connect.fd !in s.Table() && connect.fd != clientFd
    }

    /** `connecting_init` up to and including `connection`; `self` is this record's address. */
    method ConnectingInit(s: Selector, connect: C.Connect, self: nat)
      requires Valid() && Registered(s) && Bundle(s).origin == None && NewFd(s, connect) && clientFd != -1
      modifies this`originFd, this`status, this`references, wb, wb.data, s, s.fds
      ensures Valid() && Registered(s) && Bundle(s) == C.ConnectingInit(old(Bundle(s)), connect)
    {
      ghost var b := Bundle(s);
      Begin(s);
      StatusFirst(b, connect);
      if connect.InProgress? {
        Await(s, connect.fd, self);
      } else if connect.Immediate? {
        AtOnce(s, connect.fd, self);
      } else {
        Refused(s, connect);
      }
    }

    method Begin(s: Selector)
      requires Valid() && Registered(s)
      modifies this`status
      ensures Valid() && Registered(s) && status == C.SUCCEEDED
      ensures Bundle(s) == old(Bundle(s)).(conn := old(Bundle(s)).conn.(status := C.SUCCEEDED))
    {
      status := C.SUCCEEDED;
    }

    static lemma StatusFirst(b: C.Bundle, connect: C.Connect)
      requires b.conn.wb.Valid()
      ensures C.ConnectingInit(b.(conn := b.conn.(status := C.SUCCEEDED)), connect) == C.ConnectingInit(b, connect)
    {
    }

    /** There is no connection to wait for. */
    method Refused(s: Selector, connect: C.Connect)
      requires Valid() && Registered(s) && Bundle(s).origin == None && NewFd(s, connect) && clientFd != -1
      requires connect.NoSocket? || connect.NoFlags? || connect.Failed?
      modifies this`originFd, this`status, wb, wb.data, s, s.fds
      ensures Valid() && Registered(s) && Bundle(s) == C.ConnectingInit(old(Bundle(s)), connect)
    {
      match connect {
        case NoSocket => Fail(s, -1, C.GENERAL_FAILURE);
        case NoFlags(fd) => Fail(s, fd, C.GENERAL_FAILURE);
        case Failed(fd, errno) => Fail(s, fd, C.ErrnoToSocks(errno));
      }
    }

    /** `connect` has succeeded at once. */
    method AtOnce(s: Selector, fd: int, self: nat)
      requires Valid() && Registered(s) && Bundle(s).origin == None && status == C.SUCCEEDED
      requires fd >= 0 && fd !in s.Table() && fd != clientFd && clientFd != -1
      modifies this`originFd, this`status, this`references, wb, wb.data, s, s.fds
      ensures Valid() && Registered(s)
      ensures Bundle(s) == C.ConnectingInit(old(Bundle(s)), C.Immediate(fd))
    {
      AtOnceMeans(Bundle(s), fd);
      Hold(s);
      var ok := Connect(s, fd, READ, READ, self);
    }

    static lemma AtOnceMeans(b: C.Bundle, fd: int)
      requires b.conn.wb.Valid() && b.conn.status == C.SUCCEEDED
      ensures var held := b.(conn := b.conn.(references := b.conn.references + 1));
              C.ConnectingInit(b, C.Immediate(fd)) ==
              if InvalidFd(fd) then C.ErrorToClient(held.(conn := held.conn.(originFd := fd, status := C.GENERAL_FAILURE)))
              else C.Bundle(held.conn.(originFd := fd), READ, Some(READ))
    {
      assert b.conn.(status := C.SUCCEEDED) == b.conn;
    }

    /** `connect` is in progress: completion will show as the descriptor becoming writable. */
    method Await(s: Selector, fd: int, self: nat)
      requires Valid() && Registered(s) && Bundle(s).origin == None && status == C.SUCCEEDED
      requires fd >= 0 && fd !in s.Table() && fd != clientFd && clientFd != -1
      modifies this`originFd, this`status, this`references, wb, wb.data, s, s.fds
      ensures Valid() && Registered(s)
      ensures Bundle(s) == C.ConnectingInit(old(Bundle(s)), C.InProgress(fd))
    {
      AwaitMeans(Bundle(s), fd);
      var ok := Connect(s, fd, NOOP, WRITE, self);
      if ok {
        Hold(s);
      } else {
        Forget(s);
      }
    }

    static lemma AwaitMeans(b: C.Bundle, fd: int)
      requires b.conn.wb.Valid() && b.conn.status == C.SUCCEEDED
      ensures C.ConnectingInit(b, C.InProgress(fd)) ==
              if InvalidFd(fd) then
                var e := C.ErrorToClient(b.(conn := b.conn.(originFd := fd, status := C.GENERAL_FAILURE)));
                e.(conn := e.conn.(originFd := -1))
              else
                var e := C.Bundle(b.conn.(originFd := fd), NOOP, Some(WRITE));
                e.(conn := e.conn.(references := e.conn.references + 1))
    {
      assert b.conn.(status := C.SUCCEEDED) == b.conn;
    }

    method Hold(s: Selector)
      requires Valid() && Registered(s)
      modifies this`references
      ensures Valid() && Registered(s) && references == old(references) + 1
      ensures Bundle(s) == old(Bundle(s)).(conn := old(Bundle(s)).conn.(references := old(Bundle(s)).conn.references + 1))
    {
      references := references + 1;
    }

    method Forget(s: Selector)
      requires Valid() && Registered(s) && Bundle(s).origin == None && clientFd != -1
      modifies this`originFd
      ensures Valid() && Registered(s)
      ensures Bundle(s) == old(Bundle(s)).(conn := old(Bundle(s)).conn.(originFd := -1))
    {
      originFd := -1;
    }

    /** The registration of the origin's descriptor; one that cannot be registered is reported as a failure. */
    method Connect(s: Selector, fd: int, client: Interest, origin: Interest, self: nat) returns (ok: bool)
      requires Valid() && Registered(s) && Bundle(s).origin == None
      requires fd >= 0 && fd !in s.Table() && fd != clientFd
      modifies this`originFd, this`status, wb, wb.data, s, s.fds
      ensures Valid() && Registered(s) && (ok <==> !InvalidFd(fd))
      ensures ok ==> Bundle(s) == C.Bundle(old(Bundle(s)).conn.(originFd := fd), client, Some(origin))
      ensures !ok ==> Bundle(s) == C.ErrorToClient(old(Bundle(s)).(conn := old(Bundle(s)).conn.(originFd := fd, status := C.GENERAL_FAILURE)))
    {
      ghost var b := Bundle(s);
      var watched := WatchClient(s, client);
      assert Bundle(s) == b.(client := client);
      ok := !InvalidFd(fd);
      if ok {
        Register(s, fd, origin, self);
      } else {
        var refused, past := s.Register(fd, Slot(origin, SocksHandler, self), true);
        Fail(s, fd, C.GENERAL_FAILURE);
      }
    }

    method Register(s: Selector, fd: int, origin: Interest, self: nat)
      requires Valid() && Registered(s) && !InvalidFd(fd) && fd !in s.Table() && fd != clientFd
      modifies this`originFd, s, s.fds
      ensures Valid() && Registered(s)
      ensures Bundle(s) == C.Bundle(old(View()).(originFd := fd), old(Bundle(s)).client, Some(origin))
    {
      originFd := fd;
      var status, past := s.Register(fd, Slot(origin, SocksHandler, self), true);
    }

    /** A connection that failed at once is reported; its descriptor, if any, stays unregistered. */
    method Fail(s: Selector, fd: int, code: Byte)
      requires Valid() && Registered(s) && Bundle(s).origin == None && fd !in s.Table() && fd != clientFd
      modifies this`originFd, this`status, wb, wb.data, s, s.fds
      ensures Valid() && Registered(s) && s.fds == old(s.fds)
      ensures Bundle(s) == C.ErrorToClient(old(Bundle(s)).(conn := old(Bundle(s)).conn.(originFd := fd, status := code)))
    {
      ghost var b := Bundle(s);
      originFd, status := fd, code;
      assert View() == b.conn.(originFd := fd, status := code);
      assert Bundle(s) == b.(conn := View());
      var next := ErrorToClient(s);
    }

    /**
     `connecting_write` on the descriptor of one side, with no further address to try. A failure that was known
     from the start left the origin's descriptor unregistered.
     */
    method ConnectingWrite(s: Selector, side: C.Side, soError: C.SocketError) returns (next: nat)
      requires Valid() && Registered(s) && clientFd != -1
      requires status != C.SUCCEEDED ==> Bundle(s).origin == None
      modifies this`originFd, this`status, wb, wb.data, s, s.fds
      ensures Valid() && Registered(s) && (Bundle(s), next) == C.ConnectingWrite(old(Bundle(s)), side, soError)
    {
      if status != C.SUCCEEDED {
        Fail(s, -1, status);
        next := REQUEST_WRITE;
      } else if soError.Unavailable? {
        next := Report(s, C.GENERAL_FAILURE);
      } else if soError.code != 0 {
        next := Report(s, C.ErrnoToSocks(soError.code));
      } else {
        next := Connected(s, side);
      }
    }

    method Report(s: Selector, code: Byte) returns (next: nat)
      requires Valid() && Registered(s)
      modifies this`status, wb, wb.data, s, s.fds
      ensures Valid() && Registered(s) && next == REQUEST_WRITE
      ensures Bundle(s) == C.ErrorToClient(old(Bundle(s)).(conn := old(Bundle(s)).conn.(status := code)))
    {
      ghost var b := Bundle(s);
      status := code;
      assert Bundle(s) == b.(conn := b.conn.(status := code));
      next := ErrorToClient(s);
    }

    method Connected(s: Selector, side: C.Side) returns (next: nat)
      requires Valid() && Registered(s) && status == C.SUCCEEDED
      modifies wb, wb.data, s, s.fds
      ensures Valid() && Registered(s) && (Bundle(s), next) == C.ConnectingWrite(old(Bundle(s)), side, C.Pending(0))
    {
      var fits := Queue([C.SOCKS_VERSION, status, 0, R.ATYP_IPV4, 0, 0, 0, 0, 0, 0]);
      if !fits {
        return ERROR;
      }
      var ok := WatchClient(s, WRITE);
      if side.Client? {
        ok := WatchClient(s, NOOP);
      } else {
        WatchOrigin(s, NOOP);
      }
      next := REQUEST_WRITE;
    }

    method StartRelaying(s: Selector)
      requires Valid() && Registered(s)
      modifies s, s.fds
      ensures Valid() && Registered(s)
      ensures Bundle(s) == C.SetKey(old(Bundle(s)).(client := READ), C.Side.Origin, READ)
    {
      var ok := WatchClient(s, READ);
      WatchOrigin(s, READ);
    }

    method RequestWrite(s: Selector, sent: Option<nat>) returns (next: nat)
      requires Valid() && Registered(s) && (sent.Some? ==> sent.value <= |wb.View().bytes|)
      modifies wb, wb.data, s, s.fds
      ensures Valid() && Registered(s) && (Bundle(s), next) == C.RequestWrite(old(Bundle(s)), sent)
    {
      if sent.None? {
        return ERROR;
      }
      var more := Sent(sent.value);
      if more {
        next := REQUEST_WRITE;
      } else if status == C.SUCCEEDED {
        StartRelaying(s);
        next := COPY;
      } else {
        var ok := WatchClient(s, NOOP);
        next := DONE;
      }
    }

    // ----- The engine's arrival hooks -----

    /** `hello_read_init`: the management server always wants a user name and password. */
    method HelloReadInit(authMethod: Byte)
      requires Valid()
      modifies this`hello
      ensures Valid() && fresh(hello)
      ensures View() == C.HelloInit(old(View()), authMethod)
    {
      hello := new H.HelloParser(if isSocks then C.SOCKS_VERSION else C.MNG_VERSION,
                                 if isSocks then authMethod else H.USERNAME_PASSWORD);
    }

    /** `handle_first`. */
    method HandleFirst(s: Selector, authMethod: Byte)
      requires Valid() && Registered(s)
      modifies this`current, this`hello
      ensures Valid() && Registered(s) && Bundle(s) == C.HandleFirst(old(Bundle(s)), authMethod)
    {
      if current.None? {
        GoTo(s, HELLO_READ);
        HelloReadInit(authMethod);
      }
    }

    method GoTo(s: Selector, next: nat)
      requires Valid() && Registered(s)
      modifies this`current
      ensures Valid() && Registered(s)
      ensures Bundle(s) == old(Bundle(s)).(conn := old(Bundle(s)).conn.(current := Some(next)))
    {
      current := Some(next);
    }

    /** `jump` to any state before the relay, with its arrival hook. */
    method Jump(s: Selector, next: nat, env: C.Env, self: nat)
      requires Valid() && Registered(s) && current.Some? && next != COPY && clientFd != -1
      requires next == REQUEST_CONNECTING && current != Some(next) ==> Bundle(s).origin == None && NewFd(s, env.connect)
      modifies this, wb, wb.data, s, s.fds
      ensures Valid() && Registered(s) && Bundle(s) == C.Arrive(old(Bundle(s)), next, env)
    {
      if current == Some(next) {
        return;
      }
      GoTo(s, next);
      if next == USERPASS_READ {
        AuthReadInit();
      } else if next == REQUEST_READ {
        RequestInit();
      } else if next == REQUEST_CONNECTING {
        ConnectingInit(s, env.connect, self);
      }
    }
  }
}
