/**
 The request stages of a management connection as the handlers run them, over the real buffers, parser, selector
 and user table: each is proved to do what the stage function of ManagerModule says.
 */
module ManagerSessionModule {

  import opened Base
  import opened Buffers
  import Feeding
  import opened SelectorTable
  import opened SelectorModule
  import opened StateMachineModule
  import opened UsersModule
  import opened SessionModule
  import G = ManagerModule
  import H = HelloParserModule
  import F = FieldParserModule
  import M = ManagementModule

  /** The server's global settings. */
  class Configuration {
    const users: UserTable
    var authMethod: Byte
    var dissectors: Byte

    constructor (users: UserTable, authMethod: Byte, dissectors: Byte)
      ensures this.users == users && this.authMethod == authMethod && this.dissectors == dissectors
    {
      this.users, this.authMethod, this.dissectors := users, authMethod, dissectors;
    }

    ghost function View(): G.Settings
      requires users.Valid()
      reads this, users, users.cells
    {
      G.Settings(users.Contents(), authMethod, dissectors)
    }

    /** `disableAuth`. */
    method DisableAuth(option: Byte)
      requires users.Valid()
      modifies this`authMethod
      ensures users.Valid()
      ensures View() == old(View()).(authMethod := if option == 0 then H.USERNAME_PASSWORD else H.NO_AUTHENTICATION)
    {
      authMethod := if option == 0 then H.USERNAME_PASSWORD else H.NO_AUTHENTICATION;
    }

    method AddUser(username: seq<Byte>, password: seq<Byte>)
      requires users.Valid()
      modifies users, users.cells
      ensures users.Valid()
      ensures View() == old(View()).(users := Add(old(View()).users, User(CString(username), CString(password))))
    {
      users.AddUser(username, password);
    }

    method DeleteUser(username: seq<Byte>)
      requires users.Valid()
      modifies users, users.cells
      ensures users.Valid()
      ensures View() == old(View()).(users := Delete(old(View()).users, CString(username)))
    {
      users.DeleteUser(username);
    }

    /** `process_mng_params_request`; `status` is the status that the reply carries. */
    method Process(index: Byte, parser: F.FieldParser) returns (status: Byte)
      requires users.Valid()
      modifies this`authMethod, this`dissectors, users, users.cells
      ensures users.Valid() && (View(), status) == G.Process(index, old(parser.View()), old(View()))
    {
      status := M.STATUS_SUCCEEDED;
      if index == G.ADD_USER {
        if users.count == MAX_USERS {
          status := G.MAX_USERS_REACHED;
        } else {
          var username, password := Field(parser, 1), Field(parser, 3);
          AddUser(username, password);
        }
      } else if index == G.DELETE_USER {
        var username := Field(parser, 1);
        DeleteUser(username);
      } else if index == G.DISABLE_AUTH {
        DisableAuth(G.FirstByte(Field(parser, 0)));
      } else if index == G.DISABLE_DISSECTORS {
        dissectors := G.FirstByte(Field(parser, 0));
      } else {
        status := G.SERVER_ERROR;
      }
    }

    static function Field(parser: F.FieldParser, k: nat): (r: seq<Byte>)
      reads parser, parser.steps
      ensures r == G.Field(parser.View(), k)
    {
      if k < parser.steps.Length then parser.steps[k].result else []
    }
  }

  class ManagerSession {
    const session: Session
    var parser: F.FieldParser
    var index: Byte

    /** The request's parser is not one of the parsers of the stages before. */
    ghost predicate Valid()
      reads this, session, session.rb, session.rb.data, session.wb, session.wb.data
      reads session.request, session.request.address, session.request.host, session.request.destPort
    {
      session.Valid() && parser != session.auth && parser.steps != session.auth.steps
    }

    ghost predicate Registered(s: Selector)
      reads session, s, s.fds
    {
      session.Registered(s)
    }

    ghost function View(s: Selector): G.Manager
      requires Valid() && Registered(s)
      reads this, session, session.rb, session.rb.data, session.wb, session.wb.data
      reads session.hello, session.auth, session.auth.steps, parser, parser.steps
      reads session.request, session.request.address, session.request.host, session.request.destPort
      reads s, s.fds
    {
      G.Manager(session.View(), s.Table()[session.clientFd].interest, parser.View(), index)
    }

    /** `mng_new`. */
    constructor (clientFd: int)
      ensures session.Valid() && Valid() && session.View() == G.NewManager(clientFd).conn
      ensures parser.View() == G.NewManager(clientFd).parser && index == 0 && session.clientFd == clientFd
    {
      session := new Session(clientFd, false);
      parser := new F.FieldParser([]);
      index := 0;
    }

    /** A reply of which `room` bytes have to fit, and the wait for the client to take it. */
    method Reply(s: Selector, bytes: seq<Byte>, room: nat)
      requires Valid() && Registered(s) && |bytes| <= room
      modifies session.wb, session.wb.data, s, s.fds
      ensures Valid() && Registered(s) && View(s) == G.Reply(old(View(s)), bytes, room)
    {
      ghost var m := View(s);
      var n := session.wb.WriteWindow();
      if n >= room {
        var fits := session.Queue(bytes);
      }
      assert View(s) == m.(conn := session.View());
      Watch(s, WRITE);
    }

    method Watch(s: Selector, i: Interest)
      requires Valid() && Registered(s)
      modifies s, s.fds
      ensures Valid() && Registered(s) && View(s) == old(View(s)).(client := i)
    {
      var ok := session.WatchClient(s, i);
    }

    /** `recv` and `consume`. */
    method Consume(s: Selector, chunk: seq<Byte>) returns (st: F.Phase)
      requires Valid() && Registered(s) && |chunk| <= session.rb.View().Room()
      modifies session`input, session.rb, session.rb.data, parser, parser.steps
      ensures Valid() && Registered(s) && View(s) == G.Consumed(old(View(s)), chunk) && st == parser.current
    {
      ghost var m := View(s);
      session.Receive(chunk);
      assert View(s) == m.(conn := m.conn.(rb := m.conn.rb.Append(chunk), input := m.conn.input + chunk));
      st := TakeBytes(s);
    }

    /** `consume` on the bytes in the read buffer. */
    method TakeBytes(s: Selector) returns (st: F.Phase)
      requires Valid() && Registered(s)
      modifies session.rb, session.rb.data, parser, parser.steps
      ensures Valid() && Registered(s) && st == parser.current
      ensures var m := old(View(s));
              var (p, n) := Feeding.Consume(F.Feed, F.Stops, m.parser, m.conn.rb.bytes);
              View(s) == m.(conn := m.conn.(rb := m.conn.rb.Advance(n)), parser := p)
    {
      ghost var m := View(s);
      ghost var r := Feeding.Consume(F.Feed, F.Stops, m.parser, m.conn.rb.bytes);
      st := parser.ConsumeFrom(session.rb);
      assert parser.View() == r.0 && session.rb.View() == m.conn.rb.Advance(r.1);
      assert session.View() == m.conn.(rb := m.conn.rb.Advance(r.1));
    }

    /** The parameters have been read: the server changes as they ask, and says so. */
    method Perform(s: Selector, config: Configuration)
      requires Valid() && Registered(s) && config.users.Valid()
      modifies session.wb, session.wb.data, s, s.fds
      modifies config`authMethod, config`dissectors, config.users, config.users.cells
      ensures Valid() && Registered(s) && config.users.Valid()
      ensures var m := old(View(s));
              var (settings, status) := G.Process(m.index, m.parser, old(config.View()));
              View(s) == G.Reply(m, [status], 1) && config.View() == settings
    {
      ghost var m := View(s);
      var status := config.Process(index, parser);
      assert View(s) == m;
      ghost var settings := config.View();
      Reply(s, [status], 1);
      assert config.View() == settings;
    }

    /** `mng_request_read`. */
    method ReadRequest(s: Selector, recv: Option<seq<Byte>>, config: Configuration) returns (next: nat)
      requires Valid() && Registered(s) && config.users.Valid()
      requires recv.Some? ==> |recv.value| <= session.rb.View().Room()
      modifies session`input, session.rb, session.rb.data, session.wb, session.wb.data, parser, parser.steps, s, s.fds
      modifies config`authMethod, config`dissectors, config.users, config.users.cells
      ensures Valid() && Registered(s) && config.users.Valid()
      ensures G.ReadRequest(old(View(s)), recv, old(config.View())) == G.Goes(View(s), next, config.View())
    {
      if recv.None? {
        return MNG_ERROR;
      }
      ghost var settings := config.View();
      var st := Consume(s, recv.value);
      assert config.View() == settings;
      next := Continue(s, st, config);
    }

    /** What `mng_request_read` does with the parser's new state. */
    method Continue(s: Selector, st: F.Phase, config: Configuration) returns (next: nat)
      requires Valid() && Registered(s) && config.users.Valid() && st == parser.current
      modifies session.wb, session.wb.data, s, s.fds
      modifies config`authMethod, config`dissectors, config.users, config.users.cells
      ensures Valid() && Registered(s) && config.users.Valid()
      ensures G.AfterParameters(old(View(s)), old(config.View())) == G.Goes(View(s), next, config.View())
    {
      next := MNG_REQUEST_READ;
      if st == F.ErrorRead {
        Watch(s, WRITE);
        next := MNG_ERROR;
      } else if st == F.DoneRead {
        Perform(s, config);
        next := MNG_REQUEST_WRITE;
      }
    }

    /** `list_users_mng_request_marshall`. */
    method List(s: Selector, users: UserTable) returns (overrun: bool)
      requires Valid() && Registered(s) && users.Valid() && session.wb.View().Room() < M.SIZE_T
      modifies session.wb, session.wb.data, s, s.fds
      ensures Valid() && Registered(s)
      ensures overrun <==> M.Overruns(old(session.wb.View()).Room(), users.Contents())
      ensures var m, b := old(View(s)), old(session.wb.View());
              !overrun ==>
                View(s) == m.(conn := m.conn.(wb := if M.CheckPasses(M.Reserved(b.Room()), users.Contents())
                                                    then b.Append(M.ListReply(users.Contents())) else b), client := WRITE)
    {
      ghost var m := View(s);
      overrun := M.MarshalList(session.wb, users);
      if !overrun {
        assert View(s) == m.(conn := m.conn.(wb := session.wb.View()));
        Watch(s, WRITE);
      }
    }

    /** `process_mng_index`; `overrun` says that the list reply runs past the end of the buffer. */
    method ProcessIndex(s: Selector, config: Configuration, metrics: G.Metrics) returns (next: nat, overrun: bool)
      requires Valid() && Registered(s) && config.users.Valid() && session.wb.View().Room() < M.SIZE_T
      modifies session.wb, session.wb.data, s, s.fds
      ensures Valid() && Registered(s) && config.users.Valid()
      ensures var r := G.ProcessIndex(old(View(s)), config.View(), metrics);
              (overrun <==> r.Overrun?) && (!overrun ==> r == G.Goes(View(s), next, config.View()))
    {
      next, overrun := MNG_REQUEST_WRITE, false;
      if index == G.SUPPORTED_INDEXES {
        Reply(s, G.SUPPORTED_REPLY, 18);
      } else if index == G.LIST_USERS {
        overrun := List(s, config.users);
      } else if index < G.ADD_USER {
        Reply(s, M.MetricReply(G.MetricOf(index, metrics)), 5);
      } else if index <= G.DISABLE_DISSECTORS {
        Watch(s, READ);
        next := MNG_REQUEST_READ;
      } else {
        next := MNG_ERROR;
      }
    }

    method SetIndex(s: Selector)
      requires Valid() && Registered(s)
      modifies this`index
      ensures Valid() && Registered(s)
      ensures View(s) == old(View(s)).(index := G.FirstByte(G.Field(old(View(s)).parser, 0)))
    {
      index := G.FirstByte(Configuration.Field(parser, 0));
    }

    /** `mng_request_index_read`. */
    method ReadIndex(s: Selector, recv: Option<seq<Byte>>, config: Configuration, metrics: G.Metrics) returns (next: nat, overrun: bool)
      requires Valid() && Registered(s) && config.users.Valid() && session.wb.View().Room() < M.SIZE_T
      requires recv.Some? ==> |recv.value| <= session.rb.View().Room()
      modifies this`index, session`input, session.rb, session.rb.data, session.wb, session.wb.data, parser, parser.steps, s, s.fds
      ensures Valid() && Registered(s) && config.users.Valid()
      ensures var r := G.ReadIndex(old(View(s)), recv, config.View(), metrics);
              (overrun <==> r.Overrun?) && (!overrun ==> r == G.Goes(View(s), next, config.View()))
    {
      next, overrun := MNG_ERROR, false;
      ReadIndexMeans(View(s), recv, config.View(), metrics);
      var n := session.rb.WriteWindow();
      if n == 0 {
        Reply(s, [G.SERVER_ERROR], 1);
        next := MNG_REQUEST_WRITE;
      } else if recv.Some? {
        next, overrun := TakeIndex(s, recv.value, config, metrics);
      }
    }

    static lemma ReadIndexMeans(m: G.Manager, recv: Option<seq<Byte>>, settings: G.Settings, metrics: G.Metrics)
      requires m.conn.rb.Valid() && m.conn.wb.Valid() && (recv.Some? ==> |recv.value| <= m.conn.rb.Room())
      ensures G.ReadIndex(m, recv, settings, metrics) ==
              if m.conn.rb.Room() == 0 then G.Goes(G.Reply(m, [G.SERVER_ERROR], 1), MNG_REQUEST_WRITE, settings)
              else if recv.None? then G.Goes(m, MNG_ERROR, settings)
              else G.AfterIndex(G.Consumed(m, recv.value), settings, metrics)
    {
    }

    method TakeIndex(s: Selector, chunk: seq<Byte>, config: Configuration, metrics: G.Metrics) returns (next: nat, overrun: bool)
      requires Valid() && Registered(s) && config.users.Valid() && session.wb.View().Room() < M.SIZE_T
      requires |chunk| <= session.rb.View().Room()
      modifies this`index, session`input, session.rb, session.rb.data, session.wb, session.wb.data, parser, parser.steps, s, s.fds
      ensures Valid() && Registered(s) && config.users.Valid()
      ensures var r := G.AfterIndex(G.Consumed(old(View(s)), chunk), config.View(), metrics);
              (overrun <==> r.Overrun?) && (!overrun ==> r == G.Goes(View(s), next, config.View()))
    {
      var st := Consume(s, chunk);
      next, overrun := ContinueIndex(s, st, config, metrics);
    }

    /** What `mng_request_index_read` does with the parser's new state. */
    method ContinueIndex(s: Selector, st: F.Phase, config: Configuration, metrics: G.Metrics) returns (next: nat, overrun: bool)
      requires Valid() && Registered(s) && config.users.Valid() && session.wb.View().Room() < M.SIZE_T && st == parser.current
      modifies this`index, session.wb, session.wb.data, s, s.fds
      ensures Valid() && Registered(s) && config.users.Valid()
      ensures var r := G.AfterIndex(old(View(s)), config.View(), metrics);
              (overrun <==> r.Overrun?) && (!overrun ==> r == G.Goes(View(s), next, config.View()))
    {
      next, overrun := MNG_REQUEST_READ_INDEX, false;
      if st == F.ErrorRead {
        Reply(s, [F.INDEX_NOT_SUPPORTED], 1);
        next := MNG_REQUEST_WRITE;
      } else if st == F.DoneRead {
        SetIndex(s);
        next, overrun := ProcessIndex(s, config, metrics);
      }
    }

    /** `mng_request_write`. */
    method WriteReply(s: Selector, sent: Option<nat>, ghost settings: G.Settings) returns (next: nat)
      requires Valid() && Registered(s) && (sent.Some? ==> sent.value <= |session.wb.View().bytes|)
      modifies session.wb, session.wb.data
      ensures Valid() && Registered(s)
      ensures G.WriteReply(old(View(s)), sent, settings) == G.Goes(View(s), next, settings)
    {
      if sent.None? {
        return MNG_ERROR;
      }
      var more := session.Sent(sent.value);
      next := if more then MNG_REQUEST_WRITE else MNG_DONE;
    }
  }
}
