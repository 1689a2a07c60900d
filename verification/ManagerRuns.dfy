/**
 What every run of the management server shows its clients: what each index is answered with, byte by byte, what
 each request with parameters changes, and that the stages shared with the proxy do the same here.
 */
module ManagerRuns {

  import opened Base
  import opened Feeding
  import opened SelectorTable
  import opened StateMachineModule
  import opened UsersModule
  import opened ConnectionModule
  import opened ConnectionInvariantModule
  import opened StageTheorems
  import opened ManagerModule
  import opened ManagerTheorems
  import W = WorldModule
  import P = ProtocolTheorems
  import F = FieldParserModule
  import M = ManagementModule

  // ----- One event of one connection -----

  function KindOf(write: bool): Kind {
    if write then WriteEvent else ReadEvent
  }

  /** What becomes of a connection: nothing, when it ends. */
  function Remains(r: Reaction): Option<Manager>
    requires r.Goes?
  {
    if r.next == MNG_DONE || r.next == MNG_ERROR then None else MoveTo(r.manager, r.next)
  }

  /** The connection at a descriptor, if there is one. */
  function At(w: Server, fd: int): Option<Manager> {
    if fd in w.conns then Some(w.conns[fd]) else None
  }

  /** The server after an event. */
  function Next(w: Server, e: Event): Server
    requires Step(w, e).Continue?
  {
    Step(w, e).server
  }

  /** The event reaches the handler of the connection's state, and only that connection is changed by it. */
  lemma EventHandled(w: Server, e: Event)
    requires Inv(w) && CanHappen(w, e) && e.Ready?
    ensures var m, kind := Entered(w.conns[e.fd]), KindOf(e.write);
            && ManagerOk(m, w.admins) && m.conn.current == Some(StateOf(w.conns[e.fd].conn))
            && Armed(m, kind) && Fits(m, kind, e.answer) && Reactable(m, kind, e.answer)
            && var r := Respond(m, kind, e.answer, w.admins, w.settings, e.metrics);
               && (Step(w, e).Fault? <==> r.Overrun?)
               && (Step(w, e).Continue? ==>
                     && At(Next(w, e), e.fd) == Remains(r) && Next(w, e).settings == r.settings
                     && Next(w, e).admins == w.admins
                     && forall fd :: fd != e.fd ==> At(Next(w, e), fd) == At(w, fd))
  {
    EnteredIsOk(w.conns[e.fd], w.admins);
    var m, kind := Entered(w.conns[e.fd]), KindOf(e.write);
    RespondOk(m, kind, e.answer, w.admins, w.settings, e.metrics);
    HandledBy(w, e.fd, m, Respond(m, kind, e.answer, w.admins, w.settings, e.metrics));
  }

  lemma HandledBy(w: Server, fd: int, m: Manager, r: Reaction)
    requires fd in w.conns && Lands(m, r, w.admins)
    ensures After(w, fd, r).Fault? <==> r.Overrun?
    ensures r.Goes? ==> At(After(w, fd, r).server, fd) == Remains(r) && After(w, fd, r).server.settings == r.settings
                        && After(w, fd, r).server.admins == w.admins
                        && forall other :: other != fd ==> At(After(w, fd, r).server, other) == At(w, other)
  {
  }

  /** After some run, this event can happen, to a connection in this state. */
  ghost predicate Happens(w0: Server, es: seq<Event>, w: Server, e: Event, st: nat) {
    Reaches(w0, es, w) && CanHappen(w, e) && e.Ready? && StateOf(w.conns[e.fd].conn) == st
  }

  // ----- The index -----

  /** These bytes, and nothing else, wait to be sent. */
  predicate Replied(after: Option<Manager>, bytes: seq<Byte>) {
    after.Some? && after.value.conn.current == Some(6) && after.value.client == WRITE && after.value.conn.wb.bytes == bytes
  }

  /** The reply is a metric: status 0, and the value's 32 low bits, least significant byte first. */
  predicate Tells(after: Option<Manager>, value: nat) {
    after.Some? &&
    var reply := after.value.conn.wb.bytes;
    && |reply| == 5 && Replied(after, reply) && reply[0] == 0
    && reply[1] as int + reply[2] as int * 256 + reply[3] as int * 65536 + reply[4] as int * 16777216 == value % 4294967296
    && M.CastUint32(reply) == value % 4294967296
  }

  /** The reply is the list of the table's names: status 0, their number, and each name behind its length. */
  predicate Lists(after: Option<Manager>, t: seq<User>) {
    after.Some? && Replied(after, after.value.conn.wb.bytes) && NamesAll(after.value.conn.wb.bytes, t)
  }

  predicate NamesAll(reply: seq<Byte>, t: seq<User>) {
    && |reply| == 2 + M.NamesLength(t) + |t| && reply[0] == 0 && reply[1] as int == |t|
    && M.DecodeList(reply).Some? && |M.DecodeList(reply).value| == |t|
    && forall k :: 0 <= k < |t| ==> M.DecodeList(reply).value[k] == t[k].name
  }

  /** The list is answered if it passes the size check and fits; when it does not pass, nothing is. */
  predicate ListOutcome(t: seq<User>, after: Option<Manager>) {
    && (M.NamesLength(t) + 2 > 2048 ==> Replied(after, []))
    && (M.NamesLength(t) + 2 <= 2048 && M.Listable(t) && |t| <= 255 ==> Lists(after, t))
  }

  /** What each index leads to. */
  predicate Answered(i: Byte, t: seq<User>, k: Metrics, after: Option<Manager>) {
    && (i == 0 ==> Replied(after, [0, 14, 0, 1, 2, 3, 4, 5, 6, 7, 8, 9, 10, 11, 12, 13]))
    && (i == 1 ==> ListOutcome(t, after))
    && (i == 2 ==> Tells(after, k.historic))
    && (i == 3 ==> Tells(after, k.concurrent))
    && (i == 4 ==> Tells(after, k.maxConcurrent))
    && (i == 5 ==> Tells(after, k.bytesTransferred))
    && (i == 6 ==> Tells(after, k.authAttempts))
    && (i == 7 ==> Tells(after, k.attempts))
    && (i == 8 ==> Tells(after, k.bytesPerRead))
    && (i == 9 ==> Tells(after, k.bytesPerWrite))
    && (10 <= i <= 13 ==> ReadsParameters(after, i))
    && (i > 13 ==> Replied(after, [2]))
  }

  /** The connection waits for the rest of its request. */
  predicate ReadsParameters(after: Option<Manager>, index: Byte) {
    && after.Some? && after.value.conn.current == Some(5) && after.value.client == READ
    && after.value.conn.wb.bytes == [] && after.value.index == index
  }

  /** The byte right behind the credentials is the index, even if it had come with them. */
  predicate IndexOutcome(c: Conn, recv: Option<seq<Byte>>, t: seq<User>, k: Metrics, after: Option<Manager>)
    requires c.rb.Valid()
  {
    if c.rb.Room() == 0 then Replied(after, [1])
    else if recv.None? then after == None
    else
      && c.checked.Some? && LoginEnd(c) < |c.input + recv.value|
      && Answered((c.input + recv.value)[LoginEnd(c)], t, k, after)
  }

  /** A connection whose index has just been read. */
  ghost predicate HasIndex(q: Manager, i: Byte) {
    && q.conn.current == Some(MNG_REQUEST_READ_INDEX) && q.index == i
    && q.conn.wb.Valid() && q.conn.wb.limit == BUFFER_SIZE && q.conn.wb.bytes == []
  }

  lemma RepliesInFull(q: Manager, i: Byte, bytes: seq<Byte>, room: nat, s: Settings)
    requires HasIndex(q, i) && |bytes| <= room <= 2048
    ensures Replied(Remains(Goes(Reply(q, bytes, room), MNG_REQUEST_WRITE, s)), bytes)
  {
    assert [] + bytes == bytes;
  }

  lemma MetricIsTold(q: Manager, i: Byte, v: nat, s: Settings)
    requires HasIndex(q, i)
    ensures Tells(Remains(Goes(Reply(q, M.MetricReply(v), 5), MNG_REQUEST_WRITE, s)), v)
  {
    RepliesInFull(q, i, M.MetricReply(v), 5, s);
    M.MetricRoundTrip(v, []);
    assert M.MetricReply(v) + [] == M.MetricReply(v);
  }

  lemma {:induction false} NamesAre(t: seq<User>)
    ensures |M.Names(t)| == |t| && forall k :: 0 <= k < |t| ==> M.Names(t)[k] == t[k].name
  {
    if t != [] {
      NamesAre(t[1..]);
    }
  }

  lemma ListNamesAll(t: seq<User>)
    requires M.Listable(t) && |t| <= 255
    ensures NamesAll(M.ListReply(t), t)
  {
    M.ListReplyLength(t);
    M.ListRoundTrip(t);
    NamesAre(t);
  }

  lemma ListFitsIff(t: seq<User>)
    ensures M.CheckPasses(M.Reserved(2048), t) <==> M.NamesLength(t) + 2 <= 2048
    ensures M.Overruns(2048, t) <==> M.NamesLength(t) + 2 <= 2048 < M.NamesLength(t) + 2 + |t|
  {
    M.ListReplyFits(2048, t);
  }

  lemma ListIsAnswered(q: Manager, s: Settings, k: Metrics)
    requires HasIndex(q, LIST_USERS) && ProcessIndex(q, s, k).Goes?
    ensures ListOutcome(s.users, Remains(ProcessIndex(q, s, k)))
  {
    var t, bytes := s.users, M.ListReply(s.users);
    ListFitsIff(t);
    assert [] + bytes == bytes;
    if M.Listable(t) && |t| <= 255 {
      ListNamesAll(t);
    }
  }

  lemma IndexAnswered(q: Manager, i: Byte, s: Settings, k: Metrics)
    requires HasIndex(q, i) && i <= 13 && ProcessIndex(q, s, k).Goes?
    ensures Answered(i, s.users, k, Remains(ProcessIndex(q, s, k)))
  {
    if i == 0 {
      RepliesInFull(q, i, SUPPORTED_REPLY, 18, s);
    } else if i == 1 {
      ListIsAnswered(q, s, k);
    } else if i < 10 {
      MetricIsTold(q, i, MetricOf(i, k), s);
    }
  }

  lemma IndexStage(m: Manager, recv: Option<seq<Byte>>, s: Settings, k: Metrics, admins: seq<User>)
    requires ManagerOk(m, admins) && m.conn.current == Some(MNG_REQUEST_READ_INDEX)
    requires recv.Some? ==> 0 < |recv.value| <= m.conn.rb.Room()
    ensures var r := ReadIndex(m, recv, s, k);
            r.Goes? ==> IndexOutcome(m.conn, recv, s.users, k, Remains(r)) && r.settings == s
  {
    if m.conn.rb.Room() == 0 {
      RepliesInFull(m, m.index, [1], 1, s);
    } else if recv.Some? {
      IndexRead(m, recv.value, s, k, admins);
    }
  }

  lemma IndexRead(m: Manager, chunk: seq<Byte>, s: Settings, k: Metrics, admins: seq<User>)
    requires ManagerOk(m, admins) && m.conn.current == Some(MNG_REQUEST_READ_INDEX) && 0 < |chunk| <= m.conn.rb.Room()
    ensures var c, r := m.conn, AfterIndex(Consumed(m, chunk), s, k);
            && c.checked.Some? && LoginEnd(c) < |c.input + chunk|
            && (r.Goes? ==> Answered((c.input + chunk)[LoginEnd(c)], s.users, k, Remains(r)) && r.settings == s)
  {
    var q, i := Consumed(m, chunk), FirstByte(m.conn.rb.bytes + chunk);
    IndexConsumed(m, chunk, admins);
    assert q.conn.input == m.conn.input + chunk;
    if q.parser.current == F.ErrorRead {
      RepliesInFull(q, q.index, [2], 1, s);
    } else if ProcessIndex(q.(index := i), s, k).Goes? {
      IndexAnswered(q.(index := i), i, s, k);
    }
  }

  /** What an administrator's index is answered with. The event faults exactly if a list is asked for that overruns. */
  lemma IndexOverRuns(w0: Server, es: seq<Event>, w: Server, e: Event)
    requires Happens(w0, es, w, e, MNG_REQUEST_READ_INDEX)
    ensures var c := w.conns[e.fd].conn;
            && !e.write && c.rb.Valid()
            && (Step(w, e).Continue? ==>
                  && IndexOutcome(c, e.answer.recv, w.settings.users, e.metrics, At(Next(w, e), e.fd))
                  && Next(w, e).settings == w.settings)
  {
    RunKeeps(w0, es);
    EventHandled(w, e);
    IndexStage(w.conns[e.fd], e.answer.recv, w.settings, e.metrics, w.admins);
  }

  // ----- The parameters -----

  /** `p` starts with a name and a password, each behind its length. */
  predicate PairMessage(p: seq<Byte>, user: seq<Byte>, pass: seq<Byte>) {
    |user| <= 255 && |pass| <= 255 && [|user|] + user + [|pass|] + pass <= p
  }

  /** `p` starts with a name behind its length. */
  predicate NameMessage(p: seq<Byte>, user: seq<Byte>) {
    |user| <= 255 && [|user|] + user <= p
  }

  /** `p` has all that the request needs. */
  ghost predicate Complete(index: Byte, p: seq<Byte>) {
    if index == 10 then exists user, pass :: PairMessage(p, user, pass)
    else if index == 11 then exists user :: NameMessage(p, user)
    else p != []
  }

  /** `t2` is `t` without the first user of this name. */
  predicate Without(t: seq<User>, name: seq<Byte>, t2: seq<User>) {
    if exists k :: 0 <= k < |t| && t[k].name == name then
      exists k :: 0 <= k < |t| && t[k].name == name && t2 == t[..k] + t[k + 1..] && forall j :: 0 <= j < k ==> t[j].name != name
    else t2 == t
  }

  /** What a complete request changes. */
  ghost predicate Changed(index: Byte, p: seq<Byte>, s: Settings, s2: Settings) {
    && (index == 10 ==> forall user, pass :: PairMessage(p, user, pass) ==>
          s2 == s.(users := if |s.users| < 255 then s.users + [User(CString(user), CString(pass))] else s.users))
    && (index == 11 ==> forall user :: NameMessage(p, user) ==>
          Without(s.users, CString(user), s2.users) && s2 == s.(users := s2.users))
    && (index == 12 && p != [] ==> s2 == s.(authMethod := if p[0] == 0 then 2 else 0))
    && (index == 13 && p != [] ==> s2 == s.(dissectors := p[0]))
  }

  /** The parameters are waited for until they are complete, performed at once, and answered with a status. */
  ghost predicate ParametersOutcome(m: Manager, recv: Option<seq<Byte>>, s: Settings, s2: Settings, after: Option<Manager>) {
    if recv.None? then after == None && s2 == s
    else
      && m.conn.checked.Some? && LoginEnd(m.conn) < |m.conn.input| && m.conn.input[LoginEnd(m.conn)] == m.index
      && 10 <= m.index <= 13
      && var p := (m.conn.input + recv.value)[LoginEnd(m.conn) + 1..];
         if Complete(m.index, p) then
           && Replied(after, [if m.index == 10 && |s.users| == 255 then 3 else 0])
           && Changed(m.index, p, s, s2)
         else ReadsParameters(after, m.index) && s2 == s
  }

  /** A message of the layout of this request, and what it says. */
  predicate Says(index: Byte, vals: seq<seq<Byte>>, p: seq<Byte>) {
    if index == 10 then |vals| == 2 && PairMessage(p, vals[0], vals[1])
    else if index == 11 then |vals| == 1 && NameMessage(p, vals[0])
    else |vals| == 1 && p != [] && vals[0] == [p[0]]
  }

  lemma LayoutMeans(index: Byte, vals: seq<seq<Byte>>, p: seq<Byte>)
    requires TakesParameters(index) && F.Accepted(FieldsOf(index), vals) && F.Encode(FieldsOf(index), vals) <= p
    ensures Says(index, vals, p)
  {
    if index == 10 {
      F.PairIsFields(vals[0], vals[1]);
      assert vals == [vals[0], vals[1]];
    } else {
      OneFieldMeans(FieldsOf(index)[0], vals, p);
    }
  }

  lemma OneFieldMeans(f: F.Field, vals: seq<seq<Byte>>, p: seq<Byte>)
    requires F.Accepted([f], vals) && F.Encode([f], vals) <= p
    ensures |vals| == 1 && f.Accepts(vals[0]) && f.Encode(vals[0]) <= p
  {
    F.FieldInFront(f, [], vals[0], []);
    assert [f] == [f] + [] && vals == [vals[0]] + [];
  }

  lemma MessageHasLayout(index: Byte, p: seq<Byte>) returns (vals: seq<seq<Byte>>)
    requires TakesParameters(index) && Complete(index, p)
    ensures F.Accepted(FieldsOf(index), vals) && F.Encode(FieldsOf(index), vals) <= p
  {
    if index == 10 {
      var user, pass :| PairMessage(p, user, pass);
      vals := [user, pass];
      F.PairIsFields(user, pass);
    } else {
      if index == 11 {
        var user :| NameMessage(p, user);
        vals := [user];
      } else {
        vals := [[p[0]]];
      }
      F.FieldInFront(FieldsOf(index)[0], [], vals[0], []);
      assert FieldsOf(index) == [FieldsOf(index)[0]] + [] && vals == [vals[0]] + [];
    }
  }

  /** The parser of the request finishes exactly on a complete one, and never fails. */
  lemma ParametersStop(index: Byte, p: seq<Byte>)
    requires TakesParameters(index)
    ensures var q := Consume(F.Feed, F.Stops, F.Start(FieldsOf(index)), p).0;
            (q.current == F.DoneRead <==> Complete(index, p)) && q.current != F.ErrorRead
  {
    FieldsArePositive(index);
    F.DoneIffMessage(FieldsOf(index), p);
    if Complete(index, p) {
      var vals := MessageHasLayout(index, p);
    }
    if vals :| F.Accepted(FieldsOf(index), vals) && F.Encode(FieldsOf(index), vals) <= p {
      LayoutMeans(index, vals, p);
    }
    if index <= 11 {
      F.PrefixedNeverFails([], FieldsOf(index), p);
    } else if p != [] {
      assert F.Start(FieldsOf(index)).steps == [F.Step(F.LongRead, 1, 1, [], F.NoCheck)];
    }
  }

  /** What a message asks for is what the server does. */
  lemma PerformedIsChanged(index: Byte, vals: seq<seq<Byte>>, p: seq<Byte>, s: Settings)
    requires TakesParameters(index) && F.Accepted(FieldsOf(index), vals) && F.Encode(FieldsOf(index), vals) <= p
    ensures Changed(index, p, s, Performed(index, vals, s))
  {
    LayoutMeans(index, vals, p);
    if index == 10 {
      forall user, pass | PairMessage(p, user, pass)
        ensures user == vals[0] && pass == vals[1]
      {
        PairIsOne(p, user, pass, vals[0], vals[1]);
      }
    } else if index == 11 {
      forall user | NameMessage(p, user)
        ensures user == vals[0]
      {
        NameIsOne(p, user, vals[0]);
      }
      DeletedIsWithout(s.users, CString(vals[0]));
    }
  }

  lemma NameIsOne(p: seq<Byte>, u: seq<Byte>, v: seq<Byte>)
    requires NameMessage(p, u) && NameMessage(p, v)
    ensures u == v
  {
    assert p[0] == |u| && p[0] == |v|;
    assert u == p[1..1 + |u|] && v == p[1..1 + |v|];
  }

  lemma PairIsOne(p: seq<Byte>, u: seq<Byte>, x: seq<Byte>, v: seq<Byte>, y: seq<Byte>)
    requires PairMessage(p, u, x) && PairMessage(p, v, y)
    ensures u == v && x == y
  {
    assert [|u|] + u <= [|u|] + u + [|x|] + x;
    assert [|v|] + v <= [|v|] + v + [|y|] + y;
    NameIsOne(p, u, v);
    var q := p[1 + |u|..];
    assert [|x|] + x <= q && [|y|] + y <= q;
    NameIsOne(q, x, y);
  }

  lemma DeletedIsWithout(t: seq<User>, name: seq<Byte>)
    ensures Without(t, name, Delete(t, name))
  {
    DeleteRemovesOne(t, name);
    var k := FirstNamed(t, name);
    if j :| 0 <= j < |t| && t[j].name == name {
      assert t[k].name == name;
    }
  }

  /** The parameters so far, and what the parser makes of them. */
  lemma ParametersRead(m: Manager, chunk: seq<Byte>, admins: seq<User>)
    requires ManagerOk(m, admins) && m.conn.current == Some(MNG_REQUEST_READ) && |chunk| <= m.conn.rb.Room()
    ensures m.conn.checked.Some? && LoginEnd(m.conn) < |m.conn.input|
    ensures var q, p := Consumed(m, chunk), (m.conn.input + chunk)[LoginEnd(m.conn) + 1..];
            && (q.parser.current == F.DoneRead <==> Complete(m.index, p)) && q.parser.current != F.ErrorRead
  {
    ConsumedKeeps(m, chunk, admins);
    FieldsArePositive(m.index);
    InputBehindIndex(m, chunk);
    var taken := Parameters(m);
    TakesThen(F.Feed, F.Stops, F.Start(FieldsOf(m.index)), taken, m.parser, m.conn.rb.bytes + chunk);
    ParametersStop(m.index, taken + (m.conn.rb.bytes + chunk));
  }

  lemma StatusIs(index: Byte, p: F.Parser, s: Settings)
    requires TakesParameters(index)
    ensures Process(index, p, s).1 == if index == 10 && |s.users| == 255 then 3 else 0
  {
  }

  lemma ParametersStage(m: Manager, recv: Option<seq<Byte>>, s: Settings, admins: seq<User>)
    requires ManagerOk(m, admins) && m.conn.current == Some(MNG_REQUEST_READ)
    requires recv.Some? ==> 0 < |recv.value| <= m.conn.rb.Room()
    ensures var r := ReadRequest(m, recv, s);
            r.Goes? && ParametersOutcome(m, recv, s, r.settings, Remains(r))
  {
    if recv.Some? {
      var q, p := Consumed(m, recv.value), (m.conn.input + recv.value)[LoginEnd(m.conn) + 1..];
      ParametersRead(m, recv.value, admins);
      ConsumedKeeps(m, recv.value, admins);
      CommandConsumed(m, recv.value, admins);
      ParametersAnswered(q, p, s);
    }
  }

  /** What has been consumed is all there is, or a request that is performed and answered. */
  lemma ParametersAnswered(q: Manager, p: seq<Byte>, s: Settings)
    requires q.conn.current == Some(MNG_REQUEST_READ) && TakesParameters(q.index) && q.client == READ
    requires q.conn.wb.Valid() && q.conn.wb.limit == BUFFER_SIZE && q.conn.wb.bytes == []
    requires q.conn.checked.Some? && LoginEnd(q.conn) < |q.conn.input| && p == q.conn.input[LoginEnd(q.conn) + 1..]
    requires q.parser.current == F.DoneRead <==> Complete(q.index, p)
    requires q.parser.current != F.ErrorRead
    requires q.parser.current == F.DoneRead ==> exists vals :: Asks(q, vals)
    ensures var r := AfterParameters(q, s);
            && r.Goes?
            && if Complete(q.index, p) then
                 && Replied(Remains(r), [if q.index == 10 && |s.users| == 255 then 3 else 0])
                 && Changed(q.index, p, s, r.settings)
               else ReadsParameters(Remains(r), q.index) && r.settings == s
  {
    if Complete(q.index, p) {
      var vals :| Asks(q, vals);
      RequestPerformed(q, vals, p, s);
      assert [] + [Process(q.index, q.parser, s).1] == [Process(q.index, q.parser, s).1];
    }
  }

  lemma RequestPerformed(q: Manager, vals: seq<seq<Byte>>, p: seq<Byte>, s: Settings)
    requires Asks(q, vals) && LoginEnd(q.conn) < |q.conn.input| && p == q.conn.input[LoginEnd(q.conn) + 1..]
    ensures var (s2, status) := Process(q.index, q.parser, s);
            Changed(q.index, p, s, s2) && status == if q.index == 10 && |s.users| == 255 then 3 else 0
  {
    ProcessPerforms(q.index, vals, s);
    PerformedIsChanged(q.index, vals, p, s);
    StatusIs(q.index, q.parser, s);
  }

  /** What an administrator's request changes, and the status it is answered with. */
  lemma ParametersOverRuns(w0: Server, es: seq<Event>, w: Server, e: Event)
    requires Happens(w0, es, w, e, MNG_REQUEST_READ)
    ensures !e.write && Step(w, e).Continue?
    ensures ParametersOutcome(w.conns[e.fd], e.answer.recv, w.settings, Next(w, e).settings, At(Next(w, e), e.fd))
  {
    RunKeeps(w0, es);
    EventHandled(w, e);
    ParametersStage(w.conns[e.fd], e.answer.recv, w.settings, w.admins);
  }

  // ----- The reply -----

  /** The reply is sent until nothing is left of it, and that is the end of the connection. */
  predicate SendingOutcome(m: Manager, sent: Option<nat>, after: Option<Manager>) {
    if sent.None? || sent.value >= |m.conn.wb.bytes| then after == None
    else Replied(after, m.conn.wb.bytes[sent.value..])
  }

  /** Once the reply has been sent the connection ends; settings only change with a request's parameters. */
  lemma SendingOverRuns(w0: Server, es: seq<Event>, w: Server, e: Event)
    requires Happens(w0, es, w, e, MNG_REQUEST_WRITE)
    ensures e.write && Step(w, e).Continue? && Next(w, e).settings == w.settings
    ensures SendingOutcome(w.conns[e.fd], e.answer.sent, At(Next(w, e), e.fd))
  {
    RunKeeps(w0, es);
    EventHandled(w, e);
  }

  // ----- The stages shared with the proxy -----

  /** The part of a management connection that the shared stages work on. */
  function SharedPart(after: Option<Manager>): Option<Bundle> {
    if after.Some? then Some(Shared(after.value)) else None
  }

  /** The reaction at a shared stage, and the jump, are those of the proxy, up to the request that the proxy would wait for. */
  lemma SharedReaction(m: Manager, kind: Kind, a: Answer, admins: seq<User>, s: Settings, k: Metrics)
    requires Opening(m, kind, a, admins)
    ensures Reactable(m, kind, a) && W.Reactable(Shared(m), Side.Client, kind, EnvOf(a))
    ensures var r, after := Respond(m, kind, a, admins, s, k), P.AfterOf(Shared(m), Side.Client, kind, EnvOf(a), admins, false);
            && r.Goes? && r.settings == s
            && SharedPart(Remains(r)) ==
               if after.Some? && after.value.conn.current == Some(4)
               then Some(after.value.(conn := after.value.conn.(request := m.conn.request))) else after
  {
    OpeningIsReactable(m, kind, a, admins);
    SharedJump(m, kind, a, admins);
    var (b, next) := React(Shared(m), Side.Client, kind, EnvOf(a), admins, false);
    SharedMove(m.(conn := b.conn, client := b.client), b, next, EnvOf(a), s);
    SharedResponse(m, kind, a, admins, s, k, b, next);
    SharedAfter(Shared(m), kind, EnvOf(a), admins, b, next);
  }

  lemma SharedResponse(m: Manager, kind: Kind, a: Answer, admins: seq<User>, s: Settings, k: Metrics, b: Bundle, next: nat)
    requires Reactable(m, kind, a) && W.Reactable(Shared(m), Side.Client, kind, EnvOf(a)) && m.conn.current.value < 4
    requires React(Shared(m), Side.Client, kind, EnvOf(a), admins, false) == (b, next)
    ensures Respond(m, kind, a, admins, s, k) == Goes(m.(conn := b.conn, client := b.client), Terminal(next), s)
  {
  }

  lemma SharedAfter(b0: Bundle, kind: Kind, env: Env, admins: seq<User>, b: Bundle, next: nat)
    requires W.Reactable(b0, Side.Client, kind, env) && React(b0, Side.Client, kind, env, admins, false) == (b, next)
    requires b.conn.wb.Valid() && (next <= 4 || next == 9 || next == 10)
    ensures P.AfterOf(b0, Side.Client, kind, env, admins, false) == if next > 4 then None else Some(Arrive(b, next, env))
  {
  }

  lemma SharedMove(m1: Manager, b: Bundle, next: nat, env: Env, s: Settings)
    requires b == Shared(m1) && b.conn.wb.Valid() && b.conn.current.Some? && b.conn.current.value < 4
    requires next <= 4 || next == 9 || next == 10
    ensures var rest := Remains(Goes(m1, Terminal(next), s));
            if next > 4 then rest == None
            else SharedPart(rest) ==
                 Some(if next == 4 then Arrive(b, next, env).(conn := Arrive(b, next, env).conn.(request := b.conn.request))
                      else Arrive(b, next, env))
    ensures next <= 4 ==> Arrive(b, next, env).conn.current == Some(next)
  {
  }

  lemma SharedJump(m: Manager, kind: Kind, a: Answer, admins: seq<User>)
    requires Opening(m, kind, a, admins) && W.Reactable(Shared(m), Side.Client, kind, EnvOf(a))
    ensures var (b, next) := React(Shared(m), Side.Client, kind, EnvOf(a), admins, false);
            b.origin == None && b.conn.wb.Valid() && b.conn.current == m.conn.current
            && (next <= 4 || next == 9 || next == 10) && b.conn.request == m.conn.request
  {
    if m.conn.current == Some(HELLO_READ) || m.conn.current == Some(USERPASS_READ) {
      ReadJump(Shared(m), kind, EnvOf(a), admins);
    } else {
      WriteJump(Shared(m), kind, EnvOf(a), admins);
    }
  }

  lemma ReadJump(b0: Bundle, kind: Kind, env: Env, admins: seq<User>)
    requires W.Reactable(b0, Side.Client, kind, env) && b0.origin == None
    requires b0.conn.current == Some(HELLO_READ) || b0.conn.current == Some(USERPASS_READ)
    ensures var (b, next) := React(b0, Side.Client, kind, env, admins, false);
            b.origin == None && b.conn.wb.Valid() && b.conn.current == b0.conn.current
            && (next <= 4 || next == 9 || next == 10) && b.conn.request == b0.conn.request
  {
  }

  lemma WriteJump(b0: Bundle, kind: Kind, env: Env, admins: seq<User>)
    requires W.Reactable(b0, Side.Client, kind, env) && b0.origin == None
    requires b0.conn.current == Some(HELLO_WRITE) || b0.conn.current == Some(USERPASS_WRITE)
    ensures var (b, next) := React(b0, Side.Client, kind, env, admins, false);
            b.origin == None && b.conn.wb.Valid() && b.conn.current == b0.conn.current
            && (next <= 4 || next == 9 || next == 10) && b.conn.request == b0.conn.request
  {
  }

  /** The event handles a shared stage, and no setting changes. */
  lemma SharedHandled(w: Server, e: Event)
    requires Inv(w) && CanHappen(w, e) && e.Ready? && StateOf(w.conns[e.fd].conn) < 4
    ensures var m, kind, env := Entered(w.conns[e.fd]), KindOf(e.write), EnvOf(e.answer);
            && P.Arrives(Shared(m), Side.Client, kind, env, StateOf(w.conns[e.fd].conn))
            && Step(w, e).Continue? && Next(w, e).settings == w.settings
            && var after := P.AfterOf(Shared(m), Side.Client, kind, env, w.admins, false);
               SharedPart(At(Next(w, e), e.fd)) ==
               if after.Some? && after.value.conn.current == Some(4)
               then Some(after.value.(conn := after.value.conn.(request := m.conn.request))) else after
  {
    EventHandled(w, e);
    var m, kind := Entered(w.conns[e.fd]), KindOf(e.write);
    OpeningIsReactable(m, kind, e.answer, w.admins);
    SharedReaction(m, kind, e.answer, w.admins, w.settings, e.metrics);
  }

  /** The opening is answered with version 1, and with user name and password whenever the client offers them. */
  lemma OpeningOverRuns(w0: Server, es: seq<Event>, w: Server, e: Event)
    requires Happens(w0, es, w, e, HELLO_READ)
    ensures !e.write && Step(w, e).Continue? && Next(w, e).settings == w.settings
    ensures OpeningOutcome(w.conns[e.fd].conn.input, 1, 2, e.answer.recv, SharedPart(At(Next(w, e), e.fd)))
  {
    RunKeeps(w0, es);
    SharedHandled(w, e);
    P.OpeningStage(Shared(Entered(w.conns[e.fd])), Side.Client, KindOf(e.write), EnvOf(e.answer), w.admins, false);
  }

  lemma MethodOverRuns(w0: Server, es: seq<Event>, w: Server, e: Event)
    requires Happens(w0, es, w, e, HELLO_WRITE)
    ensures e.write && Step(w, e).Continue? && Next(w, e).settings == w.settings
    ensures MethodOutcome(w.conns[e.fd].conn, e.answer.sent, SharedPart(At(Next(w, e), e.fd)))
  {
    RunKeeps(w0, es);
    SharedHandled(w, e);
    P.MethodStage(Shared(Entered(w.conns[e.fd])), Side.Client, KindOf(e.write), EnvOf(e.answer), w.admins, false);
  }

  /** Credentials are checked against the administrators. */
  lemma CredentialsOverRuns(w0: Server, es: seq<Event>, w: Server, e: Event)
    requires Happens(w0, es, w, e, USERPASS_READ)
    ensures !e.write && Step(w, e).Continue? && Next(w, e).settings == w.settings && w.admins == w0.admins
    ensures CredentialsOutcome(w.conns[e.fd].conn, e.answer.recv, w.admins, SharedPart(At(Next(w, e), e.fd)))
  {
    RunKeeps(w0, es);
    SharedHandled(w, e);
    P.CredentialsStage(Shared(Entered(w.conns[e.fd])), Side.Client, KindOf(e.write), EnvOf(e.answer), w.admins, false);
  }

  lemma VerdictOverRuns(w0: Server, es: seq<Event>, w: Server, e: Event)
    requires Happens(w0, es, w, e, USERPASS_WRITE)
    ensures e.write && Step(w, e).Continue? && Next(w, e).settings == w.settings && w.conns[e.fd].conn.wb.Valid()
    ensures VerdictOutcome(w.conns[e.fd].conn, e.answer.sent, SharedPart(At(Next(w, e), e.fd)))
  {
    RunKeeps(w0, es);
    SharedHandled(w, e);
    P.VerdictStage(Shared(Entered(w.conns[e.fd])), Side.Client, KindOf(e.write), EnvOf(e.answer), w.admins, false);
  }

  // ----- The list, over runs -----

  /** A table that can be listed: it fits its array, and its names are C strings whose length fits a byte. */
  predicate CanBeListed(t: seq<User>) {
    |t| <= 255 && M.Listable(t)
  }

  lemma ChangedCanBeListed(index: Byte, vals: seq<seq<Byte>>, s: Settings)
    requires TakesParameters(index) && F.Accepted(FieldsOf(index), vals) && CanBeListed(s.users)
    ensures CanBeListed(Performed(index, vals, s).users)
  {
    if index == DELETE_USER {
      DeleteRemovesOne(s.users, CString(vals[0]));
    } else if index == ADD_USER {
      assert FieldsOf(index)[0] == F.Prefixed && |vals[0]| <= 255;
    }
  }

  lemma StepCanBeListed(w: Server, e: Event)
    requires Inv(w) && CanHappen(w, e) && Step(w, e).Continue? && CanBeListed(w.settings.users)
    ensures CanBeListed(Next(w, e).settings.users)
  {
    if e.Ready? {
      ReadyOk(w, e.fd, e.write, e.answer, e.metrics);
      if Next(w, e).settings != w.settings {
        var m := Next(w, e).conns[e.fd];
        var vals :| Requests(m.conn, m.index, vals) && Next(w, e).settings == Performed(m.index, vals, w.settings);
        ChangedCanBeListed(m.index, vals, w.settings);
      }
    }
  }

  lemma {:induction false} RunCanBeListed(w: Server, es: seq<Event>)
    requires Inv(w) && IsRun(w, es) && Run(w, es).Continue? && CanBeListed(w.settings.users)
    ensures CanBeListed(Run(w, es).server.settings.users)
    decreases |es|
  {
    if es != [] {
      StepOk(w, es[0]);
      StepCanBeListed(w, es[0]);
      RunCanBeListed(Next(w, es[0]), es[1..]);
    }
  }

  /**
   A server that is started with users that can be listed answers a request for the list, whatever has been added
   and deleted since, with the names of its table, in order, as the client's loop reads them, if the names leave room
   for themselves, their lengths and two bytes more; with nothing at all if not even the names and two bytes fit; and
   it runs past its buffer in between.
   */
  lemma ListOverRuns(w0: Server, es: seq<Event>, w: Server, e: Event)
    requires Happens(w0, es, w, e, MNG_REQUEST_READ_INDEX) && CanBeListed(w0.settings.users)
    requires AsksForList(w.conns[e.fd], e.answer.recv)
    ensures var t := w.settings.users;
            && (Step(w, e).Fault? <==> M.NamesLength(t) + 2 <= 2048 < M.NamesLength(t) + 2 + |t|)
            && (M.NamesLength(t) + 2 + |t| <= 2048 ==> Step(w, e).Continue? && Lists(At(Next(w, e), e.fd), t))
            && (M.NamesLength(t) + 2 > 2048 ==> Step(w, e).Continue? && Replied(At(Next(w, e), e.fd), []))
  {
    RunKeeps(w0, es);
    RunCanBeListed(w0, es);
    FaultsIffOverrun(w0, es, w, e);
    M.ListReplyFits(BUFFER_SIZE, w.settings.users);
    IndexOverRuns(w0, es, w, e);
    AskedIndex(w.conns[e.fd], e.answer.recv, w.admins);
  }

  /** The index is the first unread byte. */
  lemma AskedIndex(m: Manager, recv: Option<seq<Byte>>, admins: seq<User>)
    requires ManagerOk(m, admins) && m.conn.current == Some(MNG_REQUEST_READ_INDEX) && AsksForList(m, recv)
    ensures m.conn.checked.Some? && LoginEnd(m.conn) < |m.conn.input + recv.value|
    ensures (m.conn.input + recv.value)[LoginEnd(m.conn)] == 1
  {
    InputSplit(m.conn, recv.value);
  }
}
