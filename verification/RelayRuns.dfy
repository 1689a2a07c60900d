/**
 A relayed connection over a whole run of the proxy: what the relay guarantees holds between the client and the
 origin, from the byte behind the client's request on, whatever the other connections do meanwhile.
 */
module RelayRuns {

  import opened Base
  import opened Buffers
  import opened Feeding
  import opened SelectorTable
  import opened StateMachineModule
  import opened ConnectionModule
  import opened ConnectionInvariantModule
  import opened StageTheorems
  import opened WorldModule
  import opened WorldInvariantModule
  import opened ProxyTheorems
  import opened ProtocolTheorems
  import opened RunTheorems
  import R = RequestParserModule
  import D = DissectorModule
  import Relay = RelayModule

  // ----- Events of other connections -----

  lemma AdmittedIn(w: World, fd: int, id: nat)
    requires Linked(w) && PoolOk(w) && Fresh(w, fd) && id in w.conns
    ensures In(w, id).Some? && In(Admitted(w, fd), id) == In(w, id)
  {
    AllocateIsNew(w);
    AdmittedBeside(w, fd, id);
  }

  lemma SameIn(w: World, w2: World, id: nat)
    requires Linked(w) && id in w.conns && w2.conns == w.conns && w2.table == w.table
    ensures In(w, id).Some? && In(w2, id) == In(w, id)
  {
    assert RecordOk(w, id);
  }

  lemma AcceptBesides(w: World, accepted: Option<int>, id: nat)
    requires Linked(w) && PoolOk(w) && (accepted.Some? ==> Fresh(w, accepted.value)) && id in w.conns
    ensures Accept(w, accepted).Continue? && In(w, id).Some? && In(Accept(w, accepted).world, id) == In(w, id)
  {
    if accepted.None? {
      SameIn(w, w, id);
    } else if InvalidFd(accepted.value) {
      RejectedIs(w, accepted.value);
      SameIn(w, Rejected(w), id);
    } else {
      AdmittedIs(w, accepted.value);
      AdmittedIn(w, accepted.value, id);
    }
  }

  /** An event that does not concern a connection leaves it alone. */
  lemma StepBesides(w: World, e: Event, id: nat)
    requires Inv(w) && CanHappen(w, e) && id in w.conns && !Concerns(w, e, id)
    ensures Step(w, e).Continue? && In(w, id).Some? && In(Next(w, e), id) == In(w, id)
  {
    match e
    case ReadyFd(fd, write, env, accepted) =>
      if w.table[fd].handler == SocksHandler {
        EventBesides(w, e, w.table[fd].data, id);
      } else {
        PassiveStep(w, e);
        AcceptBesides(w, accepted, id);
      }
    case Notify(_, _) =>
      JobIsWaitedFor(w);
      EventBesides(w, e, w.table[w.jobs[0]].data, id);
    case _ =>
      assert RecordOk(w, id);
  }

  // ----- A stretch of a run -----

  /** The connection is relaying throughout. */
  ghost predicate StaysRelaying(w: World, es: seq<Event>, id: nat)
    decreases |es|
  {
    && id in w.conns && w.conns[id].current == Some(COPY)
    && (es != [] ==> Step(w, es[0]).Continue? && StaysRelaying(Next(w, es[0]), es[1..], id))
  }

  /** The relay's events among those of the run. */
  ghost function RelayEvents(w: World, es: seq<Event>, id: nat): seq<Relay.Event>
    requires StaysRelaying(w, es, id)
    decreases |es|
  {
    if es == [] then []
    else
      HeadOf(w, es[0], id) + RelayEvents(Next(w, es[0]), es[1..], id)
  }

  /** What the dissector hears: the bytes from both sides, in the order they arrive. */
  function Heard(rs: seq<Relay.Event>): seq<Byte> {
    if rs == [] then [] else HeardIn(rs[0]) + Heard(rs[1..])
  }

  function HeardIn(e: Relay.Event): seq<Byte> {
    if e.Recv? && e.data.Some? then e.data.value else []
  }

  /** The relay of a connection, and what else a relay changes. */
  ghost predicate Relayed(b: Bundle, rs: seq<Relay.Event>, b2: Bundle)
    requires b.origin.Some?
  {
    && b2.origin.Some? && Relay.IsRun(RelayOf(b), rs) && RelayOf(b2) == Relay.Run(RelayOf(b), rs)
    && b2.conn.dissector == FeedAll(D.Feed, b.conn.dissector, Heard(rs))
    && b2.conn.input == b.conn.input + Relay.Input(rs, Relay.Client)
  }

  lemma RelayedNothing(b: Bundle)
    requires b.origin.Some?
    ensures Relayed(b, [], b)
  {
    assert b.conn.input + [] == b.conn.input;
  }

  lemma RelayedOneMore(b: Bundle, e: Relay.Event, b1: Bundle, rs: seq<Relay.Event>, b2: Bundle)
    requires b.origin.Some? && b.conn.rb.Valid() && b.conn.wb.Valid() && Relay.Enabled(RelayOf(b), e)
    requires RelayOutcome(b, e, Some(b1)) && Relayed(b1, rs, b2)
    ensures Relayed(b, [e] + rs, b2)
  {
    assert ([e] + rs)[1..] == rs;
    HeardOneMore(b.conn.dissector, e, rs);
    ReceivedOneMore(b.conn.input, e, rs);
  }

  lemma HeardOneMore(d: D.Dissector, e: Relay.Event, rs: seq<Relay.Event>)
    ensures FeedAll(D.Feed, d, Heard([e] + rs)) == FeedAll(D.Feed, FeedAll(D.Feed, d, HeardIn(e)), Heard(rs))
  {
    assert ([e] + rs)[1..] == rs;
    FeedAllConcat(D.Feed, d, HeardIn(e), Heard(rs));
  }

  lemma ReceivedOneMore(input: seq<Byte>, e: Relay.Event, rs: seq<Relay.Event>)
    ensures input + Relay.Input([e] + rs, Relay.Client)
            == (input + (if e.side.Client? then HeardIn(e) else [])) + Relay.Input(rs, Relay.Client)
  {
    assert ([e] + rs)[1..] == rs;
    assert Relay.Received(e, Relay.Client) == if e.side.Client? then HeardIn(e) else [];
  }

  /** One event of the run, seen from the relay. */
  ghost function HeadOf(w: World, e: Event, id: nat): seq<Relay.Event>
    requires id in w.conns
  {
    if Concerns(w, e, id) && e.ReadyFd? then [RelayEventOf(w, e, id)] else []
  }

  /** The connection's own event is the relay's. */
  lemma OwnEvent(w: World, e: Event, id: nat, rs: seq<Relay.Event>, b2: Bundle)
    requires Inv(w) && CanHappen(w, e) && id in w.conns && w.conns[id].current == Some(COPY) && Concerns(w, e, id)
    requires Step(w, e).Continue? && In(Next(w, e), id).Some? && In(Next(w, e), id).value.origin.Some?
    requires Relayed(In(Next(w, e), id).value, rs, b2)
    ensures In(w, id).Some? && In(w, id).value.origin.Some? && Relayed(In(w, id).value, HeadOf(w, e, id) + rs, b2)
  {
    RelayEventHandled(w, e, id);
    RelayedOneMore(In(w, id).value, RelayEventOf(w, e, id), In(Next(w, e), id).value, rs, b2);
  }

  /** Any other event is nothing to it. */
  lemma OtherEvent(w: World, e: Event, id: nat, rs: seq<Relay.Event>, b: Option<Bundle>, b2: Bundle)
    requires id in w.conns && !Concerns(w, e, id)
    requires b.Some? && b.value.origin.Some? && Relayed(b.value, rs, b2)
    ensures Relayed(b.value, HeadOf(w, e, id) + rs, b2)
  {
    assert [] + rs == rs;
  }

  lemma RunHead(w: World, es: seq<Event>, id: nat)
    requires es != [] && IsRun(w, es) && StaysRelaying(w, es, id)
    ensures CanHappen(w, es[0]) && Step(w, es[0]).Continue? && IsRun(Next(w, es[0]), es[1..])
    ensures StaysRelaying(Next(w, es[0]), es[1..], id) && Run(w, es) == Run(Next(w, es[0]), es[1..])
    ensures RelayEvents(w, es, id) == HeadOf(w, es[0], id) + RelayEvents(Next(w, es[0]), es[1..], id)
  {
  }

  /** The stretch of the run is a run of the relay. */
  ghost predicate RelaysAlong(w: World, es: seq<Event>, id: nat)
    requires StaysRelaying(w, es, id)
  {
    && Run(w, es).Continue? && In(w, id).Some? && In(Run(w, es).world, id).Some? && In(w, id).value.origin.Some?
    && Relayed(In(w, id).value, RelayEvents(w, es, id), In(Run(w, es).world, id).value)
  }

  lemma RelayNothing(w: World, id: nat)
    requires Inv(w) && StaysRelaying(w, [], id)
    ensures RelaysAlong(w, [], id)
  {
    RelayingIsRelay(w, id);
    RelayedNothing(In(w, id).value);
  }

  lemma RelayOneMore(w: World, es: seq<Event>, id: nat)
    requires es != [] && Inv(w) && IsRun(w, es) && StaysRelaying(w, es, id)
    requires Step(w, es[0]).Continue? && StaysRelaying(Next(w, es[0]), es[1..], id) && RelaysAlong(Next(w, es[0]), es[1..], id)
    ensures RelaysAlong(w, es, id)
  {
    var e := es[0];
    RunHead(w, es, id);
    var b2 := In(Run(w, es).world, id).value;
    if Concerns(w, e, id) {
      OwnEvent(w, e, id, RelayEvents(Next(w, e), es[1..], id), b2);
    } else {
      StepBesides(w, e, id);
      OtherEvent(w, e, id, RelayEvents(Next(w, e), es[1..], id), In(Next(w, e), id), b2);
    }
  }

  /** Over any stretch of a run, a relayed connection goes through a run of its relay. */
  lemma {:induction false} RelayRun(w: World, es: seq<Event>, id: nat)
    requires Inv(w) && IsRun(w, es) && StaysRelaying(w, es, id)
    ensures RelaysAlong(w, es, id)
    decreases |es|
  {
    if es == [] {
      RelayNothing(w, id);
    } else {
      StepOk(w, es[0]);
      RelayRun(Next(w, es[0]), es[1..], id);
      RelayOneMore(w, es, id);
    }
  }

  lemma RelayingIsRelay(w: World, id: nat)
    requires Inv(w) && id in w.conns && w.conns[id].current == Some(COPY)
    ensures In(w, id).Some? && In(w, id).value.origin.Some? && Relay.Inv(RelayOf(In(w, id).value))
  {
    assert RecordOk(w, id) && Ok(BundleOf(w, id));
  }

  lemma RelayEventHandled(w: World, e: Event, id: nat)
    requires Inv(w) && CanHappen(w, e) && Concerns(w, e, id) && id in w.conns && w.conns[id].current == Some(COPY)
    ensures e.ReadyFd? && Step(w, e).Continue? && In(w, id).Some?
    ensures var b := In(w, id).value;
            && b.origin.Some? && Relay.Inv(RelayOf(b)) && Relay.Enabled(RelayOf(b), RelayEventOf(w, e, id))
            && RelayOutcome(b, RelayEventOf(w, e, id), In(Next(w, e), id))
  {
    EventHandled(w, e, id);
    RelayingIsRelay(w, id);
    RelayStage(Entering(w, id), SideOf(w.conns[id], FdOf(w, e)), KindOf(e), EnvOf(e), w.users, ResolvedOf(e));
  }

  // ----- From the request to the origin -----

  /** What the origin is sent over a stretch of a run. */
  ghost function SentToOrigin(w: World, es: seq<Event>, id: nat): seq<Byte>
    requires StaysRelaying(w, es, id)
  {
    var b := In(w, id);
    if b.Some? && b.value.origin.Some? && Relay.IsRun(RelayOf(b.value), RelayEvents(w, es, id)) then
      Relay.Output(RelayOf(b.value), RelayEvents(w, es, id), Relay.Origin)
    else []
  }

  /** `s` starts with a request, and `out` is a prefix of what comes behind it. */
  ghost predicate FollowsRequest(s: seq<Byte>, atyp: Byte, out: seq<Byte>) {
    exists r :: RequestMessage(s, r, atyp) && out <= s[|r.Encode()|..]
  }

  /** The request that a connection is being served for, and what follows it. */
  lemma AskedRequest(w: World, id: nat) returns (r: R.Request)
    requires Inv(w) && id in w.conns && w.conns[id].current == Some(REQUEST_WRITE)
    ensures var c := w.conns[id];
            && RequestStart(c) <= |c.input| && RequestMessage(c.input[RequestStart(c)..], r, c.request.atyp)
            && c.rb.bytes == c.input[RequestStart(c)..][|r.Encode()|..]
  {
    assert RecordOk(w, id) && Ok(BundleOf(w, id));
    r := AskedFor(w.conns[id]);
  }

  lemma AskedFor(c: Conn) returns (r: R.Request)
    requires Asked(c) && Tracks(c)
    ensures RequestStart(c) <= |c.input| && RequestMessage(c.input[RequestStart(c)..], r, c.request.atyp)
    ensures c.rb.bytes == c.input[RequestStart(c)..][|r.Encode()|..]
  {
    var s := c.input[RequestStart(c)..];
    R.FinishedRequest(s);
    r := R.RequestOf(c.request, s[2]);
  }

  lemma PrefixBehindRequest(s: seq<Byte>, r: R.Request, atyp: Byte, unread: seq<Byte>, more: seq<Byte>, out: seq<Byte>)
    requires RequestMessage(s, r, atyp) && unread == s[|r.Encode()|..] && out <= unread + more
    ensures FollowsRequest(s + more, atyp, out)
  {
    assert (s + more)[|r.Encode()|..] == unread + more;
    assert RequestMessage(s + more, r, atyp);
  }

  lemma FollowsFrom(c: Conn, r: R.Request, b: Bundle, rs: seq<Relay.Event>, b2: Bundle)
    requires RequestStart(c) <= |c.input| && RequestMessage(c.input[RequestStart(c)..], r, c.request.atyp)
    requires c.rb.bytes == c.input[RequestStart(c)..][|r.Encode()|..]
    requires b.origin.Some? && Relay.Inv(RelayOf(b)) && b.conn.rb == c.rb && b.conn.input == c.input && Relayed(b, rs, b2)
    ensures c.input <= b2.conn.input
    ensures FollowsRequest(b2.conn.input[RequestStart(c)..], c.request.atyp, Relay.Output(RelayOf(b), rs, Relay.Origin))
  {
    var k, extra := RequestStart(c), Relay.Input(rs, Relay.Client);
    Relay.OutputIsPrefix(RelayOf(b), rs, Relay.Client);
    PrefixBehindRequest(c.input[k..], r, c.request.atyp, c.rb.bytes, extra, Relay.Output(RelayOf(b), rs, Relay.Origin));
    DropAppended(c.input, extra, k);
  }

  lemma DropAppended(s: seq<Byte>, more: seq<Byte>, k: nat)
    requires k <= |s|
    ensures s <= s + more && (s + more)[k..] == s[k..] + more
  {
  }

  /** The relay begins with the client's bytes as the reply stage found them. */
  lemma RelayStarts(w: World, e: Event, id: nat)
    requires Inv(w) && CanHappen(w, e) && Concerns(w, e, id) && id in w.conns && w.conns[id].current == Some(REQUEST_WRITE)
    requires Step(w, e).Continue? && id in Next(w, e).conns && Next(w, e).conns[id].current == Some(COPY)
    ensures In(Next(w, e), id).Some?
    ensures var b, c := In(Next(w, e), id).value, w.conns[id];
            b.conn.rb == c.rb && b.conn.input == c.input && b.conn.wb.bytes == []
  {
    EventHandled(w, e, id);
    ReplyStage(Entering(w, id), SideOf(w.conns[id], FdOf(w, e)), KindOf(e), EnvOf(e), w.users, ResolvedOf(e));
  }

  /** The connection has been relayed since `w1`, and `sent` is what its origin has been sent. */
  ghost predicate HasSent(w1: World, more: seq<Event>, id: nat, c2: Conn, sent: seq<Byte>) {
    && StaysRelaying(w1, more, id) && Run(w1, more).Continue? && id in Run(w1, more).world.conns
    && c2 == Run(w1, more).world.conns[id] && sent == SentToOrigin(w1, more, id)
  }

  /**
   What the origin is sent is, in order and without a gap, what the client has sent behind its request, from the
   moment the relay starts with the reply delivered in full.
   */
  lemma OriginGetsWhatFollowsRequest(w0: World, es: seq<Event>, w: World, e: Event, id: nat, more: seq<Event>)
    returns (c2: Conn, sent: seq<Byte>)
    requires Happens(w0, es, w, e, id, REQUEST_WRITE) && Step(w, e).Continue?
    requires IsRun(Next(w, e), more) && StaysRelaying(Next(w, e), more, id)
    ensures HasSent(Next(w, e), more, id, c2, sent)
    ensures var c := w.conns[id];
            && c.input <= c2.input && RequestStart(c) <= |c.input|
            && FollowsRequest(c2.input[RequestStart(c)..], c.request.atyp, sent)
  {
    ReachedInv(w0, es, w);
    StepOk(w, e);
    RelayStarts(w, e, id);
    RelayRun(Next(w, e), more, id);
    RelayingIsRelay(Next(w, e), id);
    var r := AskedRequest(w, id);
    var b, b2 := In(Next(w, e), id).value, In(Run(Next(w, e), more).world, id).value;
    FollowsFrom(w.conns[id], r, b, RelayEvents(Next(w, e), more, id), b2);
    c2, sent := b2.conn, SentToOrigin(Next(w, e), more, id);
  }
}
