/**
 What holds in every reachable state of the proxy, and that no run of it ever faults.
 */
module WorldInvariantModule {

  import opened Base
  import opened SelectorTable
  import opened StateMachineModule
  import opened UsersModule
  import opened ConnectionModule
  import opened ConnectionInvariantModule
  import opened WorldModule

  // ----- Registrations and records -----

  ghost predicate Owns(w: World, id: nat, fd: int) {
    fd in w.table && w.table[fd].handler == SocksHandler && w.table[fd].data == id
  }

  ghost predicate SlotOk(w: World, fd: int)
    requires fd in w.table
  {
    && !InvalidFd(fd)
    && if w.table[fd].handler == PassiveHandler then w.table[fd].interest == READ
       else
         var id := w.table[fd].data;
         id in w.conns && (fd == w.conns[id].clientFd || fd == w.conns[id].originFd)
  }

  ghost predicate RecordOk(w: World, id: nat)
    requires id in w.conns
  {
    && Owns(w, id, w.conns[id].clientFd)
    && (w.conns[id].originFd in w.table ==> Owns(w, id, w.conns[id].originFd))
  }

  /** Every registration is of a live record, which names it; every record finds its own registrations. */
  ghost predicate Linked(w: World) {
    && (forall fd :: fd in w.table ==> SlotOk(w, fd))
    && (forall id :: id in w.conns ==> RecordOk(w, id))
  }

  ghost predicate AllOk(w: World) {
    forall id :: id in w.conns ==> RecordOk(w, id) && Ok(BundleOf(w, id))
  }

  /** Each address ever allocated is in use, pooled or freed, and in only one of these ways. */
  ghost predicate PoolOk(w: World) {
    && (forall i, j :: 0 <= i < j < |w.pool| ==> w.pool[i] != w.pool[j])
    && (forall id: nat :: id < w.next <==> id in w.conns || id in w.pool || id in w.freed)
    && (forall id: nat :: !(id in w.conns && id in w.pool) && !(id in w.conns && id in w.freed) && !(id in w.pool && id in w.freed))
    && |w.pool| <= w.poolSize <= MAX_POOL
  }

  /** The descriptor is a client's whose connection waits for a name. */
  ghost predicate Waiting(w: World, fd: int) {
    && fd in w.table && w.table[fd].handler == SocksHandler && w.table[fd].data in w.conns
    && w.conns[w.table[fd].data].clientFd == fd
    && w.conns[w.table[fd].data].current == Some(REQUEST_RESOLV)
  }

  /** A waiting client has exactly one resolver thread or finished job, and nobody else has any. */
  ghost predicate TicketsOk(w: World) {
    forall fd: int :: (w.resolving + multiset(w.jobs))[fd] == if Waiting(w, fd) then 1 else 0
  }

  /** Counted as concurrent and not yet discounted. */
  predicate Counted(c: Conn) {
    c.current == Some(COPY) || (c.current == Some(REQUEST_WRITE) && c.status == SUCCEEDED)
  }

  /** An attempt whose outcome is not known yet. */
  predicate Attempting(c: Conn) {
    c.current == Some(REQUEST_CONNECTING) && c.status == SUCCEEDED
  }

  function CountedSet(conns: map<nat, Conn>): set<nat> {
    set id | id in conns && Counted(conns[id])
  }

  function AttemptingSet(conns: map<nat, Conn>): set<nat> {
    set id | id in conns && Attempting(conns[id])
  }

  ghost predicate CountersOk(k: Counters, conns: map<nat, Conn>) {
    && k.concurrent + k.closed == k.historic
    && |CountedSet(conns)| <= k.concurrent <= k.maxConcurrent <= k.historic
    && k.historic + |AttemptingSet(conns)| <= k.attempts
  }

  ghost predicate Inv(w: World) {
    && Linked(w) && AllOk(w) && PoolOk(w) && TicketsOk(w) && CountersOk(w.counters, w.conns)
    && KnownMethod(w.authMethod)
  }

  lemma InitialInv(w: World)
    requires Initial(w)
    ensures Inv(w)
  {
    assert CountedSet(w.conns) == {} && AttemptingSet(w.conns) == {};
  }

  // ----- Putting a connection back -----

  /** How a handler may have changed the descriptors of its connection. */
  ghost predicate Moves(w: World, b: Bundle, b': Bundle) {
    && b'.conn.clientFd == b.conn.clientFd
    && if b.origin.Some? then b'.origin.Some? && b'.conn.originFd == b.conn.originFd
       else b'.conn.originFd !in w.table && (b'.origin.Some? ==> Fresh(w, b'.conn.originFd))
  }

  /** Everything but one connection is as it should be; that one is sound and knows its registrations. */
  lemma PutKeepsLinks(w: World, id: nat, b': Bundle)
    requires Linked(w) && id in w.conns && Sound(b') && Moves(w, BundleOf(w, id), b')
    ensures Linked(Put(w, id, b')) && BundleOf(Put(w, id, b'), id) == b'
  {
    var w' := Put(w, id, b');
    var c := w.conns[id];
    forall fd | fd in w'.table
      ensures SlotOk(w', fd)
    {
      if fd in w.table {
        assert SlotOk(w, fd);
      }
    }
    forall i | i in w'.conns
      ensures RecordOk(w', i)
    {
      assert RecordOk(w, i);
    }
  }

  lemma PutKeepsOthers(w: World, id: nat, b': Bundle, other: nat)
    requires Linked(w) && id in w.conns && other in w.conns && other != id
    requires Sound(b') && Moves(w, BundleOf(w, id), b') && Linked(Put(w, id, b'))
    ensures other in Put(w, id, b').conns && BundleOf(Put(w, id, b'), other) == BundleOf(w, other)
  {
    assert RecordOk(w, other) && RecordOk(w, id);
  }

  // ----- One connection reacts -----

  function InterestOf(b: Bundle, side: Side): Interest {
    if side.Client? then b.client else if b.origin.Some? then b.origin.value else NOOP
  }

  /** The selector delivers this event to this side. */
  predicate Armed(b: Bundle, side: Side, kind: Kind) {
    match kind
    case ReadEvent => InterestOf(b, side).read
    case WriteEvent => InterestOf(b, side).write
    case BlockEvent => b.conn.current == Some(REQUEST_RESOLV)
  }

  /** No abort is reachable: a connection between events handles whatever the selector delivers to it. */
  lemma ArmedIsReactable(b: Bundle, side: Side, kind: Kind, env: Env)
    requires Ok(b) && b.conn.current.Some? && Armed(b, side, kind) && Possible(b, side, kind, env)
    ensures Reactable(b, side, kind, env)
  {
    if b.conn.current == Some(COPY) && !kind.BlockEvent? {
      assert RelayOf(b).At(side).armed == InterestOf(b, side);
    }
  }

  lemma ReactOk(b: Bundle, side: Side, kind: Kind, env: Env, table: seq<User>, resolved: bool)
    requires Ok(b) && Armed(b, side, kind) && Reactable(b, side, kind, env)
    requires ConnectAllowed(b, env.connect)
    ensures var (b1, next) := React(b, side, kind, env, table, resolved); Passed(b1, next, env)
  {
    var st := b.conn.current.value;
    if st == HELLO_READ {
      HelloReadOk(b, env.recv, env);
    } else if st == HELLO_WRITE {
      HelloWriteOk(b, env.sent, env);
    } else if st == USERPASS_READ {
      AuthReadOk(b, env.recv, table, env);
    } else if st == USERPASS_WRITE {
      AuthWriteOk(b, env.sent, env);
    } else if st == REQUEST_READ {
      RequestReadOk(b, env.recv, env);
    } else if st == REQUEST_RESOLV {
      ResolvDoneOk(b, resolved, env);
    } else if st == REQUEST_CONNECTING {
      ConnectingWriteOk(b, side, env.soError, env);
    } else if st == REQUEST_WRITE {
      RequestWriteOk(b, env.sent, env);
    } else if kind.ReadEvent? {
      CopyReadOk(b, side, env.recv, env);
    } else {
      CopyWriteOk(b, side, env.sent, env);
    }
  }

  /** A handler touches only its connection's own descriptors. */
  ghost predicate KeepsFds(b: Bundle, b': Bundle, connect: Connect) {
    && b'.conn.clientFd == b.conn.clientFd
    && if b.origin.Some? then b'.origin.Some? && b'.conn.originFd == b.conn.originFd
       else
         && (b'.conn.originFd == b.conn.originFd || b'.conn.originFd == -1 || NewFd(connect) == Some(b'.conn.originFd))
         && (b'.origin.Some? ==> NewFd(connect) == Some(b'.conn.originFd))
  }

  lemma ReactKeepsFds(b: Bundle, side: Side, kind: Kind, env: Env, table: seq<User>, resolved: bool)
    requires Ok(b) && Armed(b, side, kind) && Reactable(b, side, kind, env)
    ensures var (b1, next) := React(b, side, kind, env, table, resolved);
            b1.conn.current == b.conn.current && KeepsFds(b, b1, env.connect)
            && (b1.origin.Some? <==> b.origin.Some?)
  {
    if b.conn.current.value < REQUEST_READ {
      OpeningKeepsFds(b, env, table);
    } else if b.conn.current.value < COPY {
      RequestKeepsFds(b, side, env, resolved);
    }
  }

  /** The same descriptors, the same state. */
  predicate SameFds(b: Bundle, b': Bundle) {
    && b'.conn.current == b.conn.current && b'.conn.clientFd == b.conn.clientFd
    && (b'.origin.Some? <==> b.origin.Some?)
    && (b'.conn.originFd == b.conn.originFd || (b.origin.None? && b'.conn.originFd == -1))
  }

  lemma OpeningKeepsFds(b: Bundle, env: Env, table: seq<User>)
    requires b.conn.rb.Valid() && b.conn.wb.Valid()
    ensures env.recv.Some? ==> |env.recv.value| <= b.conn.rb.Room() ==> SameFds(b, HelloRead(b, env.recv).0)
    ensures env.recv.Some? ==> |env.recv.value| <= b.conn.rb.Room() ==> SameFds(b, AuthRead(b, env.recv, table).0)
    ensures env.recv.None? ==> SameFds(b, HelloRead(b, None).0) && SameFds(b, AuthRead(b, None, table).0)
    ensures env.sent.Some? ==> env.sent.value <= |b.conn.wb.bytes| ==> SameFds(b, HelloWrite(b, env.sent).0)
    ensures env.sent.Some? ==> env.sent.value <= |AuthReply(b.conn).bytes| ==> SameFds(b, AuthWrite(b, env.sent).0)
    ensures env.sent.None? ==> SameFds(b, HelloWrite(b, None).0) && SameFds(b, AuthWrite(b, None).0)
  {
  }

  lemma RequestKeepsFds(b: Bundle, side: Side, env: Env, resolved: bool)
    requires b.conn.rb.Valid() && b.conn.wb.Valid()
    requires b.conn.status != SUCCEEDED && b.conn.current == Some(REQUEST_CONNECTING) ==> b.origin == None
    ensures env.recv.Some? ==> |env.recv.value| <= b.conn.rb.Room() ==> SameFds(b, RequestRead(b, env.recv).0)
    ensures env.recv.None? ==> SameFds(b, RequestRead(b, None).0)
    ensures SameFds(b, ResolvDone(b, resolved).0)
    ensures b.conn.current == Some(REQUEST_CONNECTING) ==> SameFds(b, ConnectingWrite(b, side, env.soError).0)
    ensures env.sent.Some? ==> env.sent.value <= |b.conn.wb.bytes| ==> SameFds(b, RequestWrite(b, env.sent).0)
    ensures env.sent.None? ==> SameFds(b, RequestWrite(b, None).0)
  {
    if b.conn.current == Some(REQUEST_CONNECTING) {
      ConnectingKeepsFds(b, side, env.soError);
    }
  }

  lemma ConnectingKeepsFds(b: Bundle, side: Side, soError: SocketError)
    requires b.conn.wb.Valid() && b.conn.current == Some(REQUEST_CONNECTING)
    requires b.conn.status != SUCCEEDED ==> b.origin == None
    ensures SameFds(b, ConnectingWrite(b, side, soError).0)
  {
  }

  lemma ArriveKeepsFds(b: Bundle, next: nat, env: Env)
    requires b.conn.wb.Valid() && (next == COPY && b.conn.current != Some(COPY) ==> b.origin.Some?)
    requires next == REQUEST_CONNECTING && b.conn.current != Some(REQUEST_CONNECTING) ==> b.origin == None
    ensures KeepsFds(b, Arrive(b, next, env), env.connect)
    ensures Arrive(b, next, env).conn.current == Some(next)
  {
  }

  /** Where a handler can send its connection. */
  predicate Leads(st: nat, next: nat) {
    || Terminal(next)
    || next == st
    || (st == HELLO_READ && next == HELLO_WRITE)
    || (st == HELLO_WRITE && (next == USERPASS_READ || next == REQUEST_READ))
    || (st == USERPASS_READ && next == USERPASS_WRITE)
    || (st == USERPASS_WRITE && next == REQUEST_READ)
    || (st == REQUEST_READ && (next == REQUEST_RESOLV || next == REQUEST_CONNECTING))
    || (st == REQUEST_RESOLV && (next == REQUEST_CONNECTING || next == REQUEST_WRITE))
    || (st == REQUEST_CONNECTING && next == REQUEST_WRITE)
    || (st == REQUEST_WRITE && next == COPY)
  }

  lemma ReactLeads(b: Bundle, side: Side, kind: Kind, env: Env, table: seq<User>, resolved: bool)
    requires Ok(b) && Armed(b, side, kind) && Reactable(b, side, kind, env)
    ensures var st, next := b.conn.current.value, React(b, side, kind, env, table, resolved).1;
            && Leads(st, next)
            && (st == REQUEST_RESOLV || st == REQUEST_CONNECTING ==> next != st)
            && (st == REQUEST_RESOLV ==> kind == BlockEvent && !Terminal(next))
  {
    if b.conn.current.value < REQUEST_READ {
      OpeningLeads(b, side, kind, env, table, resolved);
    } else {
      RequestLeads(b, side, kind, env, table, resolved);
    }
  }

  lemma OpeningLeads(b: Bundle, side: Side, kind: Kind, env: Env, table: seq<User>, resolved: bool)
    requires Ok(b) && Reactable(b, side, kind, env) && b.conn.current.value < REQUEST_READ
    ensures Leads(b.conn.current.value, React(b, side, kind, env, table, resolved).1)
  {
  }

  lemma RequestLeads(b: Bundle, side: Side, kind: Kind, env: Env, table: seq<User>, resolved: bool)
    requires Ok(b) && Reactable(b, side, kind, env) && b.conn.current.value >= REQUEST_READ
    ensures var st, next := b.conn.current.value, React(b, side, kind, env, table, resolved).1;
            && Leads(st, next)
            && (st == REQUEST_RESOLV || st == REQUEST_CONNECTING ==> next != st)
            && (st == REQUEST_RESOLV ==> kind == BlockEvent && !Terminal(next))
  {
  }

  /** Reaching a counted state takes an established connection; being undecided takes an attempt. */
  lemma ArriveCounts(b: Bundle, b1: Bundle, next: nat, side: Side, kind: Kind, env: Env)
    requires b1.conn.wb.Valid() && (next == COPY && b1.conn.current != Some(COPY) ==> b1.origin.Some?)
    requires b.conn.current.Some? && b1.conn.current == b.conn.current && Leads(b.conn.current.value, next)
    requires !env.connect.Immediate?
    requires b.conn.current == Some(REQUEST_CONNECTING) ==> b.conn.wb.Valid() && kind.WriteEvent? && next != REQUEST_CONNECTING
    requires b.conn.current == Some(REQUEST_CONNECTING) ==> (b1, next) == ConnectingWrite(b, side, env.soError)
    requires b.conn.current == Some(REQUEST_RESOLV) && next == REQUEST_WRITE ==> b1.conn.status != SUCCEEDED
    requires b.conn.current == Some(REQUEST_WRITE) ==> b1.conn.status == b.conn.status
    requires next == COPY && b.conn.current == Some(REQUEST_WRITE) ==> b.conn.status == SUCCEEDED
    ensures var c, c' := b.conn, Arrive(b1, next, env).conn;
            && (Counted(c') ==> Counted(c) || Established(b, kind, env))
            && (Attempting(c') ==> c.current != Some(REQUEST_CONNECTING) && next == REQUEST_CONNECTING && Attempts(env.connect))
            && (Established(b, kind, env) ==> Attempting(c) && !Counted(c))
  {
  }

  lemma ReactArrives(b: Bundle, side: Side, kind: Kind, env: Env, table: seq<User>, resolved: bool)
    requires Ok(b) && Armed(b, side, kind) && Reactable(b, side, kind, env) && ConnectAllowed(b, env.connect)
    ensures var (b1, next) := React(b, side, kind, env, table, resolved);
            b1.conn.wb.Valid() && (next == COPY && b1.conn.current != Some(COPY) ==> b1.origin.Some?)
  {
    ReactOk(b, side, kind, env, table, resolved);
  }

  /** Only the outcome of a connection changes its status, and a relay begins only after a success. */
  lemma ReactStatus(b: Bundle, side: Side, kind: Kind, env: Env, table: seq<User>, resolved: bool)
    requires Reactable(b, side, kind, env)
    ensures var (b1, next) := React(b, side, kind, env, table, resolved);
            && (b.conn.current == Some(REQUEST_CONNECTING) ==> (b1, next) == ConnectingWrite(b, side, env.soError))
            && (b.conn.current == Some(REQUEST_RESOLV) && next == REQUEST_WRITE ==> b1.conn.status != SUCCEEDED)
            && (b.conn.current == Some(REQUEST_WRITE) ==> b1.conn.status == b.conn.status)
            && (b.conn.current == Some(REQUEST_WRITE) && next == COPY ==> b.conn.status == SUCCEEDED)
  {
  }

  /** How the sets behind the counters move with one event. */
  lemma ReactCounts(b: Bundle, side: Side, kind: Kind, env: Env, table: seq<User>, resolved: bool)
    requires Ok(b) && Armed(b, side, kind) && Reactable(b, side, kind, env) && ConnectAllowed(b, env.connect)
    ensures var (b1, next) := React(b, side, kind, env, table, resolved);
            && b1.conn.wb.Valid() && (next == COPY && b1.conn.current != Some(COPY) ==> b1.origin.Some?)
            && var c, c' := b.conn, Arrive(b1, next, env).conn;
               && (Counted(c') ==> Counted(c) || Established(b, kind, env))
               && (Attempting(c') ==> c.current != Some(REQUEST_CONNECTING) && next == REQUEST_CONNECTING && Attempts(env.connect))
               && (Established(b, kind, env) ==> Attempting(c) && !Counted(c))
  {
    var (b1, next) := React(b, side, kind, env, table, resolved);
    ReactArrives(b, side, kind, env, table, resolved);
    ReactStatus(b, side, kind, env, table, resolved);
    ReactLeads(b, side, kind, env, table, resolved);
    ReactKeepsFds(b, side, kind, env, table, resolved);
    ArriveCounts(b, b1, next, side, kind, env);
  }

  // ----- Closing a connection -----

  /** What closing a connection should amount to: its registrations are gone, and its record is pooled or freed. */
  function Retired(w: World, id: nat): World
    requires id in w.conns
  {
    var gone := w.(table := w.table - {w.conns[id].clientFd, w.conns[id].originFd}, conns := w.conns - {id});
    if w.poolSize < MAX_POOL then gone.(pool := [id] + w.pool, poolSize := w.poolSize + 1)
    else gone.(freed := w.freed + {id})
  }

  /** `socksv5_done` finds every registration, drops every reference, and releases the record exactly once. */
  lemma FinishRetires(w: World, id: nat)
    requires Linked(w) && id in w.conns && Sound(BundleOf(w, id)) && Closable(BundleOf(w, id))
    ensures Finish(w, id) == Continue(Retired(w, id))
  {
    var c := w.conns[id];
    assert RecordOk(w, id);
    if c.originFd in w.table {
      var w1 := CloseFd(w, c.clientFd).world;
      assert w1.conns - {id} == w.conns - {id};
      assert w.table - {c.clientFd} - {c.originFd} == w.table - {c.clientFd, c.originFd};
    } else {
      assert w.table - {c.clientFd} == w.table - {c.clientFd, c.originFd};
    }
  }

  lemma RetiredKeepsLinks(w: World, id: nat)
    requires Linked(w) && id in w.conns
    ensures Linked(Retired(w, id)) && OthersKept(w, Retired(w, id), id)
  {
    var w' := Retired(w, id);
    assert RecordOk(w, id);
    forall fd | fd in w'.table
      ensures SlotOk(w', fd)
    {
      assert SlotOk(w, fd);
    }
    forall other | other in w'.conns
      ensures RecordOk(w', other) && RecordOk(w, other) && BundleOf(w', other) == BundleOf(w, other)
    {
      assert RecordOk(w, other);
    }
  }

  lemma RetiredKeepsPool(w: World, id: nat)
    requires PoolOk(w) && id in w.conns
    ensures PoolOk(Retired(w, id))
    ensures (id in Retired(w, id).pool || id in Retired(w, id).freed) && id !in w.pool && id !in w.freed
  {
    var w' := Retired(w, id);
    if w.poolSize < MAX_POOL {
      assert forall i :: i in w'.pool <==> i == id || i in w.pool;
    }
  }

  // ----- Counters -----

  lemma SetWith(s: set<nat>, t: set<nat>, id: nat)
    requires t - {id} == s - {id}
    ensures |t| + (if id in s then 1 else 0) == |s| + (if id in t then 1 else 0)
  {
    assert s == (s - {id}) + (if id in s then {id} else {});
    assert t == (t - {id}) + (if id in t then {id} else {});
  }

  lemma CountedMoves(conns: map<nat, Conn>, conns': map<nat, Conn>, id: nat)
    requires conns' - {id} == conns - {id}
    ensures |CountedSet(conns')| + (if id in CountedSet(conns) then 1 else 0)
            == |CountedSet(conns)| + (if id in CountedSet(conns') then 1 else 0)
    ensures |AttemptingSet(conns')| + (if id in AttemptingSet(conns) then 1 else 0)
            == |AttemptingSet(conns)| + (if id in AttemptingSet(conns') then 1 else 0)
  {
    forall i: nat | i != id
      ensures i in conns <==> i in conns'
      ensures i in conns ==> conns[i] == conns'[i]
    {
      assert i in conns <==> i in conns - {id};
      assert i in conns' <==> i in conns' - {id};
      if i in conns {
        assert (conns - {id})[i] == (conns' - {id})[i];
      }
    }
    assert CountedSet(conns') - {id} == CountedSet(conns) - {id};
    assert AttemptingSet(conns') - {id} == AttemptingSet(conns) - {id};
    SetWith(CountedSet(conns), CountedSet(conns'), id);
    SetWith(AttemptingSet(conns), AttemptingSet(conns'), id);
  }

  /** The counters never underflow and stay in step with the connections behind them. */
  lemma CountKeepsCounters(k: Counters, conns: map<nat, Conn>, conns': map<nat, Conn>, id: nat,
                           b: Bundle, kind: Kind, env: Env, next: nat)
    requires CountersOk(k, conns) && id in conns && conns' - {id} == conns - {id}
    requires b.conn.current.Some? && Leads(b.conn.current.value, next)
    requires Counted(conns[id]) <==> Counted(b.conn)
    requires Attempting(conns[id]) <==> Attempting(b.conn)
    requires Established(b, kind, env) ==> Attempting(b.conn) && !Counted(b.conn)
    requires id in conns' ==>
               && (Counted(conns'[id]) ==> Counted(b.conn) || Established(b, kind, env))
               && (Attempting(conns'[id]) ==>
                     b.conn.current != Some(REQUEST_CONNECTING) && next == REQUEST_CONNECTING && Attempts(env.connect))
    requires b.conn.current == Some(COPY) && next == DONE ==> id !in CountedSet(conns')
    requires Attempting(b.conn) ==> id !in AttemptingSet(conns')
    ensures CountersOk(Count(k, b, kind, env, next), conns')
    ensures b.conn.current == Some(COPY) ==> k.concurrent > 0
  {
    CountedMoves(conns, conns', id);
    if b.conn.current == Some(COPY) {
      assert id in CountedSet(conns);
    }
  }

  // ----- One event of a connection -----

  lemma HandleFirstOk(b: Bundle, authMethod: Byte)
    requires Ok(b) && KnownMethod(authMethod)
    ensures var f := HandleFirst(b, authMethod);
            && Ok(f) && f.conn.current == Some(StateOf(b.conn))
            && f.client == b.client && f.origin == b.origin
            && f.conn.clientFd == b.conn.clientFd && f.conn.originFd == b.conn.originFd
            && (Counted(f.conn) <==> Counted(b.conn)) && (Attempting(f.conn) <==> Attempting(b.conn))
  {
    if b.conn.current.None? {
      InHelloRead(HandleFirst(b, authMethod).conn);
    }
  }

  /** The world right after a handler has returned and the jump has been made. */
  function Jumped(w: World, id: nat, b: Bundle, b2: Bundle, kind: Kind, env: Env, next: nat): World
    requires id in w.conns && w.conns[id].clientFd in w.table
  {
    Put(w, id, b2).(
      counters := Count(w.counters, b, kind, env, next),
      resolving := if next == REQUEST_RESOLV && b.conn.current != Some(REQUEST_RESOLV)
                   then w.resolving + multiset{b.conn.clientFd} else w.resolving)
  }

  ghost predicate Structured(w: World) {
    Linked(w) && AllOk(w) && PoolOk(w) && KnownMethod(w.authMethod)
  }

  /** The environment's constraints, seen from one connection. */
  lemma AllowedForConn(w: World, id: nat, env: Env)
    requires Structured(w) && id in w.conns && EnvAllowed(w, env)
    ensures ConnectAllowed(HandleFirst(BundleOf(w, id), w.authMethod), env.connect)
  {
    assert RecordOk(w, id);
  }

  lemma KeptFdsMove(w: World, id: nat, b2: Bundle, env: Env)
    requires Structured(w) && id in w.conns && EnvAllowed(w, env)
    requires KeepsFds(BundleOf(w, id), b2, env.connect)
    ensures Moves(w, BundleOf(w, id), b2)
  {
    assert RecordOk(w, id);
    assert -1 !in w.table;
  }

  /** A handler's result and the jump that follows: where the connection ends up, and what that takes. */
  ghost predicate Lands(b: Bundle, side: Side, kind: Kind, env: Env, table: seq<User>, resolved: bool, b2: Bundle, next: nat)
    requires b.conn.current.Some?
  {
    && Reactable(b, side, kind, env)
    && var (b1, n) := React(b, side, kind, env, table, resolved);
       && n == next
       && b1.conn.wb.Valid() && (next == COPY && b1.conn.current != Some(COPY) ==> b1.origin.Some?)
       && b2 == Arrive(b1, next, env)
       && Leads(b.conn.current.value, next)
       && (b.conn.current == Some(REQUEST_RESOLV) ==> kind == BlockEvent && !Terminal(next) && next != REQUEST_RESOLV)
       && (Counted(b2.conn) ==> Counted(b.conn) || Established(b, kind, env))
       && (Attempting(b2.conn) ==>
             b.conn.current != Some(REQUEST_CONNECTING) && next == REQUEST_CONNECTING && Attempts(env.connect))
       && (Established(b, kind, env) ==> Attempting(b.conn) && !Counted(b.conn))
  }

  lemma JumpKeepsFds(b: Bundle, side: Side, kind: Kind, env: Env, table: seq<User>, resolved: bool)
    requires Ok(b) && Armed(b, side, kind) && Reactable(b, side, kind, env) && ConnectAllowed(b, env.connect)
    ensures var (b1, next) := React(b, side, kind, env, table, resolved);
            && b1.conn.wb.Valid() && (next == COPY && b1.conn.current != Some(COPY) ==> b1.origin.Some?)
            && KeepsFds(b, Arrive(b1, next, env), env.connect) && Arrive(b1, next, env).conn.current == Some(next)
  {
    var (b1, next) := React(b, side, kind, env, table, resolved);
    ReactArrives(b, side, kind, env, table, resolved);
    ReactKeepsFds(b, side, kind, env, table, resolved);
    ReactLeads(b, side, kind, env, table, resolved);
    NoOriginBeforeConnecting(b, b1, next);
    ArriveKeepsFds(b1, next, env);
    KeepsFdsTwice(b, b1, Arrive(b1, next, env), env.connect);
  }

  /** A connection reacts, and ends up sound. */
  lemma BundleReacted(b: Bundle, side: Side, kind: Kind, env: Env, table: seq<User>, resolved: bool) returns (b2: Bundle, next: nat)
    requires Ok(b) && b.conn.current.Some? && Armed(b, side, kind) && Possible(b, side, kind, env)
    requires ConnectAllowed(b, env.connect)
    ensures Lands(b, side, kind, env, table, resolved, b2, next)
    ensures KeepsFds(b, b2, env.connect) && Sound(b2) && b2.conn.current == Some(next)
    ensures if Terminal(next) then Closable(b2) else Ok(b2)
  {
    ArmedIsReactable(b, side, kind, env);
    ReactOk(b, side, kind, env, table, resolved);
    ReactLeads(b, side, kind, env, table, resolved);
    ReactCounts(b, side, kind, env, table, resolved);
    JumpKeepsFds(b, side, kind, env, table, resolved);
    var (b1, n) := React(b, side, kind, env, table, resolved);
    next := n;
    b2 := Arrive(b1, next, env);
    if Terminal(next) {
      assert b2 == b1.(conn := b1.conn.(current := Some(next)));
    }
  }

  /** The same, for a connection of the world. */
  lemma Reacted(w: World, id: nat, side: Side, kind: Kind, env: Env, resolved: bool) returns (b2: Bundle, next: nat)
    requires Structured(w) && id in w.conns && EnvAllowed(w, env)
    requires var b := HandleFirst(BundleOf(w, id), w.authMethod);
             b.conn.current.Some? && Armed(b, side, kind) && Possible(b, side, kind, env)
    ensures Lands(HandleFirst(BundleOf(w, id), w.authMethod), side, kind, env, w.users, resolved, b2, next)
    ensures Moves(w, BundleOf(w, id), b2) && Sound(b2) && b2.conn.current == Some(next)
    ensures if Terminal(next) then Closable(b2) else Ok(b2)
  {
    assert RecordOk(w, id);
    HandleFirstOk(BundleOf(w, id), w.authMethod);
    AllowedForConn(w, id, env);
    b2, next := BundleReacted(HandleFirst(BundleOf(w, id), w.authMethod), side, kind, env, w.users, resolved);
    KeptFdsMove(w, id, b2, env);
  }

  lemma NoOriginBeforeConnecting(b: Bundle, b1: Bundle, next: nat)
    requires Ok(b) && b.conn.current.Some? && b1.conn.current == b.conn.current && (b1.origin.Some? <==> b.origin.Some?)
    requires Leads(b.conn.current.value, next)
    ensures next == REQUEST_CONNECTING && b1.conn.current != Some(REQUEST_CONNECTING) ==> b1.origin == None
  {
  }

  lemma KeepsFdsTwice(b: Bundle, b1: Bundle, b2: Bundle, connect: Connect)
    requires KeepsFds(b, b1, connect) && (b1.origin.Some? <==> b.origin.Some?) && KeepsFds(b1, b2, connect)
    ensures KeepsFds(b, b2, connect)
  {
  }

  lemma JumpedKeepsStructure(w: World, id: nat, b: Bundle, b2: Bundle, kind: Kind, env: Env, next: nat)
    requires Structured(w) && id in w.conns && Moves(w, BundleOf(w, id), b2) && Sound(b2)
    requires b2.conn.current == Some(next) && if Terminal(next) then Closable(b2) else Ok(b2)
    ensures JumpedApart(w, Jumped(w, id, b, b2, kind, env, next), id, b2)
    ensures var w' := Jumped(w, id, b, b2, kind, env, next);
            if Terminal(next) then Finish(w', id) == Continue(Retired(w', id)) && Structured(Retired(w', id))
            else Structured(w')
  {
    var w' := Jumped(w, id, b, b2, kind, env, next);
    JumpedKeepsLinks(w, id, b, b2, kind, env, next);
    if Terminal(next) {
      JumpedRetires(w, w', id, b2);
    } else {
      OthersStayOk(w, w', id);
    }
  }

  lemma JumpedRetires(w: World, w': World, id: nat, b2: Bundle)
    requires AllOk(w) && KnownMethod(w'.authMethod) && JumpedApart(w, w', id, b2) && w'.conns.Keys <= w.conns.Keys
    requires Sound(b2) && Closable(b2)
    ensures Finish(w', id) == Continue(Retired(w', id)) && Structured(Retired(w', id))
  {
    FinishRetires(w', id);
    RetiredKeepsLinks(w', id);
    RetiredKeepsPool(w', id);
    OthersStayOk(w, Retired(w', id), id);
  }

  /** Only the connection `id` has changed, or gone. */
  ghost predicate OthersKept(w: World, w2: World, id: nat) {
    forall other :: other in w.conns && other != id ==>
      RecordOk(w, other) && other in w2.conns && RecordOk(w2, other) && BundleOf(w2, other) == BundleOf(w, other)
  }

  lemma OthersStayOk(w: World, w2: World, id: nat)
    requires AllOk(w) && OthersKept(w, w2, id) && w2.conns.Keys <= w.conns.Keys
    requires id in w2.conns ==> RecordOk(w2, id) && Ok(BundleOf(w2, id))
    ensures AllOk(w2)
  {
    forall other | other in w2.conns
      ensures RecordOk(w2, other) && Ok(BundleOf(w2, other))
    {
      assert other in w.conns.Keys;
      if other != id {
        assert RecordOk(w, other) && Ok(BundleOf(w, other));
      }
    }
  }

  /** `w2` differs from `w` in one connection, which is now `b2`. */
  ghost predicate JumpedApart(w: World, w2: World, id: nat, b2: Bundle) {
    && Linked(w2) && PoolOk(w2) && id in w2.conns && BundleOf(w2, id) == b2 && OthersKept(w, w2, id)
  }

  lemma JumpedKeepsLinks(w: World, id: nat, b: Bundle, b2: Bundle, kind: Kind, env: Env, next: nat)
    requires Linked(w) && PoolOk(w) && id in w.conns && Moves(w, BundleOf(w, id), b2) && Sound(b2)
    ensures JumpedApart(w, Jumped(w, id, b, b2, kind, env, next), id, b2)
  {
    var w' := Jumped(w, id, b, b2, kind, env, next);
    var p := Put(w, id, b2);
    PutKeepsLinks(w, id, b2);
    SameLinks(p, w');
    forall other | other in w.conns && other != id
      ensures RecordOk(w, other) && RecordOk(w', other) && BundleOf(w', other) == BundleOf(w, other)
    {
      assert RecordOk(w, other);
      PutKeepsOthers(w, id, b2, other);
    }
  }

  lemma SameLinks(w: World, w': World)
    requires Linked(w) && w'.table == w.table && w'.conns == w.conns
    ensures Linked(w')
  {
    forall fd | fd in w'.table
      ensures SlotOk(w', fd)
    {
      assert SlotOk(w, fd);
    }
    forall id | id in w'.conns
      ensures RecordOk(w', id)
    {
      assert RecordOk(w, id);
    }
  }

  /** The world after an event: the jumped one, or that with the connection closed. */
  function Settled(w: World, id: nat, b: Bundle, b2: Bundle, kind: Kind, env: Env, next: nat): World
    requires id in w.conns && w.conns[id].clientFd in w.table
  {
    var w' := Jumped(w, id, b, b2, kind, env, next);
    if Terminal(next) then Retired(w', id) else w'
  }

  lemma SettledCounts(w: World, id: nat, b: Bundle, b2: Bundle, kind: Kind, env: Env, next: nat)
    requires CountersOk(w.counters, w.conns) && id in w.conns && w.conns[id].clientFd in w.table
    requires b.conn.current.Some? && Leads(b.conn.current.value, next) && b2.conn.current == Some(next)
    requires (Counted(w.conns[id]) <==> Counted(b.conn)) && (Attempting(w.conns[id]) <==> Attempting(b.conn))
    requires Counted(b2.conn) ==> Counted(b.conn) || Established(b, kind, env)
    requires Attempting(b2.conn) ==>
               b.conn.current != Some(REQUEST_CONNECTING) && next == REQUEST_CONNECTING && Attempts(env.connect)
    requires Established(b, kind, env) ==> Attempting(b.conn) && !Counted(b.conn)
    ensures var s := Settled(w, id, b, b2, kind, env, next); CountersOk(s.counters, s.conns)
    ensures b.conn.current == Some(COPY) ==> w.counters.concurrent > 0
  {
    var conns' := Settled(w, id, b, b2, kind, env, next).conns;
    assert conns' - {id} == w.conns - {id};
    CountKeepsCounters(w.counters, w.conns, conns', id, b, kind, env, next);
  }

  lemma HandleConnIs(w: World, id: nat, side: Side, kind: Kind, env: Env, resolved: bool, b: Bundle, b2: Bundle, next: nat)
    requires id in w.conns && w.conns[id].clientFd in w.table && b == HandleFirst(BundleOf(w, id), w.authMethod)
    requires Reactable(b, side, kind, env)
    requires var (b1, n) := React(b, side, kind, env, w.users, resolved);
             && n == next && b1.conn.wb.Valid() && (next == COPY && b1.conn.current != Some(COPY) ==> b1.origin.Some?)
             && b2 == Arrive(b1, next, env)
    requires b.conn.current == Some(COPY) ==> w.counters.concurrent > 0
    requires var w' := Jumped(w, id, b, b2, kind, env, next);
             Terminal(next) ==> Finish(w', id) == Continue(Retired(w', id))
    ensures HandleConn(w, id, side, kind, env, resolved) == Continue(Settled(w, id, b, b2, kind, env, next))
  {
  }

  /** No event of a connection faults, and everything but the tickets is kept. */
  lemma HandleConnOk(w: World, id: nat, side: Side, kind: Kind, env: Env, resolved: bool) returns (b2: Bundle, next: nat)
    requires Structured(w) && CountersOk(w.counters, w.conns) && id in w.conns && EnvAllowed(w, env)
    requires var b := HandleFirst(BundleOf(w, id), w.authMethod);
             b.conn.current.Some? && Armed(b, side, kind) && Possible(b, side, kind, env)
    ensures var b := HandleFirst(BundleOf(w, id), w.authMethod);
            && Leads(b.conn.current.value, next) && b2.conn.current == Some(next) && b2.conn.clientFd == b.conn.clientFd
            && (b.conn.current == Some(REQUEST_RESOLV) ==> kind == BlockEvent && !Terminal(next) && next != REQUEST_RESOLV)
            && Moves(w, BundleOf(w, id), b2)
            && HandleConn(w, id, side, kind, env, resolved) == Continue(Settled(w, id, b, b2, kind, env, next))
            && Structured(Settled(w, id, b, b2, kind, env, next))
            && (var s := Settled(w, id, b, b2, kind, env, next); CountersOk(s.counters, s.conns))
            && Lands(b, side, kind, env, w.users, resolved, b2, next)
            && JumpedApart(w, Jumped(w, id, b, b2, kind, env, next), id, b2)
  {
    assert RecordOk(w, id);
    var b := HandleFirst(BundleOf(w, id), w.authMethod);
    HandleFirstOk(BundleOf(w, id), w.authMethod);
    b2, next := Reacted(w, id, side, kind, env, resolved);
    SettledCounts(w, id, b, b2, kind, env, next);
    JumpedKeepsStructure(w, id, b, b2, kind, env, next);
    HandleConnIs(w, id, side, kind, env, resolved, b, b2, next);
  }

  // ----- Tickets -----

  /** Tickets are in order for every descriptor but this one, which has none. */
  ghost predicate TicketsOkBut(w: World, skip: int) {
    forall fd: int :: (w.resolving + multiset(w.jobs))[fd] == if Waiting(w, fd) && fd != skip then 1 else 0
  }

  /** Registrations of others, as the event leaves them. */
  lemma SettledBeside(w: World, id: nat, b: Bundle, b2: Bundle, kind: Kind, env: Env, next: nat, fd: int)
    requires id in w.conns && RecordOk(w, id) && Moves(w, BundleOf(w, id), b2)
    requires fd in w.table && (w.table[fd].handler == PassiveHandler || w.table[fd].data != id)
    ensures var s := Settled(w, id, b, b2, kind, env, next);
            && fd in s.table && s.table[fd] == w.table[fd]
            && (w.table[fd].data != id ==>
                  (w.table[fd].data in s.conns <==> w.table[fd].data in w.conns)
                  && (w.table[fd].data in w.conns ==> s.conns[w.table[fd].data] == w.conns[w.table[fd].data]))
  {
  }

  /** Any other descriptor is the connection's own, or not registered. */
  lemma SettledOwn(w: World, id: nat, b: Bundle, b2: Bundle, kind: Kind, env: Env, next: nat, fd: int)
    requires id in w.conns && RecordOk(w, id) && Moves(w, BundleOf(w, id), b2)
    requires fd in w.table ==> w.table[fd].handler == SocksHandler && w.table[fd].data == id
    ensures var s := Settled(w, id, b, b2, kind, env, next);
            fd in s.table ==>
              s.table[fd].handler == SocksHandler && s.table[fd].data == id
              && (id in s.conns ==> s.conns[id].clientFd == w.conns[id].clientFd)
  {
  }

  lemma WaitingElsewhere(w: World, id: nat, b: Bundle, b2: Bundle, kind: Kind, env: Env, next: nat, fd: int)
    requires Linked(w) && id in w.conns && Moves(w, BundleOf(w, id), b2) && b2.conn.current == Some(next)
    requires fd != w.conns[id].clientFd
    ensures Waiting(Settled(w, id, b, b2, kind, env, next), fd) <==> Waiting(w, fd)
  {
    assert RecordOk(w, id);
    if fd in w.table && (w.table[fd].handler == PassiveHandler || w.table[fd].data != id) {
      SettledBeside(w, id, b, b2, kind, env, next, fd);
    } else {
      SettledOwn(w, id, b, b2, kind, env, next, fd);
    }
  }

  lemma WaitingHere(w: World, id: nat, b: Bundle, b2: Bundle, kind: Kind, env: Env, next: nat)
    requires Linked(w) && id in w.conns && Moves(w, BundleOf(w, id), b2) && b2.conn.current == Some(next)
    ensures Waiting(Settled(w, id, b, b2, kind, env, next), w.conns[id].clientFd) <==> next == REQUEST_RESOLV
  {
    assert RecordOk(w, id);
  }

  lemma TicketsSettled(w: World, id: nat, b: Bundle, b2: Bundle, kind: Kind, env: Env, next: nat)
    requires Linked(w) && id in w.conns && Moves(w, BundleOf(w, id), b2) && b2.conn.current == Some(next)
    requires TicketsOkBut(w, w.conns[id].clientFd) && b.conn.clientFd == w.conns[id].clientFd
    requires b.conn.current == Some(REQUEST_RESOLV) ==> next != REQUEST_RESOLV
    ensures TicketsOk(Settled(w, id, b, b2, kind, env, next))
  {
    var s := Settled(w, id, b, b2, kind, env, next);
    var client := w.conns[id].clientFd;
    WaitingHere(w, id, b, b2, kind, env, next);
    forall fd: int
      ensures (s.resolving + multiset(s.jobs))[fd] == if Waiting(s, fd) then 1 else 0
    {
      if fd != client {
        WaitingElsewhere(w, id, b, b2, kind, env, next, fd);
      }
    }
  }

  // ----- Steps -----

  /** An event that the selector delivers arms its side of the connection. */
  lemma WantsIsArmed(w: World, fd: int, write: bool)
    requires Structured(w) && Wants(w.table, fd, write) && w.table[fd].handler == SocksHandler
    ensures var id := w.table[fd].data;
            && id in w.conns && w.conns[id].clientFd in w.table
            && var b := HandleFirst(BundleOf(w, id), w.authMethod);
               && b.conn.current.Some? && Armed(b, SideOf(w.conns[id], fd), if write then WriteEvent else ReadEvent)
               && b.conn.current != Some(REQUEST_RESOLV)
  {
    assert SlotOk(w, fd);
    var id := w.table[fd].data;
    assert RecordOk(w, id);
    HandleFirstOk(BundleOf(w, id), w.authMethod);
  }

  /** An event of a connection, tickets included. */
  lemma ConnEventOk(w: World, id: nat, side: Side, kind: Kind, env: Env, resolved: bool)
    requires Structured(w) && CountersOk(w.counters, w.conns) && id in w.conns && EnvAllowed(w, env)
    requires TicketsOkBut(w, w.conns[id].clientFd)
    requires var b := HandleFirst(BundleOf(w, id), w.authMethod);
             b.conn.current.Some? && Armed(b, side, kind) && Possible(b, side, kind, env)
    ensures var o := HandleConn(w, id, side, kind, env, resolved); o.Continue? && Inv(o.world)
  {
    var b := HandleFirst(BundleOf(w, id), w.authMethod);
    var b2, next := HandleConnOk(w, id, side, kind, env, resolved);
    TicketsSettled(w, id, b, b2, kind, env, next);
  }

  lemma NobodyWaitsHere(w: World, fd: int)
    requires TicketsOk(w) && !Waiting(w, fd)
    ensures TicketsOkBut(w, fd)
  {
  }

  lemma ReadyFdOk(w: World, fd: int, write: bool, env: Env, accepted: Option<int>)
    requires Inv(w) && CanHappen(w, ReadyFd(fd, write, env, accepted)) && w.table[fd].handler == SocksHandler
    ensures var o := Step(w, ReadyFd(fd, write, env, accepted)); o.Continue? && Inv(o.world)
  {
    var id := w.table[fd].data;
    WantsIsArmed(w, fd, write);
    assert RecordOk(w, id);
    NobodyWaitsHere(w, w.conns[id].clientFd);
    ConnEventOk(w, id, SideOf(w.conns[id], fd), if write then WriteEvent else ReadEvent, env, false);
  }

  /** A finished job belongs to a registered client that waits for it. */
  lemma JobIsWaitedFor(w: World)
    requires TicketsOk(w) && w.jobs != []
    ensures Waiting(w, w.jobs[0])
    ensures TicketsOkBut(w.(jobs := w.jobs[1..]), w.jobs[0])
  {
    var w' := w.(jobs := w.jobs[1..]);
    assert w.jobs == [w.jobs[0]] + w.jobs[1..];
    assert multiset(w.jobs) == multiset{w.jobs[0]} + multiset(w'.jobs);
    forall fd: int
      ensures (w'.resolving + multiset(w'.jobs))[fd] == if Waiting(w', fd) && fd != w.jobs[0] then 1 else 0
    {
      assert (w.resolving + multiset(w.jobs))[fd] == (w'.resolving + multiset(w'.jobs))[fd] + (if fd == w.jobs[0] then 1 else 0);
      assert Waiting(w', fd) <==> Waiting(w, fd);
    }
  }

  lemma WaiterIsArmed(w: World, fd: int)
    requires Linked(w) && Waiting(w, fd)
    ensures var id := w.table[fd].data;
            && id in w.conns && w.conns[id].clientFd == fd
            && HandleFirst(BundleOf(w, id), w.authMethod) == BundleOf(w, id)
            && BundleOf(w, id).conn.current == Some(REQUEST_RESOLV)
  {
    assert RecordOk(w, w.table[fd].data);
  }

  /** The world that the client of a job finds, the job having been taken. */
  lemma JobTaken(w: World)
    requires Inv(w) && w.jobs != []
    ensures var w' := w.(jobs := w.jobs[1..]);
            && Structured(w') && CountersOk(w'.counters, w'.conns) && TicketsOkBut(w', w.jobs[0]) && Waiting(w', w.jobs[0])
  {
    JobIsWaitedFor(w);
    SameLinks(w, w.(jobs := w.jobs[1..]));
    SameRecords(w, w.(jobs := w.jobs[1..]));
  }

  lemma NotifyOk(w: World, resolved: bool, env: Env)
    requires Inv(w) && CanHappen(w, Notify(resolved, env))
    ensures var o := Step(w, Notify(resolved, env)); o.Continue? && Inv(o.world)
  {
    var fd, w' := w.jobs[0], w.(jobs := w.jobs[1..]);
    JobTaken(w);
    WaiterIsArmed(w', fd);
    var id := w.table[fd].data;
    ConnEventOk(w', id, SideOf(w.conns[id], fd), BlockEvent, env, resolved);
    NotifyIs(w, resolved, env);
  }

  /** Notifying a registered client runs its handler. */
  lemma NotifyIs(w: World, resolved: bool, env: Env)
    requires w.jobs != [] && w.jobs[0] in w.table && w.table[w.jobs[0]].handler == SocksHandler
    requires var id := w.table[w.jobs[0]].data; id in w.conns && w.conns[id].clientFd in w.table
    ensures var id := w.table[w.jobs[0]].data;
            Step(w, Notify(resolved, env))
            == HandleConn(w.(jobs := w.jobs[1..]), id, SideOf(w.conns[id], w.jobs[0]), BlockEvent, env, resolved)
  {
  }

  lemma SameRecords(w: World, w': World)
    requires AllOk(w) && Linked(w) && w'.table == w.table && w'.conns == w.conns
    ensures AllOk(w')
  {
    forall id | id in w'.conns
      ensures RecordOk(w', id) && Ok(BundleOf(w', id))
    {
      assert RecordOk(w, id);
    }
  }

  /** The record of an accepted connection, whether or not its descriptor can be registered. */
  function Allocated(w: World, fd: int): World {
    var (w1, id) := Allocate(w);
    w1.(conns := w1.conns[id := NewConn(fd)])
  }

  lemma AllocateIsNew(w: World)
    requires PoolOk(w)
    ensures var (w1, id) := Allocate(w);
            && id !in w.conns && id !in w.freed && id !in w1.pool
            && w1.conns == w.conns && w1.table == w.table && w1.poolSize == w.poolSize && w1.freed == w.freed
            && |w1.pool| <= w.poolSize
            && (forall i, j :: 0 <= i < j < |w1.pool| ==> w1.pool[i] != w1.pool[j])
            && (forall i: nat :: i < w1.next <==> i in w.conns || i in w1.pool || i in w.freed || i == id)
            && (forall i: nat :: i in w1.pool ==> i in w.pool)
  {
    if w.pool != [] {
      assert w.pool[0] in w.pool;
      assert forall i :: i in w.pool <==> i == w.pool[0] || i in w.pool[1..];
    }
  }

  lemma AllocatedPool(w: World, fd: int)
    requires PoolOk(w)
    ensures PoolOk(Allocated(w, fd))
  {
    AllocateIsNew(w);
  }

  /** The record of a connection whose descriptor cannot be registered goes to the pool, or is freed. */
  function Rejected(w: World): World {
    var (w1, id) := Allocate(w);
    if w.poolSize < MAX_POOL then w1.(pool := [id] + w1.pool, poolSize := w.poolSize + 1)
    else w1.(freed := w.freed + {id})
  }

  lemma RejectedPool(w: World)
    requires PoolOk(w)
    ensures PoolOk(Rejected(w))
  {
    AllocateIsNew(w);
    var (w1, id) := Allocate(w);
    assert forall i :: i in [id] + w1.pool <==> i == id || i in w1.pool;
  }

  lemma RejectedIs(w: World, fd: int)
    requires PoolOk(w) && InvalidFd(fd)
    ensures Accept(w, Some(fd)) == Continue(Rejected(w))
  {
    AllocateIsNew(w);
    var id := Allocate(w).1;
    assert w.conns[id := NewConn(fd)] - {id} == w.conns;
  }

  lemma RejectedAccept(w: World, fd: int)
    requires Inv(w) && InvalidFd(fd)
    ensures var o := Accept(w, Some(fd)); o.Continue? && Inv(o.world)
  {
    RejectedIs(w, fd);
    RejectedPool(w);
    SameLinks(w, Rejected(w));
    SameRecords(w, Rejected(w));
    SameTickets(w, Rejected(w));
  }

  lemma SameTickets(w: World, w': World)
    requires TicketsOk(w) && w'.table == w.table && w'.conns == w.conns
    requires w'.resolving + multiset(w'.jobs) == w.resolving + multiset(w.jobs)
    ensures TicketsOk(w')
  {
    forall fd: int
      ensures Waiting(w', fd) <==> Waiting(w, fd)
    {
    }
  }

  /** A connection whose descriptor is registered for reading. */
  function Admitted(w: World, fd: int): World {
    var w2 := Allocated(w, fd);
    w2.(table := w2.table[fd := Slot(READ, SocksHandler, Allocate(w).1)])
  }

  lemma NegativeUnregistered(w: World)
    requires Linked(w)
    ensures -1 !in w.table
  {
    forall fd | fd in w.table
      ensures !InvalidFd(fd)
    {
      assert SlotOk(w, fd);
    }
  }

  lemma AdmittedLinks(w: World, fd: int)
    requires Inv(w) && Fresh(w, fd) && !InvalidFd(fd)
    ensures Linked(Admitted(w, fd))
    ensures forall id :: id in w.conns ==>
              id in Admitted(w, fd).conns && RecordOk(w, id) && BundleOf(Admitted(w, fd), id) == BundleOf(w, id)
  {
    var w' := Admitted(w, fd);
    AllocateIsNew(w);
    NegativeUnregistered(w);
    forall f | f in w'.table
      ensures SlotOk(w', f)
    {
      if f != fd {
        assert SlotOk(w, f);
      }
    }
    forall id | id in w'.conns
      ensures RecordOk(w', id)
      ensures id in w.conns ==> RecordOk(w, id) && BundleOf(w', id) == BundleOf(w, id)
    {
      if id in w.conns {
        AdmittedBeside(w, fd, id);
      }
    }
  }

  lemma AdmittedBeside(w: World, fd: int, id: nat)
    requires Linked(w) && Fresh(w, fd) && id in w.conns && Allocate(w).1 != id
    ensures RecordOk(w, id) && RecordOk(Admitted(w, fd), id) && BundleOf(Admitted(w, fd), id) == BundleOf(w, id)
  {
    assert RecordOk(w, id);
  }

  lemma AdmittedIsOk(w: World, fd: int)
    requires Inv(w) && Fresh(w, fd) && !InvalidFd(fd)
    ensures AllOk(Admitted(w, fd))
  {
    var w' := Admitted(w, fd);
    var id := Allocate(w).1;
    AllocateIsNew(w);
    AdmittedLinks(w, fd);
    NegativeUnregistered(w);
    NewConnIsOk(fd);
    assert BundleOf(w', id) == Bundle(NewConn(fd), READ, None);
    forall i | i in w'.conns
      ensures RecordOk(w', i) && Ok(BundleOf(w', i))
    {
      if i != id {
        assert RecordOk(w, i) && Ok(BundleOf(w, i));
      }
    }
  }

  lemma AdmittedTickets(w: World, fd: int)
    requires Linked(w) && PoolOk(w) && TicketsOk(w) && Fresh(w, fd)
    ensures TicketsOk(Admitted(w, fd))
  {
    AllocateIsNew(w);
    forall f: int
      ensures Waiting(Admitted(w, fd), f) <==> Waiting(w, f)
    {
      if f in w.table {
        assert SlotOk(w, f);
      }
    }
  }

  lemma AdmittedCounters(w: World, fd: int)
    requires PoolOk(w) && CountersOk(w.counters, w.conns)
    ensures CountersOk(Admitted(w, fd).counters, Admitted(w, fd).conns)
  {
    AllocateIsNew(w);
    assert CountedSet(Admitted(w, fd).conns) == CountedSet(w.conns);
    assert AttemptingSet(Admitted(w, fd).conns) == AttemptingSet(w.conns);
  }

  lemma AdmittedPool(w: World, fd: int)
    requires PoolOk(w)
    ensures PoolOk(Admitted(w, fd))
  {
    AllocatedPool(w, fd);
  }

  lemma AdmittedOk(w: World, fd: int)
    requires Inv(w) && Fresh(w, fd) && !InvalidFd(fd)
    ensures Inv(Admitted(w, fd))
  {
    AdmittedLinks(w, fd);
    AdmittedIsOk(w, fd);
    AdmittedTickets(w, fd);
    AdmittedCounters(w, fd);
    AdmittedPool(w, fd);
  }

  lemma AcceptOk(w: World, accepted: Option<int>)
    requires Inv(w) && (accepted.Some? ==> Fresh(w, accepted.value))
    ensures var o := Accept(w, accepted); o.Continue? && Inv(o.world)
  {
    if accepted.Some? {
      var fd := accepted.value;
      AllocateIsNew(w);
      if InvalidFd(fd) {
        RejectedAccept(w, fd);
      } else {
        AdmittedOk(w, fd);
        assert Accept(w, accepted) == Continue(Admitted(w, fd));
      }
    }
  }

  lemma ThreadDoneOk(w: World, fd: int)
    requires Inv(w) && fd in w.resolving
    ensures Inv(Step(w, ThreadDone(fd)).world)
  {
    var w' := Step(w, ThreadDone(fd)).world;
    SameLinks(w, w');
    SameRecords(w, w');
    assert multiset(w'.jobs) == multiset{fd} + multiset(w.jobs);
    assert w'.resolving + multiset{fd} == w.resolving;
    SameTickets(w, w');
  }

  /** One step of the whole proxy. */
  lemma StepOk(w: World, e: Event)
    requires Inv(w) && CanHappen(w, e)
    ensures Step(w, e).Continue? && Inv(Step(w, e).world)
  {
    match e
    case ReadyFd(fd, write, env, accepted) =>
      assert SlotOk(w, fd);
      if w.table[fd].handler == SocksHandler {
        ReadyFdOk(w, fd, write, env, accepted);
      } else {
        AcceptOk(w, accepted);
      }
    case ThreadDone(fd) => ThreadDoneOk(w, fd);
    case Notify(resolved, env) => NotifyOk(w, resolved, env);
    case ChangeUsers(op) => SettingsOk(w, Step(w, e).world);
    case ChangeAuth(m) => SettingsOk(w, Step(w, e).world);
  }

  lemma SettingsOk(w: World, w': World)
    requires Inv(w) && KnownMethod(w'.authMethod)
    requires w' == w.(users := w'.users, authMethod := w'.authMethod)
    ensures Inv(w')
  {
    SameLinks(w, w');
    SameRecords(w, w');
    SameTickets(w, w');
  }

  lemma {:induction false} RunOk(w: World, es: seq<Event>)
    requires Inv(w) && IsRun(w, es)
    ensures Run(w, es).Continue? && Inv(Run(w, es).world)
    decreases |es|
  {
    if es != [] {
      StepOk(w, es[0]);
      RunOk(Step(w, es[0]).world, es[1..]);
    }
  }
}
