/**
 The selector's registrations as a value: which descriptors are registered, with what
 interest, handler and attachment; and one dispatching pass over them.
 */
module SelectorTable {

  datatype Interest = Interest(read: bool, write: bool)

  const NOOP := Interest(false, false)
  const READ := Interest(true, false)
  const WRITE := Interest(false, true)

  /** The handler structs of the server: accepting sockets, and SOCKS connections. */
  datatype Handler = PassiveHandler | SocksHandler

  datatype Slot = Slot(interest: Interest, handler: Handler, data: nat)

  type Table = map<int, Slot>

  datatype Status = Success | NoMemory | MaxFd | IllegalArgs | FdInUse | IoError

  /** FD_SETSIZE. */
  const MAX_FD := 1024

  predicate InvalidFd(fd: int) {
    fd < 0 || fd >= MAX_FD
  }

  datatype Op =
    | Register(fd: int, slot: Slot)
    | Unregister(fd: int)
    | SetInterest(fd: int, interest: Interest)

  /** The status a call returns, when memory is available. */
  function StatusOf(t: Table, op: Op): Status {
    if InvalidFd(op.fd) then IllegalArgs
    else if op.Register? then (if op.fd in t then FdInUse else Success)
    else if op.fd in t then Success else IllegalArgs
  }

  /** A call that does not succeed changes nothing. */
  function Apply(t: Table, op: Op): Table {
    if StatusOf(t, op) != Success then t
    else match op
      case Register(fd, slot) => t[fd := slot]
      case Unregister(fd) => t - {fd}
      case SetInterest(fd, interest) => t[fd := t[fd].(interest := interest)]
  }

  function ApplyAll(t: Table, ops: seq<Op>): Table
    decreases |ops|
  {
    if ops == [] then t else ApplyAll(Apply(t, ops[0]), ops[1..])
  }

  /** A call changes the registration of its own descriptor at most, and that one exactly if it succeeds. */
  lemma CallIsLocal(t: Table, op: Op)
    ensures StatusOf(t, op) == Success <==> 0 <= op.fd < 1024 && (op.fd in t <==> !op.Register?)
    ensures StatusOf(t, op) == FdInUse <==> 0 <= op.fd < 1024 && op.fd in t && op.Register?
    ensures StatusOf(t, op) == Success || StatusOf(t, op) == FdInUse || StatusOf(t, op) == IllegalArgs
    ensures Apply(t, op) - {op.fd} == t - {op.fd}
    ensures if StatusOf(t, op) != Success then Apply(t, op) == t
            else if op.Unregister? then op.fd !in Apply(t, op)
            else op.fd in Apply(t, op) &&
                 (op.Register? ==> Apply(t, op)[op.fd] == op.slot) &&
                 (op.SetInterest? ==> Apply(t, op)[op.fd] == Slot(op.interest, t[op.fd].handler, t[op.fd].data))
  {
  }

  /** The calls that concern one descriptor. */
  function Concerning(ops: seq<Op>, fd: int): seq<Op> {
    if ops == [] then [] else (if ops[0].fd == fd then [ops[0]] else []) + Concerning(ops[1..], fd)
  }

  function Only(t: Table, fd: int): Table {
    map x | x in t && x == fd :: t[x]
  }

  /** Over any sequence of calls, what becomes of a descriptor depends on the calls for it alone. */
  lemma {:induction false} CallsAreLocal(t: Table, ops: seq<Op>, fd: int)
    ensures Only(ApplyAll(t, ops), fd) == ApplyAll(Only(t, fd), Concerning(ops, fd))
    decreases |ops|
  {
    if ops != [] {
      var op, rest := ops[0], ops[1..];
      CallsAreLocal(Apply(t, op), rest, fd);
      CallIsLocal(t, op);
      if op.fd == fd {
        assert Only(Apply(t, op), fd) == Apply(Only(t, fd), op);
        assert ([op] + Concerning(rest, fd))[1..] == Concerning(rest, fd);
      } else {
        assert forall x :: x in Apply(t, op) && x == fd <==> x in (Apply(t, op) - {op.fd}) && x == fd;
        assert forall x :: x in t && x == fd <==> x in (t - {op.fd}) && x == fd;
        assert Only(Apply(t, op), fd) == Only(t, fd);
        assert [] + Concerning(rest, fd) == Concerning(rest, fd);
      }
    }
  }

  /** A call of `handle_read` or `handle_write`, with the key it receives. */
  datatype Dispatch = Dispatch(fd: int, write: bool, data: nat)

  /** What the handlers do to the selector: the calls made while the k-th dispatch runs. */
  type Script = nat -> seq<Op>

  datatype Pass = Pass(table: Table, log: seq<Dispatch>)

  function Call(p: Pass, d: Dispatch, script: Script): Pass {
    Pass(ApplyAll(p.table, script(|p.log|)), p.log + [d])
  }

  predicate Wants(t: Table, fd: int, write: bool) {
    fd in t && if write then t[fd].interest.write else t[fd].interest.read
  }

  function VisitRead(p: Pass, i: int, readable: set<int>, script: Script): Pass {
    if i in readable && Wants(p.table, i, false) then Call(p, Dispatch(i, false, p.table[i].data), script) else p
  }

  /** `data` is the attachment read from the slot before its read handler ran. */
  function VisitWrite(p: Pass, i: int, data: nat, writable: set<int>, script: Script): Pass {
    if i in writable && Wants(p.table, i, true) then Call(p, Dispatch(i, true, data), script) else p
  }

  function Visit(p: Pass, i: int, readable: set<int>, writable: set<int>, script: Script): Pass {
    if i in p.table then
      VisitWrite(VisitRead(p, i, readable, script), i, p.table[i].data, writable, script)
    else p
  }

  /** The dispatching pass over slots `i..n`. */
  function Iterate(p: Pass, i: nat, n: nat, readable: set<int>, writable: set<int>, script: Script): Pass
    decreases n + 1 - i
  {
    if i > n then p else Iterate(Visit(p, i, readable, writable, script), i + 1, n, readable, writable, script)
  }

  /** The table once the first `k` dispatches have run. */
  function TableAt(t: Table, script: Script, k: nat): Table {
    if k == 0 then t else ApplyAll(TableAt(t, script, k - 1), script(k - 1))
  }

  /** The position of a dispatch in the order of a pass: by descriptor, reading before writing. */
  function Rank(d: Dispatch): int {
    2 * d.fd + (if d.write then 1 else 0)
  }

  ghost predicate InOrder(log: seq<Dispatch>) {
    forall j, k :: 0 <= j < k < |log| ==> Rank(log[j]) < Rank(log[k])
  }

  /** Everything logged so far was ready, and registered and interested when it was dispatched. */
  ghost predicate Justified(t: Table, log: seq<Dispatch>, readable: set<int>, writable: set<int>, script: Script) {
    forall k :: 0 <= k < |log| ==>
      && Wants(TableAt(t, script, k), log[k].fd, log[k].write)
      && log[k].fd in (if log[k].write then writable else readable)
      && CarriesAttachment(t, log, k, script)
  }

  /**
   A handler receives the attachment its slot holds at that moment, except that a write handler called right
   after the read handler of the same descriptor receives the one that the read handler received.
   */
  ghost predicate CarriesAttachment(t: Table, log: seq<Dispatch>, k: nat, script: Script)
    requires k < |log| && Wants(TableAt(t, script, k), log[k].fd, log[k].write)
  {
    if log[k].write && k > 0 && log[k - 1].fd == log[k].fd then log[k].data == log[k - 1].data
    else log[k].data == TableAt(t, script, k)[log[k].fd].data
  }

  /** The number of dispatches of a log whose rank is below `r`. */
  function CountBelow(log: seq<Dispatch>, r: int): (n: nat)
    ensures n <= |log|
  {
    if log == [] then 0 else CountBelow(log[..|log| - 1], r) + (if Rank(log[|log| - 1]) < r then 1 else 0)
  }

  /**
   Completeness for one event: if the descriptor is ready and, when its turn comes (after exactly the
   dispatches of lower rank), registered and interested, then it is the next dispatch.
   */
  ghost predicate NotMissed(t: Table, log: seq<Dispatch>, fd: int, write: bool, ready: set<int>, script: Script) {
    var k := CountBelow(log, Rank(Dispatch(fd, write, 0)));
    fd in ready && Wants(TableAt(t, script, k), fd, write) && (write ==> TurnTaken(t, log, fd, script)) ==>
      k < |log| && log[k].fd == fd && log[k].write == write
  }

  /** The slot was in use when the pass reached it, which is also required for its write event. */
  ghost predicate TurnTaken(t: Table, log: seq<Dispatch>, fd: int, script: Script) {
    fd in TableAt(t, script, CountBelow(log, Rank(Dispatch(fd, false, 0))))
  }

  lemma {:induction false} CountBelowAll(log: seq<Dispatch>, r: int)
    requires forall k :: 0 <= k < |log| ==> Rank(log[k]) < r
    ensures CountBelow(log, r) == |log|
  {
    if log != [] {
      CountBelowAll(log[..|log| - 1], r);
    }
  }

  lemma {:induction false} CountBelowExtend(log: seq<Dispatch>, more: seq<Dispatch>, r: int)
    requires forall k :: 0 <= k < |more| ==> Rank(more[k]) >= r
    ensures CountBelow(log + more, r) == CountBelow(log, r)
  {
    if more == [] {
      assert log + more == log;
    } else {
      var s := log + more;
      assert s[..|s| - 1] == log + more[..|more| - 1];
      assert s[|s| - 1] == more[|more| - 1];
      CountBelowExtend(log, more[..|more| - 1], r);
    }
  }

  /** What holds of a pass when every dispatch so far ranks below `r`. */
  ghost predicate PassInv(t: Table, p: Pass, r: int, readable: set<int>, writable: set<int>, script: Script) {
    && p.table == TableAt(t, script, |p.log|)
    && InOrder(p.log)
    && (forall k :: 0 <= k < |p.log| ==> Rank(p.log[k]) < r)
    && Justified(t, p.log, readable, writable, script)
  }

  lemma CallKeepsInv(t: Table, p: Pass, d: Dispatch, readable: set<int>, writable: set<int>, script: Script)
    requires PassInv(t, p, Rank(d), readable, writable, script)
    requires Wants(p.table, d.fd, d.write) && d.fd in (if d.write then writable else readable)
    requires if d.write && p.log != [] && p.log[|p.log| - 1].fd == d.fd then d.data == p.log[|p.log| - 1].data
             else d.data == p.table[d.fd].data
    ensures PassInv(t, Call(p, d, script), Rank(d) + 1, readable, writable, script)
  {
    var log := p.log + [d];
    forall k | 0 <= k < |log|
      ensures Wants(TableAt(t, script, k), log[k].fd, log[k].write)
      ensures log[k].fd in (if log[k].write then writable else readable)
      ensures CarriesAttachment(t, log, k, script)
    {
      if k < |p.log| {
        assert log[k] == p.log[k] && CarriesAttachment(t, p.log, k, script);
      }
    }
  }

  lemma VisitKeepsInv(t: Table, p: Pass, i: nat, readable: set<int>, writable: set<int>, script: Script)
    requires PassInv(t, p, 2 * i, readable, writable, script)
    ensures PassInv(t, Visit(p, i, readable, writable, script), 2 * i + 2, readable, writable, script)
    ensures i in p.table ==> PassInv(t, VisitRead(p, i, readable, script), 2 * i + 1, readable, writable, script)
    ensures p.log <= VisitRead(p, i, readable, script).log
    ensures p.log <= Visit(p, i, readable, writable, script).log
  {
    if i in p.table {
      var data := p.table[i].data;
      var q := VisitRead(p, i, readable, script);
      if q != p {
        CallKeepsInv(t, p, Dispatch(i, false, data), readable, writable, script);
      }
      if i in writable && Wants(q.table, i, true) {
        CallKeepsInv(t, q, Dispatch(i, true, data), readable, writable, script);
      }
    }
  }

  lemma VisitAppends(p: Pass, i: nat, readable: set<int>, writable: set<int>, script: Script)
    ensures var q := if i in p.table then VisitRead(p, i, readable, script) else p;
            var v := Visit(p, i, readable, writable, script);
            && p.log <= q.log <= v.log
            && (forall k :: |p.log| <= k < |q.log| ==> Rank(v.log[k]) == 2 * i)
            && (forall k :: |q.log| <= k < |v.log| ==> Rank(v.log[k]) == 2 * i + 1)
  {
  }

  lemma {:induction false} IterateKeepsInv(t: Table, p: Pass, i: nat, n: nat, readable: set<int>, writable: set<int>, script: Script)
    requires PassInv(t, p, 2 * i, readable, writable, script) && i <= n + 1
    ensures PassInv(t, Iterate(p, i, n, readable, writable, script), 2 * n + 2, readable, writable, script)
    decreases n + 1 - i
  {
    if i <= n {
      VisitKeepsInv(t, p, i, readable, writable, script);
      IterateKeepsInv(t, Visit(p, i, readable, writable, script), i + 1, n, readable, writable, script);
    }
  }

  /** `more` is `log` with dispatches behind it that rank `r` or higher. */
  ghost predicate Extends(log: seq<Dispatch>, more: seq<Dispatch>, r: int) {
    log <= more && forall k :: |log| <= k < |more| ==> Rank(more[k]) >= r
  }

  lemma {:induction false} IterateAppends(p: Pass, i: nat, n: nat, readable: set<int>, writable: set<int>, script: Script)
    requires i <= n + 1
    ensures Extends(p.log, Iterate(p, i, n, readable, writable, script).log, 2 * i)
    decreases n + 1 - i
  {
    if i <= n {
      VisitAppends(p, i, readable, writable, script);
      IterateAppends(Visit(p, i, readable, writable, script), i + 1, n, readable, writable, script);
    }
  }

  /**
   Safety of a pass, whatever the handlers do to the selector while it runs: every dispatch goes to a ready
   descriptor whose slot is registered and interested at that moment, and no event is dispatched twice.
   */
  lemma DispatchIsSafe(t: Table, n: nat, readable: set<int>, writable: set<int>, script: Script)
    ensures var p := Iterate(Pass(t, []), 0, n, readable, writable, script);
            && p.table == TableAt(t, script, |p.log|)
            && Justified(t, p.log, readable, writable, script)
            && InOrder(p.log)
            && (forall k :: 0 <= k < |p.log| ==> 0 <= p.log[k].fd <= n)
  {
    IterateKeepsInv(t, Pass(t, []), 0, n, readable, writable, script);
    IterateAppends(Pass(t, []), 0, n, readable, writable, script);
    var p := Iterate(Pass(t, []), 0, n, readable, writable, script);
    forall k | 0 <= k < |p.log|
      ensures 0 <= p.log[k].fd <= n
    {
      assert 0 <= Rank(p.log[k]) < 2 * (n + 1);
    }
  }

  /** `start` is an initial part of the log; its first `m` dispatches rank below `r`, everything later does not. */
  lemma CountBelowSplit(log: seq<Dispatch>, start: seq<Dispatch>, m: nat, r: int)
    requires m <= |start| && start <= log
    requires forall k :: 0 <= k < m ==> Rank(start[k]) < r
    requires forall k :: m <= k < |start| ==> Rank(start[k]) >= r
    requires forall k :: |start| <= k < |log| ==> Rank(log[k]) >= r
    ensures CountBelow(log, r) == m
  {
    assert log == log[..m] + log[m..];
    CountBelowAll(log[..m], r);
    CountBelowExtend(log[..m], log[m..], r);
  }

  /** The whole pass, seen from slot `fd`: what it had done before, and that its later dispatches rank higher. */
  lemma PassAround(t: Table, n: nat, readable: set<int>, writable: set<int>, script: Script, fd: nat) returns (p: Pass)
    requires fd <= n
    ensures PassInv(t, p, 2 * fd, readable, writable, script)
    ensures var v := Visit(p, fd, readable, writable, script);
            var log := Iterate(Pass(t, []), 0, n, readable, writable, script).log;
            v.log <= log && forall k :: |v.log| <= k < |log| ==> Rank(log[k]) >= 2 * fd + 2
  {
    IteratePrefix(Pass(t, []), 0, fd, n, readable, writable, script);
    if fd == 0 {
      p := Pass(t, []);
    } else {
      p := Iterate(Pass(t, []), 0, fd - 1, readable, writable, script);
      IterateKeepsInv(t, Pass(t, []), 0, fd - 1, readable, writable, script);
    }
    VisitKeepsInv(t, p, fd, readable, writable, script);
    IterateAppends(Visit(p, fd, readable, writable, script), fd + 1, n, readable, writable, script);
  }

  lemma ReadNotMissed(t: Table, p: Pass, log: seq<Dispatch>, fd: nat, readable: set<int>, writable: set<int>, script: Script)
    requires PassInv(t, p, 2 * fd, readable, writable, script)
    requires var v := Visit(p, fd, readable, writable, script);
             v.log <= log && forall k :: |v.log| <= k < |log| ==> Rank(log[k]) >= 2 * fd + 2
    ensures CountBelow(log, 2 * fd) == |p.log|
    ensures NotMissed(t, log, fd, false, readable, script)
  {
    var v := Visit(p, fd, readable, writable, script);
    VisitAppends(p, fd, readable, writable, script);
    CountBelowSplit(log, v.log, |p.log|, 2 * fd);
    if fd in readable && Wants(p.table, fd, false) {
      assert v.log[|p.log|] == Dispatch(fd, false, p.table[fd].data);
    }
  }

  lemma WriteNotMissed(t: Table, p: Pass, log: seq<Dispatch>, fd: nat, readable: set<int>, writable: set<int>, script: Script)
    requires PassInv(t, p, 2 * fd, readable, writable, script)
    requires var v := Visit(p, fd, readable, writable, script);
             v.log <= log && forall k :: |v.log| <= k < |log| ==> Rank(log[k]) >= 2 * fd + 2
    ensures NotMissed(t, log, fd, true, writable, script)
  {
    ReadNotMissed(t, p, log, fd, readable, writable, script);
    if fd in p.table {
      WriteTurn(t, p, log, fd, readable, writable, script);
      var q := VisitRead(p, fd, readable, script);
      if fd in writable && Wants(q.table, fd, true) {
        assert log[|q.log|] == Dispatch(fd, true, p.table[fd].data);
      }
    }
  }

  /** Between its two events, slot `fd` finds the table that its own read handler left. */
  lemma WriteTurn(t: Table, p: Pass, log: seq<Dispatch>, fd: nat, readable: set<int>, writable: set<int>, script: Script)
    requires PassInv(t, p, 2 * fd, readable, writable, script) && fd in p.table
    requires var v := Visit(p, fd, readable, writable, script);
             v.log <= log && forall k :: |v.log| <= k < |log| ==> Rank(log[k]) >= 2 * fd + 2
    ensures var q := VisitRead(p, fd, readable, script);
            && CountBelow(log, 2 * fd + 1) == |q.log|
            && q.table == TableAt(t, script, |q.log|)
            && (fd in writable && Wants(q.table, fd, true) ==>
                  |q.log| < |log| && log[|q.log|] == Dispatch(fd, true, p.table[fd].data))
  {
    var q := VisitRead(p, fd, readable, script);
    var v := Visit(p, fd, readable, writable, script);
    VisitKeepsInv(t, p, fd, readable, writable, script);
    VisitAppends(p, fd, readable, writable, script);
    CountBelowSplit(log, v.log, |q.log|, 2 * fd + 1);
    if fd in writable && Wants(q.table, fd, true) {
      assert v.log == q.log + [Dispatch(fd, true, p.table[fd].data)];
      assert v.log[|q.log|] == log[|q.log|];
    }
  }

  /** Liveness of a pass: no ready and interested descriptor within range is skipped. */
  lemma DispatchIsComplete(t: Table, n: nat, readable: set<int>, writable: set<int>, script: Script, fd: nat)
    requires fd <= n
    ensures var log := Iterate(Pass(t, []), 0, n, readable, writable, script).log;
            && NotMissed(t, log, fd, false, readable, script)
            && NotMissed(t, log, fd, true, writable, script)
  {
    var p := PassAround(t, n, readable, writable, script, fd);
    var log := Iterate(Pass(t, []), 0, n, readable, writable, script).log;
    ReadNotMissed(t, p, log, fd, readable, writable, script);
    WriteNotMissed(t, p, log, fd, readable, writable, script);
  }

  lemma {:induction false} IteratePrefix(p: Pass, i: nat, m: nat, n: nat, readable: set<int>, writable: set<int>, script: Script)
    requires i <= m <= n
    ensures var q := if m == i then p else Iterate(p, i, m - 1, readable, writable, script);
            Iterate(p, i, n, readable, writable, script)
            == Iterate(Visit(q, m, readable, writable, script), m + 1, n, readable, writable, script)
    decreases m - i
  {
    if i < m {
      IteratePrefix(Visit(p, i, readable, writable, script), i + 1, m, n, readable, writable, script);
    }
  }
}
