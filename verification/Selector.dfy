/**
 The I/O multiplexer: an array of slots indexed by descriptor, the master sets and the greatest
 descriptor derived from it, and the list of finished blocking jobs.
 */
module SelectorModule {

  import opened Base
  import opened SelectorTable

  const FD_UNUSED := -1

  /** A cell of the slot array. An unused cell has `fd == FD_UNUSED`; its other fields mean nothing. */
  datatype Item = Item(fd: int, interest: Interest, handler: Handler, data: nat)

  /** A zeroed cell passed to `item_init`. */
  const CLEARED := Item(FD_UNUSED, NOOP, PassiveHandler, 0)

  function PowerOfTwo(b: nat): nat {
    if b == 0 then 1 else 2 * PowerOfTwo(b - 1)
  }

  /** `tmp` is what is left of `n` after shifting out as many bits as `p` has zeros. */
  ghost predicate IsShifted(n: nat, tmp: nat, p: nat) {
    tmp * p <= n < (tmp + 1) * p
  }

  lemma HalvingStep(n: nat, tmp: nat, p: nat)
    requires IsShifted(n, tmp, p)
    ensures IsShifted(n, tmp / 2, 2 * p)
    ensures tmp > 0 ==> p <= n
    ensures tmp == 0 ==> n < p
  {
    var h := tmp / 2;
    assert tmp == 2 * h || tmp == 2 * h + 1;
    assert h * (2 * p) == (2 * h) * p;
    assert (h + 1) * (2 * p) == (2 * h + 2) * p;
    assert (2 * h) * p <= tmp * p;
    assert (tmp + 1) * p <= (2 * h + 2) * p;
    if tmp > 0 {
      assert p <= tmp * p;
    }
  }

  /** `capacity` is one more than the least power of two above `n`, capped at FD_SETSIZE. */
  ghost predicate IsNextCapacity(n: nat, bits: nat, capacity: nat) {
    && n < PowerOfTwo(bits)
    && (bits > 0 ==> PowerOfTwo(bits - 1) <= n)
    && capacity == 1 + Min(PowerOfTwo(bits), MAX_FD)
  }

  /** The capacity to grow to; the bound on `n` keeps the shift within a `size_t`. */
  method NextCapacity(n: nat) returns (capacity: nat)
    requires n < 0x8000_0000_0000_0000
    ensures exists bits: nat :: IsNextCapacity(n, bits, capacity)
    ensures n <= MAX_FD ==> n < capacity
    ensures 2 <= capacity <= MAX_FD + 1
  {
    var bits, tmp := 0, n;
    assert IsShifted(n, n, 1);
    while tmp != 0
      invariant PowerOfTwo(bits) >= 1
      invariant IsShifted(n, tmp, PowerOfTwo(bits))
      invariant bits > 0 ==> PowerOfTwo(bits - 1) <= n
    {
      HalvingStep(n, tmp, PowerOfTwo(bits));
      tmp, bits := tmp / 2, bits + 1;
    }
    HalvingStep(n, tmp, PowerOfTwo(bits));
    capacity := Min(PowerOfTwo(bits), MAX_FD) + 1;
    assert IsNextCapacity(n, bits, capacity);
  }

  predicate IsGreatestUsed(t: Table, max: int) {
    && (forall fd :: fd in t ==> fd <= max)
    && (max in t || (max == 0 && forall fd :: fd in t ==> fd == 0))
  }

  function SlotOf(item: Item): Slot {
    Slot(item.interest, item.handler, item.data)
  }

  /** The registrations that an array of cells holds. */
  function TableOf(items: seq<Item>): Table {
    map i | 0 <= i < |items| && items[i].fd != FD_UNUSED :: SlotOf(items[i])
  }

  /** A used cell holds its own index. */
  ghost predicate SelfIndexed(items: seq<Item>) {
    forall i :: 0 <= i < |items| && items[i].fd != FD_UNUSED ==> items[i].fd == i && i < MAX_FD
  }

  ghost predicate IsMaster(t: Table, master: set<int>, write: bool) {
    forall fd :: fd in master <==> Wants(t, fd, write)
  }

  lemma StoreItem(items: seq<Item>, fd: nat, item: Item)
    requires fd < |items|
    ensures TableOf(items[fd := item]) ==
            if item.fd == FD_UNUSED then TableOf(items) - {fd} else TableOf(items)[fd := SlotOf(item)]
  {
  }

  class Selector {
    var fds: array<Item>
    var maxFd: int
    var masterRead: set<int>
    var masterWrite: set<int>
    var jobs: seq<int>

    predicate Used(i: int)
      requires 0 <= i < fds.Length
      reads this, fds
    {
      fds[i].fd != FD_UNUSED
    }

    /** An unused cell that was in use at some point: `handle_iteration` may still look at its interest. */
    ghost predicate Quiet(i: int)
      requires 0 <= i < fds.Length
      reads this, fds
    {
      Used(i) || fds[i].interest == NOOP
    }

    ghost function Table(): Table
      reads this, fds
    {
      TableOf(fds[..])
    }

    /** The master sets and the maximum are those of the slots. */
    ghost predicate Valid()
      reads this, fds
    {
      && SelfIndexed(fds[..])
      && IsMaster(Table(), masterRead, false)
      && IsMaster(Table(), masterWrite, true)
      && IsGreatestUsed(Table(), maxFd)
      && 0 <= maxFd && (maxFd == 0 || maxFd < fds.Length)
    }

    /** Every descriptor the platform can handle has a slot, which is how the server builds its selector. */
    ghost predicate Roomy()
      reads this
    {
      fds.Length >= MAX_FD
    }

    constructor (initialElements: nat)
      requires initialElements <= MAX_FD
      ensures Valid() && Table() == map[] && jobs == [] && fresh(fds)
      ensures initialElements < fds.Length
      ensures initialElements >= MAX_FD - 1 ==> Roomy()
    {
      fds := new Item[0];
      maxFd := 0;
      masterRead, masterWrite := {}, {};
      jobs := [];
      new;
      var status := EnsureCapacity(initialElements, true);
    }

    /** `memory` says whether the allocator finds the memory. */
    method EnsureCapacity(n: nat, memory: bool) returns (status: Status)
      requires Valid() && n < 0x8000_0000_0000_0000
      modifies this`fds
      ensures Valid() && Table() == old(Table())
      ensures fds == old(fds) || fresh(fds)
      ensures status == if n < old(fds.Length) then Success else if n > MAX_FD then MaxFd
                        else if memory then Success else NoMemory
      ensures status == Success ==> n < fds.Length
      ensures status != Success || n < old(fds.Length) ==> fds == old(fds)
      ensures old(fds.Length) <= fds.Length && fds[..old(fds.Length)] == old(fds[..])
      ensures forall i :: old(fds.Length) <= i < fds.Length ==> !Used(i)
    {
      if n < fds.Length {
        status := Success;
      } else if n > MAX_FD {
        status := MaxFd;
      } else {
        var newSize := NextCapacity(n);
        if !memory {
          status := NoMemory;
        } else {
          var grown := new Item[newSize];
          forall i | 0 <= i < fds.Length {
            grown[i] := fds[i];
          }
          forall i | fds.Length <= i < newSize {
            grown[i] := grown[i].(fd := FD_UNUSED);
          }
          assert TableOf(grown[..]) == TableOf(fds[..]);
          fds := grown;
          assert Table() == old(Table());
          status := Success;
        }
      }
    }

    /** The greatest used descriptor among the slots up to the recorded maximum. */
    method ItemsMaxFd() returns (max: int)
      requires SelfIndexed(fds[..])
      requires forall fd :: fd in Table() ==> fd <= maxFd
      requires 0 <= maxFd < fds.Length
      ensures IsGreatestUsed(Table(), max) && 0 <= max <= maxFd
    {
      max := 0;
      for i := 0 to maxFd + 1
        invariant 0 <= max <= maxFd
        invariant forall fd :: fd in Table() && fd < i ==> fd <= max
        invariant max in Table() || (max == 0 && forall fd :: fd in Table() && fd < i ==> fd == 0)
      {
        if Used(i) {
          assert i in Table();
          if fds[i].fd > max {
            max := fds[i].fd;
          }
        }
      }
    }

    /** Recomputes the bits of one descriptor in both master sets. */
    method UpdateFdSets(fd: int, interest: Interest)
      modifies this`masterRead, this`masterWrite
      ensures masterRead == old(masterRead) - {fd} + (if interest.read then {fd} else {})
      ensures masterWrite == old(masterWrite) - {fd} + (if interest.write then {fd} else {})
    {
      masterRead, masterWrite := masterRead - {fd}, masterWrite - {fd};
      if interest.read {
        masterRead := masterRead + {fd};
      }
      if interest.write {
        masterWrite := masterWrite + {fd};
      }
    }

    /**
     The capacity test admits a descriptor equal to the number of slots, which has no slot; see RegisterNeedsRoom.
     `past` says that the original would then read past the end of the array; the method stops short of that.
     */
    method Register(fd: int, slot: Slot, memory: bool) returns (status: Status, past: bool)
      requires Valid()
      modifies this, fds
      ensures Valid() && jobs == old(jobs)
      ensures past <==> !InvalidFd(fd) && fd == old(fds.Length)
      ensures fds == old(fds) || (fresh(fds) && fds.Length >= old(fds.Length))
      ensures old(fds.Length) >= MAX_FD ==> fds == old(fds)
      ensures if past then fds == old(fds) && Table() == old(Table())
              else if !InvalidFd(fd) && fd > old(fds.Length) && !memory then
                status == NoMemory && Table() == old(Table())
              else
                && status == StatusOf(old(Table()), Op.Register(fd, slot))
                && Table() == Apply(old(Table()), Op.Register(fd, slot))
      ensures fds == old(fds) ==> forall i :: 0 <= i < fds.Length && old(Quiet(i)) ==> Quiet(i)
    {
      past := false;
      if InvalidFd(fd) {
        return IllegalArgs, false;
      }
      if fd > fds.Length {
        status := EnsureCapacity(fd, memory);
        if status != Success {
          return;
        }
      }
      if fd == fds.Length {
        return IllegalArgs, true;
      }
      assert Used(fd) <==> fd in Table();
      if Used(fd) {
        return FdInUse, false;
      }
      Occupy(fd, slot);
      status := Success;
    }

    /** Fills a free cell and brings the maximum and the master sets up to date. */
    method Occupy(fd: int, slot: Slot)
      requires Valid() && 0 <= fd < fds.Length && fd < MAX_FD && !Used(fd)
      modifies fds, this`maxFd, this`masterRead, this`masterWrite
      ensures Valid() && Table() == old(Table())[fd := slot]
      ensures forall i :: 0 <= i < fds.Length && old(Quiet(i)) ==> Quiet(i)
    {
      var item := Item(fd, slot.interest, slot.handler, slot.data);
      StoreItem(fds[..], fd, item);
      ghost var items := fds[..];
      fds[fd] := item;
      assert fds[..] == items[fd := item];
      if fd > maxFd {
        maxFd := fd;
      }
      UpdateFdSets(fd, slot.interest);
    }

    /** `closing` is the attachment that the close handler of a connection receives. */
    method Unregister(fd: int) returns (status: Status, closing: Option<nat>)
      requires Valid() && (InvalidFd(fd) || fd < fds.Length)
      modifies this, fds
      ensures Valid() && fds == old(fds) && jobs == old(jobs)
      ensures status == StatusOf(old(Table()), Op.Unregister(fd))
      ensures Table() == Apply(old(Table()), Op.Unregister(fd))
      ensures forall i :: 0 <= i < fds.Length && old(Quiet(i)) ==> Quiet(i)
      ensures closing == if status == Success && old(Table())[fd].handler == SocksHandler
                         then Some(old(Table())[fd].data) else None
    {
      ghost var was := Table();
      closing := None;
      if InvalidFd(fd) {
        return IllegalArgs, None;
      }
      assert Used(fd) <==> fd in was;
      if !Used(fd) {
        return IllegalArgs, None;
      }
      if fds[fd].handler == SocksHandler {
        closing := Some(fds[fd].data);
      }
      UpdateFdSets(fd, NOOP);
      StoreItem(fds[..], fd, CLEARED);
      ghost var items := fds[..];
      fds[fd] := CLEARED;
      assert fds[..] == items[fd := CLEARED];
      maxFd := ItemsMaxFd();
      status := Success;
    }

    method SetInterest(fd: int, interest: Interest) returns (status: Status)
      requires Valid() && (InvalidFd(fd) || fd < fds.Length)
      modifies this, fds
      ensures Valid() && fds == old(fds) && jobs == old(jobs)
      ensures status == StatusOf(old(Table()), Op.SetInterest(fd, interest))
      ensures Table() == Apply(old(Table()), Op.SetInterest(fd, interest))
      ensures forall i :: 0 <= i < fds.Length && old(Quiet(i)) ==> Quiet(i)
    {
      ghost var was := Table();
      if InvalidFd(fd) {
        return IllegalArgs;
      }
      assert Used(fd) <==> fd in was;
      if !Used(fd) {
        return IllegalArgs;
      }
      StoreItem(fds[..], fd, fds[fd].(interest := interest));
      ghost var items := fds[..];
      fds[fd] := fds[fd].(interest := interest);
      assert fds[..] == items[fd := fds[fd]];
      UpdateFdSets(fd, interest);
      status := Success;
    }

    /** The calls a handler makes while it runs. */
    method Run(ops: seq<Op>)
      requires Valid() && Roomy()
      modifies this, fds
      ensures Valid() && Roomy() && fds == old(fds) && jobs == old(jobs)
      ensures Table() == ApplyAll(old(Table()), ops)
      ensures forall i :: 0 <= i < fds.Length && old(Quiet(i)) ==> Quiet(i)
    {
      var k := 0;
      while k < |ops|
        invariant k <= |ops|
        invariant Valid() && Roomy() && fds == old(fds) && jobs == old(jobs)
        invariant ApplyAll(Table(), ops[k..]) == ApplyAll(old(Table()), ops)
        invariant forall i :: 0 <= i < fds.Length && old(Quiet(i)) ==> Quiet(i)
      {
        assert ops[k..][1..] == ops[k + 1..];
        match ops[k] {
          case Register(fd, slot) => var _, _ := Register(fd, slot, true);
          case Unregister(fd) => var _, _ := Unregister(fd);
          case SetInterest(fd, interest) => var _ := SetInterest(fd, interest);
        }
        k := k + 1;
      }
    }

    /** The body of the dispatching loop, for one slot. */
    method VisitSlot(i: nat, readable: set<int>, writable: set<int>, script: Script, log: seq<Dispatch>)
      returns (log': seq<Dispatch>)
      requires Valid() && Roomy() && i < MAX_FD
      modifies this, fds
      ensures Valid() && Roomy() && fds == old(fds) && jobs == old(jobs)
      ensures Pass(Table(), log') == Visit(Pass(old(Table()), log), i, readable, writable, script)
    {
      log' := log;
      if Used(i) {
        assert i in Table();
        var data := fds[i].data;
        if i in readable && fds[i].interest.read {
          log' := log' + [Dispatch(i, false, data)];
          Run(script(|log|));
        }
        assert Pass(Table(), log') == VisitRead(Pass(old(Table()), log), i, readable, script);
        // The item is still the same cell, which the handler may have cleared.
        assert Quiet(i) && (i in Table() <==> Used(i));
        if i in writable && fds[i].interest.write {
          log' := log' + [Dispatch(i, true, data)];
          Run(script(|log'| - 1));
        }
      }
    }

    /** One dispatching pass over the ready sets that `pselect` returned. */
    method HandleIteration(readable: set<int>, writable: set<int>, script: Script) returns (log: seq<Dispatch>)
      requires Valid() && Roomy()
      modifies this, fds
      ensures Valid() && Roomy() && fds == old(fds) && jobs == old(jobs)
      ensures Pass(Table(), log) == Iterate(Pass(old(Table()), []), 0, old(maxFd), readable, writable, script)
    {
      log := [];
      var n := maxFd;
      assert n < MAX_FD;
      var i := 0;
      while i <= n
        invariant 0 <= i <= n + 1
        invariant Valid() && Roomy() && fds == old(fds) && jobs == old(jobs)
        invariant Iterate(Pass(Table(), log), i, n, readable, writable, script)
                  == Iterate(Pass(old(Table()), []), 0, old(maxFd), readable, writable, script)
      {
        log := VisitSlot(i, readable, writable, script, log);
        i := i + 1;
      }
    }

    /** A resolver thread links its finished job at the head of the list. */
    method NotifyBlock(fd: int)
      requires Valid()
      modifies this`jobs
      ensures Valid() && Table() == old(Table()) && jobs == [fd] + old(jobs)
    {
      jobs := [fd] + jobs;
    }

    /** Drains the list; a job whose descriptor is registered at that moment is delivered. */
    method HandleBlockNotifications(script: Script) returns (delivered: seq<int>)
      requires Valid() && Roomy()
      requires forall k :: 0 <= k < |jobs| ==> !InvalidFd(jobs[k])
      modifies this, fds
      ensures Valid() && Roomy() && jobs == [] && fds == old(fds)
      ensures (Table(), delivered) == Drain(old(Table()), [], old(jobs), script)
      ensures Table() == TableAt(old(Table()), script, |delivered|)
      ensures exists ns :: InTurn(old(Table()), script, 0, old(jobs), delivered, ns)
    {
      delivered := [];
      var k := 0;
      while k < |jobs|
        invariant k <= |jobs| && jobs == old(jobs)
        invariant Valid() && Roomy() && fds == old(fds)
        invariant Drain(Table(), delivered, jobs[k..], script) == Drain(old(Table()), [], old(jobs), script)
      {
        assert jobs[k..][1..] == jobs[k + 1..];
        assert Used(jobs[k]) <==> jobs[k] in Table();
        if Used(jobs[k]) {
          delivered := delivered + [jobs[k]];
          Run(script(|delivered| - 1));
        }
        k := k + 1;
      }
      ghost var ns := DrainInTurn(old(Table()), script, jobs);
      jobs := [];
    }
  }

  function Drain(t: Table, delivered: seq<int>, jobs: seq<int>, script: Script): (Table, seq<int>)
    decreases |jobs|
  {
    if jobs == [] then (t, delivered)
    else if jobs[0] in t then Drain(ApplyAll(t, script(|delivered|)), delivered + [jobs[0]], jobs[1..], script)
    else Drain(t, delivered, jobs[1..], script)
  }

  /**
   A job whose turn comes after `n` deliveries is the next one delivered if its descriptor is registered by then, and
   passed over otherwise; `n2` deliveries have been made once it has been taken.
   */
  ghost predicate Taken(t: Table, script: Script, job: int, delivered: seq<int>, n: nat, n2: nat) {
    if job in TableAt(t, script, n) then n2 == n + 1 && n < |delivered| && delivered[n] == job else n2 == n
  }

  /**
   The jobs have been taken in the order of the list, each exactly once: `ns[k]` deliveries came before the k-th.
   `from` were made before the list was begun.
   */
  ghost predicate InTurn(t: Table, script: Script, from: nat, jobs: seq<int>, delivered: seq<int>, ns: seq<nat>) {
    && |ns| == |jobs| + 1 && ns[0] == from && ns[|jobs|] == |delivered|
    && forall k :: 0 <= k < |jobs| ==> Taken(t, script, jobs[k], delivered, ns[k], ns[k + 1])
  }

  lemma InTurnFromHere(t: Table, script: Script, n: nat, jobs: seq<int>, delivered: seq<int>, rest: seq<nat>)
    requires jobs != [] && rest != [] && InTurn(t, script, rest[0], jobs[1..], delivered, rest)
    requires Taken(t, script, jobs[0], delivered, n, rest[0])
    ensures InTurn(t, script, n, jobs, delivered, [n] + rest)
  {
    var ns := [n] + rest;
    forall k | 0 <= k < |jobs|
      ensures Taken(t, script, jobs[k], delivered, ns[k], ns[k + 1])
    {
      if k > 0 {
        assert Taken(t, script, jobs[1..][k - 1], delivered, rest[k - 1], rest[k]);
      }
    }
  }

  lemma {:induction false} DrainContinues(t: Table, script: Script, before: seq<int>, jobs: seq<int>) returns (ns: seq<nat>)
    ensures var (t', delivered) := Drain(TableAt(t, script, |before|), before, jobs, script);
            && before <= delivered && t' == TableAt(t, script, |delivered|)
            && InTurn(t, script, |before|, jobs, delivered, ns)
    decreases |jobs|
  {
    if jobs == [] {
      ns := [|before|];
    } else {
      var u := TableAt(t, script, |before|);
      var now := if jobs[0] in u then before + [jobs[0]] else before;
      var delivered := Drain(u, before, jobs, script).1;
      var rest := DrainContinues(t, script, now, jobs[1..]);
      assert jobs[0] in u ==> now <= delivered && now[|before|] == jobs[0];
      InTurnFromHere(t, script, |before|, jobs, delivered, rest);
      ns := [|before|] + rest;
    }
  }

  /** Draining a list takes every job in turn, whatever the handlers do to the selector meanwhile. */
  lemma DrainInTurn(t: Table, script: Script, jobs: seq<int>) returns (ns: seq<nat>)
    ensures var (t', delivered) := Drain(t, [], jobs, script);
            t' == TableAt(t, script, |delivered|) && InTurn(t, script, 0, jobs, delivered, ns)
  {
    ns := DrainContinues(t, script, [], jobs);
  }

  /** There is only one way to take jobs in turn. */
  lemma {:induction false} InTurnIsUnique(t: Table, script: Script, jobs: seq<int>, k: nat,
                                          delivered: seq<int>, ns: seq<nat>, delivered': seq<int>, ns': seq<nat>)
    requires InTurn(t, script, 0, jobs, delivered, ns) && InTurn(t, script, 0, jobs, delivered', ns') && k <= |jobs|
    ensures ns[k] == ns'[k] <= |delivered| && ns[k] <= |delivered'| && delivered[..ns[k]] == delivered'[..ns[k]]
  {
    if k > 0 {
      InTurnIsUnique(t, script, jobs, k - 1, delivered, ns, delivered', ns');
    }
  }

  /** Hence the deliveries are determined by the table, the list and what the handlers do. */
  lemma DrainIsUnique(t: Table, script: Script, jobs: seq<int>, delivered: seq<int>, ns: seq<nat>)
    ensures InTurn(t, script, 0, jobs, delivered, ns) ==> Drain(t, [], jobs, script) == (TableAt(t, script, |delivered|), delivered)
  {
    if InTurn(t, script, 0, jobs, delivered, ns) {
      var ms := DrainInTurn(t, script, jobs);
      var delivered' := Drain(t, [], jobs, script).1;
      InTurnIsUnique(t, script, jobs, |jobs|, delivered', ms, delivered, ns);
      assert delivered'[..|delivered'|] == delivered' && delivered[..|delivered|] == delivered;
    }
  }

  /** The number of slots once `selector_register` has run its capacity step for a valid descriptor. */
  function SizeAfterCapacityStep(size: nat, fd: nat, next: nat): nat {
    if fd > size then next else size
  }

  /**
   Registration finds a slot for the descriptor if and only if the descriptor is not exactly the number of
   slots. `next` is any capacity growth can give, so it exceeds the descriptor.
   */
  lemma RegisterNeedsRoom(size: nat, fd: nat, next: nat)
    requires fd < next
    ensures fd < SizeAfterCapacityStep(size, fd, next) <==> fd != size
  {
  }

  /** Over any sequence of calls, every registration in the table is of a valid descriptor. */
  lemma {:induction false} OnlyValidRegistered(t: Table, ops: seq<Op>)
    requires forall fd :: fd in t ==> !InvalidFd(fd)
    ensures forall fd :: fd in ApplyAll(t, ops) ==> !InvalidFd(fd)
    decreases |ops|
  {
    if ops != [] {
      OnlyValidRegistered(Apply(t, ops[0]), ops[1..]);
    }
  }
}
