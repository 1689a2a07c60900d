/**
 A dispatching pass of the selector whose handlers are those of the proxy: it is a run of the proxy, although the
 pass hands the write handler the attachment it looked up before the read handler of the same descriptor ran.
 */
module PassModule {

  import opened Base
  import opened SelectorTable
  import opened StateMachineModule
  import opened ConnectionModule
  import opened WorldModule
  import opened WorldInvariantModule
  import opened ProxyTheorems

  /** What the system calls return while one handler runs. */
  datatype Answer = Answer(env: Env, accepted: Option<int>)

  /** The answers to the calls of the k-th dispatch. */
  type Answers = nat -> Answer

  /** How far a pass has come, and the events it has dispatched. */
  datatype Progress = Progress(outcome: Outcome, events: seq<Event>)

  function KindOf(write: bool): Kind {
    if write then WriteEvent else ReadEvent
  }

  /** The handler of the slot as it is, with the attachment `data`. */
  function Call(p: Progress, fd: int, write: bool, data: nat, a: Answer): Progress
    requires p.outcome.Continue? && fd in p.outcome.world.table
  {
    var w := p.outcome.world;
    var o :=
      if w.table[fd].handler == PassiveHandler then (if write then Fault else Accept(w, a.accepted))
      else if data !in w.conns || w.conns[data].clientFd !in w.table then Fault
      else HandleConn(w, data, SideOf(w.conns[data], fd), KindOf(write), a.env, false);
    Progress(o, p.events + [ReadyFd(fd, write, a.env, a.accepted)])
  }

  predicate Calls(p: Progress, fd: int, write: bool, ready: set<int>) {
    p.outcome.Continue? && fd in ready && Wants(p.outcome.world.table, fd, write)
  }

  function CallIf(p: Progress, fd: int, write: bool, data: nat, ready: set<int>, answers: Answers): Progress {
    if Calls(p, fd, write, ready) then Call(p, fd, write, data, answers(|p.events|)) else p
  }

  /** The body of the dispatching loop, for one slot. */
  function Visit(p: Progress, fd: nat, readable: set<int>, writable: set<int>, answers: Answers): Progress {
    if p.outcome.Fault? || fd !in p.outcome.world.table then p
    else
      var data := p.outcome.world.table[fd].data;
      CallIf(CallIf(p, fd, false, data, readable, answers), fd, true, data, writable, answers)
  }

  /** The pass over the first `k` slots. */
  function Iterate(p: Progress, k: nat, readable: set<int>, writable: set<int>, answers: Answers): Progress {
    if k == 0 then p else Visit(Iterate(p, k - 1, readable, writable, answers), k - 1, readable, writable, answers)
  }

  // ----- What the environment may answer -----

  /** Should this call be made, its answer is one that the operating system can give. */
  ghost predicate CallAllowed(p: Progress, fd: int, write: bool, ready: set<int>, answers: Answers) {
    Calls(p, fd, write, ready) ==>
      var a := answers(|p.events|);
      && EnvAllowed(p.outcome.world, a.env)
      && ResultsPossible(p.outcome.world, fd, KindOf(write), a.env)
      && (a.accepted.Some? ==> Fresh(p.outcome.world, a.accepted.value))
  }

  ghost predicate VisitAllowed(p: Progress, fd: nat, readable: set<int>, writable: set<int>, answers: Answers) {
    p.outcome.Continue? && fd in p.outcome.world.table ==>
      && CallAllowed(p, fd, false, readable, answers)
      && CallAllowed(CallIf(p, fd, false, p.outcome.world.table[fd].data, readable, answers), fd, true, writable, answers)
  }

  ghost predicate PassAllowed(p: Progress, k: nat, readable: set<int>, writable: set<int>, answers: Answers) {
    forall fd: nat :: fd < k ==> VisitAllowed(Iterate(p, fd, readable, writable, answers), fd, readable, writable, answers)
  }

  // ----- A read handler leaves its slot alone, or gives it up -----

  lemma SettledSlot(w: World, id: nat, b: Bundle, b2: Bundle, kind: Kind, env: Env, next: nat, fd: int)
    requires Linked(w) && id in w.conns && Moves(w, BundleOf(w, id), b2)
    requires fd in w.table && fd in Settled(w, id, b, b2, kind, env, next).table
    ensures var s := Settled(w, id, b, b2, kind, env, next).table[fd];
            s.handler == w.table[fd].handler && s.data == w.table[fd].data
  {
    assert RecordOk(w, id);
  }

  lemma ConnKeepsSlot(w: World, fd: int, write: bool, env: Env)
    requires Inv(w) && EnvAllowed(w, env) && ResultsPossible(w, fd, KindOf(write), env)
    requires Wants(w.table, fd, write) && w.table[fd].handler == SocksHandler
    ensures var id := w.table[fd].data;
            && id in w.conns && w.conns[id].clientFd in w.table
            && var o := HandleConn(w, id, SideOf(w.conns[id], fd), KindOf(write), env, false);
               o.Continue? && (fd in o.world.table ==>
                                 o.world.table[fd].handler == w.table[fd].handler && o.world.table[fd].data == w.table[fd].data)
  {
    var id := w.table[fd].data;
    WantsIsArmed(w, fd, write);
    var b := HandleFirst(BundleOf(w, id), w.authMethod);
    var b2, next := HandleConnOk(w, id, SideOf(w.conns[id], fd), KindOf(write), env, false);
    var s := Settled(w, id, b, b2, KindOf(write), env, next);
    if fd in s.table {
      SettledSlot(w, id, b, b2, KindOf(write), env, next, fd);
    }
  }

  lemma AcceptKeepsSlot(w: World, accepted: Option<int>, fd: int)
    requires PoolOk(w) && (accepted.Some? ==> Fresh(w, accepted.value)) && fd in w.table
    ensures var o := Accept(w, accepted); o.Continue? ==> fd in o.world.table && o.world.table[fd] == w.table[fd]
  {
  }

  /** After an event of a descriptor that is still registered, its slot has the handler and the attachment it had. */
  lemma SlotSurvives(w: World, fd: int, write: bool, a: Answer)
    requires Inv(w) && CanHappen(w, ReadyFd(fd, write, a.env, a.accepted))
    ensures var o := Step(w, ReadyFd(fd, write, a.env, a.accepted));
            && o.Continue?
            && (fd in o.world.table ==>
                  o.world.table[fd].handler == w.table[fd].handler && o.world.table[fd].data == w.table[fd].data)
  {
    StepOk(w, ReadyFd(fd, write, a.env, a.accepted));
    if w.table[fd].handler == SocksHandler {
      ConnKeepsSlot(w, fd, write, a.env);
    } else {
      AcceptKeepsSlot(w, a.accepted, fd);
    }
  }

  // ----- A pass is a run -----

  /** The pass has gone through a run of the proxy so far. */
  ghost predicate Follows(w: World, p: Progress) {
    IsRun(w, p.events) && p.outcome.Continue? && Run(w, p.events) == p.outcome && Inv(p.outcome.world)
  }

  lemma {:induction false} RunOneMore(w: World, es: seq<Event>, e: Event)
    requires IsRun(w, es) && Run(w, es).Continue? && CanHappen(Run(w, es).world, e)
    ensures IsRun(w, es + [e]) && Run(w, es + [e]) == Step(Run(w, es).world, e)
    decreases |es|
  {
    if es == [] {
      assert [] + [e] == [e];
      if Step(w, e).Continue? {
        assert Run(Step(w, e).world, []) == Step(w, e);
      }
    } else {
      assert (es + [e])[1..] == es[1..] + [e];
      RunOneMore(Step(w, es[0]).world, es[1..], e);
    }
  }

  /** A call with the attachment that the slot still has is a step. */
  lemma CallIsStep(w: World, p: Progress, fd: int, write: bool, data: nat, ready: set<int>, answers: Answers)
    requires Follows(w, p) && CallAllowed(p, fd, write, ready, answers)
    requires fd in p.outcome.world.table ==> p.outcome.world.table[fd].data == data
    ensures Follows(w, CallIf(p, fd, write, data, ready, answers))
    ensures var q := CallIf(p, fd, write, data, ready, answers).outcome.world;
            fd in p.outcome.world.table && fd in q.table ==> q.table[fd].data == p.outcome.world.table[fd].data
  {
    if Calls(p, fd, write, ready) {
      var a := answers(|p.events|);
      var e := ReadyFd(fd, write, a.env, a.accepted);
      assert CanHappen(p.outcome.world, e);
      SlotSurvives(p.outcome.world, fd, write, a);
      StepOk(p.outcome.world, e);
      RunOneMore(w, p.events, e);
    }
  }

  lemma VisitIsRun(w: World, p: Progress, fd: nat, readable: set<int>, writable: set<int>, answers: Answers)
    requires Follows(w, p) && VisitAllowed(p, fd, readable, writable, answers)
    ensures Follows(w, Visit(p, fd, readable, writable, answers))
  {
    if fd in p.outcome.world.table {
      var data := p.outcome.world.table[fd].data;
      CallIsStep(w, p, fd, false, data, readable, answers);
      CallIsStep(w, CallIf(p, fd, false, data, readable, answers), fd, true, data, writable, answers);
    }
  }

  /** Whatever every visit keeps, the pass keeps. */
  lemma {:induction false} PassKeeps(good: Progress -> bool, p: Progress, k: nat, readable: set<int>, writable: set<int>, answers: Answers)
    requires good(p) && PassAllowed(p, k, readable, writable, answers)
    requires forall q: Progress, fd: nat ::
               good(q) && VisitAllowed(q, fd, readable, writable, answers) ==> good(Visit(q, fd, readable, writable, answers))
    ensures good(Iterate(p, k, readable, writable, answers))
  {
    if k > 0 {
      PassKeeps(good, p, k - 1, readable, writable, answers);
    }
  }

  /**
   Every dispatching pass over a reachable proxy, whichever descriptors are ready and whatever the system calls
   return, is a run of the proxy: its steps are the events it dispatched, and none of them faults.
   */
  lemma PassIsRun(w0: World, es: seq<Event>, w: World, slots: nat, readable: set<int>, writable: set<int>, answers: Answers)
    requires Reaches(w0, es, w) && PassAllowed(Progress(Continue(w), []), slots, readable, writable, answers)
    ensures var p := Iterate(Progress(Continue(w), []), slots, readable, writable, answers);
            p.outcome.Continue? && IsRun(w, p.events) && Run(w, p.events) == p.outcome
  {
    ReachedInv(w0, es, w);
    forall q: Progress, fd: nat | Follows(w, q) && VisitAllowed(q, fd, readable, writable, answers)
      ensures Follows(w, Visit(q, fd, readable, writable, answers))
    {
      VisitIsRun(w, q, fd, readable, writable, answers);
    }
    PassKeeps(q => Follows(w, q), Progress(Continue(w), []), slots, readable, writable, answers);
  }
}
