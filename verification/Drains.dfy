/**
 The selector taking the list of finished resolutions, with the handlers of the proxy: it is a run of the proxy, in
 which every resolution reaches the client that waits for it, although the list is emptied only at the end.
 */
module DrainModule {

  import opened Base
  import opened SelectorTable
  import opened StateMachineModule
  import opened ConnectionModule
  import opened WorldModule
  import opened WorldInvariantModule
  import opened ProxyTheorems
  import PassModule

  /** How a resolution ended, and what the system calls return while its client's handler runs. */
  datatype Resolution = Resolution(resolved: bool, env: Env)

  /** Of the k-th job of the list. */
  type Resolutions = nat -> Resolution

  /** How far the list has been taken: the handlers called, and the events that this was. */
  datatype Progress = Progress(outcome: Outcome, delivered: seq<int>, events: seq<Event>)

  /** The body of the draining loop: a job whose descriptor is not registered is passed over. */
  function Take(p: Progress, fd: int, r: Resolution): Progress
    requires p.outcome.Continue?
  {
    var w, es := p.outcome.world, p.events + [Notify(r.resolved, r.env)];
    if fd in w.table then Progress(Deliver(w, fd, BlockEvent, r.env, None, r.resolved), p.delivered + [fd], es)
    else p.(events := es)
  }

  /** The loop over the first `k` jobs. */
  function TakeAll(w: World, k: nat, rs: Resolutions): Progress
    requires k <= |w.jobs|
  {
    if k == 0 then Progress(Continue(w), [], [])
    else
      var p := TakeAll(w, k - 1, rs);
      if p.outcome.Fault? then p else Take(p, w.jobs[k - 1], rs(k - 1))
  }

  /** `handle_block_notifications`: the list is emptied once all of it has been taken. */
  function Drained(w: World, rs: Resolutions): Outcome {
    var o := TakeAll(w, |w.jobs|, rs).outcome;
    if o.Fault? then Fault else Continue(o.world.(jobs := []))
  }

  // ----- Handlers do not see the list -----

  function WithJobs(o: Outcome, jobs: seq<int>): Outcome {
    if o.Fault? then Fault else Continue(o.world.(jobs := jobs))
  }

  lemma CloseIgnoresJobs(w: World, fd: int, jobs: seq<int>)
    ensures CloseFd(w.(jobs := jobs), fd) == WithJobs(CloseFd(w, fd), jobs)
  {
  }

  lemma FinishIgnoresJobs(w: World, id: nat, jobs: seq<int>)
    requires id in w.conns
    ensures Finish(w.(jobs := jobs), id) == WithJobs(Finish(w, id), jobs)
  {
    var c := w.conns[id];
    CloseIgnoresJobs(w, c.clientFd, jobs);
    if c.clientFd == -1 {
      CloseIgnoresJobs(w, c.originFd, jobs);
    } else if CloseFd(w, c.clientFd).Continue? {
      CloseIgnoresJobs(CloseFd(w, c.clientFd).world, c.originFd, jobs);
    }
  }

  lemma AcceptIgnoresJobs(w: World, accepted: Option<int>, jobs: seq<int>)
    ensures Accept(w.(jobs := jobs), accepted) == WithJobs(Accept(w, accepted), jobs)
  {
  }

  /** The world after a handler whose connection leaves `b1` and moves to `next`. */
  function Moved(w: World, id: nat, b: Bundle, b1: Bundle, kind: Kind, env: Env, next: nat): Outcome
    requires id in w.conns && w.conns[id].clientFd in w.table
  {
    if !b1.conn.wb.Valid() || (next == COPY && b1.conn.current != Some(COPY) && b1.origin.None?) then Fault
    else if b.conn.current == Some(COPY) && next == DONE && w.counters.concurrent == 0 then Fault
    else
      var w' := Jumped(w, id, b, Arrive(b1, next, env), kind, env, next);
      if Terminal(next) then Finish(w', id) else Continue(w')
  }

  lemma HandlerMoves(w: World, id: nat, side: Side, kind: Kind, env: Env, resolved: bool, b: Bundle, b1: Bundle, next: nat)
    requires id in w.conns && w.conns[id].clientFd in w.table && b == HandleFirst(BundleOf(w, id), w.authMethod)
    requires Reactable(b, side, kind, env) && React(b, side, kind, env, w.users, resolved) == (b1, next)
    ensures HandleConn(w, id, side, kind, env, resolved) == Moved(w, id, b, b1, kind, env, next)
  {
  }

  lemma MovedIgnoresJobs(w: World, id: nat, b: Bundle, b1: Bundle, kind: Kind, env: Env, next: nat, jobs: seq<int>)
    requires id in w.conns && w.conns[id].clientFd in w.table
    ensures Moved(w.(jobs := jobs), id, b, b1, kind, env, next) == WithJobs(Moved(w, id, b, b1, kind, env, next), jobs)
  {
    if b1.conn.wb.Valid() && (next == COPY && b1.conn.current != Some(COPY) ==> b1.origin.Some?) {
      FinishIgnoresJobs(Jumped(w, id, b, Arrive(b1, next, env), kind, env, next), id, jobs);
    }
  }

  lemma HandlerIgnoresJobs(w: World, id: nat, side: Side, kind: Kind, env: Env, resolved: bool, jobs: seq<int>)
    requires id in w.conns && w.conns[id].clientFd in w.table
    ensures HandleConn(w.(jobs := jobs), id, side, kind, env, resolved)
            == WithJobs(HandleConn(w, id, side, kind, env, resolved), jobs)
  {
    var b := HandleFirst(BundleOf(w, id), w.authMethod);
    assert BundleOf(w.(jobs := jobs), id) == BundleOf(w, id);
    if Reactable(b, side, kind, env) {
      var (b1, next) := React(b, side, kind, env, w.users, resolved);
      HandlerMoves(w, id, side, kind, env, resolved, b, b1, next);
      HandlerMoves(w.(jobs := jobs), id, side, kind, env, resolved, b, b1, next);
      MovedIgnoresJobs(w, id, b, b1, kind, env, next, jobs);
    }
  }

  lemma DeliverIgnoresJobs(w: World, fd: int, kind: Kind, env: Env, accepted: Option<int>, resolved: bool, jobs: seq<int>)
    requires fd in w.table
    ensures Deliver(w.(jobs := jobs), fd, kind, env, accepted, resolved)
            == WithJobs(Deliver(w, fd, kind, env, accepted, resolved), jobs)
  {
    var slot := w.table[fd];
    if slot.handler == PassiveHandler {
      AcceptIgnoresJobs(w, accepted, jobs);
    } else if slot.data in w.conns && w.conns[slot.data].clientFd in w.table {
      HandlerIgnoresJobs(w, slot.data, SideOf(w.conns[slot.data], fd), kind, env, resolved, jobs);
    }
  }

  // ----- Draining is a run -----

  /** `p` is what the events of the proxy make of `w`, while `rest` is what is left of the list. */
  ghost predicate Follows(w: World, p: Progress, rest: seq<int>) {
    p.outcome.Continue? && IsRun(w, p.events) && Run(w, p.events) == WithJobs(p.outcome, rest)
    && Inv(p.outcome.world.(jobs := rest))
  }

  ghost predicate TakeAllowed(p: Progress, fd: int, r: Resolution) {
    p.outcome.Continue? ==> EnvAllowed(p.outcome.world, r.env) && ResultsPossible(p.outcome.world, fd, BlockEvent, r.env)
  }

  ghost predicate AllowedAt(w: World, k: nat, rs: Resolutions) {
    k < |w.jobs| ==> TakeAllowed(TakeAll(w, k, rs), w.jobs[k], rs(k))
  }

  /** The answers to the calls made for each job are ones that the operating system can give. */
  ghost predicate DrainAllowed(w: World, rs: Resolutions) {
    forall k: nat :: AllowedAt(w, k, rs)
  }

  /** Taking a job that waits at the head of what is left of the list is the proxy's event for it. */
  lemma TakeIsNotify(v: World, fd: int, rest: seq<int>, r: Resolution)
    requires var w := v.(jobs := [fd] + rest);
             Inv(w) && EnvAllowed(w, r.env) && ResultsPossible(w, fd, BlockEvent, r.env)
    ensures var w, e := v.(jobs := [fd] + rest), Notify(r.resolved, r.env);
            && fd in v.table && CanHappen(w, e)
            && Step(w, e) == WithJobs(Deliver(v, fd, BlockEvent, r.env, None, r.resolved), rest)
            && Step(w, e).Continue? && Inv(Step(w, e).world)
  {
    var w := v.(jobs := [fd] + rest);
    assert ([fd] + rest)[1..] == rest;
    JobIsWaitedFor(w);
    DeliverIgnoresJobs(v, fd, BlockEvent, r.env, None, r.resolved, rest);
    NotifyOk(w, r.resolved, r.env);
  }

  lemma SameAllowed(v: World, fd: int, jobs: seq<int>, env: Env)
    requires EnvAllowed(v, env) && ResultsPossible(v, fd, BlockEvent, env)
    ensures EnvAllowed(v.(jobs := jobs), env) && ResultsPossible(v.(jobs := jobs), fd, BlockEvent, env)
  {
    var w := v.(jobs := jobs);
    if fd in w.table && w.table[fd].data in w.conns && w.conns[w.table[fd].data].clientFd in w.table {
      assert BundleOf(w, w.table[fd].data) == BundleOf(v, w.table[fd].data);
    }
  }

  /** `q` is what becomes of `p` when the client `fd` has been notified. */
  ghost predicate OneMore(w: World, p: Progress, q: Progress, fd: int, rest: seq<int>, r: Resolution) {
    && Follows(w, q, rest) && q.delivered == p.delivered + [fd]
    && q.events == p.events + [Notify(r.resolved, r.env)]
  }

  lemma TakeFollows(w: World, p: Progress, fd: int, rest: seq<int>, r: Resolution)
    requires Follows(w, p, [fd] + rest) && TakeAllowed(p, fd, r)
    ensures OneMore(w, p, Take(p, fd, r), fd, rest, r)
  {
    SameAllowed(p.outcome.world, fd, [fd] + rest, r.env);
    TakeIsNotify(p.outcome.world, fd, rest, r);
    PassModule.RunOneMore(w, p.events, Notify(r.resolved, r.env));
  }

  /** The first `k` jobs have been delivered, each with its result. */
  predicate Notifies(jobs: seq<int>, rs: Resolutions, k: nat, delivered: seq<int>, es: seq<Event>) {
    && k <= |jobs| && delivered == jobs[..k]
    && |es| == k && forall j: nat :: j < k ==> es[j] == Notify(rs(j).resolved, rs(j).env)
  }

  lemma OneMoreNotified(jobs: seq<int>, rs: Resolutions, k: nat, delivered: seq<int>, es: seq<Event>)
    requires k < |jobs| && Notifies(jobs, rs, k, delivered, es)
    ensures Notifies(jobs, rs, k + 1, delivered + [jobs[k]], es + [Notify(rs(k).resolved, rs(k).env)])
  {
  }

  /** The first `k` jobs of the list have been taken. */
  ghost predicate HasTaken(w: World, rs: Resolutions, k: nat, p: Progress) {
    Notifies(w.jobs, rs, k, p.delivered, p.events) && Follows(w, p, w.jobs[k..])
  }

  lemma NothingTaken(w: World, rs: Resolutions)
    requires Inv(w)
    ensures HasTaken(w, rs, 0, Progress(Continue(w), [], []))
  {
    assert w.(jobs := w.jobs[0..]) == w;
  }

  lemma OneMoreTaken(w: World, rs: Resolutions, k: nat, p: Progress)
    requires k < |w.jobs| && HasTaken(w, rs, k, p) && TakeAllowed(p, w.jobs[k], rs(k))
    ensures HasTaken(w, rs, k + 1, Take(p, w.jobs[k], rs(k)))
  {
    OneMoreNotified(w.jobs, rs, k, p.delivered, p.events);
    HeadOfList(w.jobs, k);
    TakeFollows(w, p, w.jobs[k], w.jobs[k + 1..], rs(k));
  }

  lemma HeadOfList(jobs: seq<int>, k: nat)
    requires k < |jobs|
    ensures jobs[k..] == [jobs[k]] + jobs[k + 1..]
  {
  }

  /** What holds at first, and from each number to the next, holds up to `n`. */
  lemma {:induction false} UpTo(holds: nat -> bool, n: nat)
    requires holds(0) && forall k: nat :: k < n && holds(k) ==> holds(k + 1)
    ensures holds(n)
  {
    if n > 0 {
      UpTo(holds, n - 1);
    }
  }

  ghost predicate TakenUpTo(w: World, rs: Resolutions, k: nat) {
    k <= |w.jobs| && HasTaken(w, rs, k, TakeAll(w, k, rs))
  }

  lemma AllTaken(w: World, rs: Resolutions)
    requires Inv(w) && DrainAllowed(w, rs)
    ensures TakenUpTo(w, rs, |w.jobs|)
  {
    NothingTaken(w, rs);
    forall k: nat | k < |w.jobs| && TakenUpTo(w, rs, k)
      ensures TakenUpTo(w, rs, k + 1)
    {
      HaveTakenNext(w, rs, k, TakeAll(w, k, rs), TakeAll(w, k + 1, rs));
    }
    UpTo((k: nat) => TakenUpTo(w, rs, k), |w.jobs|);
  }

  lemma HaveTakenNext(w: World, rs: Resolutions, k: nat, p: Progress, q: Progress)
    requires k < |w.jobs| && DrainAllowed(w, rs) && HasTaken(w, rs, k, p)
    requires p == TakeAll(w, k, rs) && q == TakeAll(w, k + 1, rs)
    ensures HasTaken(w, rs, k + 1, q)
  {
    assert AllowedAt(w, k, rs);
    OneMoreTaken(w, rs, k, p);
    TakesNext(w, rs, k);
  }

  lemma TakesNext(w: World, rs: Resolutions, k: nat)
    requires k < |w.jobs| && TakeAll(w, k, rs).outcome.Continue?
    ensures TakeAll(w, k + 1, rs) == Take(TakeAll(w, k, rs), w.jobs[k], rs(k))
  {
  }

  /**
   Draining the list of a reachable proxy is a run of the proxy, one event for each job; none faults, and every job,
   in the order of the list, is delivered to its descriptor. The list is empty afterwards.
   */
  lemma DrainIsRun(w0: World, es: seq<Event>, w: World, rs: Resolutions)
    requires Reaches(w0, es, w) && DrainAllowed(w, rs)
    ensures var p := TakeAll(w, |w.jobs|, rs);
            && p.delivered == w.jobs && Notifies(w.jobs, rs, |w.jobs|, p.delivered, p.events)
            && IsRun(w, p.events) && Drained(w, rs).Continue? && Run(w, p.events) == Drained(w, rs)
            && Drained(w, rs).world.jobs == []
  {
    ReachedInv(w0, es, w);
    AllTaken(w, rs);
    assert w.jobs[|w.jobs|..] == [] && w.jobs[..|w.jobs|] == w.jobs;
  }
}
