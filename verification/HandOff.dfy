/**
 The hand-off of finished name resolutions from resolver threads to the selector thread: a list protected by a
 mutex, and a signal that is blocked except while the selector sleeps in `pselect`.

 Every interleaving of the atomic actions of both sides is a run of this state machine.
 */
module HandOffModule {

  /** A resolver thread runs `selector_notify_block` once; its number stands for its job. */
  datatype Pc = Resolving | HasMutex | Linked | Released | Signalled

  /**
   The selector thread: dispatching (signal blocked), inside `pselect` (signal unblocked), returned from it and
   not yet at the list, or draining the list with the mutex held. `Draining` has delivered `cursor` jobs.
   */
  datatype Phase = Dispatching | Sleeping | Awake | Draining(cursor: nat)

  datatype Holder = Nobody | SelectorThread | Resolver(thread: nat)

  datatype State = State(
    threads: map<nat, Pc>, mutex: Holder, jobs: seq<nat>, pending: bool, phase: Phase, delivered: seq<nat>)

  const INITIAL := State(map[], Nobody, [], false, Dispatching, [])

  datatype Event =
    | Spawn(t: nat) | Lock(t: nat) | Link(t: nat) | Unlock(t: nat) | Signal(t: nat)
    | Sleep | Interrupted | Ready | LockList | Deliver | UnlockList

  predicate ThreadAt(s: State, t: nat, pc: Pc) {
    t in s.threads && s.threads[t] == pc
  }

  predicate Enabled(s: State, e: Event) {
    match e
    case Spawn(t) => t !in s.threads && (s.phase.Dispatching? || s.phase.Awake?)
    case Lock(t) => ThreadAt(s, t, Resolving) && s.mutex == Nobody
    case Link(t) => ThreadAt(s, t, HasMutex)
    case Unlock(t) => ThreadAt(s, t, Linked)
    case Signal(t) => ThreadAt(s, t, Released)
    case Sleep => s.phase.Dispatching?
    case Interrupted => s.phase.Sleeping? && s.pending
    case Ready => s.phase.Sleeping?
    case LockList => s.phase.Awake? && s.mutex == Nobody
    case Deliver => s.phase.Draining? && s.phase.cursor < |s.jobs|
    case UnlockList => s.phase.Draining? && s.phase.cursor == |s.jobs|
  }

  /** `Ready` is a return of `pselect` for a ready descriptor or a timeout; it leaves a pending signal pending. */
  function Step(s: State, e: Event): State
    requires Enabled(s, e)
  {
    match e
    case Spawn(t) => s.(threads := s.threads[t := Resolving])
    case Lock(t) => s.(threads := s.threads[t := HasMutex], mutex := Resolver(t))
    case Link(t) => s.(threads := s.threads[t := Linked], jobs := [t] + s.jobs)
    case Unlock(t) => s.(threads := s.threads[t := Released], mutex := Nobody)
    case Signal(t) => s.(threads := s.threads[t := Signalled], pending := true)
    case Sleep => s.(phase := Sleeping)
    case Interrupted => s.(pending := false, phase := Awake)
    case Ready => s.(phase := Awake)
    case LockList => s.(mutex := SelectorThread, phase := Draining(0))
    case Deliver => s.(delivered := s.delivered + [s.jobs[s.phase.cursor]], phase := Draining(s.phase.cursor + 1))
    case UnlockList => s.(mutex := Nobody, jobs := [], phase := Dispatching)
  }

  predicate IsRun(s: State, es: seq<Event>)
    decreases |es|
  {
    es == [] || (Enabled(s, es[0]) && IsRun(Step(s, es[0]), es[1..]))
  }

  function Run(s: State, es: seq<Event>): State
    requires IsRun(s, es)
    decreases |es|
  {
    if es == [] then s else Run(Step(s, es[0]), es[1..])
  }

  // ----- The invariant -----

  /** The jobs of the list that have not been delivered. */
  function Waiting(s: State): seq<nat> {
    if s.phase.Draining? && s.phase.cursor <= |s.jobs| then s.jobs[s.phase.cursor..] else s.jobs
  }

  /** Some thread has linked its job and not yet sent its signal. */
  ghost predicate SignalComing(s: State) {
    exists t :: Coming(s, t)
  }

  predicate HasLinked(pc: Pc) {
    pc.Linked? || pc.Released? || pc.Signalled?
  }

  function Once(b: bool): nat {
    if b then 1 else 0
  }

  /** A job is delivered or waiting exactly once if its thread has linked it, and not at all before. */
  ghost predicate EachJobOnce(s: State) {
    forall t: nat ::
      multiset(s.delivered)[t] + multiset(Waiting(s))[t] == Once(t in s.threads && HasLinked(s.threads[t]))
  }

  ghost predicate MutexInv(s: State) {
    && (forall t :: ThreadAt(s, t, HasMutex) || ThreadAt(s, t, Linked) ==> s.mutex == Resolver(t))
    && (s.phase.Draining? <==> s.mutex == SelectorThread)
    && (s.phase.Draining? ==> s.phase.cursor <= |s.jobs|)
  }

  /** Outside the stretch from waking to draining, an unnoticed job has a signal pending or coming. */
  ghost predicate NotLost(s: State) {
    (s.phase.Dispatching? || s.phase.Sleeping?) && s.jobs != [] ==> s.pending || SignalComing(s)
  }

  ghost predicate Inv(s: State) {
    MutexInv(s) && EachJobOnce(s) && NotLost(s)
  }

  lemma MutexStep(s: State, e: Event)
    requires Inv(s) && Enabled(s, e)
    ensures MutexInv(Step(s, e))
  {
  }

  predicate Coming(s: State, t: nat) {
    ThreadAt(s, t, Linked) || ThreadAt(s, t, Released)
  }

  lemma NotLostStep(s: State, e: Event)
    requires Inv(s) && Enabled(s, e)
    ensures NotLost(Step(s, e))
  {
    var s' := Step(s, e);
    if e.Link? || e.Unlock? {
      assert Coming(s', e.t);
    } else if !e.Signal? {
      forall t | Coming(s, t)
        ensures Coming(s', t)
      {
      }
    }
  }

  /** A step that changes neither what is delivered nor what waits, nor which threads have linked. */
  lemma JobsUntouched(s: State, s': State)
    requires EachJobOnce(s) && s'.delivered == s.delivered && Waiting(s') == Waiting(s)
    requires forall t: nat :: (t in s'.threads && HasLinked(s'.threads[t])) <==> (t in s.threads && HasLinked(s.threads[t]))
    ensures EachJobOnce(s')
  {
  }

  lemma LinkStep(s: State, t: nat)
    requires Inv(s) && Enabled(s, Link(t))
    ensures EachJobOnce(Step(s, Link(t)))
  {
    var s' := Step(s, Link(t));
    assert !s.phase.Draining?;
    forall u: nat
      ensures multiset(Waiting(s'))[u] == multiset(Waiting(s))[u] + Once(u == t)
      ensures (u in s'.threads && HasLinked(s'.threads[u])) <==> (u in s.threads && HasLinked(s.threads[u])) || u == t
    {
      assert multiset([t] + s.jobs) == multiset{t} + multiset(s.jobs);
    }
  }

  lemma DeliverStep(s: State)
    requires Inv(s) && Enabled(s, Deliver)
    ensures EachJobOnce(Step(s, Deliver))
  {
    var s' := Step(s, Deliver);
    var c := s.phase.cursor;
    var job := s.jobs[c];
    assert s.jobs[c..] == [job] + s.jobs[c + 1..];
    forall u: nat
      ensures multiset(Waiting(s))[u] == multiset(Waiting(s'))[u] + Once(u == job)
      ensures multiset(s'.delivered)[u] == multiset(s.delivered)[u] + Once(u == job)
    {
      assert multiset([job] + s.jobs[c + 1..]) == multiset{job} + multiset(s.jobs[c + 1..]);
    }
  }

  lemma EachJobOnceStep(s: State, e: Event)
    requires Inv(s) && Enabled(s, e)
    ensures EachJobOnce(Step(s, e))
  {
    if e.Link? {
      LinkStep(s, e.t);
    } else if e.Deliver? {
      DeliverStep(s);
    } else {
      var s' := Step(s, e);
      assert Waiting(s') == Waiting(s);
      JobsUntouched(s, s');
    }
  }

  /** Every reachable state satisfies the invariant, with any number of threads and any interleaving. */
  lemma {:induction false} InvHolds(s: State, es: seq<Event>)
    requires Inv(s) && IsRun(s, es)
    ensures Inv(Run(s, es))
    decreases |es|
  {
    if es != [] {
      MutexStep(s, es[0]);
      EachJobOnceStep(s, es[0]);
      NotLostStep(s, es[0]);
      InvHolds(Step(s, es[0]), es[1..]);
    }
  }

  lemma InitialInv()
    ensures Inv(INITIAL)
  {
  }

  /**
   No lost wake-up: whenever the selector sleeps while a job is in the list, a signal is pending, or a thread
   that has linked its job is yet to send one.
   */
  lemma NoLostWakeUp(es: seq<Event>)
    requires IsRun(INITIAL, es)
    ensures var s := Run(INITIAL, es);
            s.phase.Sleeping? && s.jobs != [] ==> s.pending || SignalComing(s)
  {
    InitialInv();
    InvHolds(INITIAL, es);
  }

  ghost predicate AllSignalled(s: State) {
    forall t :: t in s.threads ==> s.threads[t] == Signalled
  }

  /** Once every thread is through, a selector asleep over a job can be interrupted at once. */
  lemma NeverStuckAsleep(es: seq<Event>)
    requires IsRun(INITIAL, es)
    ensures var s := Run(INITIAL, es);
            s.phase.Sleeping? && s.jobs != [] && AllSignalled(s) ==> Enabled(s, Interrupted)
  {
    NoLostWakeUp(es);
  }

  /** No job is delivered twice, and none before its thread has linked it. */
  lemma DeliveredAtMostOnce(es: seq<Event>, t: nat)
    requires IsRun(INITIAL, es)
    ensures var s := Run(INITIAL, es);
            && multiset(s.delivered)[t] <= 1
            && (t in s.delivered ==> t in s.threads && HasLinked(s.threads[t]))
            && (t in s.delivered ==> t !in Waiting(s))
  {
    InitialInv();
    InvHolds(INITIAL, es);
    var s := Run(INITIAL, es);
    assert t in s.delivered <==> t in multiset(s.delivered);
    assert t in Waiting(s) <==> t in multiset(Waiting(s));
  }

  /** A drain takes the whole list: when the selector dispatches again, every job linked before that was delivered. */
  lemma DrainIsComplete(es: seq<Event>, t: nat)
    requires IsRun(INITIAL, es + [UnlockList])
    ensures var s := Run(INITIAL, es + [UnlockList]);
            t in s.threads && HasLinked(s.threads[t]) <==> t in s.delivered
  {
    InitialInv();
    InvHolds(INITIAL, es + [UnlockList]);
    RunSnoc(INITIAL, es, UnlockList);
    var s := Run(INITIAL, es + [UnlockList]);
    assert t in s.delivered <==> t in multiset(s.delivered);
  }

  lemma {:induction false} RunSnoc(s: State, es: seq<Event>, e: Event)
    requires IsRun(s, es + [e])
    ensures IsRun(s, es) && Enabled(Run(s, es), e) && Run(s, es + [e]) == Step(Run(s, es), e)
    decreases |es|
  {
    var all := es + [e];
    if es == [] {
      assert all[1..] == [];
    } else {
      assert all[1..] == es[1..] + [e];
      RunSnoc(Step(s, es[0]), es[1..], e);
    }
  }
}
