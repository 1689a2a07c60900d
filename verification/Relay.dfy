/**
 The COPY state: two buffers cross-wired between the client's and the origin's descriptors, a read and a write
 flag per descriptor, and the interests recomputed after every event.
 */
module RelayModule {

  import opened Base
  import opened Buffers
  import opened SelectorTable
  datatype Side = Client | Origin {
    function Other(): Side {
      if Client? then Origin else Client
    }
  }

  /** `flags` are what a side may still do, `armed` what the selector watches for it. */
  datatype End = End(flags: Interest, armed: Interest)

  /** `toOrigin` is filled from the client and drained to the origin; `toClient` the other way around. */
  datatype Relay = Relay(client: End, origin: End, toOrigin: Buf, toClient: Buf) {

    function At(side: Side): End {
      if side.Client? then client else origin
    }

    /** The buffer that a side fills. */
    function From(side: Side): Buf {
      if side.Client? then toOrigin else toClient
    }

    /** The buffer that a side drains. */
    function To(side: Side): Buf {
      From(side.Other())
    }

    function WithFlags(side: Side, flags: Interest): Relay {
      if side.Client? then this.(client := client.(flags := flags)) else this.(origin := origin.(flags := flags))
    }

    function WithFrom(side: Side, b: Buf): Relay {
      if side.Client? then this.(toOrigin := b) else this.(toClient := b)
    }
  }

  /** `copy_compute_interests`: read only with room, write only with bytes. */
  function Wanted(flags: Interest, rb: Buf, wb: Buf): Interest {
    Interest(flags.read && rb.CanWrite(), flags.write && wb.CanRead())
  }

  function Rearm(r: Relay): Relay {
    r.(client := r.client.(armed := Wanted(r.client.flags, r.toOrigin, r.toClient)),
       origin := r.origin.(armed := Wanted(r.origin.flags, r.toClient, r.toOrigin)))
  }

  const BOTH := Interest(true, true)

  /** `copy_init`, with whatever the request stage left in the two buffers. */
  function Begin(toOrigin: Buf, toClient: Buf): Relay {
    Rearm(Relay(End(BOTH, NOOP), End(BOTH, NOOP), toOrigin, toClient))
  }

  /**
   `Recv(side, Some(chunk))` is a `recv` that returns at least one byte; `Recv(side, None)` is one that returns
   zero or fails. `Send(side, Some(n))` is a `send` that takes `n` bytes, `Send(side, None)` one that fails.
   */
  datatype Event = Recv(side: Side, data: Option<seq<Byte>>) | Send(side: Side, count: Option<nat>)

  predicate Enabled(r: Relay, e: Event) {
    match e
    case Recv(side, data) =>
      r.At(side).armed.read && (data.Some? ==> 0 < |data.value| <= r.From(side).Room())
    case Send(side, count) =>
      r.At(side).armed.write && (count.Some? ==> count.value <= |r.To(side).bytes|)
  }

  /** Closes the direction from `side` to the other side: no more reading here, no more writing there. */
  function Close(r: Relay, side: Side): Relay {
    var q := r.WithFlags(side, r.At(side).flags.(read := false));
    q.WithFlags(side.Other(), q.At(side.Other()).flags.(write := false))
  }

  function Step(r: Relay, e: Event): Relay
    requires r.toOrigin.Valid() && r.toClient.Valid() && Enabled(r, e)
  {
    match e
    case Recv(side, data) =>
      if data.None? then Rearm(Close(r, side))
      else Rearm(r.WithFrom(side, r.From(side).Append(data.value)))
    case Send(side, count) =>
      if count.None? then Rearm(Close(r, side.Other()))
      else Rearm(r.WithFrom(side.Other(), r.To(side).Advance(count.value)))
  }

  /** The handler returns DONE: the side it acted on has nothing left to do. */
  predicate Ends(r: Relay, e: Event)
    requires r.toOrigin.Valid() && r.toClient.Valid() && Enabled(r, e)
  {
    Step(r, e).At(e.side).flags == NOOP
  }

  predicate IsRun(r: Relay, es: seq<Event>)
    decreases |es|
  {
    es == [] || (r.toOrigin.Valid() && r.toClient.Valid() && Enabled(r, es[0]) && IsRun(Step(r, es[0]), es[1..]))
  }

  function Run(r: Relay, es: seq<Event>): Relay
    requires IsRun(r, es)
    decreases |es|
  {
    if es == [] then r else Run(Step(r, es[0]), es[1..])
  }

  // ----- The invariant -----

  /** The direction that starts at `side` can still carry bytes. */
  predicate Open(r: Relay, side: Side) {
    r.At(side).flags.read
  }

  ghost predicate Inv(r: Relay) {
    && r.toOrigin.Valid() && r.toOrigin.limit > 0
    && r.toClient.Valid() && r.toClient.limit > 0
    && r.client.flags.read == r.origin.flags.write
    && r.origin.flags.read == r.client.flags.write
    && r == Rearm(r)
  }

  lemma StepKeepsInv(r: Relay, e: Event)
    requires Inv(r) && Enabled(r, e)
    ensures Inv(Step(r, e))
    ensures Ends(r, e) <==> !Open(Step(r, e), Client) && !Open(Step(r, e), Origin)
  {
  }

  lemma {:induction false} RunKeepsInv(r: Relay, es: seq<Event>)
    requires Inv(r) && IsRun(r, es)
    ensures Inv(Run(r, es))
    decreases |es|
  {
    if es != [] {
      StepKeepsInv(r, es[0]);
      RunKeepsInv(Step(r, es[0]), es[1..]);
    }
  }

  lemma BeginInv(toOrigin: Buf, toClient: Buf)
    requires toOrigin.Valid() && toClient.Valid() && toOrigin.limit > 0 && toClient.limit > 0
    ensures Inv(Begin(toOrigin, toClient))
    ensures forall side :: Open(Begin(toOrigin, toClient), side)
    ensures Begin(toOrigin, toClient).From(Client) == toOrigin && Begin(toOrigin, toClient).From(Origin) == toClient
  {
  }

  /** What the selector watches in any reachable state, and why a `recv` of zero bytes means end of stream. */
  lemma InterestMirrorsOccupancy(r: Relay, es: seq<Event>, side: Side)
    requires Inv(r) && IsRun(r, es)
    ensures var q := Run(r, es);
            && (q.At(side).armed.read <==> q.At(side).flags.read && q.From(side).Room() > 0)
            && (q.At(side).armed.write <==> q.At(side).flags.write && q.To(side).bytes != [])
  {
    RunKeepsInv(r, es);
  }

  /** No stuck direction: reading here and writing there go together, and an open direction always has one armed. */
  lemma NoStuckDirection(r: Relay, es: seq<Event>, side: Side)
    requires Inv(r) && IsRun(r, es)
    ensures var q := Run(r, es);
            && (q.At(side).flags.read <==> q.At(side.Other()).flags.write)
            && (Open(q, side) <==> q.At(side).armed.read || q.At(side.Other()).armed.write)
  {
    RunKeepsInv(r, es);
  }

  /** DONE is returned by a step exactly when it leaves both directions closed, and then nothing is armed. */
  lemma DoneExactlyWhenClosed(r: Relay, es: seq<Event>, e: Event)
    requires Inv(r) && IsRun(r, es) && Enabled(Run(r, es), e)
    ensures Run(r, es).toOrigin.Valid() && Run(r, es).toClient.Valid()
    ensures var q := Step(Run(r, es), e);
            && (Ends(Run(r, es), e) <==> !Open(q, Client) && !Open(q, Origin))
            && (Ends(Run(r, es), e) <==> q.client.armed == NOOP && q.origin.armed == NOOP)
  {
    RunKeepsInv(r, es);
    StepKeepsInv(Run(r, es), e);
  }

  // ----- Integrity -----

  function Received(e: Event, side: Side): seq<Byte> {
    match e
    case Recv(s, Some(chunk)) => if s == side then chunk else []
    case _ => []
  }

  function Sent(r: Relay, e: Event, side: Side): seq<Byte>
    requires r.toOrigin.Valid() && r.toClient.Valid() && Enabled(r, e)
  {
    match e
    case Send(s, Some(n)) => if s == side then r.To(side).bytes[..n] else []
    case _ => []
  }

  /** The bytes received from a side. */
  function Input(es: seq<Event>, side: Side): seq<Byte> {
    if es == [] then [] else Received(es[0], side) + Input(es[1..], side)
  }

  /** The bytes sent to a side. */
  function Output(r: Relay, es: seq<Event>, side: Side): seq<Byte>
    requires IsRun(r, es)
    decreases |es|
  {
    if es == [] then [] else Sent(r, es[0], side) + Output(Step(r, es[0]), es[1..], side)
  }

  lemma StepConserves(r: Relay, e: Event, side: Side)
    requires Inv(r) && Enabled(r, e)
    ensures r.From(side).bytes + Received(e, side) == Sent(r, e, side.Other()) + Step(r, e).From(side).bytes
  {
    var before, after := r.From(side), Step(r, e).From(side);
    match e
    case Recv(s, data) =>
      if data.Some? && s == side {
        assert after.bytes == before.bytes + data.value;
      }
    case Send(s, count) =>
      if count.Some? && s.Other() == side {
        assert before.bytes == before.bytes[..count.value] + after.bytes;
      }
  }

  /**
   Relay integrity: for every interleaving of partial reads, partial writes, ends of stream and errors, what a
   direction had in its buffer followed by what it received is what it sent followed by what it still holds.
   */
  lemma {:induction false} Integrity(r: Relay, es: seq<Event>, side: Side)
    requires Inv(r) && IsRun(r, es)
    ensures r.From(side).bytes + Input(es, side) == Output(r, es, side.Other()) + Run(r, es).From(side).bytes
    decreases |es|
  {
    if es != [] {
      var e, rest := es[0], es[1..];
      var q := Step(r, e);
      StepConserves(r, e, side);
      StepKeepsInv(r, e);
      Integrity(q, rest, side);
      Regroup(r.From(side).bytes, Received(e, side), Input(rest, side), Sent(r, e, side.Other()),
              Output(q, rest, side.Other()), q.From(side).bytes, Run(r, es).From(side).bytes);
    }
  }

  lemma Regroup<T>(b: seq<T>, i: seq<T>, j: seq<T>, o: seq<T>, p: seq<T>, c: seq<T>, d: seq<T>)
    requires b + i == o + c && c + j == p + d
    ensures b + (i + j) == (o + p) + d
  {
    calc {
      b + (i + j);
      (b + i) + j;
      o + (c + j);
      o + (p + d);
      (o + p) + d;
    }
  }

  /** What reaches a peer is always an exact prefix of what was meant for it, pipelined bytes first. */
  lemma OutputIsPrefix(r: Relay, es: seq<Event>, side: Side)
    requires Inv(r) && IsRun(r, es)
    ensures Output(r, es, side.Other()) <= r.From(side).bytes + Input(es, side)
  {
    Integrity(r, es, side);
  }

  lemma {:induction false} ClosedIsFrozen(r: Relay, es: seq<Event>, side: Side)
    requires Inv(r) && IsRun(r, es) && !Open(r, side)
    ensures Input(es, side) == [] && Output(r, es, side.Other()) == []
    ensures Run(r, es).From(side) == r.From(side) && !Open(Run(r, es), side)
    decreases |es|
  {
    if es != [] {
      StepKeepsInv(r, es[0]);
      ClosedIsFrozen(Step(r, es[0]), es[1..], side);
    }
  }

  /** `Recv(side, None)` or a failed send on the other side. */
  predicate Closes(e: Event, side: Side) {
    e == Recv(side, None) || e == Send(side.Other(), None)
  }

  lemma StepCloses(r: Relay, e: Event, side: Side)
    requires Inv(r) && Enabled(r, e)
    ensures Open(Step(r, e), side) <==> Open(r, side) && !Closes(e, side)
  {
  }

  /** A direction is open until the end of its stream, or a failure to send on it, whatever happens to the other one. */
  lemma {:induction false} OpenUntilClosed(r: Relay, es: seq<Event>, side: Side)
    requires Inv(r) && IsRun(r, es)
    ensures Open(Run(r, es), side) <==> Open(r, side) && forall e :: e in es ==> !Closes(e, side)
    decreases |es|
  {
    if es != [] {
      StepCloses(r, es[0], side);
      StepKeepsInv(r, es[0]);
      OpenUntilClosed(Step(r, es[0]), es[1..], side);
    }
  }

  /**
   End of stream closes a direction for good, also for the bytes it still holds: everything received is
   delivered in the end if and only if the buffer was empty when the direction closed.
   */
  lemma DeliveredIffDrained(r: Relay, es: seq<Event>, e: Event, more: seq<Event>, side: Side)
    requires Inv(r) && IsRun(r, es) && Closes(e, side)
    requires Inv(Run(r, es)) && Enabled(Run(r, es), e) && IsRun(Step(Run(r, es), e), more)
    ensures IsRun(r, es + [e] + more)
    ensures Output(r, es + [e] + more, side.Other()) == r.From(side).bytes + Input(es + [e] + more, side)
            <==> Run(r, es).From(side).bytes == []
  {
    var q := Run(r, es);
    StepKeepsInv(q, e);
    RunConcat(r, es, [e] + more);
    assert ([e] + more)[1..] == more;
    assert es + [e] + more == es + ([e] + more);
    ClosedIsFrozen(Step(q, e), more, side);
    Integrity(r, es + [e] + more, side);
    var left := Run(r, es + [e] + more).From(side).bytes;
    assert left == q.From(side).bytes;
    var sent := Output(r, es + [e] + more, side.Other());
    assert sent + left == sent <==> left == [] by {
      assert |sent + left| == |sent| + |left|;
    }
  }

  /** Bytes that were received are lost when the stream ends before they are sent. */
  lemma ReceivedBytesCanBeLost(x: Byte)
    ensures var r := Begin(Empty(2048), Empty(2048));
            var es := [Recv(Client, Some([x])), Recv(Client, None)];
            && Inv(r) && IsRun(r, es)
            && Input(es, Client) == [x] && Output(r, es, Origin) == []
            && !Open(Run(r, es), Client) && Run(r, es).From(Client).bytes == [x]
  {
    var r := Begin(Empty(2048), Empty(2048));
    var first, last := Recv(Client, Some([x])), Recv(Client, None);
    assert [first, last][1..] == [last] && [last][1..] == [];
    var q := Step(r, first);
    assert q.From(Client).bytes == [x];
    assert Input([last], Client) == [];
    assert Run(q, [last]) == Run(Step(q, last), []) == Step(q, last);
    assert Output(q, [last], Origin) == [] + Output(Step(q, last), [], Origin) == [];
  }

  lemma {:induction false} RunConcat(r: Relay, es: seq<Event>, more: seq<Event>)
    requires IsRun(r, es) && IsRun(Run(r, es), more)
    ensures IsRun(r, es + more) && Run(r, es + more) == Run(Run(r, es), more)
    decreases |es|
  {
    if es == [] {
      assert es + more == more;
    } else {
      assert (es + more)[1..] == es[1..] + more;
      RunConcat(Step(r, es[0]), es[1..], more);
    }
  }
}
