/**
 The handlers of the COPY state as the server runs them: two linked records, one for each descriptor of a
 connection, sharing two buffers, the selector, the transfer metrics and the password dissector.
 */
module CopyStageModule {

  import opened Base
  import opened Buffers
  import opened SelectorTable
  import opened SelectorModule
  import opened RelayModule
  import opened MetricsModule
  import D = DissectorModule
  import Feeding

  /** The byte counter and the two averages that the handlers keep. */
  class TransferMetrics {
    var historicBytes: nat
    const perRead: RunningAverage
    const perWrite: RunningAverage

    /** Every byte counted was read or written once. */
    ghost predicate Valid()
      reads this, perRead, perWrite
    {
      perRead != perWrite && perRead.Valid() && perWrite.Valid()
      && historicBytes == Sum(perRead.samples) + Sum(perWrite.samples)
    }

    constructor ()
      ensures Valid() && historicBytes == 0 && fresh(perRead) && fresh(perWrite)
    {
      historicBytes := 0;
      perRead := new RunningAverage();
      perWrite := new RunningAverage();
    }

    method CountRead(n: nat)
      requires Valid()
      modifies this, perRead
      ensures Valid() && perRead.samples == old(perRead.samples) + [n]
      ensures historicBytes == old(historicBytes) + n
    {
      SumSnoc(perRead.samples, n);
      perRead.Record(n);
      historicBytes := historicBytes + n;
    }

    method CountWrite(n: nat)
      requires Valid()
      modifies this, perWrite
      ensures Valid() && perWrite.samples == old(perWrite.samples) + [n]
      ensures historicBytes == old(historicBytes) + n
    {
      SumSnoc(perWrite.samples, n);
      perWrite.Record(n);
      historicBytes := historicBytes + n;
    }
  }

  lemma SumSnoc(samples: seq<nat>, n: nat)
    ensures Sum(samples + [n]) == Sum(samples) + n
  {
    assert (samples + [n])[..|samples|] == samples;
  }

  /** The record of one descriptor. */
  class CopyState {
    const fd: int
    const rb: Buffer
    const wb: Buffer
    var interest: Interest

    constructor (fd: int, rb: Buffer, wb: Buffer)
      ensures this.fd == fd && this.rb == rb && this.wb == wb && interest == BOTH
    {
      this.fd, this.rb, this.wb := fd, rb, wb;
      interest := BOTH;
    }
  }

  /** What a relayed connection shares; `client` and `origin` are each other's `other_copy`. */
  class CopyStage {
    const selector: Selector
    const client: CopyState
    const origin: CopyState
    const metrics: TransferMetrics
    const dissector: D.DissecParser

    /** The records are cross-wired, nothing is shared that should not be, and both descriptors are registered. */
    ghost predicate Linked()
      reads this, selector, selector.fds
    {
      && client != origin && client.fd != origin.fd
      && client.rb == origin.wb && client.wb == origin.rb && client.rb != client.wb
      && client.rb.data != client.wb.data
      && selector.Valid() && selector.Roomy()
      && client.fd in selector.Table() && origin.fd in selector.Table()
    }

    ghost predicate Wired()
      reads this, selector, selector.fds, client.rb, client.rb.data, client.wb, client.wb.data
    {
      && Linked()
      && client.rb.Valid() && client.wb.Valid()
      && client.rb.data.Length > 0 && client.wb.data.Length > 0
    }

    /** The metrics and the dissector keep their own state, away from the buffers. */
    ghost predicate Observed()
      reads this, metrics, metrics.perRead, metrics.perWrite, dissector
    {
      && metrics.Valid() && dissector.Valid()
      && dissector.username != client.rb.data && dissector.username != client.wb.data
      && dissector.password != client.rb.data && dissector.password != client.wb.data
    }

    ghost predicate Valid()
      reads this, selector, selector.fds, metrics, metrics.perRead, metrics.perWrite, dissector
      reads client.rb, client.rb.data, client.wb, client.wb.data
    {
      Wired() && Observed()
    }

    /** The stage as a value. */
    ghost function View(): Relay
      requires Wired()
      reads this, selector, selector.fds, client, origin, client.rb, client.rb.data, client.wb, client.wb.data
    {
      Relay(End(client.interest, selector.Table()[client.fd].interest),
            End(origin.interest, selector.Table()[origin.fd].interest),
            client.rb.View(), client.wb.View())
    }

    /** `copy_init`: `toOrigin` holds what the client sent behind its request. */
    constructor (selector: Selector, clientFd: int, originFd: int, toOrigin: Buffer, toClient: Buffer,
                 metrics: TransferMetrics, dissector: D.DissecParser)
      requires selector.Valid() && selector.Roomy() && clientFd != originFd
      requires clientFd in selector.Table() && originFd in selector.Table()
      requires toOrigin.Valid() && toClient.Valid() && toOrigin != toClient && toOrigin.data != toClient.data
      requires toOrigin.data.Length > 0 && toClient.data.Length > 0
      requires metrics.Valid() && dissector.Valid()
      requires dissector.username != toOrigin.data && dissector.username != toClient.data
      requires dissector.password != toOrigin.data && dissector.password != toClient.data
      modifies selector, selector.fds
      ensures Valid() && View() == Begin(toOrigin.View(), toClient.View())
    {
      this.selector, this.metrics, this.dissector := selector, metrics, dissector;
      client := new CopyState(clientFd, toOrigin, toClient);
      origin := new CopyState(originFd, toClient, toOrigin);
      new;
      var _ := Rearm(origin, client);
    }

    /** `copy_compute_interests`; `aborted` when the selector refuses. */
    method ComputeInterests(d: CopyState) returns (aborted: bool)
      requires selector.Valid() && selector.Roomy() && d.rb.Valid() && d.wb.Valid()
      modifies selector, selector.fds
      ensures selector.Valid() && selector.Roomy() && selector.fds == old(selector.fds) && selector.jobs == old(selector.jobs)
      ensures aborted <==> d.fd != -1 && d.fd !in old(selector.Table())
      ensures selector.Table() ==
              Apply(old(selector.Table()), SetInterest(d.fd, Wanted(d.interest, d.rb.View(), d.wb.View())))
    {
      aborted := false;
      if d.fd != -1 {
        var room := d.rb.CanWrite();
        var bytes := d.wb.CanRead();
        var ret := Interest(d.interest.read && room, d.interest.write && bytes);
        var status := selector.SetInterest(d.fd, ret);
        aborted := status != Success;
      }
    }

    /** Both calls that end every handler of this state. */
    method Rearm(d: CopyState, other: CopyState) returns (aborted: bool)
      requires Wired() && ((d == client && other == origin) || (d == origin && other == client))
      modifies selector, selector.fds
      ensures Wired() && !aborted
      ensures View() == RelayModule.Rearm(old(View()))
      ensures selector.fds == old(selector.fds)
    {
      var first := ComputeInterests(d);
      var second := ComputeInterests(other);
      aborted := first || second;
    }

    /** No more reading on this side, no more writing on the other. */
    method CloseFrom(d: CopyState, other: CopyState, ghost side: Side)
      requires Wired() && ((side == Client && d == client && other == origin) || (side == Origin && d == origin && other == client))
      modifies client, origin
      ensures Wired() && View() == Close(old(View()), side)
    {
      d.interest := d.interest.(read := false);
      if other.fd != -1 {
        other.interest := other.interest.(write := false);
      }
    }

    method Observe(chunk: seq<Byte>, dissectorsOn: bool)
      requires Observed()
      modifies metrics, metrics.perRead, dissector, dissector.username, dissector.password
      ensures Observed()
      ensures metrics.perRead.samples == old(metrics.perRead.samples) + [|chunk|]
      ensures dissector.View() == if dissectorsOn then Feeding.FeedAll(D.Feed, old(dissector.View()), chunk)
                                  else old(dissector.View())
      ensures dissector.username == old(dissector.username) || fresh(dissector.username)
      ensures dissector.password == old(dissector.password) || fresh(dissector.password)
    {
      if dissectorsOn {
        dissector.ConsumeAll(chunk);
      }
      metrics.CountRead(|chunk|);
    }

    method Receive(d: CopyState, chunk: seq<Byte>, dissectorsOn: bool, ghost side: Side)
      requires Valid() && |chunk| <= View().From(side).Room()
      requires d == (if side.Client? then client else origin)
      modifies metrics, metrics.perRead, dissector, dissector.username, dissector.password
      modifies d.rb, d.rb.data
      ensures Valid() && View() == old(View()).WithFrom(side, old(View()).From(side).Append(chunk))
      ensures metrics.perRead.samples == old(metrics.perRead.samples) + [|chunk|]
      ensures dissector.View() == if dissectorsOn then Feeding.FeedAll(D.Feed, old(dissector.View()), chunk)
                                  else old(dissector.View())
      ensures dissector.username == old(dissector.username) || fresh(dissector.username)
      ensures dissector.password == old(dissector.password) || fresh(dissector.password)
    {
      Observe(chunk, dissectorsOn);
      assert Wired() && View() == old(View());
      FillFrom(d, chunk, side);
    }

    method FillFrom(d: CopyState, chunk: seq<Byte>, ghost side: Side)
      requires Valid() && |chunk| <= View().From(side).Room()
      requires d == (if side.Client? then client else origin)
      modifies d.rb, d.rb.data
      ensures Valid() && View() == old(View()).WithFrom(side, old(View()).From(side).Append(chunk))
      ensures dissector.View() == old(dissector.View())
    {
      d.rb.Fill(chunk);
    }

    /** `recv` returned bytes. */
    method ReadBytes(d: CopyState, other: CopyState, chunk: seq<Byte>, dissectorsOn: bool, ghost side: Side) returns (aborted: bool)
      requires Valid() && Enabled(View(), Recv(side, Some(chunk)))
      requires d == (if side.Client? then client else origin) && other == (if side.Client? then origin else client)
      modifies selector, selector.fds, metrics, metrics.perRead
      modifies dissector, dissector.username, dissector.password, d.rb, d.rb.data
      ensures Valid() && !aborted
      ensures View() == Step(old(View()), Recv(side, Some(chunk)))
      ensures metrics.perRead.samples == old(metrics.perRead.samples) + [|chunk|]
      ensures dissector.View() == if dissectorsOn then Feeding.FeedAll(D.Feed, old(dissector.View()), chunk)
                                  else old(dissector.View())
    {
      Receive(d, chunk, dissectorsOn, side);
      ghost var seen := dissector.View();
      aborted := Rearm(d, other);
      assert dissector.View() == seen;
    }

    /** `recv` returned zero or failed. */
    method ReadEnd(d: CopyState, other: CopyState, ghost side: Side) returns (aborted: bool)
      requires Valid() && Enabled(View(), Recv(side, None))
      requires d == (if side.Client? then client else origin) && other == (if side.Client? then origin else client)
      modifies selector, selector.fds, client, origin
      ensures Valid() && !aborted
      ensures View() == Step(old(View()), Recv(side, None))
    {
      CloseFrom(d, other, side);
      aborted := Rearm(d, other);
    }

    /**
     `copy_read` for the record of one side. `recv` is the bytes received, or None at the end of the stream or
     on an error. `done` says that the handler returns DONE.
     */
    method CopyRead(side: Side, recv: Option<seq<Byte>>, dissectorsOn: bool) returns (done: bool, aborted: bool)
      requires Valid() && Enabled(View(), Recv(side, recv))
      modifies selector, selector.fds, client, origin, metrics, metrics.perRead
      modifies dissector, dissector.username, dissector.password
      modifies client.rb, client.rb.data, client.wb, client.wb.data
      ensures Valid() && !aborted
      ensures View() == Step(old(View()), Recv(side, recv))
      ensures done <==> Ends(old(View()), Recv(side, recv))
      ensures recv.Some? ==> metrics.perRead.samples == old(metrics.perRead.samples) + [|recv.value|]
      ensures recv.None? ==> metrics.perRead.samples == old(metrics.perRead.samples)
      ensures dissector.View() == if recv.None? || !dissectorsOn then old(dissector.View())
                                  else Feeding.FeedAll(D.Feed, old(dissector.View()), recv.value)
    {
      var d, other := if side.Client? then client else origin, if side.Client? then origin else client;
      if recv.None? {
        aborted := ReadEnd(d, other, side);
      } else {
        aborted := ReadBytes(d, other, recv.value, dissectorsOn, side);
      }
      assert d.interest == View().At(side).flags;
      done := d.interest == NOOP;
    }

    method Deliver(d: CopyState, count: nat, ghost side: Side)
      requires Valid() && count <= |View().To(side).bytes|
      requires d == (if side.Client? then client else origin)
      modifies metrics, metrics.perWrite, d.wb, d.wb.data
      ensures Valid() && View() == old(View()).WithFrom(side.Other(), old(View()).To(side).Advance(count))
      ensures metrics.perWrite.samples == old(metrics.perWrite.samples) + [count]
    {
      metrics.CountWrite(count);
      d.wb.ReadAdvance(count);
    }

    /** `copy_write`: `sent` is how many bytes were taken, or None on an error. */
    method CopyWrite(side: Side, sent: Option<nat>) returns (done: bool, aborted: bool)
      requires Valid() && Enabled(View(), Send(side, sent))
      modifies selector, selector.fds, client, origin, metrics, metrics.perWrite
      modifies client.rb, client.rb.data, client.wb, client.wb.data
      ensures Valid() && !aborted
      ensures View() == Step(old(View()), Send(side, sent))
      ensures done <==> Ends(old(View()), Send(side, sent))
      ensures metrics.perWrite.samples == old(metrics.perWrite.samples) + (if sent.None? then [] else [sent.value])
    {
      var d, other := if side.Client? then client else origin, if side.Client? then origin else client;
      if sent.None? {
        aborted := WriteEnd(d, other, side);
      } else {
        aborted := WriteBytes(d, other, sent.value, side);
      }
      assert d.interest == View().At(side).flags;
      done := d.interest == NOOP;
    }

    /** `send` took bytes. */
    method WriteBytes(d: CopyState, other: CopyState, count: nat, ghost side: Side) returns (aborted: bool)
      requires Valid() && Enabled(View(), Send(side, Some(count)))
      requires d == (if side.Client? then client else origin) && other == (if side.Client? then origin else client)
      modifies selector, selector.fds, metrics, metrics.perWrite, d.wb, d.wb.data
      ensures Valid() && !aborted
      ensures View() == Step(old(View()), Send(side, Some(count)))
      ensures metrics.perWrite.samples == old(metrics.perWrite.samples) + [count]
    {
      Deliver(d, count, side);
      aborted := Rearm(d, other);
    }

    /** `send` failed. */
    method WriteEnd(d: CopyState, other: CopyState, ghost side: Side) returns (aborted: bool)
      requires Valid() && Enabled(View(), Send(side, None))
      requires d == (if side.Client? then client else origin) && other == (if side.Client? then origin else client)
      modifies selector, selector.fds, client, origin
      ensures Valid() && !aborted
      ensures View() == Step(old(View()), Send(side, None))
    {
      CloseFrom(other, d, side.Other());
      aborted := Rearm(d, other);
    }
  }
}
