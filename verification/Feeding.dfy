/**
 Byte-at-a-time machines. Every parser of the proxy is driven by the same loop:
 take a byte from the buffer, feed it, stop as soon as the machine says so.
 */
module Feeding {

  import opened Base
  import opened Buffers

  function FeedAll<S>(feed: (S, Byte) -> S, s: S, bytes: seq<Byte>): S
    decreases |bytes|
  {
    if bytes == [] then s else FeedAll(feed, feed(s, bytes[0]), bytes[1..])
  }

  /** The consuming loop: the machine it leaves, and how many bytes it took. */
  function Consume<S>(feed: (S, Byte) -> S, stop: S -> bool, s: S, bytes: seq<Byte>): (r: (S, nat))
    ensures r.1 <= |bytes|
    decreases |bytes|
  {
    if bytes == [] then (s, 0)
    else
      var s' := feed(s, bytes[0]);
      if stop(s') then (s', 1)
      else
        var (t, n) := Consume(feed, stop, s', bytes[1..]);
        (t, n + 1)
  }

  lemma {:induction false} FeedAllConcat<S>(feed: (S, Byte) -> S, s: S, a: seq<Byte>, b: seq<Byte>)
    ensures FeedAll(feed, s, a + b) == FeedAll(feed, FeedAll(feed, s, a), b)
    decreases |a|
  {
    if a == [] {
      assert a + b == b;
    } else {
      assert (a + b)[1..] == a[1..] + b;
      FeedAllConcat(feed, feed(s, a[0]), a[1..], b);
    }
  }

  lemma FeedAllSnoc<S>(feed: (S, Byte) -> S, s: S, a: seq<Byte>, b: Byte)
    ensures FeedAll(feed, s, a + [b]) == feed(FeedAll(feed, s, a), b)
  {
    FeedAllConcat(feed, s, a, [b]);
    assert FeedAll(feed, feed(FeedAll(feed, s, a), b), [b][1..]) == feed(FeedAll(feed, s, a), b);
  }

  /** The loop feeds a prefix of the input, and the machine has not stopped strictly inside it. */
  lemma {:induction false} ConsumeIsFeeding<S>(feed: (S, Byte) -> S, stop: S -> bool, s: S, bytes: seq<Byte>)
    ensures var (t, n) := Consume(feed, stop, s, bytes);
            && t == FeedAll(feed, s, bytes[..n])
            && (n < |bytes| ==> n > 0 && stop(t))
            && (forall k :: 0 < k < n ==> !stop(FeedAll(feed, s, bytes[..k])))
    decreases |bytes|
  {
    if bytes != [] {
      var s' := feed(s, bytes[0]);
      var (t, n) := Consume(feed, stop, s, bytes);
      assert bytes[..1] == [bytes[0]];
      assert FeedAll(feed, s, bytes[..1]) == s' by {
        assert FeedAll(feed, s', [bytes[0]][1..]) == s';
      }
      if !stop(s') {
        ConsumeIsFeeding(feed, stop, s', bytes[1..]);
        assert bytes[..n][1..] == bytes[1..][..n - 1];
        forall k | 0 < k < n
          ensures !stop(FeedAll(feed, s, bytes[..k]))
        {
          assert bytes[..k][1..] == bytes[1..][..k - 1];
          if k == 1 {
            assert bytes[..k][1..] == [];
          }
        }
      }
    }
  }

  /** Splitting the input anywhere changes nothing, provided the second call is made only if the first did not stop. */
  lemma {:induction false} ConsumeConcat<S>(feed: (S, Byte) -> S, stop: S -> bool, s: S, a: seq<Byte>, b: seq<Byte>)
    ensures var (t, n) := Consume(feed, stop, s, a);
            Consume(feed, stop, s, a + b) ==
            if a != [] && stop(t) then (t, n)
            else
              var (u, m) := Consume(feed, stop, t, b);
              (u, n + m)
    ensures var (t, n) := Consume(feed, stop, s, a); a != [] && !stop(t) ==> n == |a|
    decreases |a|
  {
    if a == [] {
      assert a + b == b;
    } else {
      assert (a + b)[1..] == a[1..] + b;
      ConsumeConcat(feed, stop, feed(s, a[0]), a[1..], b);
    }
  }

  lemma {:induction false} UnstoppedTakesAll<S>(feed: (S, Byte) -> S, stop: S -> bool, s: S, bytes: seq<Byte>)
    ensures var (t, n) := Consume(feed, stop, s, bytes); !stop(t) ==> n == |bytes|
    decreases |bytes|
  {
    if bytes != [] {
      UnstoppedTakesAll(feed, stop, feed(s, bytes[0]), bytes[1..]);
    }
  }

  /** The loop takes all of `bytes`, and leaves the machine as `t`. */
  ghost predicate Takes<S>(feed: (S, Byte) -> S, stop: S -> bool, s: S, bytes: seq<Byte>, t: S) {
    Consume(feed, stop, s, bytes) == (t, |bytes|)
  }

  lemma TakesOne<S>(feed: (S, Byte) -> S, stop: S -> bool, s: S, b: Byte)
    ensures Takes(feed, stop, s, [b], feed(s, b))
  {
    assert [b][1..] == [];
    assert Consume(feed, stop, feed(s, b), [b][1..]) == (feed(s, b), 0);
  }

  lemma TakesBoth<S>(feed: (S, Byte) -> S, stop: S -> bool, s: S, a: seq<Byte>, t: S, b: seq<Byte>, u: S)
    requires Takes(feed, stop, s, a, t) && !stop(t) && Takes(feed, stop, t, b, u)
    ensures Takes(feed, stop, s, a + b, u)
  {
    ConsumeConcat(feed, stop, s, a, b);
  }

  /** Where a machine that has taken `a` without stopping gets with `b`. */
  lemma TakesThen<S>(feed: (S, Byte) -> S, stop: S -> bool, s: S, a: seq<Byte>, t: S, b: seq<Byte>)
    requires Takes(feed, stop, s, a, t) && !stop(t)
    ensures var (u, n) := Consume(feed, stop, t, b);
            && Consume(feed, stop, s, a + b) == (u, |a| + n)
            && (!stop(u) ==> n == |b| && Takes(feed, stop, s, a + b, u))
  {
    ConsumeConcat(feed, stop, s, a, b);
    UnstoppedTakesAll(feed, stop, t, b);
  }

  /** The consuming loop after `k` bytes: the machine is `s` and it has, or has not, just stopped. */
  ghost predicate Consuming<S>(feed: (S, Byte) -> S, stop: S -> bool, start: S, bytes: seq<Byte>, s: S, k: nat, stopped: bool)
    requires k <= |bytes|
  {
    Consume(feed, stop, start, bytes) ==
    if stopped then (s, k)
    else
      var (t, n) := Consume(feed, stop, s, bytes[k..]);
      (t, k + n)
  }

  lemma ConsumingStep<S>(feed: (S, Byte) -> S, stop: S -> bool, start: S, bytes: seq<Byte>, s: S, k: nat)
    requires k < |bytes| && Consuming(feed, stop, start, bytes, s, k, false)
    ensures var t := feed(s, bytes[k]); Consuming(feed, stop, start, bytes, t, k + 1, stop(t))
  {
    assert bytes[k..][1..] == bytes[k + 1..];
  }

  /** The loop on the buffer that was `was` and now is `now`. */
  ghost predicate Draining<S>(feed: (S, Byte) -> S, stop: S -> bool, start: S, was: Buf, s: S, now: Buf, k: nat, stopped: bool)
    requires was.Valid()
  {
    k <= |was.bytes| && now == was.Advance(k) && Consuming(feed, stop, start, was.bytes, s, k, stopped)
  }

  lemma DrainingStarts<S>(feed: (S, Byte) -> S, stop: S -> bool, start: S, was: Buf)
    requires was.Valid()
    ensures Draining(feed, stop, start, was, start, was, 0, false)
  {
    assert was.bytes[0..] == was.bytes;
  }

  lemma DrainingStep<S>(feed: (S, Byte) -> S, stop: S -> bool, start: S, was: Buf, s: S, now: Buf, k: nat)
    requires was.Valid() && Draining(feed, stop, start, was, s, now, k, false) && now.CanRead()
    ensures k < |was.bytes|
    ensures var t := feed(s, now.bytes[0]); Draining(feed, stop, start, was, t, now.Advance(1), k + 1, stop(t))
  {
    ConsumingStep(feed, stop, start, was.bytes, s, k);
    was.AdvanceTwice(k, 1);
  }

  lemma DrainingEnds<S>(feed: (S, Byte) -> S, stop: S -> bool, start: S, was: Buf, s: S, now: Buf, k: nat, stopped: bool)
    requires was.Valid() && Draining(feed, stop, start, was, s, now, k, stopped) && (stopped || !now.CanRead())
    ensures Consume(feed, stop, start, was.bytes) == (s, k) && now == was.Advance(k)
  {
  }

  /** A stage that receives its input in chunks and leaves as soon as the machine stops. */
  function ConsumeChunks<S>(feed: (S, Byte) -> S, stop: S -> bool, s: S, chunks: seq<seq<Byte>>): (S, nat)
    decreases |chunks|
  {
    if chunks == [] then (s, 0)
    else
      var (t, n) := Consume(feed, stop, s, chunks[0]);
      if chunks[0] != [] && stop(t) then (t, n)
      else
        var (u, m) := ConsumeChunks(feed, stop, t, chunks[1..]);
        (u, n + m)
  }

  /** Chunking is invisible: only the concatenation of the chunks matters. */
  lemma {:induction false} ChunkingIrrelevant<S>(feed: (S, Byte) -> S, stop: S -> bool, s: S, chunks: seq<seq<Byte>>)
    ensures ConsumeChunks(feed, stop, s, chunks) == Consume(feed, stop, s, Flatten(chunks))
    decreases |chunks|
  {
    if chunks != [] {
      ConsumeConcat(feed, stop, s, chunks[0], Flatten(chunks[1..]));
      ChunkingIrrelevant(feed, stop, Consume(feed, stop, s, chunks[0]).0, chunks[1..]);
    }
  }
}
