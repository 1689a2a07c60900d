/**
 The shared byte buffer: a fixed array with a read and a write position, and
 compaction to the front as soon as the two meet.
 */
module Buffers {

  import opened Base

  /** The observable value of a buffer: its limit, the read offset, and the unread bytes. */
  datatype Buf = Buf(limit: nat, start: nat, bytes: seq<Byte>) {

    /** An empty buffer has always been moved back to the front of its array. */
    predicate Valid() {
      start + |bytes| <= limit && (bytes == [] ==> start == 0)
    }

    function Room(): int {
      limit - start - |bytes|
    }

    predicate CanWrite() {
      Room() > 0
    }

    predicate CanRead() {
      bytes != []
    }

    function Append(s: seq<Byte>): (b: Buf)
      requires Valid() && |s| <= Room()
      ensures b.Valid()
    {
      this.(bytes := bytes + s)
    }

    function Advance(n: nat): (b: Buf)
      requires Valid() && n <= |bytes|
      ensures b.Valid()
    {
      if n == |bytes| then this.(start := 0, bytes := [])
      else this.(start := start + n, bytes := bytes[n..])
    }

    function Compacted(): (b: Buf)
      requires Valid()
      ensures b.Valid()
    {
      this.(start := 0)
    }

    /** Advancing byte by byte, as the parsers do, is one long advance. */
    lemma AdvanceTwice(m: nat, n: nat)
      requires Valid() && m + n <= |bytes|
      ensures Advance(m).Advance(n) == Advance(m + n)
    {
      if m < |bytes| {
        assert bytes[m..][n..] == bytes[m + n..];
      }
    }
  }

  function Empty(limit: nat): (b: Buf)
    ensures b.Valid()
  {
    Buf(limit, 0, [])
  }

  /** The operations the proxy performs on a buffer once it is initialised. */
  datatype BufOp = Put(chunk: seq<Byte>) | Take(count: nat) | Compact

  predicate FitsOp(b: Buf, op: BufOp)
    requires b.Valid()
  {
    match op
    case Put(chunk) => |chunk| <= b.Room()
    case Take(count) => count <= |b.bytes|
    case Compact => true
  }

  function Perform(b: Buf, op: BufOp): (b': Buf)
    requires b.Valid() && FitsOp(b, op)
    ensures b'.Valid()
  {
    match op
    case Put(chunk) => b.Append(chunk)
    case Take(count) => b.Advance(count)
    case Compact => b.Compacted()
  }

  predicate AllFit(b: Buf, ops: seq<BufOp>)
    requires b.Valid()
    decreases |ops|
  {
    ops == [] || (FitsOp(b, ops[0]) && AllFit(Perform(b, ops[0]), ops[1..]))
  }

  function PerformAll(b: Buf, ops: seq<BufOp>): (b': Buf)
    requires b.Valid() && AllFit(b, ops)
    ensures b'.Valid()
    decreases |ops|
  {
    if ops == [] then b else PerformAll(Perform(b, ops[0]), ops[1..])
  }

  function Written(ops: seq<BufOp>): seq<Byte> {
    if ops == [] then []
    else (if ops[0].Put? then ops[0].chunk else []) + Written(ops[1..])
  }

  function Taken(b: Buf, ops: seq<BufOp>): seq<Byte>
    requires b.Valid() && AllFit(b, ops)
    decreases |ops|
  {
    if ops == [] then []
    else (if ops[0].Take? then b.bytes[..ops[0].count] else []) + Taken(Perform(b, ops[0]), ops[1..])
  }

  /** First in, first out: over any run, what came out followed by what is left is what went in. */
  lemma {:induction false} Fifo(b: Buf, ops: seq<BufOp>)
    requires b.Valid() && AllFit(b, ops)
    ensures b.bytes + Written(ops) == Taken(b, ops) + PerformAll(b, ops).bytes
    ensures PerformAll(b, ops).limit == b.limit
    decreases |ops|
  {
    if ops == [] {
    } else {
      var b' := Perform(b, ops[0]);
      Fifo(b', ops[1..]);
      var rest := Taken(b', ops[1..]) + PerformAll(b, ops).bytes;
      match ops[0] {
        case Put(chunk) =>
          assert b.bytes + Written(ops) == b'.bytes + Written(ops[1..]);
        case Take(count) =>
          assert b.bytes == b.bytes[..count] + b'.bytes;
          assert b.bytes + Written(ops) == b.bytes[..count] + rest;
        case Compact =>
          assert b.bytes + Written(ops) == b'.bytes + Written(ops[1..]);
          assert Taken(b, ops) == Taken(b', ops[1..]);
      }
    }
  }

  /** After any run, a buffer with no room has bytes to read and one with no bytes has all its room. */
  lemma NeverWedged(b: Buf, ops: seq<BufOp>)
    requires b.Valid() && b.limit > 0 && AllFit(b, ops)
    ensures var e := PerformAll(b, ops);
            && (e.CanRead() || e.Room() == b.limit)
            && (e.CanWrite() || e.CanRead())
  {
    Fifo(b, ops);
  }

  class Buffer {
    const data: array<Byte>
    var read: nat
    var write: nat

    ghost predicate Valid()
      reads this, data
    {
      read <= write <= data.Length && (read == write ==> read == 0)
    }

    ghost function View(): (b: Buf)
      requires Valid()
      reads this, data
      ensures b.Valid()
    {
      Buf(data.Length, read, data[read..write])
    }

    constructor (data: array<Byte>)
      ensures this.data == data && Valid() && View() == Empty(data.Length)
    {
      this.data := data;
      read, write := 0, 0;
    }

    method Reset()
      requires Valid()
      modifies this
      ensures Valid() && View() == Empty(data.Length)
    {
      read, write := 0, 0;
    }

    method CanWrite() returns (can: bool)
      requires Valid()
      ensures can == View().CanWrite()
    {
      can := data.Length - write > 0;
    }

    method CanRead() returns (can: bool)
      requires Valid()
      ensures can == View().CanRead()
    {
      can := write - read > 0;
    }

    /** The length of the writable window that starts at the write position. */
    method WriteWindow() returns (count: nat)
      requires Valid()
      ensures count == View().Room()
    {
      count := data.Length - write;
    }

    /** The length of the readable window that starts at the read position. */
    method ReadWindow() returns (count: nat)
      requires Valid()
      ensures count == |View().bytes|
    {
      count := write - read;
    }

    /** `recv` into the writable window followed by `buffer_write_adv`. */
    method Fill(chunk: seq<Byte>)
      requires Valid() && |chunk| <= View().Room()
      modifies this, data
      ensures Valid() && View() == old(View()).Append(chunk)
    {
      forall i | 0 <= i < |chunk| {
        data[write + i] := chunk[i];
      }
      write := write + |chunk|;
      assert data[read..write] == old(data[read..write]) + chunk;
    }

    /** `buffer_read_adv`: a negative count, an I/O error, changes nothing. */
    method ReadAdvance(count: int)
      requires Valid() && count <= |View().bytes|
      modifies this, data
      ensures Valid() && View() == if count < 0 then old(View()) else old(View()).Advance(count)
    {
      if count > -1 {
        read := read + count;
        if read == write {
          CompactNow();
        }
      }
    }

    method ReadByte() returns (b: Byte)
      requires Valid()
      modifies this, data
      ensures Valid()
      ensures var was := old(View());
              if was.bytes == [] then b == 0 && View() == was
              else b == was.bytes[0] && View() == was.Advance(1)
    {
      if write - read > 0 {
        b := data[read];
        ReadAdvance(1);
      } else {
        b := 0;
      }
    }

    method WriteByte(b: Byte)
      requires Valid()
      modifies this, data
      ensures Valid()
      ensures var was := old(View());
              View() == if was.Room() == 0 then was else was.Append([b])
    {
      if data.Length - write > 0 {
        data[write] := b;
        write := write + 1;
      }
    }

    /** `buffer_compact`, which also restores the invariant when the two positions have just met. */
    method CompactNow()
      requires read <= write <= data.Length
      modifies this, data
      ensures Valid()
      ensures read == 0 && data[read..write] == old(data[read..write])
    {
      if read == 0 {
      } else if read == write {
        read, write := 0, 0;
      } else {
        var n := write - read;
        forall i | 0 <= i < n {
          data[i] := data[read + i];
        }
        read, write := 0, n;
      }
    }
  }
}
