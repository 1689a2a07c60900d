/**
 Record allocation, the accepting handler and the closing of connections as the server runs them, over the real
 selector; `w` stands for the rest of the proxy's state.
 */
module ServerModule {

  import opened Base
  import opened SelectorTable
  import opened SelectorModule
  import opened ConnectionModule
  import W = WorldModule

  class Server {
    const selector: Selector
    var conns: map<nat, Conn>
    var pool: seq<nat>
    var poolSize: nat
    var next: nat
    ghost var freed: set<nat>

    constructor (selector: Selector)
      ensures this.selector == selector
      ensures conns == map[] && pool == [] && poolSize == 0 && next == 0 && freed == {}
    {
      this.selector := selector;
      conns, pool, poolSize, next, freed := map[], [], 0, 0, {};
    }

    /** The server's state is that part of `w`. */
    ghost predicate Shows(w: W.World)
      reads this, selector, selector.fds
    {
      && selector.Valid() && selector.Roomy()
      && w.table == selector.Table() && w.conns == conns && w.pool == pool && w.poolSize == poolSize
      && w.next == next && w.freed == freed
    }

    /** `socks5_new`: a pooled record is reused before a new one is allocated. */
    method NewRecord(clientFd: int, ghost w: W.World) returns (id: nat)
      requires Shows(w)
      modifies this
      ensures id == W.Allocate(w).1
      ensures Shows(W.Allocate(w).0.(conns := W.Allocate(w).0.conns[id := NewConn(clientFd)]))
    {
      if pool == [] {
        id := next;
        next := next + 1;
      } else {
        id := pool[0];
        pool := pool[1..];
      }
      conns := conns[id := NewConn(clientFd)];
    }

    /** `socks5_destroy`: `fault` when the record is not in use. */
    method Destroy(id: nat, ghost w: W.World) returns (fault: bool)
      requires Shows(w)
      modifies this
      ensures fault <==> W.Destroy(w, id).Fault?
      ensures !fault ==> Shows(W.Destroy(w, id).world)
    {
      fault := id !in conns || conns[id].references == 0;
      if fault {
        return;
      }
      if conns[id].references == 1 {
        conns := conns - {id};
        if poolSize < W.MAX_POOL {
          pool := [id] + pool;
          poolSize := poolSize + 1;
        } else {
          freed := freed + {id};
        }
      } else {
        conns := conns[id := conns[id].(references := conns[id].references - 1)];
      }
    }

    /** `socksv5_passive_accept`, given what `accept` returned. */
    method PassiveAccept(accepted: Option<int>, ghost w: W.World) returns (fault: bool)
      requires Shows(w)
      modifies this, selector, selector.fds
      ensures fault <==> W.Accept(w, accepted).Fault?
      ensures !fault ==> Shows(W.Accept(w, accepted).world)
    {
      fault := false;
      if accepted.Some? {
        var fd := accepted.value;
        var id := NewRecord(fd, w);
        ghost var w1 := W.Allocate(w).0.(conns := W.Allocate(w).0.conns[id := NewConn(fd)]);
        var ss, past := selector.Register(fd, Slot(READ, SocksHandler, id), true);
        if ss != Success {
          fault := Destroy(id, w1);
        }
      }
    }

    /** One descriptor of `socksv5_done`: unregistering runs the close handler, which destroys the record. */
    method CloseFd(fd: int, ghost w: W.World) returns (fault: bool)
      requires Shows(w)
      modifies this, selector, selector.fds
      ensures selector.fds == old(selector.fds)
      ensures fault <==> W.CloseFd(w, fd).Fault?
      ensures !fault ==> Shows(W.CloseFd(w, fd).world)
    {
      var ss, closing := selector.Unregister(fd);
      if ss != Success {
        return true;
      }
      fault := false;
      if closing.Some? {
        fault := Destroy(closing.value, w.(table := w.table - {fd}));
      }
    }

    /** `socksv5_done`: both descriptors of the record, in order, stopping at an abort. */
    method Done(id: nat, ghost w: W.World) returns (fault: bool)
      requires Shows(w) && id in conns
      modifies this, selector, selector.fds
      ensures fault <==> W.Finish(w, id).Fault?
      ensures !fault ==> Shows(W.Finish(w, id).world)
    {
      var fds := [conns[id].clientFd, conns[id].originFd];
      ghost var at := W.Continue(w);
      fault := false;
      var i := 0;
      while i < |fds| && !fault
        invariant i <= |fds| && (fault <==> at.Fault?)
        invariant selector.fds == old(selector.fds)
        invariant !fault ==> Shows(at.world)
        invariant W.Finish(w, id) == if i < 2 && !fault then Rest(at.world, fds, i) else at
      {
        if fds[i] != -1 {
          ghost var before := at.world;
          fault := CloseFd(fds[i], before);
          at := W.CloseFd(before, fds[i]);
        }
        i := i + 1;
      }
    }

    /** What the loop still has to do from position `i` on. */
    static function Rest(w: W.World, fds: seq<int>, i: nat): W.Outcome
      requires |fds| == 2 && i < 2
      decreases 2 - i
    {
      var o := if fds[i] == -1 then W.Continue(w) else W.CloseFd(w, fds[i]);
      if o.Fault? || i == 1 then o else Rest(o.world, fds, 1)
    }
  }
}
