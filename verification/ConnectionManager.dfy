/**
  The connection manager as objects updated in place, proved to do what Connections says.

  A context's place in the owning vector is its identity: it is recorded once, in `slot`, so that the abstract
  manager can name the object by number.
 */
module ConnectionManagers {
  import opened ByteStrings
  import opened Connections

  class ConnectionContext {
    const slot: nat
    var fd: int
    var connId: nat
    var input: Bytes
    var outQueue: seq<Bytes>
    var written: nat
    var sending: bool
    var inflight: int
    var closing: bool
    var pendingReqs: int
    var readPaused: bool

    constructor (slot: nat)
      ensures this.slot == slot && Snapshot() == FRESH
    {
      this.slot := slot;
      fd, connId, input, outQueue, written, sending := -1, 0, [], [], 0, false;
      inflight, closing, pendingReqs, readPaused := 0, false, 0, false;
    }

    ghost function Snapshot(): Context
      reads this
    {
      Context(fd, connId, input, outQueue, written, sending, inflight, closing, pendingReqs, readPaused)
    }

    method Reset(newFd: int)
      modifies this
      ensures Snapshot() == Connections.Reset(old(Snapshot()), newFd)
    {
      fd := newFd;
      input := [];
      outQueue := [];
      written := 0;
      sending := false;
      inflight := 0;
      closing := false;
      pendingReqs := 0;
      readPaused := false;
    }
  }

  /** Giving context c the next generation number and the descriptor fd. */
  ghost function Registered(m: Manager, c: nat, fd: int): Manager
    requires c < |m.conns|
  {
    Put(m, c, m.conns[c].(connId := m.nextId)).(nextId := m.nextId + 1, active := m.active[fd := c])
  }

  lemma AcquireParts(m: Manager, fd: int)
    requires Wf(m)
    ensures Connections.Acquire(m, fd) ==
      if m.idle != [] then
        var c := m.idle[|m.idle| - 1];
        (c, Registered(Put(m, c, Connections.Reset(m.conns[c], fd)).(idle := m.idle[..|m.idle| - 1]), c, fd))
      else (|m.conns|, Registered(m.(conns := m.conns + [Connections.Reset(FRESH, fd)]), |m.conns|, fd))
  {
    if m.idle != [] {
      var c := m.idle[|m.idle| - 1];
      var x := Connections.Reset(m.conns[c], fd);
      assert m.conns[c := x][c := x.(connId := m.nextId)] == m.conns[c := x.(connId := m.nextId)];
    } else {
      var x := Connections.Reset(FRESH, fd);
      assert (m.conns + [x])[|m.conns| := x.(connId := m.nextId)] == m.conns + [x.(connId := m.nextId)];
    }
  }

  class ConnectionManager {
    var active: map<int, ConnectionContext>
    var allConns: seq<ConnectionContext>
    var idlePool: seq<ConnectionContext>
    var nextId: nat
    ghost var now: Manager      // the same state as a value, with the kernel's descriptor table
    ghost var contexts: set<ConnectionContext>

    ghost predicate Owns(ctx: ConnectionContext)
      reads this
    {
      ctx.slot < |allConns| && allConns[ctx.slot] == ctx
    }

    /** `now` is the current state, except that it may lag behind on context k. */
    ghost predicate ValidBut(k: int)
      reads this, contexts
    {
      && Wf(now)
      && |now.conns| == |allConns| && now.nextId == nextId
      && (forall i :: 0 <= i < |allConns| ==> allConns[i] in contexts && allConns[i].slot == i)
      && (forall i :: 0 <= i < |allConns| && i != k ==> now.conns[i] == allConns[i].Snapshot())
      && now.active.Keys == active.Keys
      && (forall fd :: fd in active ==> Owns(active[fd]) && now.active[fd] == active[fd].slot)
      && |now.idle| == |idlePool|
      && (forall i :: 0 <= i < |idlePool| ==> Owns(idlePool[i]) && now.idle[i] == idlePool[i].slot)
    }

    ghost predicate Valid()
      reads this, contexts
    {
      ValidBut(-1)
    }

    constructor (ghost os: Descriptors)
      ensures Valid() && now == Manager([], map[], [], 1, os) && contexts == {}
    {
      active, allConns, idlePool, nextId := map[], [], [], 1;
      now := Manager([], map[], [], 1, os);
      contexts := {};
    }

    /** Records that the fields of one context have changed. */
    ghost method Sync(ctx: ConnectionContext)
      requires ValidBut(ctx.slot) && Owns(ctx)
      modifies this`now
      ensures Valid() && now == Put(old(now), ctx.slot, ctx.Snapshot())
    {
      now := Put(now, ctx.slot, ctx.Snapshot());
    }

    method Acquire(fd: int) returns (ctx: ConnectionContext)
      requires Valid()
      modifies this, contexts
      ensures Valid() && fresh(contexts - old(contexts)) && Owns(ctx)
      ensures (ctx.slot, now) == Connections.Acquire(old(now), fd)
    {
      AcquireParts(now, fd);
      if |idlePool| > 0 {
        ctx := Reuse(fd);
      } else {
        ctx := Grow(fd);
      }
      Register(fd, ctx);
    }

    method Reuse(fd: int) returns (ctx: ConnectionContext)
      requires Valid() && |idlePool| > 0
      modifies this`idlePool, this`now, contexts
      ensures Valid() && Owns(ctx)
      ensures var m := old(now); var c := m.idle[|m.idle| - 1];
        ctx.slot == c && now == Put(m, c, Connections.Reset(m.conns[c], fd)).(idle := m.idle[..|m.idle| - 1])
    {
      ctx := idlePool[|idlePool| - 1];
      idlePool := idlePool[..|idlePool| - 1];
      now := now.(idle := now.idle[..|now.idle| - 1]);
      ctx.Reset(fd);
      Sync(ctx);
    }

    method Grow(fd: int) returns (ctx: ConnectionContext)
      requires Valid()
      modifies this`allConns, this`contexts, this`now
      ensures Valid() && Owns(ctx) && fresh(ctx) && contexts == old(contexts) + {ctx}
      ensures ctx.slot == |old(now).conns|
      ensures now == old(now).(conns := old(now).conns + [Connections.Reset(FRESH, fd)])
    {
      ctx := new ConnectionContext(|allConns|);
      ctx.Reset(fd);
      allConns := allConns + [ctx];
      contexts := contexts + {ctx};
      now := now.(conns := now.conns + [ctx.Snapshot()]);
    }

    method Register(fd: int, ctx: ConnectionContext)
      requires Valid() && Owns(ctx)
      modifies this`active, this`nextId, this`now, ctx
      ensures Valid() && now == Registered(old(now), ctx.slot, fd)
    {
      ctx.connId := nextId;
      Sync(ctx);
      nextId := nextId + 1;
      active := active[fd := ctx];
      now := now.(nextId := now.nextId + 1, active := now.active[fd := ctx.slot]);
    }

    function Find(fd: int): (ctx: ConnectionContext?)
      requires Valid()
      reads this, contexts
      ensures ctx == null <==> fd !in now.active
      ensures ctx != null ==> Owns(ctx) && ctx.slot == now.active[fd]
    {
      if fd in active then active[fd] else null
    }

    method OnSubmit(ctx: ConnectionContext)
      requires Valid() && Owns(ctx)
      modifies ctx, this`now
      ensures Valid() && now == Connections.OnSubmit(old(now), ctx.slot)
    {
      ctx.inflight := ctx.inflight + 1;
      Sync(ctx);
    }

    method OnComplete(ctx: ConnectionContext?) returns (recycled: bool)
      requires Valid() && (ctx != null ==> Owns(ctx))
      modifies this`idlePool, this`now, ctx
      ensures Valid()
      ensures ctx == null ==> !recycled && now == old(now)
      ensures ctx != null ==> (recycled, now) == Connections.OnComplete(old(now), ctx.slot)
    {
      if ctx == null {
        return false;
      }
      ctx.inflight := ctx.inflight - 1;
      Sync(ctx);
      if ctx.closing && ctx.inflight == 0 {
        Recycle(ctx);
        return true;
      }
      return false;
    }

    method Close(fd: int)
      requires Valid()
      modifies this`active, this`idlePool, this`now, contexts
      ensures Valid() && now == Connections.Close(old(now), fd)
    {
      if fd !in active {
        return;
      }
      var ctx := active[fd];
      active := active - {fd};
      now := now.(active := now.active - {fd}, os := CloseFd(now.os, ctx.fd));
      ctx.closing := true;
      Sync(ctx);
      if ctx.inflight == 0 {
        Recycle(ctx);
      }
    }

    method Recycle(ctx: ConnectionContext)
      requires Valid() && Owns(ctx)
      modifies this`idlePool, this`now
      ensures Valid() && now == Connections.Recycle(old(now), ctx.slot)
    {
      idlePool := idlePool + [ctx];
      now := now.(idle := now.idle + [ctx.slot]);
    }
  }
}
