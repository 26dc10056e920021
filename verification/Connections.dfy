/**
  Connection contexts and their pool (connectionmanager).

  A pointer to a ConnectionContext is its index in the owning vector `conns`: contexts are never freed, only
  recycled, so the index identifies the object for ever.
 */
module Connections {
  import opened ByteStrings

  datatype Context = Context(
    fd: int,
    connId: nat,              // generation of the connection using this context
    input: Bytes,
    outQueue: seq<Bytes>,     // framed responses waiting to be sent
    written: nat,             // bytes of outQueue[0] already sent
    sending: bool,
    inflight: int,            // operations submitted and not yet completed
    closing: bool,
    pendingReqs: int,         // requests dispatched whose response is not fully sent
    readPaused: bool)

  const FRESH := Context(-1, 0, [], [], 0, false, 0, false, 0, false)

  /** reset: everything but connId, which acquire assigns. */
  function Reset(x: Context, fd: int): Context {
    Context(fd, x.connId, [], [], 0, false, 0, false, 0, false)
  }

  /** The process's descriptor table: which socket each open fd names, and the sockets closed so far. */
  datatype Descriptors = Descriptors(files: map<int, nat>, closed: seq<nat>, badCloses: nat)

  function CloseFd(os: Descriptors, fd: int): Descriptors {
    if fd in os.files
    then Descriptors(os.files - {fd}, os.closed + [os.files[fd]], os.badCloses)
    else os.(badCloses := os.badCloses + 1)
  }

  datatype Manager = Manager(
    conns: seq<Context>,
    active: map<int, nat>,
    idle: seq<nat>,
    nextId: nat,
    os: Descriptors)

  /** Every stored pointer points at a context. */
  ghost predicate Wf(m: Manager) {
    && (forall fd :: fd in m.active ==> m.active[fd] < |m.conns|)
    && (forall i :: 0 <= i < |m.idle| ==> m.idle[i] < |m.conns|)
  }

  function Put(m: Manager, c: nat, x: Context): Manager
    requires c < |m.conns|
  {
    m.(conns := m.conns[c := x])
  }

  function Acquire(m: Manager, fd: int): (r: (nat, Manager))
    requires Wf(m)
    ensures Wf(r.1)
  {
    if m.idle != [] then
      var c := m.idle[|m.idle| - 1];
      (c, m.(idle := m.idle[..|m.idle| - 1],
             conns := m.conns[c := Reset(m.conns[c], fd).(connId := m.nextId)],
             nextId := m.nextId + 1,
             active := m.active[fd := c]))
    else
      (|m.conns|, m.(conns := m.conns + [Reset(FRESH, fd).(connId := m.nextId)],
                     nextId := m.nextId + 1,
                     active := m.active[fd := |m.conns|]))
  }

  function OnSubmit(m: Manager, c: nat): Manager
    requires c < |m.conns|
  {
    Put(m, c, m.conns[c].(inflight := m.conns[c].inflight + 1))
  }

  /** True when the context went back to the pool, so that the caller must not touch it. */
  function OnComplete(m: Manager, c: nat): (r: (bool, Manager))
    requires c < |m.conns|
    ensures |r.1.conns| == |m.conns| && (Wf(m) ==> Wf(r.1))
  {
    var x := m.conns[c].(inflight := m.conns[c].inflight - 1);
    var m1 := Put(m, c, x);
    if x.closing && x.inflight == 0 then (true, Recycle(m1, c)) else (false, m1)
  }

  function Close(m: Manager, fd: int): (r: Manager)
    requires Wf(m)
    ensures Wf(r) && |r.conns| == |m.conns| && fd !in r.active
  {
    if fd !in m.active then m
    else
      var c := m.active[fd];
      var x := m.conns[c].(closing := true);
      var m1 := Put(m, c, x).(active := m.active - {fd}, os := CloseFd(m.os, m.conns[c].fd));
      if x.inflight == 0 then Recycle(m1, c) else m1
  }

  function Recycle(m: Manager, c: nat): Manager {
    m.(idle := m.idle + [c])
  }
}
