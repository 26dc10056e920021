/** In every interleaving each call has one owner, and its callback runs once. */
module ChannelSafety {
  import opened ByteStrings
  import opened Wire
  import opened Channel

  // Who holds what.

  function RxHeld(rx: Rx): seq<nat> {
    match rx
    case Holding(_, k, _, _) => [k]
    case Clearing(_, batch, _) => batch
    case _ => []
  }

  predicate RxRan(rx: Rx) {
    match rx
    case Holding(_, _, _, ran) => ran
    case Clearing(_, _, ran) => ran
    case _ => false
  }

  function TimerHeld(t: Timer): seq<nat> {
    if t.Expiring? then t.batch else []
  }

  predicate TimerRan(t: Timer) {
    t.Expiring? && t.ran
  }

  function DtorHeld(d: Dtor): seq<nat> {
    if d.Emptying? then d.batch else []
  }

  predicate DtorRan(d: Dtor) {
    d.Emptying? && d.ran
  }

  /** What a thread's list says of one call: nothing, its callback still to run, or run. */
  datatype Hold = No | Due | Run

  function HoldOf(held: seq<nat>, ran: bool, k: nat): Hold {
    if k !in held then No else if ran && held[0] == k then Run else Due
  }

  predicate InTable(pending: map<nat, nat>, c: Call, k: nat) {
    c.request.requestId in pending && pending[c.request.requestId] == k
  }

  predicate Unregistered(pc: Pc) {
    pc == Fresh || pc == Numbered || pc == Addressed || pc == Locked || pc == Joining || pc == Dialing || pc == Connected
  }

  predicate Released(pc: Pc) {
    pc == Registered || pc == Sending || pc == SendFailed || pc == Returned
  }

  function Count(h: Hold): nat {
    if h == Run then 1 else 0
  }

  /** One call: its record is in exactly one place, which says how often its callback has run. */
  ghost predicate CallOk(c: Call, inTable: bool, rx: Hold, timer: Hold, dtor: Hold) {
    && (c.slot == Slot.InTable <==> inTable)
    && (c.slot == WithRx <==> rx != No)
    && (c.slot == WithTimer <==> timer != No)
    && (c.slot == WithDtor <==> dtor != No)
    && (c.slot == WithCaller <==> c.pc == Undone)
    && c.frees == (if c.slot == Freed then 1 else 0)
    && (c.done == 0 <==> c.outcome == Unset)
    && (c.outcome.Answered? ==> c.slot == WithRx || c.slot == Freed)
    && (c.slot != NoSlot || (c.pc != Fresh && c.pc != Failing && c.pc != Returned) ==> c.request.requestId >= 1)
    && match c.slot
       case NoSlot => (Unregistered(c.pc) || c.pc == Failing || c.pc == Returned) && c.done == (if c.pc == Returned then 1 else 0)
       case InTable => Released(c.pc) && c.done == 0
       case WithRx => Released(c.pc) && c.done == Count(rx)
       case WithTimer => Released(c.pc) && c.done == Count(timer)
       case WithDtor => Released(c.pc) && c.done == Count(dtor)
       case WithCaller => c.done == 0
       case Freed => if c.pc == Failing then c.done == 0 else Released(c.pc) && c.done == 1
  }

  ghost predicate CallAt(s: State, k: nat)
    requires k < |s.calls|
  {
    CallOk(s.calls[k], InTable(s.pending, s.calls[k], k), HoldOf(RxHeld(s.rx), RxRan(s.rx), k),
           HoldOf(TimerHeld(s.timer), TimerRan(s.timer), k), HoldOf(DtorHeld(s.dtor), DtorRan(s.dtor), k))
  }

  ghost predicate Listed(held: seq<nat>, n: nat) {
    NoDup(held) && forall i :: 0 <= i < |held| ==> held[i] < n
  }

  /** Ids are never reused, and the table maps an id to the call that has it. */
  ghost predicate IdsOk(s: State) {
    && s.nextId >= 1
    && (forall k :: 0 <= k < |s.calls| ==> s.calls[k].request.requestId < s.nextId)
    && (forall j, k :: 0 <= j < k < |s.calls| && s.calls[j].request.requestId != 0 ==>
          s.calls[j].request.requestId != s.calls[k].request.requestId)
    && (forall id :: id in s.pending ==> s.pending[id] < |s.calls| && s.calls[s.pending[id]].request.requestId == id)
  }

  ghost predicate Ownership(s: State) {
    && IdsOk(s)
    && Listed(RxHeld(s.rx), |s.calls|) && Listed(TimerHeld(s.timer), |s.calls|) && Listed(DtorHeld(s.dtor), |s.calls|)
    && (RxRan(s.rx) ==> RxHeld(s.rx) != []) && (TimerRan(s.timer) ==> TimerHeld(s.timer) != [])
    && (DtorRan(s.dtor) ==> DtorHeld(s.dtor) != [])
    && (forall k :: 0 <= k < |s.calls| ==> CallAt(s, k))
  }

  // Threads and locks.

  predicate HoldsConn(pc: Pc) {
    pc == Locked || pc == Joining || pc == Dialing
  }

  predicate RxAlive(rx: Rx) {
    !rx.NoThread? && !rx.Ended?
  }

  ghost predicate LocksOk(s: State) {
    && (forall k :: 0 <= k < |s.calls| ==> (HoldsConn(s.calls[k].pc) <==> s.connMtx == Some(k)))
    && (forall k :: 0 <= k < |s.calls| ==> (s.calls[k].pc == Sending <==> s.sendMtx == Some(k)))
    && (s.connMtx.Some? ==> s.connMtx.value < |s.calls|) && (s.sendMtx.Some? ==> s.sendMtx.value < |s.calls|)
  }

  /** The socket, while there is one, is that of the last connection, and so is the receive thread. */
  ghost predicate ThreadsOk(s: State) {
    && (s.fd.Some? ==> s.fd.value == |s.conns| - 1 && !s.rx.NoThread?)
    && (!s.rx.NoThread? ==> s.rx.conn == |s.conns| - 1)
    && (forall k :: 0 <= k < |s.calls| && s.calls[k].pc == Joining ==> s.fd == None)
    && (forall k :: 0 <= k < |s.calls| && s.calls[k].pc == Dialing ==> s.fd == None && s.rx == NoThread)
  }

  /** Phases of the destructor. */
  ghost predicate DtorOk(s: State) {
    && (s.dtor == Alive <==> s.timerRunning)
    && (s.timer.Stopped? ==> !s.timerRunning)
    && (s.dtor != Alive ==> forall k :: 0 <= k < |s.calls| ==> s.calls[k].pc == Returned)
    && (s.dtor != Alive && s.dtor != StoppingTimer ==> s.timer.Stopped?)
    && (s.dtor == JoiningRx || s.dtor == Swapping || s.dtor.Emptying? || s.dtor == Destroyed ==> s.fd == None)
    && (s.dtor == Swapping || s.dtor.Emptying? || s.dtor == Destroyed ==> s.rx == NoThread)
    && (s.dtor.Emptying? || s.dtor == Destroyed ==> s.pending == map[])
  }

  ghost predicate Inv(s: State) {
    Ownership(s) && LocksOk(s) && ThreadsOk(s) && DtorOk(s)
  }

  // Steps of a call.

  /** The lists of the threads are as they were. */
  ghost predicate SameHeld(s: State, t: State) {
    && RxHeld(t.rx) == RxHeld(s.rx) && RxRan(t.rx) == RxRan(s.rx)
    && t.timer == s.timer && t.dtor == s.dtor
  }

  /** A step that changes call k alone, and of it nothing that the table sees. */
  lemma MoveOwnership(s: State, t: State, k: nat)
    requires Ownership(s) && k < |s.calls| == |t.calls| && t.calls == s.calls[k := t.calls[k]]
    requires t.pending == s.pending && t.nextId == s.nextId && SameHeld(s, t)
    requires t.calls[k].request == s.calls[k].request && CallAt(t, k)
    ensures Ownership(t)
  {
    forall j | 0 <= j < |t.calls|
      ensures CallAt(t, j)
    {
      assert CallAt(s, j);
    }
  }

  lemma BeginOwnership(s: State, t: State, c: Call)
    requires Ownership(s) && c.pc == Fresh && c.request.requestId == 0 && c.slot == NoSlot
    requires c.done == 0 && c.frees == 0 && c.outcome == Unset
    requires t == s.(calls := s.calls + [c])
    ensures Ownership(t)
  {
    forall id | id in s.pending
      ensures id >= 1
    {
      assert CallAt(s, s.pending[id]);
    }
    forall j | 0 <= j < |t.calls|
      ensures CallAt(t, j)
    {
      if j < |s.calls| {
        assert CallAt(s, j);
      }
    }
  }

  lemma NumberOwnership(s: State, t: State, k: nat)
    requires Ownership(s) && k < |s.calls| && s.calls[k].pc == Fresh
    requires t == Channel.Put(s, k, s.calls[k].(pc := Numbered, request := s.calls[k].request.(requestId := s.nextId)))
                  .(nextId := s.nextId + 1)
    ensures Ownership(t)
  {
    assert CallAt(s, k);
    forall j | 0 <= j < |t.calls|
      ensures CallAt(t, j)
    {
      assert CallAt(s, j);
    }
  }

  /** Registering: the id is not in the table, for ids are never reused. */
  lemma RegisterOwnership(s: State, t: State, k: nat, deadline: Option<int>)
    requires Ownership(s) && k < |s.calls| && s.calls[k].pc == Connected
    requires t == Registering(s, k, deadline)
    ensures Ownership(t)
  {
    assert CallAt(s, k);
    forall j | 0 <= j < |t.calls|
      ensures CallAt(t, j)
    {
      assert CallAt(s, j);
    }
  }

  /** One call leaves the table for an owner that holds it from now on. */
  lemma LeaveTable(s: State, t: State, k: nat)
    requires Ownership(s) && k < |s.calls| == |t.calls| && InTable(s.pending, s.calls[k], k)
    requires t.calls == s.calls[k := t.calls[k]] && t.calls[k].request == s.calls[k].request
    requires t.pending == s.pending - {s.calls[k].request.requestId} && t.nextId == s.nextId
    requires Listed(RxHeld(t.rx), |s.calls|) && (RxRan(t.rx) ==> RxHeld(t.rx) != [])
    requires t.timer == s.timer && t.dtor == s.dtor
    requires forall j :: 0 <= j < |s.calls| && j != k ==>
      HoldOf(RxHeld(t.rx), RxRan(t.rx), j) == HoldOf(RxHeld(s.rx), RxRan(s.rx), j)
    requires CallAt(t, k)
    ensures Ownership(t)
  {
    assert CallAt(s, k);
    forall j | 0 <= j < |t.calls|
      ensures CallAt(t, j)
    {
      assert CallAt(s, j);
      assert j != k ==> InTable(t.pending, s.calls[j], j) == InTable(s.pending, s.calls[j], j);
    }
  }

  lemma UndoOwnership(s: State, k: nat)
    requires Ownership(s) && k < |s.calls| && s.calls[k].pc == SendFailed
    ensures Ownership(UndoCall(s, k))
  {
    assert CallAt(s, k);
    var t, id := UndoCall(s, k), s.calls[k].request.requestId;
    if id in s.pending {
      var j := s.pending[id];
      assert j == k;
      LeaveTable(s, t, k);
    } else {
      MoveOwnership(s, t, k);
    }
  }

  /** Steps that only move a call along. */
  lemma PrepareOwnership(s: State, k: nat, p: PrepareStep)
    requires Ownership(s) && PrepareEnabled(s, k, p)
    ensures Ownership(PrepareNext(s, k, p))
  {
    assert CallAt(s, k);
    if p == Number {
      NumberOwnership(s, PrepareNext(s, k, p), k);
    } else {
      MoveOwnership(s, PrepareNext(s, k, p), k);
    }
  }

  lemma EarlyMove(c: Call, pc: Pc, inTable: bool, rx: Hold, timer: Hold, dtor: Hold)
    requires CallOk(c, inTable, rx, timer, dtor) && Unregistered(c.pc)
    requires pc == Failing || (Unregistered(pc) && c.pc != Fresh)
    ensures CallOk(c.(pc := pc), inTable, rx, timer, dtor)
  {
  }

  lemma LateMove(c: Call, pc: Pc, written: nat, inTable: bool, rx: Hold, timer: Hold, dtor: Hold)
    requires CallOk(c, inTable, rx, timer, dtor) && c.pc != Returned && Released(c.pc) && Released(pc)
    ensures CallOk(c.(pc := pc, written := written), inTable, rx, timer, dtor)
  {
  }

  /** A call on its way to a connection moves on. */
  lemma EarlyOwnership(s: State, t: State, k: nat)
    requires Ownership(s) && k < |s.calls| == |t.calls| && Unregistered(s.calls[k].pc)
    requires t.calls == s.calls[k := s.calls[k].(pc := t.calls[k].pc)] && t.pending == s.pending && t.nextId == s.nextId
    requires t.calls[k].pc == Failing || (Unregistered(t.calls[k].pc) && s.calls[k].pc != Fresh)
    requires SameHeld(s, t)
    ensures Ownership(t)
  {
    assert CallAt(s, k);
    EarlyMove(s.calls[k], t.calls[k].pc, InTable(s.pending, s.calls[k], k), HoldOf(RxHeld(s.rx), RxRan(s.rx), k),
              HoldOf(TimerHeld(s.timer), TimerRan(s.timer), k), HoldOf(DtorHeld(s.dtor), DtorRan(s.dtor), k));
    MoveOwnership(s, t, k);
  }

  lemma ConnectOwnership(s: State, k: nat, c: ConnectStep)
    requires Ownership(s) && ConnectEnabled(s, k, c) && (c == DialOk ==> s.rx == NoThread)
    ensures Ownership(ConnectNext(s, k, c))
  {
    EarlyOwnership(s, ConnectNext(s, k, c), k);
  }

  lemma SendOwnership(wh: Header -> Bytes, s: State, k: nat, d: SendStep)
    requires Ownership(s) && SendEnabled(wh, s, k, d)
    ensures Ownership(SendNext(wh, s, k, d))
  {
    var t := SendNext(wh, s, k, d);
    assert CallAt(s, k);
    LateMove(s.calls[k], t.calls[k].pc, t.calls[k].written, InTable(s.pending, s.calls[k], k),
             HoldOf(RxHeld(s.rx), RxRan(s.rx), k), HoldOf(TimerHeld(s.timer), TimerRan(s.timer), k),
             HoldOf(DtorHeld(s.dtor), DtorRan(s.dtor), k));
    MoveOwnership(s, t, k);
  }

  lemma GiveUpOwnership(s: State, k: nat, u: GiveUpStep)
    requires Ownership(s) && GiveUpEnabled(s, k, u)
    ensures Ownership(GiveUpNext(s, k, u))
  {
    assert CallAt(s, k);
    if u == Undo {
      UndoOwnership(s, k);
    } else {
      MoveOwnership(s, GiveUpNext(s, k, u), k);
    }
  }

  lemma CallerOwnership(wh: Header -> Bytes, s: State, ev: CallerEvent)
    requires Inv(s) && CallerEnabled(wh, s, ev)
    ensures Ownership(CallerNext(wh, s, ev))
  {
    match ev
    case Begin(host, request) => BeginOwnership(s, CallerNext(wh, s, ev), NewCall(host, request));
    case Prepare(k, p) => PrepareOwnership(s, k, p);
    case Connect(k, c) => ConnectOwnership(s, k, c);
    case Register(k, deadline) => RegisterOwnership(s, Registering(s, k, deadline), k, deadline);
    case Send(k, d) => SendOwnership(wh, s, k, d);
    case GiveUp(k, u) => GiveUpOwnership(s, k, u);
  }

  ghost predicate Rest(s: State) {
    LocksOk(s) && ThreadsOk(s) && DtorOk(s)
  }

  predicate Locking(pc: Pc) {
    HoldsConn(pc) || pc == Sending
  }

  /** A call that holds no lock moves on and takes none. */
  lemma IdleMoveRest(s: State, t: State, k: nat)
    requires Rest(s) && k < |s.calls| == |t.calls| && t.calls == s.calls[k := t.calls[k]]
    requires !Locking(s.calls[k].pc) && !Locking(t.calls[k].pc) && s.calls[k].pc != Returned
    requires t.connMtx == s.connMtx && t.sendMtx == s.sendMtx && t.fd == s.fd && t.conns == s.conns && t.rx == s.rx
    requires t.timer == s.timer && t.timerRunning == s.timerRunning && t.dtor == s.dtor
    ensures Rest(t)
  {
    assert s.dtor == Alive;
  }

  lemma PrepareRest(s: State, k: nat, p: PrepareStep)
    requires Rest(s) && PrepareEnabled(s, k, p)
    ensures Rest(PrepareNext(s, k, p))
  {
    IdleMoveRest(s, PrepareNext(s, k, p), k);
  }

  /** A call takes a lock, or lets go of it; everything else stays. */
  lemma LockMoveRest(s: State, t: State, k: nat)
    requires Rest(s) && k < |s.calls| == |t.calls| && t.calls == s.calls[k := t.calls[k]] && s.calls[k].pc != Returned
    requires HoldsConn(t.calls[k].pc) <==> t.connMtx == Some(k)
    requires t.connMtx == s.connMtx || (s.connMtx == None && t.connMtx == Some(k)) || (s.connMtx == Some(k) && t.connMtx == None)
    requires t.calls[k].pc == Sending <==> t.sendMtx == Some(k)
    requires t.sendMtx == s.sendMtx || (s.sendMtx == None && t.sendMtx == Some(k)) || (s.sendMtx == Some(k) && t.sendMtx == None)
    ensures LocksOk(t)
  {
  }

  lemma DialRest(s: State, k: nat)
    requires Rest(s) && At(s, k, Dialing)
    ensures Rest(Dial(s, k))
  {
    LockMoveRest(s, Dial(s, k), k);
    assert s.dtor == Alive;
  }

  lemma ConnectRest(s: State, k: nat, c: ConnectStep)
    requires Rest(s) && ConnectEnabled(s, k, c)
    ensures Rest(ConnectNext(s, k, c))
  {
    if c == DialOk {
      DialRest(s, k);
    } else {
      LockMoveRest(s, ConnectNext(s, k, c), k);
      assert s.dtor == Alive;
    }
  }

  lemma SendMoveRest(s: State, t: State, k: nat)
    requires Rest(s) && LocksOk(t) && k < |s.calls| == |t.calls| && t.calls == s.calls[k := t.calls[k]]
    requires s.calls[k].pc != Returned && !HoldsConn(t.calls[k].pc)
    requires t.fd == s.fd && |t.conns| == |s.conns| && t.rx == s.rx
    requires t.timer == s.timer && t.timerRunning == s.timerRunning && t.dtor == s.dtor
    ensures Rest(t)
  {
    assert s.dtor == Alive;
  }

  lemma SendRest(wh: Header -> Bytes, s: State, k: nat, d: SendStep)
    requires Rest(s) && SendEnabled(wh, s, k, d)
    ensures Rest(SendNext(wh, s, k, d))
  {
    LockMoveRest(s, SendNext(wh, s, k, d), k);
    SendMoveRest(s, SendNext(wh, s, k, d), k);
  }

  lemma GiveUpRest(s: State, k: nat, u: GiveUpStep)
    requires Rest(s) && GiveUpEnabled(s, k, u)
    ensures Rest(GiveUpNext(s, k, u))
  {
    IdleMoveRest(s, GiveUpNext(s, k, u), k);
  }

  lemma BeginRest(s: State, c: Call)
    requires Rest(s) && s.dtor == Alive && c.pc == Fresh
    ensures Rest(s.(calls := s.calls + [c]))
  {
  }

  lemma RegisterRest(s: State, k: nat, deadline: Option<int>)
    requires Rest(s) && At(s, k, Connected)
    ensures Rest(Registering(s, k, deadline))
  {
    IdleMoveRest(s, Registering(s, k, deadline), k);
  }

  lemma CallerRest(wh: Header -> Bytes, s: State, ev: CallerEvent)
    requires Inv(s) && CallerEnabled(wh, s, ev)
    ensures Rest(CallerNext(wh, s, ev))
  {
    match ev
    case Begin(host, request) => BeginRest(s, NewCall(host, request));
    case Prepare(k, p) => PrepareRest(s, k, p);
    case Connect(k, c) => ConnectRest(s, k, c);
    case Register(k, deadline) => RegisterRest(s, k, deadline);
    case Send(k, d) => SendRest(wh, s, k, d);
    case GiveUp(k, u) => GiveUpRest(s, k, u);
  }

  // Batches.

  datatype Custody = Custody(held: seq<nat>, ran: bool)

  function CustodyOf(s: State, owner: Slot): Custody {
    match owner
    case WithRx => Custody(RxHeld(s.rx), RxRan(s.rx))
    case WithTimer => Custody(TimerHeld(s.timer), TimerRan(s.timer))
    case WithDtor => Custody(DtorHeld(s.dtor), DtorRan(s.dtor))
    case _ => Custody([], false)
  }

  /** Only the list of one thread changed. */
  ghost predicate Handed(s: State, t: State, owner: Slot, now: Custody) {
    && (owner == WithRx || owner == WithTimer || owner == WithDtor)
    && CustodyOf(t, owner) == now
    && (owner != WithRx ==> t.rx == s.rx) && (owner != WithTimer ==> t.timer == s.timer) && (owner != WithDtor ==> t.dtor == s.dtor)
    && t.nextId == s.nextId
  }

  /** The calls of a batch leave the table together and get one owner. */
  lemma TakeOwnership(s: State, t: State, batch: seq<nat>, p: Call -> bool, owner: Slot)
    requires Ownership(s) && Lists(s, batch, p)
    requires t.calls == Claim(s.calls, batch, owner) && t.pending == Without(s, batch)
    requires CustodyOf(s, owner).held == [] && Handed(s, t, owner, Custody(batch, false))
    ensures Ownership(t)
  {
    forall j | 0 <= j < |t.calls|
      ensures CallAt(t, j)
    {
      assert CallAt(s, j);
      TakenCall(s, t, batch, p, owner, j);
    }
  }

  lemma TakenCall(s: State, t: State, batch: seq<nat>, p: Call -> bool, owner: Slot, j: nat)
    requires Lists(s, batch, p) && j < |s.calls| && CallAt(s, j)
    requires t.calls == Claim(s.calls, batch, owner) && t.pending == Without(s, batch)
    requires CustodyOf(s, owner).held == [] && Handed(s, t, owner, Custody(batch, false))
    ensures CallAt(t, j)
  {
    assert InTable(t.pending, t.calls[j], j) <==> InTable(s.pending, s.calls[j], j) && j !in batch;
  }

  /** A list whose first call has been failed, or whose first record has been deleted. */
  function Later(batch: seq<nat>, ran: bool): Custody
    requires batch != []
  {
    if ran then Custody(batch[1..], false) else Custody(batch, true)
  }

  lemma LaterHold(batch: seq<nat>, ran: bool, j: nat)
    requires batch != [] && NoDup(batch)
    ensures var l := Later(batch, ran);
      HoldOf(l.held, l.ran, j) == if j != batch[0] then HoldOf(batch, ran, j) else if ran then No else Run
    ensures HoldOf(batch, ran, batch[0]) == if ran then Run else Due
  {
    assert batch == [batch[0]] + batch[1..];
  }

  /** What an owner does to the call at the head of its list: run the callback, then delete the record. */
  function Served(c: Call, ran: bool, o: Outcome): Call {
    if ran then Deleted(c) else Ran(c, o)
  }

  lemma ServedOk(c: Call, ran: bool, o: Outcome, owner: Slot, rx: Hold, timer: Hold, dtor: Hold, now: Hold)
    requires CallOk(c, false, rx, timer, dtor) && o != Unset && (o.Answered? ==> owner == WithRx) && now == if ran then No else Run
    requires || (owner == WithRx && rx == (if ran then Run else Due))
             || (owner == WithTimer && timer == (if ran then Run else Due))
             || (owner == WithDtor && dtor == (if ran then Run else Due))
    ensures CallOk(Served(c, ran, o), false, if owner == WithRx then now else rx, if owner == WithTimer then now else timer,
                   if owner == WithDtor then now else dtor)
  {
  }

  lemma HeadOwnership(s: State, t: State, batch: seq<nat>, ran: bool, owner: Slot, o: Outcome)
    requires Ownership(s) && HasHead(s, batch) && CustodyOf(s, owner) == Custody(batch, ran)
    requires Handed(s, t, owner, Later(batch, ran)) && t.pending == s.pending
    requires o != Unset && (o.Answered? ==> owner == WithRx) && t.calls == s.calls[batch[0] := Served(s.calls[batch[0]], ran, o)]
    ensures Ownership(t)
  {
    forall j | 0 <= j < |t.calls|
      ensures CallAt(t, j)
    {
      assert CallAt(s, j);
      ServedCall(s, t, batch, ran, owner, o, j);
    }
    assert Served(s.calls[batch[0]], ran, o).request == s.calls[batch[0]].request;
  }

  lemma ServedCall(s: State, t: State, batch: seq<nat>, ran: bool, owner: Slot, o: Outcome, j: nat)
    requires j < |s.calls| && CallAt(s, j) && HasHead(s, batch) && NoDup(batch) && CustodyOf(s, owner) == Custody(batch, ran)
    requires Handed(s, t, owner, Later(batch, ran)) && t.pending == s.pending
    requires o != Unset && (o.Answered? ==> owner == WithRx) && t.calls == s.calls[batch[0] := Served(s.calls[batch[0]], ran, o)]
    ensures CallAt(t, j)
  {
    LaterHold(batch, ran, j);
    if j == batch[0] {
      ServedOk(s.calls[j], ran, o, owner, HoldOf(RxHeld(s.rx), RxRan(s.rx), j),
               HoldOf(TimerHeld(s.timer), TimerRan(s.timer), j), HoldOf(DtorHeld(s.dtor), DtorRan(s.dtor), j),
               if ran then No else Run);
    }
  }

  // Steps of the receive thread.

  lemma LookupOwnership(s: State)
    requires Ownership(s) && s.rx.Reading? && s.rx.conn < |s.conns| && |s.rx.got| >= 12
    ensures Ownership(Lookup(s))
  {
    var t, id := Lookup(s), ResponseOf(s.rx.got).requestId;
    if id in s.pending {
      var k := s.pending[id];
      assert CallAt(s, k);
      assert t.calls[k].request == s.calls[k].request;
      LeaveTable(s, t, k);
    } else {
      SameCalls(s, t);
    }
  }

  lemma SameCalls(s: State, t: State)
    requires Ownership(s) && t.calls == s.calls && t.pending == s.pending && t.nextId == s.nextId && SameHeld(s, t)
    ensures Ownership(t)
  {
    forall j | 0 <= j < |t.calls|
      ensures CallAt(t, j)
    {
      assert CallAt(s, j);
    }
  }

  lemma RxOwnership(s: State, ev: RxEvent)
    requires Ownership(s) && RxEnabled(s, ev)
    ensures Ownership(RxNext(s, ev))
  {
    var t := RxNext(s, ev);
    match ev
    case RxTest => SameCalls(s, t);
    case RxBytes(data) => SameCalls(s, t);
    case RxBreak => SameCalls(s, t);
    case RxLookup => LookupOwnership(s);
    case RxRun => HeadOwnership(s, t, [s.rx.call], false, WithRx, Answered(s.rx.body));
    case RxDelete => HeadOwnership(s, t, [s.rx.call], true, WithRx, Failed);
    case RxQuit => SameCalls(s, t);
    case RxSwap(batch) => TakeOwnership(s, t, batch, Any(), WithRx);
    case RxFail => HeadOwnership(s, t, s.rx.batch, false, WithRx, Failed);
    case RxDeleteFailed => HeadOwnership(s, t, s.rx.batch, true, WithRx, Failed);
    case RxEnd => SameCalls(s, t);
  }

  lemma ClaimedPc(s: State, batch: seq<nat>, owner: Slot)
    ensures forall k :: 0 <= k < |s.calls| ==> Take(s, batch, owner).calls[k].pc == s.calls[k].pc
  {
  }

  /** Whatever the receive thread does, it moves no call, takes no lock, and stays on its connection. */
  lemma RxStays(s: State, t: State)
    requires Rest(s) && RxAlive(s.rx) && !t.rx.NoThread? && t.rx.conn == s.rx.conn
    requires |t.calls| == |s.calls| && forall k :: 0 <= k < |s.calls| ==> t.calls[k].pc == s.calls[k].pc
    requires t.connMtx == s.connMtx && t.sendMtx == s.sendMtx && t.fd == s.fd && |t.conns| == |s.conns|
    requires t.timer == s.timer && t.timerRunning == s.timerRunning && t.dtor == s.dtor
    ensures Rest(t)
  {
  }

  /** One call's record changes, but not how far the call has got. */
  lemma RxServes(s: State, t: State, k: nat, rx: Rx)
    requires Rest(s) && k < |s.calls| == |t.calls| && t.calls == s.calls[k := t.calls[k]] && t.calls[k].pc == s.calls[k].pc
    requires RxAlive(s.rx) && !rx.NoThread? && rx.conn == s.rx.conn && |t.conns| == |s.conns|
    requires t == s.(calls := t.calls, pending := t.pending, conns := t.conns, rx := rx)
    ensures Rest(t)
  {
    RxStays(s, t);
  }

  lemma LookupRest(s: State)
    requires Rest(s) && RxEnabled(s, RxLookup)
    ensures Rest(Lookup(s))
  {
    var t := Lookup(s);
    if t.rx.Holding? {
      RxServes(s, t, t.rx.call, t.rx);
    } else {
      RxStays(s, t);
    }
  }

  lemma SwapRest(s: State, batch: seq<nat>)
    requires Rest(s) && RxEnabled(s, RxSwap(batch))
    ensures Rest(RxNext(s, RxSwap(batch)))
  {
    ClaimedPc(s, batch, WithRx);
    RxStays(s, RxNext(s, RxSwap(batch)));
  }

  lemma RxServesRest(s: State, ev: RxEvent)
    requires Rest(s) && RxEnabled(s, ev) && (ev == RxRun || ev == RxDelete || ev == RxFail || ev == RxDeleteFailed)
    ensures Rest(RxNext(s, ev))
  {
    var t := RxNext(s, ev);
    RxServes(s, t, if s.rx.Holding? then s.rx.call else s.rx.batch[0], t.rx);
  }

  lemma RxRest(s: State, ev: RxEvent)
    requires Rest(s) && RxEnabled(s, ev)
    ensures Rest(RxNext(s, ev))
  {
    if ev == RxLookup {
      LookupRest(s);
    } else if ev.RxSwap? {
      SwapRest(s, ev.batch);
    } else if ev == RxRun || ev == RxDelete || ev == RxFail || ev == RxDeleteFailed {
      RxServesRest(s, ev);
    } else {
      RxStays(s, RxNext(s, ev));
    }
  }

  /** Taking a batch moves no call and no lock. */
  lemma TakeRest(s: State, t: State, batch: seq<nat>, owner: Slot)
    requires Rest(s) && t == Take(s, batch, owner).(rx := t.rx, timer := t.timer)
    requires (t.rx == s.rx || (t.rx.Clearing? && RxAlive(s.rx) && t.rx.conn == s.rx.conn)) && (t.timer == s.timer || !s.timer.Stopped?)
    requires !t.timer.Stopped? || t.timer == s.timer
    ensures Rest(t)
  {
    ClaimedPc(s, batch, owner);
  }

  // Steps of the timer thread and of the destructor.

  lemma TimerOwnership(s: State, ev: TimerEvent)
    requires Ownership(s) && TimerEnabled(s, ev)
    ensures Ownership(TimerNext(s, ev))
  {
    var t := TimerNext(s, ev);
    match ev
    case TimerScan(now, batch) => TakeOwnership(s, t, batch, Expired(now), WithTimer);
    case TimerFail => HeadOwnership(s, t, s.timer.batch, false, WithTimer, Failed);
    case TimerDelete => HeadOwnership(s, t, s.timer.batch, true, WithTimer, Failed);
    case TimerRest => IdleTimer(s, t);
    case TimerStop => IdleTimer(s, t);
  }

  lemma IdleTimer(s: State, t: State)
    requires Ownership(s) && t == s.(timer := t.timer) && TimerHeld(s.timer) == [] == TimerHeld(t.timer) && !TimerRan(t.timer)
    ensures Ownership(t)
  {
    forall j | 0 <= j < |t.calls|
      ensures CallAt(t, j)
    {
      assert CallAt(s, j);
    }
  }

  lemma TimerKeepsRest(s: State, ev: TimerEvent)
    requires Rest(s) && TimerEnabled(s, ev)
    ensures Rest(TimerNext(s, ev))
  {
    match ev
    case TimerScan(now, batch) => TakeRest(s, TimerNext(s, ev), batch, WithTimer);
    case TimerFail => ServedRest(s, TimerNext(s, ev), s.timer.batch[0]);
    case TimerDelete => ServedRest(s, TimerNext(s, ev), s.timer.batch[0]);
    case TimerRest =>
    case TimerStop =>
  }

  /** One call's record changes, but not how far the call has got, and a thread goes on with its batch. */
  lemma ServedRest(s: State, t: State, k: nat)
    requires Rest(s) && k < |s.calls| == |t.calls| && t.calls == s.calls[k := t.calls[k]] && t.calls[k].pc == s.calls[k].pc
    requires t == s.(calls := t.calls, timer := t.timer, dtor := t.dtor)
    requires t.timer == s.timer || (s.timer.Expiring? && t.timer.Expiring?)
    requires t.dtor == s.dtor || (s.dtor.Emptying? && t.dtor.Emptying?)
    ensures Rest(t)
  {
  }

  lemma DtorOwnership(s: State, ev: DtorEvent)
    requires Inv(s) && DtorEnabled(s, ev)
    ensures Ownership(DtorNext(s, ev))
  {
    var t := DtorNext(s, ev);
    match ev
    case DtorBegin => IdleDtor(s, t);
    case DtorJoinTimer => IdleDtor(s, t);
    case DtorClose => IdleDtor(s, t);
    case DtorJoinRx => IdleDtor(s, t);
    case DtorSwap(batch) => TakeOwnership(s, t, batch, Any(), WithDtor);
    case DtorFail => HeadOwnership(s, t, s.dtor.batch, false, WithDtor, Failed);
    case DtorDelete => HeadOwnership(s, t, s.dtor.batch, true, WithDtor, Failed);
    case DtorEnd => IdleDtor(s, t);
  }

  lemma IdleDtor(s: State, t: State)
    requires Ownership(s) && t.calls == s.calls && t.pending == s.pending && t.nextId == s.nextId && t.timer == s.timer
    requires RxHeld(t.rx) == RxHeld(s.rx) && RxRan(t.rx) == RxRan(s.rx)
    requires DtorHeld(s.dtor) == [] == DtorHeld(t.dtor) && !DtorRan(t.dtor)
    ensures Ownership(t)
  {
    forall j | 0 <= j < |t.calls|
      ensures CallAt(t, j)
    {
      assert CallAt(s, j);
    }
  }

  /** The last swap takes everything: every call has returned, so nothing can be registered any more. */
  lemma SwappedEmpty(s: State, batch: seq<nat>)
    requires IdsOk(s) && Lists(s, batch, Any())
    ensures Without(s, batch) == map[]
  {
    forall id | id in s.pending
      ensures s.pending[id] in batch
    {
      var k := s.pending[id];
      assert s.calls[k].request.requestId == id;
    }
  }

  lemma DtorRest(s: State, ev: DtorEvent)
    requires Inv(s) && DtorEnabled(s, ev)
    ensures Rest(DtorNext(s, ev))
  {
    if ev.DtorSwap? {
      SwappedEmpty(s, ev.batch);
      ClaimedPc(s, ev.batch, WithDtor);
    } else if ev == DtorFail || ev == DtorDelete {
      ServedRest(s, DtorNext(s, ev), s.dtor.batch[0]);
    }
  }

  // Runs.

  lemma StepKeeps(wh: Header -> Bytes, s: State, ev: Event, t: State)
    requires Inv(s) && Step(wh, s, ev, t)
    ensures Inv(t)
  {
    match ev
    case Caller(c) => CallerOwnership(wh, s, c); CallerRest(wh, s, c);
    case Rx(r) => RxOwnership(s, r); RxRest(s, r);
    case Timer(e) => TimerOwnership(s, e); TimerKeepsRest(s, e);
    case Dtor(d) => DtorOwnership(s, d); DtorRest(s, d);
  }

  lemma {:induction false} RunsKeepInv(wh: Header -> Bytes, evs: seq<Event>, s: State)
    requires Leads(wh, evs, s)
    ensures Inv(s)
    decreases |evs|
  {
    if evs == [] {
    } else {
      var s0 :| LeadsVia(wh, evs, s0, s);
      RunsKeepInv(wh, evs[..|evs| - 1], s0);
      StepKeeps(wh, s0, evs[|evs| - 1], s);
    }
  }

  lemma ReachableOk(wh: Header -> Bytes, s: State)
    requires Reachable(wh, s)
    ensures Inv(s)
  {
    var evs :| Leads(wh, evs, s);
    RunsKeepInv(wh, evs, s);
  }
}
