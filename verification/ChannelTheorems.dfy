/** What holds of every reachable state of a channel. */
module ChannelTheorems {
  import opened ByteStrings
  import opened Wire
  import opened Channel
  import opened ChannelSafety
  import opened ChannelStreams

  /** No callback runs twice and no record is deleted twice, whoever gets to the call first. */
  lemma CallbackAtMostOnce(wh: Header -> Bytes, s: State, k: nat)
    requires Reachable(wh, s) && k < |s.calls|
    ensures s.calls[k].done <= 1 && s.calls[k].frees <= 1
    ensures s.calls[k].done == 1 <==> s.calls[k].outcome != Unset
  {
    ReachableOk(wh, s);
    assert CallAt(s, k);
  }

  /** Once the destructor has finished, every call ever made has had its callback run exactly once, and every
      record that was allocated has been deleted. */
  lemma CallbackExactlyOnceAfterTeardown(wh: Header -> Bytes, s: State, k: nat)
    requires Reachable(wh, s) && s.dtor == Destroyed && k < |s.calls|
    ensures s.calls[k].done == 1 && (s.calls[k].frees == 1 <==> s.calls[k].slot != NoSlot)
  {
    ReachableOk(wh, s);
    assert CallAt(s, k);
  }

  /** The call whose record a thread other than the callers reads, runs or deletes next, if any. */
  function InHand(s: State, owner: Slot): Option<nat> {
    var held := CustodyOf(s, owner).held;
    if held == [] then None else Some(held[0])
  }

  predicate RxTouches(ev: RxEvent) {
    ev == RxRun || ev == RxDelete || ev == RxFail || ev == RxDeleteFailed
  }

  /** Outside the lock a record is touched only by its one owner, and never after it was deleted. */
  lemma OnlyOwnerTouches(wh: Header -> Bytes, s: State)
    requires Reachable(wh, s)
    ensures forall ev :: RxEnabled(s, ev) && RxTouches(ev) ==> OwnedBy(s, InHand(s, WithRx), WithRx)
    ensures forall ev :: TimerEnabled(s, ev) && (ev == TimerFail || ev == TimerDelete) ==> OwnedBy(s, InHand(s, WithTimer), WithTimer)
    ensures forall ev :: DtorEnabled(s, ev) && (ev == DtorFail || ev == DtorDelete) ==> OwnedBy(s, InHand(s, WithDtor), WithDtor)
    ensures forall k :: GiveUpEnabled(s, k, DeleteSlot) ==> OwnedBy(s, Some(k), WithCaller)
  {
    HandOwned(wh, s, WithRx);
    HandOwned(wh, s, WithTimer);
    HandOwned(wh, s, WithDtor);
    forall k | GiveUpEnabled(s, k, DeleteSlot)
      ensures OwnedBy(s, Some(k), WithCaller)
    {
      ReachableOk(wh, s);
      assert CallAt(s, k);
    }
  }

  predicate OwnedBy(s: State, k: Option<nat>, owner: Slot) {
    k.Some? && k.value < |s.calls| && s.calls[k.value].slot == owner && s.calls[k.value].frees == 0
  }

  lemma HandOwned(wh: Header -> Bytes, s: State, owner: Slot)
    requires Reachable(wh, s) && (owner == WithRx || owner == WithTimer || owner == WithDtor)
    ensures InHand(s, owner).Some? ==> OwnedBy(s, InHand(s, owner), owner)
  {
    ReachableOk(wh, s);
    if InHand(s, owner).Some? {
      assert CallAt(s, InHand(s, owner).value);
    }
  }

  /** A response is discarded as unknown only if its call has been claimed by the timer or taken back by its own
      sender after a failed send, or is over. In particular it never arrives before its slot is in the table. */
  lemma DiscardedOnlyIfClaimed(wh: Header -> Bytes, s: State, k: nat)
    requires Reachable(wh, s) && RxEnabled(s, RxLookup) && ResponseOf(s.rx.got).requestId !in s.pending
    requires k < |s.calls| && s.calls[k].request.requestId == ResponseOf(s.rx.got).requestId
    requires s.calls[k].written > 0
    ensures s.calls[k].slot == WithTimer || s.calls[k].slot == WithCaller || (s.calls[k].slot == Freed && s.calls[k].frees == 1)
  {
    ReachableStreams(wh, s);
    assert CallAt(s, k);
  }

  /** A scan takes exactly the calls whose deadline has passed, and leaves every other where it is. */
  lemma TimerScanExact(wh: Header -> Bytes, s: State, now: int, batch: seq<nat>, k: nat)
    requires Reachable(wh, s) && TimerEnabled(s, TimerScan(now, batch)) && k < |s.calls|
    ensures var t := TimerNext(s, TimerScan(now, batch));
      && (k in TimerHeld(t.timer) <==> s.calls[k].slot == Slot.InTable && s.calls[k].deadline.Some? && s.calls[k].deadline.value <= now)
      && (t.calls[k].slot == Slot.InTable <==> s.calls[k].slot == Slot.InTable && k !in TimerHeld(t.timer))
  {
    ReachableOk(wh, s);
    assert CallAt(s, k);
  }

  /** Steps of the other threads, between the receive thread's load of m_clientfd and its recv. */
  ghost predicate Meanwhile(wh: Header -> Bytes, evs: seq<Event>, s: State, t: State)
    decreases |evs|, 1
  {
    if evs == [] then t == s else exists u :: MeanwhileVia(wh, evs, s, u, t)
  }

  ghost predicate MeanwhileVia(wh: Header -> Bytes, evs: seq<Event>, s: State, u: State, t: State)
    requires evs != []
    decreases |evs|, 0
  {
    Meanwhile(wh, evs[..|evs| - 1], s, u) && Step(wh, u, evs[|evs| - 1], t) && !evs[|evs| - 1].Rx?
  }

  ghost predicate SameThread(s: State, t: State) {
    t.rx == s.rx && |t.conns| == |s.conns| && (t.fd == s.fd || t.fd == None)
  }

  lemma PrepareMeanwhile(s: State, k: nat, p: PrepareStep)
    requires PrepareEnabled(s, k, p)
    ensures SameThread(s, PrepareNext(s, k, p))
  {
  }

  lemma ConnectMeanwhile(s: State, k: nat, c: ConnectStep)
    requires ThreadsOk(s) && s.rx.Reading? && ConnectEnabled(s, k, c)
    ensures SameThread(s, ConnectNext(s, k, c))
  {
  }

  lemma SendMeanwhile(wh: Header -> Bytes, s: State, k: nat, d: SendStep)
    requires SendEnabled(wh, s, k, d)
    ensures SameThread(s, SendNext(wh, s, k, d))
  {
  }

  lemma GiveUpMeanwhile(s: State, k: nat, u: GiveUpStep)
    requires GiveUpEnabled(s, k, u)
    ensures SameThread(s, GiveUpNext(s, k, u))
  {
  }

  lemma CallerMeanwhile(wh: Header -> Bytes, s: State, ev: CallerEvent)
    requires ThreadsOk(s) && s.rx.Reading? && CallerEnabled(wh, s, ev)
    ensures SameThread(s, CallerNext(wh, s, ev))
  {
    match ev
    case Begin(host, request) =>
    case Prepare(k, p) => PrepareMeanwhile(s, k, p);
    case Connect(k, c) => ConnectMeanwhile(s, k, c);
    case Register(k, deadline) =>
    case Send(k, d) => SendMeanwhile(wh, s, k, d);
    case GiveUp(k, u) => GiveUpMeanwhile(s, k, u);
  }

  lemma OthersMeanwhile(wh: Header -> Bytes, s: State, ev: Event, t: State)
    requires Inv(s) && s.rx.Reading? && Step(wh, s, ev, t) && !ev.Rx?
    ensures SameThread(s, t)
  {
    match ev
    case Caller(c) => CallerMeanwhile(wh, s, c);
    case Timer(x) => TimerMeanwhile(s, x);
    case Dtor(d) => DtorMeanwhile(s, d);
  }

  lemma TimerMeanwhile(s: State, ev: TimerEvent)
    requires TimerEnabled(s, ev)
    ensures SameThread(s, TimerNext(s, ev))
  {
  }

  lemma DtorMeanwhile(s: State, ev: DtorEvent)
    requires s.rx.Reading? && DtorEnabled(s, ev)
    ensures SameThread(s, DtorNext(s, ev))
  {
  }

  lemma {:induction false} KeptMeanwhile(wh: Header -> Bytes, evs: seq<Event>, s: State, t: State)
    requires Inv(s) && s.rx.Reading? && Meanwhile(wh, evs, s, t)
    ensures Inv(t) && SameThread(s, t)
    decreases |evs|
  {
    if evs != [] {
      var u :| MeanwhileVia(wh, evs, s, u, t);
      KeptMeanwhile(wh, evs[..|evs| - 1], s, u);
      OthersMeanwhile(wh, u, evs[|evs| - 1], t);
      StepKeeps(wh, u, evs[|evs| - 1], t);
    }
  }

  /** While the receive thread is in recvAll, the others may close its connection but never make a new one, however
      long they run: a descriptor it has loaded names its own connection or nothing of the channel's. */
  lemma OnlyClosedMeanwhile(wh: Header -> Bytes, evs: seq<Event>, s: State, t: State)
    requires Reachable(wh, s) && s.rx.Reading? && Meanwhile(wh, evs, s, t)
    ensures s.fd.Some? ==> s.fd == Some(s.rx.conn)
    ensures t.rx == s.rx && |t.conns| == |s.conns| && (t.fd == s.fd || t.fd == None)
  {
    ReachableOk(wh, s);
    KeptMeanwhile(wh, evs, s, t);
  }

  /** The receive thread reads m_clientfd without a lock, and yet only ever reads its own connection. */
  lemma ReadsOwnConnection(wh: Header -> Bytes, s: State, data: Bytes)
    requires Reachable(wh, s) && RxEnabled(s, RxBytes(data))
    ensures s.fd == Some(s.rx.conn) && s.rx.conn == |s.conns| - 1
  {
    ReachableOk(wh, s);
  }

  lemma IdsUnique(wh: Header -> Bytes, s: State, j: nat, k: nat)
    requires Reachable(wh, s) && j < |s.calls| && k < |s.calls| && j != k
    requires s.calls[j].request.requestId == s.calls[k].request.requestId
    ensures s.calls[j].request.requestId == 0
  {
    ReachableOk(wh, s);
  }

  /** A call that was answered was answered with a body that came in under its own id. */
  lemma AnswerCameIn(wh: Header -> Bytes, s: State, k: nat) returns (i: nat)
    requires Reachable(wh, s) && k < |s.calls| && s.calls[k].outcome.Answered?
    ensures i < |s.conns|
    ensures Response(s.calls[k].request.requestId, s.calls[k].outcome.body) in ReadResponses(s.conns[i].recvd)
  {
    ReachableStreams(wh, s);
    var r := Response(s.calls[k].request.requestId, s.calls[k].outcome.body);
    i :| 0 <= i < |s.conns| && r in s.conns[i].taken;
    TakenWasRead(wh, s, i);
  }

  /** The frames taken off a connection are the first of those its bytes spell. */
  lemma TakenWasRead(wh: Header -> Bytes, s: State, i: nat)
    requires Reachable(wh, s) && i < |s.conns|
    ensures s.conns[i].taken <= ReadResponses(s.conns[i].recvd)
  {
    ReachableStreams(wh, s);
    if StillReading(s.rx) && s.rx.conn == i {
      var c, got := s.conns[i], PartOf(s.rx);
      assert c.recvd + [] == c.recvd;
      assert ReadResponses(c.recvd + []) == c.taken + ReadResponses(got + []);
    }
  }

  /** What a connection that was not torn has carried is a prefix of the frames of distinct calls. */
  lemma ConnectionCarriesFrames(wh: Header -> Bytes, s: State, i: nat)
    requires Reachable(wh, s) && i < |s.conns| && !s.conns[i].torn
    ensures NoDup(s.conns[i].order) && (forall j :: 0 <= j < |s.conns[i].order| ==> s.conns[i].order[j] < |s.calls|)
    ensures s.conns[i].sent <= Concat(Frames(wh, RequestsIn(s.calls, s.conns[i].order)))
  {
    ReachableSenders(wh, s);
    SentPrefix(wh, s.calls, s.conns[i]);
  }
}
