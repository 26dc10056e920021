/**
  What becomes of a call, told by its fields: a response that finds it waiting answers it, a failed send fails it, a
  reader that leaves fails all that wait, and nobody is left waiting for a request that did not go out.
 */
module ChannelProgress {
  import opened ByteStrings
  import opened Wire
  import opened Channel
  import opened ChannelSafety

  // A response that is waited for.

  /** A response whose call is waiting is delivered to it: in three steps of the receive thread the call is answered with
      the body read, its callback has run and its record is gone, whoever else waits still does, and the next frame is
      read. */
  lemma WaitingIsAnswered(wh: Header -> Bytes, s: State) returns (t: State, u: State, v: State)
    requires Reachable(wh, s) && RxEnabled(s, RxLookup) && ResponseOf(s.rx.got).requestId in s.pending
    ensures Step(wh, s, Rx(RxLookup), t) && Step(wh, t, Rx(RxRun), u) && Step(wh, u, Rx(RxDelete), v)
    ensures var r := ResponseOf(s.rx.got); var k := s.pending[r.requestId];
      && k < |s.calls| == |v.calls| && s.calls[k].request.requestId == r.requestId
      && v.calls[k].outcome == Answered(r.body) && v.calls[k].done == 1 && v.calls[k].frees == 1
      && (forall j :: 0 <= j < |s.calls| && j != k ==> v.calls[j] == s.calls[j])
      && v.pending == s.pending - {r.requestId} && v.rx == Testing(s.rx.conn)
  {
    ReachableOk(wh, s);
    var k := s.pending[ResponseOf(s.rx.got).requestId];
    assert CallAt(s, k);
    t, u, v := Answers(s, k, ResponseOf(s.rx.got));
  }

  lemma Answers(s: State, k: nat, r: Response) returns (t: State, u: State, v: State)
    requires RxEnabled(s, RxLookup) && r == ResponseOf(s.rx.got) && r.requestId in s.pending && k == s.pending[r.requestId]
    requires k < |s.calls| && s.calls[k].done == 0 && s.calls[k].frees == 0
    ensures t == RxNext(s, RxLookup) && RxEnabled(t, RxRun) && u == RxNext(t, RxRun) && RxEnabled(u, RxDelete)
    ensures v == RxNext(u, RxDelete) && |v.calls| == |s.calls|
    ensures v.calls[k].outcome == Answered(r.body) && v.calls[k].done == 1 && v.calls[k].frees == 1
    ensures forall j :: 0 <= j < |s.calls| && j != k ==> v.calls[j] == s.calls[j]
    ensures v.pending == s.pending - {r.requestId} && v.rx == Testing(s.rx.conn)
  {
    t := RxNext(s, RxLookup);
    u := RxNext(t, RxRun);
    v := RxNext(u, RxDelete);
  }

  // A send that fails.

  /** The sender takes its record back unless it was claimed. */
  lemma FailedSendFails(wh: Header -> Bytes, s: State, k: nat) returns (t: State, u: State, v: State)
    requires Reachable(wh, s) && At(s, k, SendFailed) && s.calls[k].slot == InTable
    ensures Step(wh, s, Caller(GiveUp(k, Undo)), t) && Step(wh, t, Caller(GiveUp(k, DeleteSlot)), u)
    ensures Step(wh, u, Caller(GiveUp(k, RunFail)), v)
    ensures k < |v.calls| == |s.calls| && At(v, k, Returned) && v.calls[k].outcome == Failed
    ensures v.calls[k].done == 1 && v.calls[k].frees == 1 && v.pending == s.pending - {s.calls[k].request.requestId}
    ensures forall j :: 0 <= j < |s.calls| && j != k ==> v.calls[j] == s.calls[j]
  {
    Unclaimed(wh, s, k);
    t, u, v := GivesUp(s, k);
    GiveUpStepped(wh, s, k, Undo, t);
    GiveUpStepped(wh, t, k, DeleteSlot, u);
    GiveUpStepped(wh, u, k, RunFail, v);
  }

  lemma Unclaimed(wh: Header -> Bytes, s: State, k: nat)
    requires Reachable(wh, s) && k < |s.calls| && s.calls[k].slot == InTable
    ensures s.calls[k].request.requestId in s.pending && s.calls[k].done == 0 && s.calls[k].frees == 0
  {
    ReachableOk(wh, s);
    assert CallAt(s, k);
  }

  lemma GiveUpStepped(wh: Header -> Bytes, s: State, k: nat, u: GiveUpStep, t: State)
    requires GiveUpEnabled(s, k, u) && t == GiveUpNext(s, k, u)
    ensures Step(wh, s, Caller(GiveUp(k, u)), t)
  {
  }

  lemma GivesUp(s: State, k: nat) returns (t: State, u: State, v: State)
    requires At(s, k, SendFailed) && s.calls[k].request.requestId in s.pending && s.calls[k].done == 0 && s.calls[k].frees == 0
    ensures t == GiveUpNext(s, k, Undo) && GiveUpEnabled(t, k, DeleteSlot) && u == GiveUpNext(t, k, DeleteSlot)
    ensures GiveUpEnabled(u, k, RunFail) && v == GiveUpNext(u, k, RunFail)
    ensures k < |v.calls| == |s.calls| && At(v, k, Returned) && v.calls[k].outcome == Failed
    ensures v.calls[k].done == 1 && v.calls[k].frees == 1 && v.pending == s.pending - {s.calls[k].request.requestId}
    ensures forall j :: 0 <= j < |s.calls| && j != k ==> v.calls[j] == s.calls[j]
  {
    t := GiveUpNext(s, k, Undo);
    u := GiveUpNext(t, k, DeleteSlot);
    v := GiveUpNext(u, k, RunFail);
  }

  /** A send that cannot go on leads there: the caller is at its failed send, the send lock is free, and the record still
      where it was. */
  lemma BrokenSendGivesUp(wh: Header -> Bytes, s: State, k: nat) returns (t: State)
    requires Reachable(wh, s) && At(s, k, Sending) && s.calls[k].written < |RequestFrame(wh, s.calls[k].request)|
    ensures Step(wh, s, Caller(Send(k, SendError)), t) && At(t, k, SendFailed) && t.sendMtx == None
    ensures t.calls[k].slot == s.calls[k].slot && t.pending == s.pending
  {
    t := SendNext(wh, s, k, SendError);
  }

  // A call that cannot be made.

  /** Arguments or a header that do not serialise, no address, no connection. */
  predicate CannotGoOn(ev: CallerEvent, k: nat) {
    ev == Prepare(k, BadArgs) || ev == Prepare(k, NoAddress) || ev == Connect(k, DialFail)
  }

  /** Such a call fails at once: its callback runs, once, without its ever having waited, and its caller holds no lock. */
  lemma RefusedCallFails(wh: Header -> Bytes, s: State, ev: CallerEvent, k: nat) returns (t: State, u: State)
    requires Reachable(wh, s) && CannotGoOn(ev, k) && CallerEnabled(wh, s, ev)
    ensures Step(wh, s, Caller(ev), t) && Step(wh, t, Caller(GiveUp(k, RunFail)), u)
    ensures k < |u.calls| && At(u, k, Returned) && u.calls[k].outcome == Failed && u.calls[k].done == 1
    ensures u.calls[k].slot == NoSlot && u.pending == s.pending && u.connMtx != Some(k) && u.sendMtx == s.sendMtx
  {
    Unheard(wh, s, ev, k);
    t := GivesIn(wh, s, ev, k);
    u := GiveUpNext(t, k, RunFail);
    GiveUpStepped(wh, t, k, RunFail, u);
  }

  lemma Unheard(wh: Header -> Bytes, s: State, ev: CallerEvent, k: nat)
    requires Reachable(wh, s) && CannotGoOn(ev, k) && CallerEnabled(wh, s, ev)
    ensures k < |s.calls| && s.calls[k].slot == NoSlot && s.calls[k].done == 0
    ensures ev.Prepare? ==> s.connMtx != Some(k)
  {
    ReachableOk(wh, s);
    assert CallAt(s, k);
  }

  lemma GivesIn(wh: Header -> Bytes, s: State, ev: CallerEvent, k: nat) returns (t: State)
    requires CannotGoOn(ev, k) && CallerEnabled(wh, s, ev) && k < |s.calls| && (ev.Prepare? ==> s.connMtx != Some(k))
    ensures Step(wh, s, Caller(ev), t) && At(t, k, Failing) && t.calls == s.calls[k := s.calls[k].(pc := Failing)]
    ensures t.pending == s.pending && t.connMtx != Some(k) && t.sendMtx == s.sendMtx
  {
    t := CallerNext(wh, s, ev);
  }

  // A call that waits has been sent.

  /** A caller that has returned and left its call in the table has handed over its whole frame. */
  ghost predicate SentIfLeft(wh: Header -> Bytes, c: Call) {
    c.pc == Returned && c.slot == InTable ==> c.written == |RequestFrame(wh, c.request)|
  }

  ghost predicate AllSent(wh: Header -> Bytes, s: State) {
    forall k :: 0 <= k < |s.calls| ==> SentIfLeft(wh, s.calls[k])
  }

  lemma OneMoves(wh: Header -> Bytes, s: State, t: State, k: nat)
    requires AllSent(wh, s) && k < |s.calls| == |t.calls| && t.calls == s.calls[k := t.calls[k]] && SentIfLeft(wh, t.calls[k])
    ensures AllSent(wh, t)
  {
  }

  lemma PrepareSent(wh: Header -> Bytes, s: State, k: nat, p: PrepareStep)
    requires AllSent(wh, s) && PrepareEnabled(s, k, p)
    ensures AllSent(wh, PrepareNext(s, k, p))
  {
    OneMoves(wh, s, PrepareNext(s, k, p), k);
  }

  lemma ConnectSent(wh: Header -> Bytes, s: State, k: nat, c: ConnectStep)
    requires AllSent(wh, s) && ConnectEnabled(s, k, c)
    ensures AllSent(wh, ConnectNext(s, k, c))
  {
    OneMoves(wh, s, ConnectNext(s, k, c), k);
  }

  lemma SendSent(wh: Header -> Bytes, s: State, k: nat, d: SendStep)
    requires AllSent(wh, s) && SendEnabled(wh, s, k, d)
    ensures AllSent(wh, SendNext(wh, s, k, d))
  {
    OneMoves(wh, s, SendNext(wh, s, k, d), k);
  }

  lemma GiveUpSent(wh: Header -> Bytes, s: State, k: nat, u: GiveUpStep)
    requires AllSent(wh, s) && GiveUpEnabled(s, k, u) && CallAt(s, k)
    ensures AllSent(wh, GiveUpNext(s, k, u))
  {
    OneMoves(wh, s, GiveUpNext(s, k, u), k);
  }

  lemma CallerSent(wh: Header -> Bytes, s: State, ev: CallerEvent)
    requires Inv(s) && AllSent(wh, s) && CallerEnabled(wh, s, ev)
    ensures AllSent(wh, CallerNext(wh, s, ev))
  {
    match ev
    case Begin(host, request) => assert SentIfLeft(wh, NewCall(host, request));
    case Prepare(k, p) => PrepareSent(wh, s, k, p);
    case Connect(k, c) => ConnectSent(wh, s, k, c);
    case Register(k, deadline) => OneMoves(wh, s, Registering(s, k, deadline), k);
    case Send(k, d) => SendSent(wh, s, k, d);
    case GiveUp(k, u) => GiveUpSent(wh, s, k, u);
  }

  /** The other threads take calls out of the table and never send. */
  ghost predicate OnlyTaken(s: State, t: State) {
    && |t.calls| == |s.calls|
    && forall k :: 0 <= k < |s.calls| ==>
         && t.calls[k].pc == s.calls[k].pc && t.calls[k].written == s.calls[k].written && t.calls[k].request == s.calls[k].request
         && (t.calls[k].slot == InTable ==> s.calls[k].slot == InTable)
  }

  lemma TakenSent(wh: Header -> Bytes, s: State, t: State)
    requires AllSent(wh, s) && OnlyTaken(s, t)
    ensures AllSent(wh, t)
  {
    forall k | 0 <= k < |t.calls|
      ensures SentIfLeft(wh, t.calls[k])
    {
      assert SentIfLeft(wh, s.calls[k]);
    }
  }

  lemma RxTakes(s: State, ev: RxEvent)
    requires RxEnabled(s, ev)
    ensures OnlyTaken(s, RxNext(s, ev))
  {
  }

  lemma TimerTakes(s: State, ev: TimerEvent)
    requires TimerEnabled(s, ev)
    ensures OnlyTaken(s, TimerNext(s, ev))
  {
  }

  lemma DtorTakes(s: State, ev: DtorEvent)
    requires DtorEnabled(s, ev)
    ensures OnlyTaken(s, DtorNext(s, ev))
  {
  }

  lemma StepSent(wh: Header -> Bytes, s: State, ev: Event, t: State)
    requires Inv(s) && AllSent(wh, s) && Step(wh, s, ev, t)
    ensures AllSent(wh, t)
  {
    match ev
    case Caller(c) => CallerSent(wh, s, c);
    case Rx(r) => RxTakes(s, r); TakenSent(wh, s, t);
    case Timer(x) => TimerTakes(s, x); TakenSent(wh, s, t);
    case Dtor(d) => DtorTakes(s, d); TakenSent(wh, s, t);
  }

  // The receive thread of a connection that is used.

  /** While the channel counts as running, its receive thread has not begun to fail the calls that wait. */
  ghost predicate ReaderOn(s: State) {
    s.running ==> s.rx.Testing? || s.rx.Reading? || s.rx.Holding? || s.rx.Leaving?
  }

  lemma StepReader(wh: Header -> Bytes, s: State, ev: Event, t: State)
    requires ReaderOn(s) && Step(wh, s, ev, t)
    ensures ReaderOn(t)
  {
    match ev
    case Caller(c) => CallerReader(wh, s, c);
    case Rx(r) => RxReader(s, r);
    case Timer(x) =>
    case Dtor(d) =>
  }

  lemma RxReader(s: State, ev: RxEvent)
    requires ReaderOn(s) && RxEnabled(s, ev)
    ensures ReaderOn(RxNext(s, ev))
  {
  }

  lemma CallerReader(wh: Header -> Bytes, s: State, ev: CallerEvent)
    requires ReaderOn(s) && CallerEnabled(wh, s, ev)
    ensures ReaderOn(CallerNext(wh, s, ev))
  {
  }

  lemma {:induction false} RunsKeep(wh: Header -> Bytes, evs: seq<Event>, s: State)
    requires Leads(wh, evs, s)
    ensures AllSent(wh, s) && ReaderOn(s)
    decreases |evs|
  {
    if evs != [] {
      var s0 :| LeadsVia(wh, evs, s0, s);
      RunsKeep(wh, evs[..|evs| - 1], s0);
      assert Reachable(wh, s0);
      ReachableOk(wh, s0);
      StepSent(wh, s0, evs[|evs| - 1], s);
      StepReader(wh, s0, evs[|evs| - 1], s);
    }
  }

  /** Nobody waits for an answer to a request that did not go out: if the caller has returned and its call waits, its whole
      frame was handed to send. */
  lemma WaitsOnlyIfSent(wh: Header -> Bytes, s: State, k: nat)
    requires Reachable(wh, s) && At(s, k, Returned) && s.calls[k].slot == InTable
    ensures s.calls[k].written == |RequestFrame(wh, s.calls[k].request)|
  {
    var evs :| Leads(wh, evs, s);
    RunsKeep(wh, evs, s);
    assert SentIfLeft(wh, s.calls[k]);
  }

  /** A connection is used again only if it is for the call's host, and only while its receive thread, the last one started,
      is there and has not begun to fail the calls that wait. */
  lemma ReusesLiveConnection(wh: Header -> Bytes, s: State, k: nat)
    requires Reachable(wh, s) && ConnectEnabled(s, k, Reuse)
    ensures s.host == Some(s.calls[k].host) && s.fd == Some(|s.conns| - 1)
    ensures s.rx.Testing? || s.rx.Reading? || s.rx.Holding? || s.rx.Leaving?
    ensures s.rx.conn == |s.conns| - 1
  {
    var evs :| Leads(wh, evs, s);
    RunsKeep(wh, evs, s);
    ReachableOk(wh, s);
  }

  /** When the receive thread leaves, everyone who waits is taken to be failed. */
  lemma LeavingTakesAll(wh: Header -> Bytes, s: State, batch: seq<nat>)
    requires Reachable(wh, s) && RxEnabled(s, RxSwap(batch))
    ensures var t := RxNext(s, RxSwap(batch));
      && t.pending == map[] && !t.running && t.rx == Clearing(s.rx.conn, batch, false)
      && forall k :: 0 <= k < |s.calls| ==> (k in batch <==> s.calls[k].slot == InTable) && (k in batch ==> t.calls[k].slot == WithRx)
  {
    ReachableOk(wh, s);
    var evs :| Leads(wh, evs, s);
    RunsKeep(wh, evs, s);
    forall k | 0 <= k < |s.calls|
      ensures k in batch <==> s.calls[k].slot == InTable
    {
      assert CallAt(s, k);
    }
  }
}
