/**
  Runs in which responses do not serialise, so that their frames are empty and nothing is sent.

  From a list of dispatched requests the workers answer one after the other, and the loop resumes what is ready. Used
  to reach a connection that is starved (StarvedReached) and, in ReactorSleep, a loop that sleeps over a ready coroutine.
 */
module ReactorDrops {
  import opened ByteStrings
  import opened Wire
  import opened Connections
  import opened Reactor
  import opened ReactorRun
  import opened ReactorInvariant
  import opened ReactorCoroutines
  import opened ReactorSafety
  import opened ReactorFeed
  import opened ReactorOvershoot
  import ReactorAnswer
  import ReactorStarved

  /** Of the coroutines, the first have been resumed, the next are ready, and the rest wait. */
  function Mixed(ms: seq<Request>, resumed: nat, ready: nat): seq<Coro> {
    seq(|ms|, k requires 0 <= k < |ms| =>
      Coro(FD, 1, ms[k], if k < resumed then Resumed else if k < ready then Ready else Waiting, None, []))
  }

  function Part(ms: seq<Request>, resumed: nat, ready: nat): Pool
    requires resumed <= ready <= |ms|
  {
    Pool(Mixed(ms, resumed, ready), Ids(ready, |ms| - ready), Ids(resumed, ready - resumed), [])
  }

  lemma TasksPart(ms: seq<Request>)
    ensures Tasks(ms) == Part(ms, 0, 0)
  {
    forall k | 0 <= k < |ms|
      ensures Spawn(FD, 1, ms)[k] == Mixed(ms, 0, 0)[k]
    {
      SpawnIndex(FD, 1, ms, k);
    }
    assert Spawn(FD, 1, ms) == Mixed(ms, 0, 0);
  }

  // One response is computed and does not serialise.

  function InHandOf(ms: seq<Request>, resumed: nat, k: nat, state: CoState): Pool
    requires resumed <= k < |ms|
  {
    Pool(Mixed(ms, resumed, k)[k := Coro(FD, 1, ms[k], state, None, [])], Ids(k + 1, |ms| - k - 1), Ids(resumed, k - resumed), [])
  }

  lemma PartWf(ms: seq<Request>, resumed: nat, ready: nat)
    requires resumed <= ready <= |ms|
    ensures PoolWf(Part(ms, resumed, ready))
  {
  }

  lemma Started(ms: seq<Request>, resumed: nat, k: nat)
    requires resumed <= k < |ms|
    ensures PoolWf(InHandOf(ms, resumed, k, Running)) && PoolWf(InHandOf(ms, resumed, k, Finished))
    ensures Part(ms, resumed, k).tasks != [] && Start(Part(ms, resumed, k)) == InHandOf(ms, resumed, k, Running)
  {
    assert Ids(k, |ms| - k)[1..] == Ids(k + 1, |ms| - k - 1);
  }

  lemma Finished1(ms: seq<Request>, resumed: nat, k: nat)
    requires resumed <= k < |ms|
    ensures Finish(InHandOf(ms, resumed, k, Running), k, None) == InHandOf(ms, resumed, k, Finished)
  {
    var q := Mixed(ms, resumed, k);
    var a, b := Coro(FD, 1, ms[k], Running, None, []), Coro(FD, 1, ms[k], Finished, None, []);
    assert q[k := a][k := b] == q[k := b];
  }

  lemma Pushed(ms: seq<Request>, resumed: nat, k: nat)
    requires resumed <= k < |ms|
    ensures Push(InHandOf(ms, resumed, k, Finished), k) == Part(ms, resumed, k + 1)
  {
    var q, a := Mixed(ms, resumed, k), Coro(FD, 1, ms[k], Finished, None, []);
    assert q[k := a][k := a.(state := Ready)] == Mixed(ms, resumed, k + 1);
    assert Ids(resumed, k - resumed) + [k] == Ids(resumed, k + 1 - resumed);
  }

  /** No worker holds a task, and none has left. */
  predicate Resting(w: World) {
    w.busy == 0 && w.unsignalled == 0 && w.live == WORKERS
  }

  lemma TaskRun(e: Config, w: World, ms: seq<Request>, resumed: nat, k: nat)
    requires resumed <= k < |ms| && Reachable(e, w) && Resting(w) && Wf(w.s.m) && w.s.p == Part(ms, resumed, k)
    ensures Reachable(e, w.(s := w.s.(p := InHandOf(ms, resumed, k, Finished)), busy := 1))
  {
    PartWf(ms, resumed, k);
    Started(ms, resumed, k);
    Finished1(ms, resumed, k);
    var w1 := w.(s := w.s.(p := InHandOf(ms, resumed, k, Running)), busy := 1);
    OneStep(e, w, Worker(PopTask), w1);
    OneStep(e, w1, Worker(RunDone(k, None)), w1.(s := w1.s.(p := InHandOf(ms, resumed, k, Finished))));
  }

  lemma TaskReported(e: Config, w: World, ms: seq<Request>, resumed: nat, k: nat)
    requires resumed <= k < |ms| && Reachable(e, w) && w.busy == 1 && w.unsignalled == 0 && Wf(w.s.m)
    requires w.s.p == InHandOf(ms, resumed, k, Finished)
    ensures Reachable(e, w.(s := w.s.(p := Part(ms, resumed, k + 1)), busy := 0, eventfd := w.eventfd + 1))
  {
    Started(ms, resumed, k);
    Pushed(ms, resumed, k);
    PartWf(ms, resumed, k + 1);
    var w1 := w.(s := w.s.(p := Part(ms, resumed, k + 1)), unsignalled := 1);
    OneStep(e, w, Worker(PushReady(k)), w1);
    OneStep(e, w1, Worker(WriteEventfd), w1.(unsignalled := 0, busy := 0, eventfd := w.eventfd + 1));
  }

  lemma OneDropped(e: Config, w: World, ms: seq<Request>, resumed: nat, k: nat)
    requires resumed <= k < |ms| && Reachable(e, w) && Resting(w) && Wf(w.s.m) && w.s.p == Part(ms, resumed, k)
    ensures Reachable(e, w.(s := w.s.(p := Part(ms, resumed, k + 1)), eventfd := w.eventfd + 1))
  {
    TaskRun(e, w, ms, resumed, k);
    var w1 := w.(s := w.s.(p := InHandOf(ms, resumed, k, Finished)), busy := 1);
    TaskReported(e, w1, ms, resumed, k);
    assert w1.(s := w1.s.(p := Part(ms, resumed, k + 1)), busy := 0, eventfd := w1.eventfd + 1)
        == w.(s := w.s.(p := Part(ms, resumed, k + 1)), eventfd := w.eventfd + 1);
  }

  lemma {:induction false} AllDropped(e: Config, w: World, ms: seq<Request>, k: nat)
    requires k <= |ms| && Reachable(e, w) && Resting(w) && Wf(w.s.m) && w.s.p == Part(ms, 0, k)
    ensures Reachable(e, w.(s := w.s.(p := Part(ms, 0, |ms|)), eventfd := w.eventfd + (|ms| - k)))
    decreases |ms| - k
  {
    if k == |ms| {
      assert w == w.(s := w.s.(p := Part(ms, 0, |ms|)), eventfd := w.eventfd + (|ms| - k));
    } else {
      OneDropped(e, w, ms, 0, k);
      var w1 := w.(s := w.s.(p := Part(ms, 0, k + 1)), eventfd := w.eventfd + 1);
      AllDropped(e, w1, ms, k + 1);
      assert w1.(s := w1.s.(p := Part(ms, 0, |ms|)), eventfd := w1.eventfd + (|ms| - (k + 1)))
          == w.(s := w.s.(p := Part(ms, 0, |ms|)), eventfd := w.eventfd + (|ms| - k));
    }
  }

  // The loop resumes what is ready.

  function Swapped(ms: seq<Request>, resumed: nat, ready: nat): Pool
    requires resumed <= ready <= |ms|
  {
    Pool(Mixed(ms, resumed, ready), Ids(ready, |ms| - ready), [], Ids(resumed, ready - resumed))
  }

  lemma FirstResumed(e: Config, s: Server, ms: seq<Request>, resumed: nat, ready: nat)
    requires resumed < ready <= |ms| && Wf(s.m) && s.p == Swapped(ms, resumed, ready)
    ensures PoolWf(s.p) && s.p.resuming != []
    ensures ResumeFirst(e, s) == s.(p := Swapped(ms, resumed + 1, ready))
  {
    var q := Mixed(ms, resumed, ready);
    assert Ids(resumed, ready - resumed)[1..] == Ids(resumed + 1, ready - resumed - 1);
    assert q[resumed := q[resumed].(state := Resumed)] == Mixed(ms, resumed + 1, ready);
  }

  lemma {:induction false} ReadyResumed(e: Config, s: Server, ms: seq<Request>, resumed: nat, ready: nat)
    requires resumed <= ready <= |ms| && Wf(s.m) && s.p == Swapped(ms, resumed, ready)
    ensures PoolWf(s.p) && ResumeAll(e, s) == s.(p := Swapped(ms, ready, ready))
    decreases ready - resumed
  {
    if resumed < ready {
      FirstResumed(e, s, ms, resumed, ready);
      ReadyResumed(e, s.(p := Swapped(ms, resumed + 1, ready)), ms, resumed + 1, ready);
    }
  }

  /** The eventfd read completes, all that is ready is resumed, and the read is armed again if an entry is free. */
  function Woken(e: Config, s: Server, ms: seq<Request>, ready: nat): Server
    requires ready <= |ms|
  {
    var armed := e.sqe(s.r.calls);
    s.(p := Part(ms, ready, ready), notifyPending := s.notifyPending || !armed,
       r := s.r.(notifies := if armed then [NotifyWaiting] else [], calls := s.r.calls + 1))
  }

  lemma NotifyTaken(e: Config, s: Server, ms: seq<Request>, resumed: nat, ready: nat)
    requires resumed <= ready <= |ms| && Wf(s.m) && s.p == Part(ms, resumed, ready) && s.r.notifies == [NotifyDone]
    ensures PoolWf(s.p) && ProcessNotify(e, s, 0) == Woken(e, s, ms, ready)
  {
    PartWf(ms, resumed, ready);
    assert RemoveAt(s.r.notifies, 0) == [];
    var s0, s1 := s.(r := s.r.(notifies := [])), s.(r := s.r.(notifies := []), p := Swapped(ms, resumed, ready));
    ReadyResumed(e, s1, ms, resumed, ready);
    assert HandleNotify(e, s0) == s0.(p := Swapped(ms, ready, ready));
    Rearmed1(e, s, s0.(p := Swapped(ms, ready, ready)), ms, ready);
  }

  lemma Rearmed1(e: Config, s: Server, t: Server, ms: seq<Request>, ready: nat)
    requires ready <= |ms| && t == s.(r := s.r.(notifies := []), p := Swapped(ms, ready, ready))
    ensures RearmNotify(e, t) == Woken(e, s, ms, ready)
  {
    assert Part(ms, ready, ready) == Swapped(ms, ready, ready);
    assert [] + [NotifyWaiting] == [NotifyWaiting];
  }

  lemma WakesUp(e: Config, w: World, ms: seq<Request>, resumed: nat, ready: nat)
    requires resumed <= ready <= |ms| && Reachable(e, w) && Wf(w.s.m) && !w.stopped && w.eventfd > 0
    requires w.s.p == Part(ms, resumed, ready) && w.s.r.notifies == [NotifyWaiting]
    ensures Reachable(e, w.(s := Woken(e, w.s, ms, ready), eventfd := 0))
  {
    PartWf(ms, resumed, ready);
    var w1 := w.(s := NotifyPosted(w.s), eventfd := 0);
    OneStep(e, w, Kernel(NotifyRead), w1);
    NotifyTaken(e, w1.s, ms, resumed, ready);
    var t := Woken(e, w.s, ms, ready);
    assert Woken(e, w1.s, ms, ready) == t;
    ReactorAnswer.NotifyStep(e, w1, t);
    OneStep(e, w1, Loop(TakeNotify), w1.(s := t));
  }

  // A starved connection.

  lemma {:induction false} AllGone(coros: seq<Coro>)
    requires forall k :: 0 <= k < |coros| ==> coros[k].connId == 1 && coros[k].state.Resumed? && coros[k].frame == []
    ensures Unresumed(coros, 1) == 0 && Dropped(coros, 1) == |coros|
  {
    if coros != [] {
      AllGone(coros[..|coros| - 1]);
    }
  }

  /** The only connection is open, its n responses were dropped, and no operation is outstanding on it. */
  ghost predicate Starved(e: Config, w: World, n: nat) {
    && Reachable(e, w) && w.clean
    && |w.s.m.conns| == 1 && IsActive(w.s.m, 0) && w.s.m.conns[0].connId == 1 && w.s.m.conns[0].outQueue == []
    && PortOf(w.s.r, 0) == NO_OPS && Unresumed(w.s.p.coros, 1) == 0 && Dropped(w.s.p.coros, 1) == n
  }

  lemma HaltedStarves(e: Config, w: World, ms: seq<Request>) returns (w': World)
    requires Reachable(e, w) && HaltedAs(w, ms) && |ms| > 0
    ensures Starved(e, w', |ms|)
  {
    var input: Bytes, received: Bytes, free: multiset<nat>, bufs: seq<Bytes>, calls: nat :|
      w == Halted(ms, input, received, free, bufs, calls);
    TasksPart(ms);
    AllDropped(e, w, ms, 0);
    var w1 := w.(s := w.s.(p := Part(ms, 0, |ms|)), eventfd := |ms|);
    assert w1 == w.(s := w.s.(p := Part(ms, 0, |ms|)), eventfd := w.eventfd + (|ms| - 0));
    WakesUp(e, w1, ms, 0, |ms|);
    w' := w1.(s := Woken(e, w1.s, ms, |ms|), eventfd := 0);
    AllGone(Mixed(ms, |ms|, |ms|));
    assert w'.s.m.conns == [Paused(input, |ms|)];
  }

  /** A connection can be starved by any accepted message: sent 256 times, with no response that serialises. It stays
      open, and whatever happens after that no operation is ever submitted for it again. */
  lemma StarvedReached(e: Config, wh: Header -> Bytes, m: Request) returns (w: World)
    requires Roomy(e) && Lawful(e.registry, wh) && Fits(wh, m) && Accepted(e.registry, wh, m)
    ensures Starved(e, w, MAX_INFLIGHT_PER_CONN)
    ensures forall evs, v :: Continues(e, Anything, evs, w, v) ==> ReactorStarved.Deaf(w, v, 0)
  {
    var size := |RequestFrame(wh, m)|;
    var j := size * 256;
    var s := Stream(wh, m, j + 1);
    WholeInPlus(size, 256, 0);
    WholeInPlus(size, 255, size - 1);
    w := StreamOvershoots(e, wh, m, s, j - 1, j);
    w := HaltedStarves(e, w, Drain(e.registry, s[..j]).requests);
    ReactorStarved.StarvedExactlyByDrops(e, w, 0);
  }
}
