/**
  The critical sections of the client's channel as steps of the machine of Channel.

  The table of a KimRpcChannel and that of a State hold the same calls, one through the records allocated for them, the
  other by their number. Each section under m_pendingMtx keeps it so, and is one step of the thread that runs it.
 */
module ChannelSections {
  import opened ByteStrings
  import opened Wire
  import opened Channel
  import opened ChannelSafety
  import K = KimRpcChannels

  /** No two calls share a record. */
  ghost predicate Separate(recs: map<nat, K.Pending>) {
    forall j, k :: j in recs && k in recs && j != k ==> recs[j] != recs[k]
  }

  /** The record of each waiting call, with its deadline, is in the table under its id, and nothing else is. */
  ghost predicate Shown(table: map<nat, K.Pending>, recs: map<nat, K.Pending>, s: State) {
    && Separate(recs) && table.Keys == s.pending.Keys
    && (forall id :: id in s.pending ==> ShownAt(table[id], recs, s.calls, s.pending[id]))
  }

  ghost predicate ShownAt(rec: K.Pending, recs: map<nat, K.Pending>, calls: seq<Call>, k: nat) {
    k < |calls| && k in recs && rec == recs[k] && rec.deadline == calls[k].deadline
  }

  lemma ShownOnce(table: map<nat, K.Pending>, recs: map<nat, K.Pending>, s: State)
    requires IdsOk(s) && Shown(table, recs, s)
    ensures forall i, j :: i in table && j in table && i != j ==> table[i] != table[j]
  {
    forall i, j | i in table && j in table && i != j
      ensures table[i] != table[j]
    {
      assert s.pending[i] != s.pending[j];
    }
  }

  /** Steps that leave the deadlines alone and take entries out of the table. */
  lemma ShownLess(table: map<nat, K.Pending>, left: map<nat, K.Pending>, recs: map<nat, K.Pending>, s: State, t: State)
    requires Shown(table, recs, s) && left.Keys == t.pending.Keys <= s.pending.Keys
    requires forall id :: id in t.pending ==> t.pending[id] == s.pending[id] && left[id] == table[id]
    requires |t.calls| == |s.calls| && forall k :: 0 <= k < |s.calls| ==> t.calls[k].deadline == s.calls[k].deadline
    ensures Shown(left, recs, t)
  {
    forall id | id in t.pending
      ensures ShownAt(left[id], recs, t.calls, t.pending[id])
    {
      assert ShownAt(table[id], recs, s.calls, s.pending[id]);
    }
  }

  lemma ShownMore(table: map<nat, K.Pending>, recs: map<nat, K.Pending>, s: State, t: State, k: nat, rec: K.Pending)
    requires Shown(table, recs, s) && k < |s.calls| && k !in recs && rec !in recs.Values
    requires t == Registering(s, k, rec.deadline) && s.calls[k].request.requestId !in s.pending
    ensures rec !in table.Values && Shown(table[s.calls[k].request.requestId := rec], recs[k := rec], t)
  {
    var id := s.calls[k].request.requestId;
    var table', recs' := table[id := rec], recs[k := rec];
    forall i | i in table
      ensures table[i] in recs.Values
    {
      assert ShownAt(table[i], recs, s.calls, s.pending[i]);
    }
    assert forall j :: j in recs ==> recs[j] in recs.Values;
    forall i | i in t.pending
      ensures ShownAt(table'[i], recs', t.calls, t.pending[i])
    {
      if i != id {
        assert ShownAt(table[i], recs, s.calls, s.pending[i]);
      }
    }
  }

  lemma NotYetIn(s: State, k: nat)
    requires Inv(s) && At(s, k, Connected)
    ensures s.calls[k].request.requestId !in s.pending
  {
    assert CallAt(s, k);
  }

  /** callAsync enters the record it has allocated. */
  method RegisterSection(ch: K.KimRpcChannel, id: nat, rec: K.Pending, ghost recs: map<nat, K.Pending>,
                         ghost wh: Header -> Bytes, ghost s: State, ghost k: nat)
    requires Inv(s) && Shown(ch.pending, recs, s) && CallerEnabled(wh, s, Register(k, rec.deadline))
    requires id == s.calls[k].request.requestId && k !in recs && rec !in recs.Values
    modifies ch`pending
    ensures Shown(ch.pending, recs[k := rec], CallerNext(wh, s, Register(k, rec.deadline)))
  {
    NotYetIn(s, k);
    ShownOnce(ch.pending, recs, s);
    ShownMore(ch.pending, recs, s, Registering(s, k, rec.deadline), k, rec);
    ch.Register(id, rec);
  }

  lemma LookupTakes(table: map<nat, K.Pending>, recs: map<nat, K.Pending>, s: State, t: State)
    requires Shown(table, recs, s) && RxEnabled(s, RxLookup) && t == RxNext(s, RxLookup)
    ensures var r := ResponseOf(s.rx.got);
      && Shown(table - {r.requestId}, recs, t)
      && (if r.requestId in table
          then t.rx.Holding? && t.rx.body == r.body && t.rx.call in recs && table[r.requestId] == recs[t.rx.call]
          else t.rx.Testing?)
  {
    var r := ResponseOf(s.rx.got);
    if r.requestId in table {
      assert ShownAt(table[r.requestId], recs, s.calls, s.pending[r.requestId]);
    }
    ShownLess(table, table - {r.requestId}, recs, s, t);
  }

  /** The receive thread looks up the call of a response it has read, and takes its record. */
  method LookupSection(ch: K.KimRpcChannel, r: Response, ghost recs: map<nat, K.Pending>, ghost s: State)
    returns (rec: K.Pending?)
    requires Inv(s) && Shown(ch.pending, recs, s) && RxEnabled(s, RxLookup) && r == ResponseOf(s.rx.got)
    modifies ch`pending
    ensures var t := RxNext(s, RxLookup);
      && Shown(ch.pending, recs, t)
      && (if rec == null then t.rx.Testing? else t.rx.Holding? && t.rx.body == r.body && t.rx.call in recs && rec == recs[t.rx.call])
  {
    LookupTakes(ch.pending, recs, s, RxNext(s, RxLookup));
    ShownOnce(ch.pending, recs, s);
    rec := ch.Claim(r.requestId);
  }

  lemma UndoTakes(table: map<nat, K.Pending>, recs: map<nat, K.Pending>, s: State, t: State, k: nat, id: nat)
    requires IdsOk(s) && id >= 1 && Shown(table, recs, s) && k < |s.calls| && id == s.calls[k].request.requestId && t == UndoCall(s, k)
    ensures Shown(table - {id}, recs, t)
    ensures if id in table then t.calls[k].pc == Undone && k in recs && table[id] == recs[k] else t.calls[k].pc == Returned
  {
    if id in table {
      assert ShownAt(table[id], recs, s.calls, s.pending[id]);
      assert s.pending[id] == k;
    }
    ShownLess(table, table - {id}, recs, s, t);
  }

  lemma HasId(s: State, k: nat)
    requires Inv(s) && At(s, k, SendFailed)
    ensures s.calls[k].request.requestId >= 1
  {
    assert CallAt(s, k);
  }

  /** The sender takes its record back after a failed send, unless someone else has. */
  method UndoSection(ch: K.KimRpcChannel, id: nat, ghost recs: map<nat, K.Pending>, ghost s: State, ghost k: nat)
    returns (rec: K.Pending?)
    requires Inv(s) && Shown(ch.pending, recs, s) && GiveUpEnabled(s, k, Undo) && id == s.calls[k].request.requestId
    modifies ch`pending
    ensures var t := GiveUpNext(s, k, Undo);
      && Shown(ch.pending, recs, t)
      && (if rec == null then t.calls[k].pc == Returned else t.calls[k].pc == Undone && k in recs && rec == recs[k])
  {
    HasId(s, k);
    UndoTakes(ch.pending, recs, s, UndoCall(s, k), k, id);
    ShownOnce(ch.pending, recs, s);
    rec := ch.Claim(id);
  }

  /** The calls that the table has under the given ids. */
  ghost function CallsOf(table: map<nat, nat>, ids: seq<nat>): (r: seq<nat>)
    requires forall i :: 0 <= i < |ids| ==> ids[i] in table
    ensures |r| == |ids|
  {
    seq(|ids|, i requires 0 <= i < |ids| => table[ids[i]])
  }

  /** A list of distinct ids is a batch of the calls it stands for. */
  lemma Batches(s: State, ids: seq<nat>, p: Call -> bool)
    requires IdsOk(s) && NoDup(ids) && (forall i :: 0 <= i < |ids| ==> ids[i] in s.pending)
    requires forall id :: id in s.pending ==> (id in ids <==> p(s.calls[s.pending[id]]))
    ensures Lists(s, CallsOf(s.pending, ids), p)
    ensures forall id :: id in s.pending ==> (s.pending[id] in CallsOf(s.pending, ids) <==> id in ids)
  {
    var batch := CallsOf(s.pending, ids);
    forall id | id in s.pending
      ensures s.pending[id] in batch <==> id in ids
    {
      if id in ids {
        var i :| 0 <= i < |ids| && ids[i] == id;
        assert batch[i] == s.pending[id];
      }
    }
    forall i, j | 0 <= i < j < |batch|
      ensures batch[i] != batch[j]
    {
      assert ids[i] != ids[j];
    }
    forall k | 0 <= k < |s.calls|
      ensures k in batch <==>
        s.calls[k].request.requestId in s.pending && s.pending[s.calls[k].request.requestId] == k && p(s.calls[k])
    {
      if k in batch {
        var i :| 0 <= i < |batch| && batch[i] == k;
        assert s.pending[ids[i]] == k;
      }
    }
  }

  /** What is left when the calls under these ids are taken out. */
  lemma BatchTakes(table: map<nat, K.Pending>, left: map<nat, K.Pending>, recs: map<nat, K.Pending>, s: State, t: State,
                   ids: seq<nat>, batch: seq<nat>, owner: Slot)
    requires Shown(table, recs, s) && left == K.Except(table, ids)
    requires forall id :: id in s.pending ==> (s.pending[id] in batch <==> id in ids)
    requires t.calls == Claim(s.calls, batch, owner) && t.pending == Without(s, batch)
    ensures Shown(left, recs, t)
  {
    ShownLess(table, left, recs, s, t);
  }

  lemma ScanTakes(table: map<nat, K.Pending>, recs: map<nat, K.Pending>, s: State, now: int, expired: seq<K.Pending>,
                  ids: seq<nat>) returns (batch: seq<nat>)
    requires IdsOk(s) && Shown(table, recs, s) && s.timer.Waiting? && s.timerRunning && K.ListsIds(expired, table, ids)
    requires forall id :: id in table ==> (id in ids <==> K.Overdue(table[id], now))
    ensures TimerEnabled(s, TimerScan(now, batch)) && Shown(K.Except(table, ids), recs, TimerNext(s, TimerScan(now, batch)))
    ensures |expired| == |batch| && forall i :: 0 <= i < |batch| ==> batch[i] in recs && expired[i] == recs[batch[i]]
  {
    batch := CallsOf(s.pending, ids);
    forall id | id in s.pending
      ensures id in ids <==> Expired(now)(s.calls[s.pending[id]])
    {
      assert ShownAt(table[id], recs, s.calls, s.pending[id]);
    }
    Batches(s, ids, Expired(now));
    BatchTakes(table, K.Except(table, ids), recs, s, TimerNext(s, TimerScan(now, batch)), ids, batch, WithTimer);
    forall i | 0 <= i < |batch|
      ensures batch[i] in recs && expired[i] == recs[batch[i]]
    {
      assert ShownAt(table[ids[i]], recs, s.calls, s.pending[ids[i]]);
    }
  }

  /** The timer's scan: one loop over the table takes out a batch of all expired calls, and lists their records. */
  method ScanSection(ch: K.KimRpcChannel, now: int, ghost recs: map<nat, K.Pending>, ghost s: State)
    returns (expired: seq<K.Pending>, ghost batch: seq<nat>)
    requires Inv(s) && Shown(ch.pending, recs, s) && s.timer.Waiting? && s.timerRunning
    modifies ch`pending
    ensures TimerEnabled(s, TimerScan(now, batch)) && Shown(ch.pending, recs, TimerNext(s, TimerScan(now, batch)))
    ensures |expired| == |batch| && forall i :: 0 <= i < |batch| ==> batch[i] in recs && expired[i] == recs[batch[i]]
  {
    ghost var table, ids := ch.pending, [];
    ShownOnce(table, recs, s);
    expired, ids := ch.Scan(now);
    batch := ScanTakes(table, recs, s, now, expired, ids);
  }

  lemma {:induction false} Enumerated(todo: set<nat>) returns (ids: seq<nat>)
    ensures NoDup(ids) && forall id :: id in ids <==> id in todo
    decreases |todo|
  {
    if todo == {} {
      ids := [];
    } else {
      var id :| id in todo;
      var rest := Enumerated(todo - {id});
      ids := rest + [id];
      assert ids[|rest|] == id;
      assert forall x :: x in ids <==> x in rest || x == id;
    }
  }

  lemma SwapTakes(table: map<nat, K.Pending>, recs: map<nat, K.Pending>, s: State) returns (batch: seq<nat>)
    requires IdsOk(s) && Shown(table, recs, s)
    ensures Lists(s, batch, Any()) && (forall id :: id in s.pending ==> s.pending[id] in batch)
    ensures forall k :: k in batch ==> k in recs && recs[k] in table.Values
  {
    var ids := Enumerated(s.pending.Keys);
    batch := CallsOf(s.pending, ids);
    Batches(s, ids, Any());
    forall k | k in batch
      ensures k in recs && recs[k] in table.Values
    {
      var i :| 0 <= i < |batch| && batch[i] == k;
      assert ShownAt(table[ids[i]], recs, s.calls, s.pending[ids[i]]);
    }
  }

  lemma NoneLeft(recs: map<nat, K.Pending>, s: State, t: State, batch: seq<nat>)
    requires Separate(recs) && (forall id :: id in s.pending ==> s.pending[id] in batch) && t.pending == Without(s, batch)
    ensures Shown(map[], recs, t)
  {
    assert t.pending == map[];
  }

  /** failAllPending's swap, run by the receive thread when it leaves and by the destructor: everyone is taken. */
  method SwapSection(ch: K.KimRpcChannel, ghost recs: map<nat, K.Pending>, ghost s: State)
    returns (table: map<nat, K.Pending>, ghost batch: seq<nat>)
    requires Inv(s) && Shown(ch.pending, recs, s)
    modifies ch`pending
    ensures s.rx.Quitting? ==> RxEnabled(s, RxSwap(batch)) && Shown(ch.pending, recs, RxNext(s, RxSwap(batch)))
    ensures s.dtor == Swapping ==> DtorEnabled(s, DtorSwap(batch)) && Shown(ch.pending, recs, DtorNext(s, DtorSwap(batch)))
    ensures table.Values == set k | k in batch && k in recs :: recs[k]
  {
    batch := SwapTakes(ch.pending, recs, s);
    NoneLeft(recs, s, Take(s, batch, WithRx), batch);
    SwappedRecords(ch.pending, recs, s, batch);
    table := ch.TakeAll();
  }

  lemma SwappedRecords(table: map<nat, K.Pending>, recs: map<nat, K.Pending>, s: State, batch: seq<nat>)
    requires Shown(table, recs, s) && (forall id :: id in s.pending ==> s.pending[id] in batch)
    requires forall k :: k in batch ==> k in recs && recs[k] in table.Values
    ensures table.Values == set k | k in batch && k in recs :: recs[k]
  {
    forall rec | rec in table.Values
      ensures rec in set k | k in batch && k in recs :: recs[k]
    {
      var id :| id in table && table[id] == rec;
      assert ShownAt(table[id], recs, s.calls, s.pending[id]);
    }
  }
}
