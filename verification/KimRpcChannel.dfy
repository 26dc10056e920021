/**
  The channel's critical sections and loops as code.

  Each method is what one thread does between taking and releasing m_pendingMtx, or one of its loops, run by itself.
  ChannelSections shows that each critical section is one step of the machine of Channel, whose interleavings are what
  is studied there; what the loops do is stated here of the bytes and the records alone.
 */
module KimRpcChannels {
  import opened ByteStrings
  import opened Wire

  /** A call in flight. */
  class Pending {
    const deadline: Option<int>    // None: no timeout
    var answer: Option<Bytes>
    var failed: bool
    var runs: nat                  // how often `done` has run

    constructor (deadline: Option<int>)
      ensures this.deadline == deadline && answer == None && !failed && runs == 0
    {
      this.deadline := deadline;
      answer, failed, runs := None, false, 0;
    }

    method Complete(body: Bytes, parses: bool)
      modifies this
      ensures answer == Some(body) && failed == (old(failed) || !parses) && runs == old(runs) + 1
    {
      answer := Some(body);
      if !parses {
        failed := true;
      }
      runs := runs + 1;
    }

    method Fail()
      modifies this
      ensures failed && answer == old(answer) && runs == old(runs) + 1
    {
      failed := true;
      runs := runs + 1;
    }
  }

  predicate Overdue(p: Pending, now: int) {
    p.deadline.Some? && p.deadline.value <= now
  }

  /** The list holds the records that the table has under the given ids, in that order and each once. */
  ghost predicate ListsIds(list: seq<Pending>, table: map<nat, Pending>, ids: seq<nat>) {
    && NoDup(list) && NoDup(ids) && |list| == |ids|
    && (forall i :: 0 <= i < |ids| ==> ids[i] in table && list[i] == table[ids[i]])
  }

  ghost function Except(table: map<nat, Pending>, ids: seq<nat>): map<nat, Pending> {
    map id | id in table && id !in ids :: table[id]
  }

  /** What one call of send took, and the connection it went to. */
  datatype Piece = Piece(conn: nat, bytes: Bytes)

  function Bodies(pieces: seq<Piece>): (r: seq<Bytes>)
    ensures |r| == |pieces| && forall k :: 0 <= k < |r| ==> r[k] == pieces[k].bytes
  {
    seq(|pieces|, k requires 0 <= k < |pieces| => pieces[k].bytes)
  }

  lemma BodiesSnoc(pieces: seq<Piece>, p: Piece)
    ensures Bodies(pieces + [p]) == Bodies(pieces) + [p.bytes]
  {
  }

  class KimRpcChannel {
    var pending: map<nat, Pending>
    var running: bool

    /** A record is in the table under one id only. */
    ghost predicate Valid()
      reads this
    {
      forall i, j :: i in pending && j in pending && i != j ==> pending[i] != pending[j]
    }

    constructor ()
      ensures Valid() && pending == map[] && !running
    {
      pending, running := map[], false;
    }

    method Register(id: nat, pend: Pending)
      requires Valid() && id !in pending && pend !in pending.Values
      modifies this`pending
      ensures Valid() && pending == old(pending)[id := pend]
    {
      pending := pending[id := pend];
    }

    /** Whoever finds the record under the lock removes it, and is its owner from then on. */
    method Claim(id: nat) returns (pend: Pending?)
      requires Valid()
      modifies this`pending
      ensures Valid() && pending == old(pending) - {id}
      ensures (pend != null <==> id in old(pending)) && (pend != null ==> pend == old(pending)[id])
    {
      pend := null;
      if id in pending {
        pend := pending[id];
        pending := pending - {id};
      }
    }

    /** After a failed send: the caller fails its own call unless someone else has claimed it. */
    method SendFailed(id: nat, pend: Pending)
      requires Valid() && (id in pending ==> pending[id] == pend)
      modifies this`pending, pend
      ensures Valid() && pending == old(pending) - {id} && pend.answer == old(pend.answer)
      ensures if id in old(pending) then pend.failed && pend.runs == old(pend.runs) + 1
        else pend.failed == old(pend.failed) && pend.runs == old(pend.runs)
    {
      var own := Claim(id);
      if own != null {
        own.Fail();
      }
    }

    /** The timer's scan: takes out exactly the overdue records. */
    method Scan(now: int) returns (expired: seq<Pending>, ghost ids: seq<nat>)
      requires Valid()
      modifies this`pending
      ensures Valid() && pending == Except(old(pending), ids) && ListsIds(expired, old(pending), ids)
      ensures forall id :: id in old(pending) ==> (id in ids <==> Overdue(old(pending)[id], now))
    {
      expired, ids := [], [];
      ghost var table := pending;
      var todo := pending.Keys;
      while todo != {}
        invariant todo <= table.Keys
        invariant pending == Except(table, ids) && ListsIds(expired, table, ids)
        invariant forall id :: id in table ==> (id in ids <==> id !in todo && Overdue(table[id], now))
        decreases |todo|
      {
        var id :| id in todo;
        todo := todo - {id};
        if Overdue(pending[id], now) {
          ListMore(expired, table, ids, id);
          expired := expired + [pending[id]];
          pending := pending - {id};
          ids := ids + [id];
        }
      }
    }

    /** One tick of the timer: every overdue call, and no other, is taken out and then failed. */
    method Tick(now: int)
      requires Valid()
      modifies this`pending, pending.Values
      ensures Valid() && forall id :: id in pending <==> id in old(pending) && !Overdue(old(pending)[id], now)
      ensures forall id :: id in old(pending) ==>
        var p := old(pending)[id];
        && (id in pending ==> pending[id] == p) && p.answer == old(pending[id].answer)
        && if p.deadline.Some? && p.deadline.value <= now then p.failed && p.runs == old(pending[id].runs) + 1
           else p.failed == old(pending[id].failed) && p.runs == old(pending[id].runs)
    {
      ghost var table := pending;
      ghost var ids;
      var expired;
      expired, ids := Scan(now);
      ListsAll(expired, table, ids);
      FailEach(expired);
    }

    static method FailEach(list: seq<Pending>)
      requires NoDup(list)
      modifies list
      ensures forall k :: 0 <= k < |list| ==>
        list[k].failed && list[k].runs == old(list[k].runs) + 1 && list[k].answer == old(list[k].answer)
    {
      for i := 0 to |list|
        invariant forall k :: 0 <= k < i ==> list[k].failed && list[k].runs == old(list[k].runs) + 1
        invariant forall k :: i <= k < |list| ==> list[k].runs == old(list[k].runs)
        invariant forall k :: 0 <= k < |list| ==> list[k].answer == old(list[k].answer)
      {
        list[i].Fail();
      }
    }

    /** The whole table is taken at once, under the lock. */
    method TakeAll() returns (table: map<nat, Pending>)
      modifies this`pending
      ensures Valid() && pending == map[] && table == old(pending)
    {
      table := pending;
      pending := map[];
    }

    /** failAllPending: the table is taken, then every call in it is failed. */
    method FailAllPending()
      requires Valid()
      modifies this`pending, pending.Values
      ensures Valid() && pending == map[]
      ensures forall id :: id in old(pending) ==>
        && old(pending)[id].failed && old(pending)[id].runs == old(pending[id].runs) + 1
        && old(pending)[id].answer == old(pending[id].answer)
    {
      var table := TakeAll();
      var todo := table.Keys;
      while todo != {}
        invariant todo <= table.Keys && pending == map[]
        invariant forall id :: id in todo ==> table[id].runs == old(table[id].runs)
        invariant forall id :: id in table && id !in todo ==> table[id].failed && table[id].runs == old(table[id].runs) + 1
        invariant forall id :: id in table ==> table[id].answer == old(table[id].answer)
        decreases |todo|
      {
        var id :| id in todo;
        todo := todo - {id};
        table[id].Fail();
      }
    }

    // Socket loops. What the kernel answers is a parameter: `amount(k)` decides how much the k-th call moves.

    /** sendLocked: whatever the sizes of the partial sends, what goes out is the frame, or a proper part of its
        front if a send fails. Each send goes to the connection that m_clientfd names when it is called, `fd(k)` for
        the k-th: the frame stays together only if that does not change. */
    method SendLocked(frame: Bytes, fd: nat -> nat, amount: nat -> nat, fails: nat -> bool)
      returns (ok: bool, sent: seq<Piece>)
      ensures Concat(Bodies(sent)) <= frame && (ok <==> Concat(Bodies(sent)) == frame)
      ensures forall k :: 0 <= k < |sent| ==> sent[k].conn == fd(k) && sent[k].bytes != [] && !fails(k)
      ensures !ok ==> fails(|sent|)
    {
      sent := [];
      var written := 0;
      while written < |frame|
        invariant written <= |frame| && Concat(Bodies(sent)) == frame[..written]
        invariant forall k :: 0 <= k < |sent| ==> sent[k].conn == fd(k) && sent[k].bytes != [] && !fails(k)
      {
        if fails(|sent|) {
          return false, sent;
        }
        var n := 1 + amount(|sent|) % (|frame| - written);
        var piece := Piece(fd(|sent|), frame[written..written + n]);
        assert frame[..written] + piece.bytes == frame[..written + n];
        BodiesSnoc(sent, piece);
        ConcatSnoc(Bodies(sent), piece.bytes);
        sent := sent + [piece];
        written := written + n;
      }
      ok := true;
    }

    /** recvAll on a connection on which `stream` arrives and then the end: the next `len` bytes, however they are
        split, or failure if there are fewer. */
    method RecvAll(stream: Bytes, pos: nat, len: nat, amount: nat -> nat) returns (ok: bool, data: Bytes)
      requires pos <= |stream|
      ensures (ok <==> pos + len <= |stream|) && (ok ==> data == stream[pos..pos + len])
    {
      data := [];
      var k := 0;
      while |data| < len
        invariant |data| <= len && pos + |data| <= |stream| && data == stream[pos..pos + |data|]
      {
        var left := |stream| - pos - |data|;
        if left == 0 {
          return false, data;
        }
        var most := if left < len - |data| then left else len - |data|;
        var n := 1 + amount(k) % most;
        data := data + stream[pos + |data|..pos + |data| + n];
        k := k + 1;
      }
      ok := true;
    }

    /** One turn of the receive loop: the next frame, and where the one after it begins. */
    method RecvFrame(stream: Bytes, pos: nat, amount: nat -> nat) returns (r: Option<Response>, next: nat)
      requires pos <= |stream|
      ensures r.None? ==> ReadResponses(stream[pos..]) == []
      ensures r.Some? ==> pos < next <= |stream| && ReadResponses(stream[pos..]) == [r.value] + ReadResponses(stream[next..])
    {
      r, next := None, pos;
      var rest := stream[pos..];
      var ok, sizeBytes := RecvAll(stream, pos, 4, amount);
      if !ok {
        return;
      }
      var size := FromLE(sizeBytes);
      assert sizeBytes == rest[..4];
      if size < 8 {
        return;
      }
      var idBytes;
      ok, idBytes := RecvAll(stream, pos + 4, 8, amount);
      if !ok {
        return;
      }
      var body;
      ok, body := RecvAll(stream, pos + 12, size - 8, amount);
      if !ok {
        return;
      }
      next := pos + 4 + size;
      r := Some(Response(FromLE(idBytes), body));
      assert idBytes == rest[4..12] && body == rest[12..4 + size] && stream[next..] == rest[4 + size..];
    }

    method Dispatch(r: Response, parses: bool)
      requires Valid()
      modifies this`pending, pending.Values
      ensures Valid() && pending == old(pending) - {r.requestId}
      ensures forall id :: id in old(pending) ==>
        var p := old(pending)[id];
        if id == r.requestId
        then p.answer == Some(r.body) && p.runs == old(pending[id].runs) + 1 && p.failed == (old(pending[id].failed) || !parses)
        else p.answer == old(pending[id].answer) && p.runs == old(pending[id].runs) && p.failed == old(pending[id].failed)
    {
      var pend := Claim(r.requestId);
      if pend != null {
        pend.Complete(r.body, parses);
      }
    }

    /** One more response is dispatched. */
    method Deliver(r: Response, parses: Bytes -> bool, ghost table: map<nat, Pending>, ghost before: map<nat, Before>,
                   ghost taken: seq<Response>)
      requires Valid() && Progress(table, before, parses, pending.Keys, taken)
      requires pending.Keys <= table.Keys && (forall id :: id in pending ==> pending[id] == table[id])
      requires forall i, j :: i in table && j in table && i != j ==> table[i] != table[j]
      modifies this`pending, pending.Values
      ensures Valid() && Progress(table, before, parses, pending.Keys, taken + [r])
      ensures pending == old(pending) - {r.requestId}
    {
      FirstForSnoc(taken, r);
      Dispatch(r, parses(r.body));
    }

    /** The receive loop until the stream ends or m_running is found cleared; `runs(k)` is what its k-th test finds. The
        frames taken are exactly those the stream holds, up to the first failed test; a call that was waiting is
        answered by the first of them that has its id, and marked failed only if that does not parse; or it is failed if
        none has its id; and none is left waiting. */
    method RecvLoop(stream: Bytes, runs: nat -> bool, amount: nat -> nat, parses: Bytes -> bool)
      returns (taken: seq<Response>)
      requires Valid() && forall id :: id in pending ==> pending[id].answer == None
      modifies this, pending.Values
      ensures TakenUntil(taken, ReadResponses(stream), runs) && pending == map[] && !running
      ensures forall id :: id in old(pending) ==>
        var p := old(pending)[id];
        && p.runs == old(pending[id].runs) + 1
        && p.answer == FirstFor(taken, id)
        && p.failed == (old(pending[id].failed) || p.answer == None || !parses(p.answer.value))
    {
      ghost var before := map id | id in pending :: Before(pending[id].runs, pending[id].failed);
      ghost var table := pending;
      taken := RecvFrames(stream, runs, amount, parses, table, before);
      LeaveLoop(table, before, parses, taken);
    }

    /** What follows the loop: the calls still waiting are failed. */
    method LeaveLoop(ghost table: map<nat, Pending>, ghost before: map<nat, Before>, ghost parses: Bytes -> bool,
                     ghost taken: seq<Response>)
      requires Valid() && Progress(table, before, parses, pending.Keys, taken)
      requires pending.Keys <= table.Keys && (forall id :: id in pending ==> pending[id] == table[id])
      requires forall i, j :: i in table && j in table && i != j ==> table[i] != table[j]
      modifies this, pending.Values
      ensures pending == map[] && !running
      ensures forall id :: id in table ==>
        && table[id].runs == before[id].runs + 1 && table[id].answer == FirstFor(taken, id)
        && table[id].failed == (before[id].failed || table[id].answer == None || !parses(table[id].answer.value))
    {
      running := false;
      FailAllPending();
    }

    method RecvFrames(stream: Bytes, runs: nat -> bool, amount: nat -> nat, parses: Bytes -> bool,
                      ghost table: map<nat, Pending>, ghost before: map<nat, Before>)
      returns (taken: seq<Response>)
      requires Valid() && table == pending && Progress(table, before, parses, table.Keys, [])
      modifies this`pending, pending.Values
      ensures Valid() && TakenUntil(taken, ReadResponses(stream), runs)
      ensures Progress(table, before, parses, pending.Keys, taken)
      ensures pending.Keys <= table.Keys && (forall id :: id in pending ==> pending[id] == table[id])
    {
      taken := [];
      var pos := 0;
      assert stream[0..] == stream;
      while runs(|taken|)
        invariant pos <= |stream| && ReadResponses(stream) == taken + ReadResponses(stream[pos..])
        invariant forall k :: 0 <= k < |taken| ==> runs(k)
        invariant Valid() && pending.Keys <= table.Keys && (forall id :: id in pending ==> pending[id] == table[id])
        invariant pending.Values <= table.Values
        invariant Progress(table, before, parses, pending.Keys, taken)
        decreases |stream| - pos
      {
        var r, next := RecvFrame(stream, pos, amount);
        if r.None? {
          return;
        }
        Deliver(r.value, parses, table, before, taken);
        AppendOne(taken, r.value, ReadResponses(stream[next..]));
        taken := taken + [r.value];
        pos := next;
      }
    }
  }

  /** The first of all there is, up to the first failed test. */
  ghost predicate TakenUntil(taken: seq<Response>, all: seq<Response>, runs: nat -> bool) {
    && taken <= all
    && (forall k :: 0 <= k < |taken| ==> runs(k))
    && (taken == all || !runs(|taken|))
  }

  /** The body that a list of responses gives a call: the first one under its id. */
  function FirstFor(rs: seq<Response>, id: nat): Option<Bytes> {
    if rs == [] then None else if rs[0].requestId == id then Some(rs[0].body) else FirstFor(rs[1..], id)
  }

  function OrElse(first: Option<Bytes>, r: Response, id: nat): Option<Bytes> {
    if first.Some? then first else if r.requestId == id then Some(r.body) else None
  }

  lemma {:induction false} FirstForAppend(rs: seq<Response>, r: Response, id: nat)
    ensures FirstFor(rs + [r], id) == OrElse(FirstFor(rs, id), r, id)
  {
    if rs != [] {
      assert (rs + [r])[1..] == rs[1..] + [r];
      FirstForAppend(rs[1..], r, id);
    }
  }

  lemma FirstForSnoc(rs: seq<Response>, r: Response)
    ensures forall id: nat :: FirstFor(rs + [r], id) == OrElse(FirstFor(rs, id), r, id)
  {
    forall id: nat
      ensures FirstFor(rs + [r], id) == OrElse(FirstFor(rs, id), r, id)
    {
      FirstForAppend(rs, r, id);
    }
  }

  /** A record before the loop. */
  datatype Before = Before(runs: nat, failed: bool)

  /** Calls still in the table have no answer among the responses taken; the others have run once, on the first, and are
      marked failed only if that did not parse. */
  ghost predicate Progress(table: map<nat, Pending>, before: map<nat, Before>, parses: Bytes -> bool, waiting: set<nat>,
                           taken: seq<Response>)
    reads table.Values
  {
    && before.Keys == table.Keys
    && forall id :: id in table ==>
         && table[id].answer == FirstFor(taken, id)
         && table[id].runs == before[id].runs + (if id in waiting then 0 else 1)
         && table[id].failed == (before[id].failed || (table[id].answer.Some? && !parses(table[id].answer.value)))
         && (id in waiting <==> table[id].answer == None)
  }

  lemma AppendOne(a: seq<Response>, r: Response, b: seq<Response>)
    ensures a + ([r] + b) == a + [r] + b
  {
  }

  /** Exactly the records under the ids are in the list. */
  lemma ListsAll(list: seq<Pending>, table: map<nat, Pending>, ids: seq<nat>)
    requires ListsIds(list, table, ids)
    requires forall i, j :: i in table && j in table && i != j ==> table[i] != table[j]
    ensures forall id :: id in table ==> (table[id] in list <==> id in ids)
    ensures forall p :: p in list ==> p in table.Values
  {
    forall id | id in table
      ensures table[id] in list <==> id in ids
    {
      if id in ids {
        var i :| 0 <= i < |ids| && ids[i] == id;
        assert list[i] == table[id];
      }
    }
  }

  lemma ListMore(list: seq<Pending>, table: map<nat, Pending>, ids: seq<nat>, id: nat)
    requires ListsIds(list, table, ids) && id in table && id !in ids
    requires forall i, j :: i in table && j in table && i != j ==> table[i] != table[j]
    ensures ListsIds(list + [table[id]], table, ids + [id])
    ensures Except(table, ids) - {id} == Except(table, ids + [id])
  {
    assert forall i :: 0 <= i < |list| ==> list[i] != table[id];
  }
}
