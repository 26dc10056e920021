/**
  The resumable watch stream and the table of instances that it keeps.

  The store is a log: what happened, at each revision, to keys in the watched range. JSON is abstract: `parse` turns a
  line into the events it carries and its header revision, or into nothing if the line carries none.
 */
module Watch {
  import opened ByteStrings

  datatype Event = Put(key: Bytes) | Delete(key: Bytes)

  datatype Frame = Frame(events: seq<Event>, revision: int)

  type Parser = Bytes -> Option<Frame>

  const NEWLINE: byte := 10

  // The instance table (rpcaddresscache).

  function RemoveAll(t: seq<Bytes>, addr: Bytes): seq<Bytes> {
    if t == [] then [] else (if t[0] == addr then [] else [t[0]]) + RemoveAll(t[1..], addr)
  }

  /** The watch callback: an instance is named by what follows the prefix in its key. */
  function Apply(prefix: Bytes, t: seq<Bytes>, ev: Event): seq<Bytes> {
    if |ev.key| <= |prefix| then t
    else
      var addr := ev.key[|prefix|..];
      match ev
      case Put(_) => if addr in t then t else t + [addr]
      case Delete(_) => RemoveAll(t, addr)
  }

  function ApplyAll(prefix: Bytes, t: seq<Bytes>, evs: seq<Event>): seq<Bytes> {
    if evs == [] then t else Apply(prefix, ApplyAll(prefix, t, evs[..|evs| - 1]), evs[|evs| - 1])
  }

  lemma {:induction false} ApplyAppend(prefix: Bytes, t: seq<Bytes>, a: seq<Event>, b: seq<Event>)
    ensures ApplyAll(prefix, t, a + b) == ApplyAll(prefix, ApplyAll(prefix, t, a), b)
  {
    if b == [] {
      assert a + b == a;
    } else {
      var n := |b| - 1;
      assert (a + b)[..|a + b| - 1] == a + b[..n];
      ApplyAppend(prefix, t, a, b[..n]);
    }
  }

  lemma {:induction false} RemoveAllContents(t: seq<Bytes>, addr: Bytes)
    ensures forall x :: x in RemoveAll(t, addr) <==> x in t && x != addr
    ensures NoDup(t) ==> NoDup(RemoveAll(t, addr))
  {
    if t != [] {
      var rest := RemoveAll(t[1..], addr);
      RemoveAllContents(t[1..], addr);
      assert t == [t[0]] + t[1..];
      if NoDup(t) {
        assert t[0] !in t[1..];
        assert NoDup(t[1..]) by {
          assert forall i, j :: 0 <= i < j < |t[1..]| ==> t[1..][i] == t[i + 1] && t[1..][j] == t[j + 1];
        }
        assert t[0] !in rest;
      }
    }
  }

  // The store.

  type Log = seq<seq<Event>>

  /** What happened in the revisions from a up to but not including b, in order. */
  function Between(log: Log, a: nat, b: nat): seq<Event>
    decreases b
  {
    if b <= a || b > |log| then [] else Between(log, a, b - 1) + log[b - 1]
  }

  lemma {:induction false} BetweenSplit(log: Log, a: nat, b: nat, c: nat)
    requires a <= b <= c <= |log|
    ensures Between(log, a, c) == Between(log, a, b) + Between(log, b, c)
    decreases c
  {
    if b == c {
      assert Between(log, a, b) + [] == Between(log, a, b);
    } else {
      BetweenSplit(log, a, b, c - 1);
      EventsAssociate(Between(log, a, b), Between(log, b, c - 1), log[c - 1]);
    }
  }

  lemma EventsAssociate(a: seq<Event>, b: seq<Event>, c: seq<Event>)
    ensures a + b + c == a + (b + c)
  {
  }

  /** The keys of the range after some events. */
  function Live(keys: set<Bytes>, evs: seq<Event>): set<Bytes> {
    if evs == [] then keys
    else
      var before := Live(keys, evs[..|evs| - 1]);
      match evs[|evs| - 1]
      case Put(k) => before + {k}
      case Delete(k) => before - {k}
  }

  function LiveAt(log: Log, revision: nat): set<Bytes> {
    Live({}, Between(log, 0, revision + 1))
  }

  lemma {:induction false} LiveAppend(keys: set<Bytes>, a: seq<Event>, b: seq<Event>)
    ensures Live(keys, a + b) == Live(Live(keys, a), b)
  {
    if b == [] {
      assert a + b == a;
    } else {
      var n := |b| - 1;
      assert (a + b)[..|a + b| - 1] == a + b[..n];
      LiveAppend(keys, a, b[..n]);
    }
  }

  ghost predicate UnderPrefix(prefix: Bytes, evs: seq<Event>) {
    forall i :: 0 <= i < |evs| ==> prefix <= evs[i].key
  }

  /** The table lists exactly the instances whose keys are live, each once. */
  ghost predicate Shows(prefix: Bytes, t: seq<Bytes>, keys: set<Bytes>) {
    && NoDup(t)
    && (forall addr :: addr in t <==> addr != [] && prefix + addr in keys)
  }

  lemma ApplyShows(prefix: Bytes, t: seq<Bytes>, keys: set<Bytes>, ev: Event)
    requires Shows(prefix, t, keys) && prefix <= ev.key
    ensures Shows(prefix, Apply(prefix, t, ev), Live(keys, [ev]))
  {
    var addr := ev.key[|prefix|..];
    assert ev.key == prefix + addr;
    assert [ev][..0] == [];
    assert Live(keys, [ev]) == if ev.Put? then keys + {ev.key} else keys - {ev.key};
    forall x | prefix + x == ev.key
      ensures x == addr
    {
      assert (prefix + x)[|prefix|..] == x;
    }
    RemoveAllContents(t, addr);
  }

  /** Applying events to the table is applying them to the keys. */
  lemma {:induction false} ApplyAllShows(prefix: Bytes, t: seq<Bytes>, keys: set<Bytes>, evs: seq<Event>)
    requires Shows(prefix, t, keys) && UnderPrefix(prefix, evs)
    ensures Shows(prefix, ApplyAll(prefix, t, evs), Live(keys, evs))
  {
    if evs != [] {
      var n := |evs| - 1;
      ApplyAllShows(prefix, t, keys, evs[..n]);
      ApplyShows(prefix, ApplyAll(prefix, t, evs[..n]), Live(keys, evs[..n]), evs[n]);
      assert evs == evs[..n] + [evs[n]];
      LiveAppend(keys, evs[..n], [evs[n]]);
    }
  }

  // Lines.

  /** The complete lines of a text, and what follows the last of them. */
  function Lines(s: Bytes): (seq<Bytes>, Bytes) {
    if s == [] then ([], [])
    else
      var (lines, rest) := Lines(s[..|s| - 1]);
      var c := s[|s| - 1];
      if c == NEWLINE then (lines + [rest], []) else (lines, rest + [c])
  }

  /** Where a text is cut does not matter: the rest of the first part waits for the second. */
  lemma {:induction false} LinesAppend(a: Bytes, b: Bytes)
    ensures Lines(a + b) == (Lines(a).0 + Lines(Lines(a).1 + b).0, Lines(Lines(a).1 + b).1)
    decreases |b|
  {
    if b == [] {
      assert a + b == a && Lines(a).1 + b == Lines(a).1;
      RestHasNoLines(a);
      assert Lines(a).0 + [] == Lines(a).0;
    } else {
      var n, c := |b| - 1, b[|b| - 1];
      assert (a + b)[..|a + b| - 1] == a + b[..n] && (a + b)[|a + b| - 1] == c;
      var r := Lines(a).1;
      assert (r + b)[..|r + b| - 1] == r + b[..n] && (r + b)[|r + b| - 1] == c;
      LinesAppend(a, b[..n]);
      var (l, s) := Lines(r + b[..n]);
      assert Lines(a).0 + l + [s] == Lines(a).0 + (l + [s]);
    }
  }

  lemma {:induction false} RestHasNoLines(a: Bytes)
    ensures Lines(Lines(a).1) == ([], Lines(a).1)
  {
    if a != [] {
      var (lines, rest) := Lines(a[..|a| - 1]);
      RestHasNoLines(a[..|a| - 1]);
      if a[|a| - 1] != NEWLINE {
        assert (rest + [a[|a| - 1]])[..|rest|] == rest;
      }
    }
  }

  /** Lines with a newline, byte 10, after each. */
  function Written(lines: seq<Bytes>): Bytes {
    if lines == [] then [] else Written(lines[..|lines| - 1]) + (lines[|lines| - 1] + [10])
  }

  lemma {:induction false} NoNewline(s: Bytes, more: Bytes)
    requires 10 !in more
    ensures Lines(s + more) == (Lines(s).0, Lines(s).1 + more)
    decreases |more|
  {
    if more == [] {
      assert s + more == s && Lines(s).1 + more == Lines(s).1;
    } else {
      var n := |more| - 1;
      assert (s + more)[..|s + more| - 1] == s + more[..n];
      NoNewline(s, more[..n]);
      assert more[n] in more;
      assert Lines(s).1 + more == Lines(s).1 + more[..n] + [more[n]];
    }
  }

  /** A text is cut into lines at its newlines, and nowhere else; what follows the last is kept. */
  lemma {:induction false} LinesOfWritten(lines: seq<Bytes>, rest: Bytes)
    requires (forall i :: 0 <= i < |lines| ==> 10 !in lines[i]) && 10 !in rest
    ensures Lines(Written(lines) + rest) == (lines, rest)
  {
    LinesEnded(lines);
    NoNewline(Written(lines), rest);
    assert [] + rest == rest;
  }

  lemma {:induction false} LinesEnded(lines: seq<Bytes>)
    requires forall i :: 0 <= i < |lines| ==> 10 !in lines[i]
    ensures Lines(Written(lines)) == (lines, [])
  {
    if lines != [] {
      var front, l := lines[..|lines| - 1], lines[|lines| - 1];
      LinesEnded(front);
      assert l in lines;
      LineWritten(Written(front), front, l);
      assert lines == front + [l];
    }
  }

  lemma LineWritten(s: Bytes, lines: seq<Bytes>, l: Bytes)
    requires Lines(s) == (lines, []) && 10 !in l
    ensures Lines(s + (l + [10])) == (lines + [l], [])
  {
    NoNewline(s, l);
    assert [] + l == l;
    LineEnds(s + l, lines, l);
    assert s + (l + [10]) == s + l + [10];
  }

  lemma LineEnds(s: Bytes, lines: seq<Bytes>, l: Bytes)
    requires Lines(s) == (lines, l)
    ensures Lines(s + [10]) == (lines + [l], [])
  {
    assert (s + [10])[..|s|] == s;
  }

  // One stream.

  /** What the client has of a stream: the table, the bytes of an unfinished line, the last revision processed, and
      as history every event applied. */
  datatype State = State(table: seq<Bytes>, buf: Bytes, last: int, applied: seq<Event>)

  /** parseWatchLine: a frame without events advances nothing. */
  function OnLine(parse: Parser, prefix: Bytes, s: State, line: Bytes): State {
    if line == [] then s
    else
      match parse(line)
      case None => s
      case Some(f) => s.(table := ApplyAll(prefix, s.table, f.events), applied := s.applied + f.events,
                         last := if f.revision > s.last then f.revision else s.last)
  }

  function OnLines(parse: Parser, prefix: Bytes, s: State, lines: seq<Bytes>): State {
    if lines == [] then s else OnLine(parse, prefix, OnLines(parse, prefix, s, lines[..|lines| - 1]), lines[|lines| - 1])
  }

  /** watchWrite. */
  function OnChunk(parse: Parser, prefix: Bytes, s: State, chunk: Bytes): State {
    var (lines, rest) := Lines(s.buf + chunk);
    OnLines(parse, prefix, s, lines).(buf := rest)
  }

  function OnChunks(parse: Parser, prefix: Bytes, s: State, chunks: seq<Bytes>): State {
    if chunks == [] then s else OnChunk(parse, prefix, OnChunks(parse, prefix, s, chunks[..|chunks| - 1]), chunks[|chunks| - 1])
  }

  lemma {:induction false} OnLinesAppend(parse: Parser, prefix: Bytes, s: State, a: seq<Bytes>, b: seq<Bytes>)
    ensures OnLines(parse, prefix, s, a + b) == OnLines(parse, prefix, OnLines(parse, prefix, s, a), b)
  {
    if b == [] {
      assert a + b == a;
    } else {
      var n := |b| - 1;
      assert (a + b)[..|a + b| - 1] == a + b[..n];
      OnLinesAppend(parse, prefix, s, a, b[..n]);
    }
  }

  lemma {:induction false} OnLinesBuf(parse: Parser, prefix: Bytes, s: State, lines: seq<Bytes>, buf: Bytes)
    ensures OnLines(parse, prefix, s.(buf := buf), lines) == OnLines(parse, prefix, s, lines).(buf := buf)
  {
    if lines != [] {
      OnLinesBuf(parse, prefix, s, lines[..|lines| - 1], buf);
    }
  }

  /** Only the bytes received matter, not how they were split into chunks. */
  lemma {:induction false} ChunksIrrelevant(parse: Parser, prefix: Bytes, s: State, chunks: seq<Bytes>)
    requires s.buf == []
    ensures OnChunks(parse, prefix, s, chunks) == OnChunk(parse, prefix, s, Concat(chunks))
  {
    if chunks == [] {
      assert s.buf + [] == [] && Lines([]) == ([], []);
    } else {
      var n := |chunks| - 1;
      var c, before := chunks[n], Concat(chunks[..n]);
      ChunksIrrelevant(parse, prefix, s, chunks[..n]);
      assert chunks == chunks[..n] + [c];
      ConcatSnoc(chunks[..n], c);
      TwoChunks(parse, prefix, s, before, c);
    }
  }

  lemma TwoChunks(parse: Parser, prefix: Bytes, s: State, a: Bytes, b: Bytes)
    requires s.buf == []
    ensures OnChunk(parse, prefix, OnChunk(parse, prefix, s, a), b) == OnChunk(parse, prefix, s, a + b)
  {
    assert s.buf + a == a && s.buf + (a + b) == a + b;
    LinesAppend(a, b);
    var (lines, rest) := Lines(a);
    var (more, rest') := Lines(rest + b);
    OnLinesAppend(parse, prefix, s, lines, more);
    OnLinesBuf(parse, prefix, OnLines(parse, prefix, s, lines), more, rest);
  }

  // What the server sends.

  predicate Silent(parse: Parser, line: Bytes) {
    line == [] || parse(line).None?
  }

  /** The revision after those that the lines have carried, when they were asked for from `from` on. */
  function Expected(parse: Parser, from: int, lines: seq<Bytes>): int {
    if lines == [] then from
    else
      var line := lines[|lines| - 1];
      if Silent(parse, line) then Expected(parse, from, lines[..|lines| - 1]) else parse(line).value.revision + 1
  }

  /** A frame with revision R carries everything that happened from revision `from` up to R. */
  ghost predicate FrameFrom(log: Log, parse: Parser, from: int, line: Bytes) {
    Silent(parse, line) ||
    (1 <= from <= parse(line).value.revision + 1 <= |log|
     && parse(line).value.events == Between(log, from, parse(line).value.revision + 1))
  }

  /** The server answers a watch from revision `from` with these lines: each frame goes on where the one before it
      ended. Nothing is said of who asked. */
  ghost predicate Serves(log: Log, parse: Parser, from: int, lines: seq<Bytes>) {
    lines == [] ||
    (Serves(log, parse, from, lines[..|lines| - 1])
     && FrameFrom(log, parse, Expected(parse, from, lines[..|lines| - 1]), lines[|lines| - 1]))
  }

  // Streams that are cut and resumed.

  /** The table shows the keys live at the last revision processed, and every event since the seed was applied, once
      and in order. */
  ghost predicate Synced(log: Log, prefix: Bytes, seed: nat, s: State) {
    && seed <= s.last < |log|
    && s.applied == Between(log, seed + 1, s.last + 1)
    && Shows(prefix, s.table, LiveAt(log, s.last))
  }

  ghost predicate LogUnder(prefix: Bytes, log: Log) {
    forall r :: 0 <= r < |log| ==> UnderPrefix(prefix, log[r])
  }

  lemma {:induction false} BetweenUnder(prefix: Bytes, log: Log, a: nat, b: nat)
    requires LogUnder(prefix, log)
    ensures UnderPrefix(prefix, Between(log, a, b))
    decreases b
  {
    if a < b <= |log| {
      BetweenUnder(prefix, log, a, b - 1);
      assert UnderPrefix(prefix, log[b - 1]);
    }
  }

  lemma LiveSplit(log: Log, a: nat, b: nat)
    requires a <= b < |log|
    ensures LiveAt(log, b) == Live(LiveAt(log, a), Between(log, a + 1, b + 1))
  {
    BetweenSplit(log, 0, a + 1, b + 1);
    LiveAppend({}, Between(log, 0, a + 1), Between(log, a + 1, b + 1));
  }

  lemma FrameSynced(log: Log, prefix: Bytes, seed: nat, s: State, t: State, to: nat)
    requires Synced(log, prefix, seed, s) && LogUnder(prefix, log) && s.last <= to < |log|
    requires t.last == to && t.applied == s.applied + Between(log, s.last + 1, to + 1)
    requires t.table == ApplyAll(prefix, s.table, Between(log, s.last + 1, to + 1))
    ensures Synced(log, prefix, seed, t)
  {
    FrameShows(log, prefix, s.table, t.table, s.last, to);
    BetweenSplit(log, seed + 1, s.last + 1, to + 1);
  }

  lemma FrameShows(log: Log, prefix: Bytes, table: seq<Bytes>, table': seq<Bytes>, last: nat, to: nat)
    requires Shows(prefix, table, LiveAt(log, last)) && LogUnder(prefix, log) && last <= to < |log|
    requires table' == ApplyAll(prefix, table, Between(log, last + 1, to + 1))
    ensures Shows(prefix, table', LiveAt(log, to))
  {
    BetweenUnder(prefix, log, last + 1, to + 1);
    ApplyAllShows(prefix, table, LiveAt(log, last), Between(log, last + 1, to + 1));
    LiveSplit(log, last, to);
  }

  lemma LineSynced(log: Log, parse: Parser, prefix: Bytes, seed: nat, s: State, line: Bytes)
    requires Synced(log, prefix, seed, s) && LogUnder(prefix, log) && FrameFrom(log, parse, s.last + 1, line)
    ensures Synced(log, prefix, seed, OnLine(parse, prefix, s, line))
    ensures OnLine(parse, prefix, s, line).last == if Silent(parse, line) then s.last else parse(line).value.revision
  {
    if !Silent(parse, line) {
      FrameSynced(log, prefix, seed, s, OnLine(parse, prefix, s, line), parse(line).value.revision);
    }
  }

  /** A client that asked for the revision after its last one keeps in step with what the server sends. */
  lemma {:induction false} LinesSynced(log: Log, parse: Parser, prefix: Bytes, seed: nat, s: State, lines: seq<Bytes>)
    requires Synced(log, prefix, seed, s) && LogUnder(prefix, log) && Serves(log, parse, s.last + 1, lines)
    ensures Synced(log, prefix, seed, OnLines(parse, prefix, s, lines))
    ensures OnLines(parse, prefix, s, lines).last + 1 == Expected(parse, s.last + 1, lines)
  {
    if lines != [] {
      var n := |lines| - 1;
      LinesSynced(log, parse, prefix, seed, s, lines[..n]);
      LineSynced(log, parse, prefix, seed, OnLines(parse, prefix, s, lines[..n]), lines[n]);
    }
  }

  lemma {:induction false} ServesPart(log: Log, parse: Parser, from: int, lines: seq<Bytes>, k: nat)
    requires Serves(log, parse, from, lines) && k <= |lines|
    ensures Serves(log, parse, from, lines[..k])
  {
    if k == |lines| {
      assert lines[..k] == lines;
    } else {
      var n := |lines| - 1;
      assert lines[..n][..k] == lines[..k];
      ServesPart(log, parse, from, lines[..n], k);
    }
  }

  /** The chunks are what arrived, before a cut at any byte, of a stream that the server sent from revision `from` on. */
  ghost predicate Delivers(log: Log, parse: Parser, from: int, chunks: seq<Bytes>) {
    exists stream :: Concat(chunks) <= stream && Serves(log, parse, from, Lines(stream).0)
  }

  /** What the n-th connection delivers when it is asked for revision `from` on. */
  type Store = (nat, int) -> seq<Bytes>

  /** Whatever revision is asked for, on whatever connection, is what is served; a store knows nothing of its clients. */
  ghost predicate HonestStore(log: Log, parse: Parser, store: Store) {
    forall n: nat, from: int {:trigger Delivers(log, parse, from, store(n, from))} ::
      1 <= from <= |log| ==> Delivers(log, parse, from, store(n, from))
  }

  /** A cut loses the unfinished line. */
  function Reconnected(s: State): State {
    s.(buf := [])
  }

  function OnSession(parse: Parser, prefix: Bytes, s: State, chunks: seq<Bytes>): State {
    Reconnected(OnChunks(parse, prefix, s, chunks))
  }

  /** n connections, each asked for the revision after the last processed on those before it. */
  function Watched(parse: Parser, prefix: Bytes, s: State, store: Store, n: nat): State {
    if n == 0 then s
    else
      var t := Watched(parse, prefix, s, store, n - 1);
      OnSession(parse, prefix, t, store(n - 1, t.last + 1))
  }

  /** From one connection to the next. */
  ghost predicate Follows(parse: Parser, prefix: Bytes, t: State, u: State, store: Store, n: nat) {
    u == OnSession(parse, prefix, t, store(n, t.last + 1))
  }

  lemma NextWatched(parse: Parser, prefix: Bytes, s: State, store: Store, n: nat, t: State, u: State)
    requires n > 0 && t == Watched(parse, prefix, s, store, n - 1) && u == Watched(parse, prefix, s, store, n)
    ensures Follows(parse, prefix, t, u, store, n - 1)
  {
  }

  /** The revision that the n-th connection asks for. */
  function AskedFor(parse: Parser, prefix: Bytes, s: State, store: Store, n: nat): int {
    Watched(parse, prefix, s, store, n).last + 1
  }

  /** The complete lines among what arrived are the first of those the server sent. */
  lemma DeliveredLines(log: Log, parse: Parser, from: int, chunks: seq<Bytes>)
    requires Delivers(log, parse, from, chunks)
    ensures Serves(log, parse, from, Lines(Concat(chunks)).0)
  {
    var got := Concat(chunks);
    var stream :| got <= stream && Serves(log, parse, from, Lines(stream).0);
    LinesOfFront(got, stream);
    assert Lines(stream).0[..|Lines(got).0|] == Lines(got).0;
    ServesPart(log, parse, from, Lines(stream).0, |Lines(got).0|);
  }

  lemma LinesOfFront(got: Bytes, stream: Bytes)
    requires got <= stream
    ensures Lines(got).0 <= Lines(stream).0
  {
    assert stream == got + stream[|got|..];
    LinesAppend(got, stream[|got|..]);
  }

  lemma SessionLines(parse: Parser, prefix: Bytes, s: State, chunks: seq<Bytes>)
    requires s.buf == []
    ensures OnSession(parse, prefix, s, chunks) == OnLines(parse, prefix, s, Lines(Concat(chunks)).0).(buf := [])
  {
    ChunksIrrelevant(parse, prefix, s, chunks);
    assert s.buf + Concat(chunks) == Concat(chunks);
  }

  /** One connection, asked for the revision after the last processed, and cut anywhere. */
  lemma SessionSynced(log: Log, parse: Parser, prefix: Bytes, seed: nat, s: State, chunks: seq<Bytes>, from: int)
    requires Synced(log, prefix, seed, s) && LogUnder(prefix, log) && s.buf == []
    requires from == s.last + 1 && Delivers(log, parse, from, chunks)
    ensures Synced(log, prefix, seed, OnSession(parse, prefix, s, chunks))
    ensures OnSession(parse, prefix, s, chunks).buf == []
  {
    DeliveredLines(log, parse, from, chunks);
    LinesSynced(log, parse, prefix, seed, s, Lines(Concat(chunks)).0);
    SessionLines(parse, prefix, s, chunks);
  }

  lemma StoreDelivers(log: Log, parse: Parser, store: Store, n: nat, from: int)
    requires HonestStore(log, parse, store) && 1 <= from <= |log|
    ensures Delivers(log, parse, from, store(n, from))
  {
  }

  /** A synchronised table, with nothing of a line left over. */
  ghost predicate InStep(log: Log, prefix: Bytes, seed: nat, s: State) {
    Synced(log, prefix, seed, s) && s.buf == []
  }

  lemma NextInStep(log: Log, parse: Parser, prefix: Bytes, seed: nat, t: State, u: State, store: Store, n: nat)
    requires InStep(log, prefix, seed, t) && LogUnder(prefix, log) && HonestStore(log, parse, store)
    requires Follows(parse, prefix, t, u, store, n)
    ensures InStep(log, prefix, seed, u)
  {
    StoreDelivers(log, parse, store, n, t.last + 1);
    SessionSynced(log, parse, prefix, seed, t, store(n, t.last + 1), t.last + 1);
  }

  /** However often and wherever the streams are cut: nothing is skipped, nothing is applied twice, and the table is
      the set of keys live at the last revision processed; because each connection asks for the revision after it. */
  lemma {:induction false} WatchStaysSynced(log: Log, parse: Parser, prefix: Bytes, seed: nat, s: State, store: Store, n: nat)
    requires InStep(log, prefix, seed, s) && LogUnder(prefix, log) && HonestStore(log, parse, store)
    ensures InStep(log, prefix, seed, Watched(parse, prefix, s, store, n))
  {
    if n > 0 {
      var t, u := Watched(parse, prefix, s, store, n - 1), Watched(parse, prefix, s, store, n);
      WatchStaysSynced(log, parse, prefix, seed, s, store, n - 1);
      StepInStep(log, parse, prefix, seed, s, t, u, store, n);
    }
  }

  lemma StepInStep(log: Log, parse: Parser, prefix: Bytes, seed: nat, s: State, t: State, u: State, store: Store, n: nat)
    requires n > 0 && t == Watched(parse, prefix, s, store, n - 1) && u == Watched(parse, prefix, s, store, n)
    requires InStep(log, prefix, seed, t) && LogUnder(prefix, log) && HonestStore(log, parse, store)
    ensures InStep(log, prefix, seed, u)
  {
    NextWatched(parse, prefix, s, store, n, t, u);
    NextInStep(log, parse, prefix, seed, t, u, store, n - 1);
  }

  // The seed.

  /** The instances of a range read, in its order. */
  function SeedTable(prefix: Bytes, keys: seq<Bytes>): seq<Bytes> {
    if keys == [] then []
    else SeedTable(prefix, keys[..|keys| - 1]) +
         var k := keys[|keys| - 1];
         if |k| > |prefix| then [k[|prefix|..]] else []
  }

  lemma {:induction false} SeedContents(prefix: Bytes, keys: seq<Bytes>)
    requires NoDup(keys) && forall i :: 0 <= i < |keys| ==> prefix <= keys[i]
    ensures NoDup(SeedTable(prefix, keys))
    ensures forall addr :: addr in SeedTable(prefix, keys) <==> addr != [] && prefix + addr in keys
  {
    if keys != [] {
      var n, k := |keys| - 1, keys[|keys| - 1];
      SeedContents(prefix, keys[..n]);
      assert keys == keys[..n] + [k];
      assert k == prefix + k[|prefix|..];
      forall addr | prefix + addr == k
        ensures addr == k[|prefix|..]
      {
        assert (prefix + addr)[|prefix|..] == addr;
      }
      assert k !in keys[..n];
    }
  }

  /** A range read at revision `seed` that lists the live keys seeds a synchronised state. */
  lemma SeedSynced(log: Log, prefix: Bytes, seed: nat, keys: seq<Bytes>)
    requires seed < |log| && NoDup(keys) && (forall i :: 0 <= i < |keys| ==> prefix <= keys[i])
    requires forall k :: k in keys <==> k in LiveAt(log, seed)
    ensures Synced(log, prefix, seed, State(SeedTable(prefix, keys), [], seed, []))
  {
    SeedContents(prefix, keys);
  }

  /** From the range read on: seeded at its revision and watched from the one after it, the table is always the set of
      keys live at the last revision processed. */
  lemma SeededAndWatched(log: Log, parse: Parser, prefix: Bytes, seed: nat, keys: seq<Bytes>, store: Store, n: nat)
    requires seed < |log| && NoDup(keys) && (forall i :: 0 <= i < |keys| ==> prefix <= keys[i])
    requires forall k :: k in keys <==> k in LiveAt(log, seed)
    requires LogUnder(prefix, log) && HonestStore(log, parse, store)
    ensures InStep(log, prefix, seed, Watched(parse, prefix, State(SeedTable(prefix, keys), [], seed, []), store, n))
  {
    SeedSynced(log, prefix, seed, keys);
    WatchStaysSynced(log, parse, prefix, seed, State(SeedTable(prefix, keys), [], seed, []), store, n);
  }
}
