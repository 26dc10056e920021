/** The cache of instances per method: seeding, the watch that keeps it up to date, and the round-robin choice. */
module AddressCaches {
  import opened ByteStrings
  import opened Watch

  // Round robin.

  /** How many of the k selections from cursor rr on, among n instances, fall on instance j. */
  function Times(rr: nat, n: nat, k: nat, j: nat): nat
    requires n > 0
  {
    if k == 0 then 0 else Times(rr, n, k - 1, j) + if (rr + k - 1) % n == j then 1 else 0
  }

  lemma {:induction false} TimesSplit(rr: nat, n: nat, k: nat, l: nat, j: nat)
    requires n > 0
    ensures Times(rr, n, k + l, j) == Times(rr, n, k, j) + Times(rr + k, n, l, j)
  {
    if l > 0 {
      TimesSplit(rr, n, k, l - 1, j);
    }
  }

  /** Fewer than n selections in a row: exactly those places whose turn comes are taken, once. */
  lemma {:induction false} TimesPart(rr: nat, n: nat, k: nat, j: nat, d: nat)
    requires n > 0 && k <= n && j < n && d < n && (rr + d) % n == j
    ensures Times(rr, n, k, j) == if d < k then 1 else 0
  {
    if k > 0 {
      TimesPart(rr, n, k - 1, j, d);
      if (rr + k - 1) % n == j {
        SameTurn(rr, n, k - 1, d);
      }
    }
  }

  lemma SameTurn(rr: nat, n: nat, a: nat, b: nat)
    requires n > 0 && a < n && b < n && (rr + a) % n == (rr + b) % n
    ensures a == b
  {
    var p, q := (rr + a) / n, (rr + b) / n;
    assert a - b == n * p - n * q;
    if p < q {
      MultiplesApart(n, p, q);
    } else if q < p {
      MultiplesApart(n, q, p);
    }
  }

  /** The turn of instance j comes within the next n selections. */
  lemma Turn(rr: nat, n: nat, j: nat) returns (d: nat)
    requires n > 0 && j < n
    ensures d < n && (rr + d) % n == j
  {
    var r := rr % n;
    d := if j >= r then j - r else j + n - r;
    var q := rr / n;
    assert rr == n * q + r;
    if j >= r {
      ModUnique(rr + d, n, q, j);
    } else {
      assert n * (q + 1) == n * q + n;
      ModUnique(rr + d, n, q + 1, j);
    }
  }

  /** Any n selections in a row reach every one of n instances, once. */
  lemma FullRound(rr: nat, n: nat, j: nat)
    requires n > 0 && j < n
    ensures Times(rr, n, n, j) == 1
  {
    var d := Turn(rr, n, j);
    TimesPart(rr, n, n, j, d);
  }

  lemma {:induction false} Rounds(rr: nat, n: nat, rounds: nat, rest: nat, j: nat)
    requires n > 0 && j < n && rest < n
    ensures rounds <= Times(rr, n, rounds * n + rest, j) <= rounds + (if rest > 0 then 1 else 0)
    decreases rounds
  {
    if rounds == 0 {
      var d := Turn(rr, n, j);
      TimesPart(rr, n, rest, j, d);
    } else {
      assert rounds * n + rest == n + ((rounds - 1) * n + rest);
      TimesSplit(rr, n, n, (rounds - 1) * n + rest, j);
      FullRound(rr, n, j);
      Rounds(rr + n, n, rounds - 1, rest, j);
    }
  }

  /** Over k selections each of n instances is chosen k/n times, rounded down or up. */
  lemma Fair(rr: nat, n: nat, k: nat, j: nat)
    requires n > 0 && j < n
    ensures k / n <= Times(rr, n, k, j) <= (k + n - 1) / n
  {
    var rounds, rest := k / n, k % n;
    assert k == rounds * n + rest;
    Rounds(rr, n, rounds, rest, j);
    if rest > 0 {
      assert n * (rounds + 1) == n * rounds + n;
      ModUnique(k + n - 1, n, rounds + 1, rest - 1);
    } else {
      ModUnique(k + n - 1, n, rounds, n - 1);
    }
  }

  class MethodEntry {
    var instances: seq<Bytes>
    var rr: nat

    constructor (instances: seq<Bytes>)
      ensures this.instances == instances && rr == 0
    {
      this.instances := instances;
      rr := 0;
    }

    /** The watch callback. */
    method OnEvent(prefix: Bytes, ev: Event)
      modifies this`instances
      ensures instances == Apply(prefix, old(instances), ev)
    {
      if |ev.key| <= |prefix| {
        return;
      }
      var addr := ev.key[|prefix|..];
      match ev
      case Put(_) =>
        if addr !in instances {
          instances := instances + [addr];
        }
      case Delete(_) => Erase(addr);
    }

    method Erase(addr: Bytes)
      modifies this`instances
      ensures instances == RemoveAll(old(instances), addr)
    {
      var kept: seq<Bytes> := [];
      for i := 0 to |instances|
        invariant RemoveAll(instances, addr) == kept + RemoveAll(instances[i..], addr)
      {
        if instances[i] != addr {
          kept := kept + [instances[i]];
        }
      }
      assert kept + [] == kept;
      instances := kept;
    }

    /** The next instance in turn; a lookup that finds none does not move the cursor. */
    method Choose() returns (host: Option<Bytes>)
      modifies this`rr
      ensures if instances == [] then host == None && rr == old(rr)
              else host == Some(instances[old(rr) % |instances|]) && rr == old(rr) + 1
    {
      if |instances| == 0 {
        return None;
      }
      var idx := rr % |instances|;
      rr := rr + 1;
      host := Some(instances[idx]);
    }

    /** k selections in a row, while the list does not change: each instance comes up k/n times, rounded down or
        up; `chosen` lists the places. */
    method ChooseMany(k: nat) returns (chosen: seq<nat>)
      requires |instances| > 0
      modifies this`rr
      ensures |chosen| == k && rr == old(rr) + k
      ensures forall j: nat :: j < |instances| ==> k / |instances| <= CountOf(chosen, j) <= (k + |instances| - 1) / |instances|
    {
      chosen := [];
      for i := 0 to k
        invariant |chosen| == i && rr == old(rr) + i
        invariant forall j: nat :: j < |instances| ==> CountOf(chosen, j) == Times(old(rr), |instances|, i, j)
      {
        var at := rr % |instances|;
        var host := Choose();
        assert (chosen + [at])[..|chosen|] == chosen;
        chosen := chosen + [at];
      }
      forall j: nat | j < |instances|
        ensures k / |instances| <= CountOf(chosen, j) <= (k + |instances| - 1) / |instances|
      {
        Fair(old(rr), |instances|, k, j);
      }
    }
  }

  function CountOf(s: seq<nat>, j: nat): nat {
    if s == [] then 0 else CountOf(s[..|s| - 1], j) + if s[|s| - 1] == j then 1 else 0
  }

  lemma FirstLine(buf: Bytes, pos: nat)
    requires pos < |buf| && buf[pos] == NEWLINE && NEWLINE !in buf[..pos]
    ensures Lines(buf) == ([buf[..pos]] + Lines(buf[pos + 1..]).0, Lines(buf[pos + 1..]).1)
  {
    var head := buf[..pos + 1];
    OneLine(buf[..pos]);
    assert head == buf[..pos] + [NEWLINE];
    assert head[..|head| - 1] == buf[..pos] && head[|head| - 1] == NEWLINE;
    assert [] + [buf[..pos]] == [buf[..pos]];
    assert Lines(head) == ([buf[..pos]], []);
    assert buf == head + buf[pos + 1..];
    LinesAppend(head, buf[pos + 1..]);
    assert [] + buf[pos + 1..] == buf[pos + 1..];
  }

  lemma {:induction false} OneLine(s: Bytes)
    requires NEWLINE !in s
    ensures Lines(s) == ([], s)
  {
    if s != [] {
      var n := |s| - 1;
      OneLine(s[..n]);
      assert s == s[..n] + [s[n]];
      assert s[n] in s;
    }
  }

  /** One watch connection and the table its callback keeps. */
  class WatchCtx {
    const parse: Parser
    const prefix: Bytes
    const entry: MethodEntry
    var buf: Bytes
    var lastRevision: int
    ghost var applied: seq<Event>

    constructor (parse: Parser, prefix: Bytes, entry: MethodEntry, lastRevision: int, ghost applied: seq<Event>)
      ensures this.parse == parse && this.prefix == prefix && this.entry == entry
      ensures View() == State(entry.instances, [], lastRevision, applied)
    {
      this.parse, this.prefix, this.entry := parse, prefix, entry;
      this.buf, this.lastRevision, this.applied := [], lastRevision, applied;
    }

    ghost function View(): State
      reads this, entry
    {
      State(entry.instances, buf, lastRevision, applied)
    }

    method ParseLine(line: Bytes)
      requires line != []
      modifies this`lastRevision, this`applied, entry`instances
      ensures View() == OnLine(parse, prefix, old(View()), line)
    {
      var f := parse(line);
      if f.None? {
        return;
      }
      ghost var table := entry.instances;
      for i := 0 to |f.value.events|
        invariant entry.instances == ApplyAll(prefix, table, f.value.events[..i])
        invariant lastRevision == old(lastRevision) && applied == old(applied)
      {
        assert f.value.events[..i + 1][..i] == f.value.events[..i];
        entry.OnEvent(prefix, f.value.events[i]);
      }
      assert f.value.events[..|f.value.events|] == f.value.events;
      applied := applied + f.value.events;
      if f.value.revision > lastRevision {
        lastRevision := f.value.revision;
      }
    }

    method FindNewline() returns (pos: nat)
      ensures pos <= |buf| && NEWLINE !in buf[..pos] && (pos < |buf| ==> buf[pos] == NEWLINE)
    {
      pos := 0;
      while pos < |buf| && buf[pos] != NEWLINE
        invariant pos <= |buf| && NEWLINE !in buf[..pos]
      {
        pos := pos + 1;
      }
    }

    /** Takes a chunk in and processes every line it completes. */
    method Write(chunk: Bytes)
      modifies this, entry`instances
      ensures View() == OnChunk(parse, prefix, old(View()), chunk)
    {
      buf := buf + chunk;
      ghost var done := OnChunk(parse, prefix, old(View()), chunk);
      OnLinesBuf(parse, prefix, old(View()), Lines(buf).0, buf);
      while true
        invariant done == OnLines(parse, prefix, View(), Lines(buf).0).(buf := Lines(buf).1)
        decreases |buf|
      {
        var pos := FindNewline();
        if pos == |buf| {
          assert buf[..pos] == buf;
          OneLine(buf);
          return;
        }
        ghost var s, later := View(), Lines(buf[pos + 1..]);
        var line := buf[..pos];
        FirstLine(buf, pos);
        TakeLine(parse, prefix, s, line, later.0, buf[pos + 1..]);
        buf := buf[pos + 1..];
        if |line| > 0 {
          ParseLine(line);
        }
      }
    }
  }

  lemma TakeLine(parse: Parser, prefix: Bytes, s: State, line: Bytes, lines: seq<Bytes>, rest: Bytes)
    ensures OnLines(parse, prefix, s, [line] + lines).(buf := rest)
         == OnLines(parse, prefix, OnLine(parse, prefix, s.(buf := rest), line), lines).(buf := rest)
  {
    OnLinesAppend(parse, prefix, s, [line], lines);
    assert [line][..0] == [];
    assert OnLines(parse, prefix, s, [line]) == OnLine(parse, prefix, s, line);
    OnLinesBuf(parse, prefix, OnLine(parse, prefix, s, line), lines, rest);
  }

  /** WatchPrefixBlocking over n connections: `asked` lists the revisions it asked for, and what a connection delivers
      before it is cut depends on them. */
  method WatchPrefix(parse: Parser, prefix: Bytes, entry: MethodEntry, startRev: int, store: Store, n: nat,
                     ghost applied: seq<Event>)
    returns (resumeRev: int, asked: seq<int>, ghost now: seq<Event>)
    modifies entry`instances
    ensures var s := State(old(entry.instances), [], startRev - 1, applied);
      && State(entry.instances, [], resumeRev - 1, now) == Watched(parse, prefix, s, store, n)
      && |asked| == n && forall i :: 0 <= i < n ==> asked[i] == AskedFor(parse, prefix, s, store, i)
  {
    resumeRev, asked, now := startRev, [], applied;
    ghost var s := State(entry.instances, [], startRev - 1, applied);
    for i := 0 to n
      invariant State(entry.instances, [], resumeRev - 1, now) == Watched(parse, prefix, s, store, i)
      invariant |asked| == i && forall j :: 0 <= j < i ==> asked[j] == AskedFor(parse, prefix, s, store, j)
    {
      assert AskedFor(parse, prefix, s, store, i) == resumeRev;
      asked := asked + [resumeRev];
      resumeRev, now := WatchNext(parse, prefix, entry, resumeRev, store, i, s, now);
    }
  }

  /** One connection: what it delivers is taken in, and the next revision to ask for is the one after the last processed. */
  method WatchNext(parse: Parser, prefix: Bytes, entry: MethodEntry, resumeRev: int, store: Store, i: nat,
                   ghost s: State, ghost applied: seq<Event>)
    returns (next: int, ghost now: seq<Event>)
    requires State(entry.instances, [], resumeRev - 1, applied) == Watched(parse, prefix, s, store, i)
    modifies entry`instances
    ensures State(entry.instances, [], next - 1, now) == Watched(parse, prefix, s, store, i + 1)
  {
    NextWatched(parse, prefix, s, store, i + 1, State(entry.instances, [], resumeRev - 1, applied),
                Watched(parse, prefix, s, store, i + 1));
    var last;
    last, now := WatchOnce(parse, prefix, entry, resumeRev, store(i, resumeRev), applied);
    next := resumeRev;
    if last >= resumeRev {
      next := last + 1;
    }
  }

  method WatchOnce(parse: Parser, prefix: Bytes, entry: MethodEntry, resumeRev: int, chunks: seq<Bytes>,
                   ghost applied: seq<Event>)
    returns (last: int, ghost now: seq<Event>)
    modifies entry`instances
    ensures State(entry.instances, [], last, now)
         == OnSession(parse, prefix, State(old(entry.instances), [], resumeRev - 1, applied), chunks)
    ensures last >= resumeRev - 1
  {
    var ctx := new WatchCtx(parse, prefix, entry, resumeRev - 1, applied);
    ghost var s := ctx.View();
    for i := 0 to |chunks|
      invariant ctx.View() == OnChunks(parse, prefix, s, chunks[..i])
    {
      assert chunks[..i + 1][..i] == chunks[..i];
      ctx.Write(chunks[i]);
    }
    assert chunks[..|chunks|] == chunks;
    LastOnlyGrows(parse, prefix, s, chunks);
    return ctx.lastRevision, ctx.applied;
  }

  lemma {:induction false} LastOnlyGrows(parse: Parser, prefix: Bytes, s: State, chunks: seq<Bytes>)
    ensures OnChunks(parse, prefix, s, chunks).last >= s.last
  {
    if chunks != [] {
      var n := |chunks| - 1;
      LastOnlyGrows(parse, prefix, s, chunks[..n]);
      var t := OnChunks(parse, prefix, s, chunks[..n]);
      LinesOnlyGrow(parse, prefix, t, Lines(t.buf + chunks[n]).0);
    }
  }

  lemma {:induction false} LinesOnlyGrow(parse: Parser, prefix: Bytes, s: State, lines: seq<Bytes>)
    ensures OnLines(parse, prefix, s, lines).last >= s.last
  {
    if lines != [] {
      LinesOnlyGrow(parse, prefix, s, lines[..|lines| - 1]);
    }
  }

  /** The process-wide cache. */
  class AddressCache {
    var entries: map<Bytes, MethodEntry>

    constructor ()
      ensures entries == map[]
    {
      entries := map[];
    }

    method Seed(prefix: Bytes, keys: seq<Bytes>) returns (entry: MethodEntry)
      ensures fresh(entry) && entry.instances == SeedTable(prefix, keys) && entry.rr == 0
    {
      var instances: seq<Bytes> := [];
      for i := 0 to |keys|
        invariant instances == SeedTable(prefix, keys[..i])
      {
        assert keys[..i + 1][..i] == keys[..i];
        if |keys[i]| > |prefix| {
          instances := instances + [keys[i][|prefix|..]];
        }
      }
      assert keys[..|keys|] == keys;
      entry := new MethodEntry(instances);
    }

    /** `range` is what a range read returns of a prefix, with its revision; it is asked for the method's own prefix, on
        the first lookup only. A failed read leaves the cache as it was, so that the next lookup asks again; a successful
        one starts a watch of that prefix, from the revision after that of the read. */
    method GetRpcAddress(path: Bytes, range: Bytes -> Option<Range>) returns (host: Option<Bytes>, watch: Option<int>)
      modifies this, if path in entries then {entries[path]} else {}
      ensures path !in old(entries) && range(path + [47]).None? ==> host == None && entries == old(entries) && watch == None
      ensures path in old(entries) ==>
        var e := old(entries)[path];
        && entries == old(entries) && e.instances == old(entries[path].instances) && watch == None
        && e.rr == old(entries[path].rr) + (if e.instances == [] then 0 else 1)
      ensures path !in old(entries) && range(path + [47]).Some? ==>
        var read := range(path + [47]).value;
        && path in entries && entries == old(entries)[path := entries[path]] && fresh(entries[path])
        && entries[path].instances == SeedTable(path + [47], read.keys)
        && entries[path].rr == (if entries[path].instances == [] then 0 else 1)
        && watch == Some(read.revision + 1)
      ensures path in entries ==>
        var e := entries[path];
        if e.instances == [] then host == None
        else e.rr > 0 && host == Some(e.instances[(e.rr - 1) % |e.instances|])
    {
      watch := None;
      if path !in entries {
        var prefix := PrefixOf(path);
        var read := range(prefix);
        if read.None? {
          return None, None;
        }
        var seeded := Seed(prefix, read.value.keys);
        watch := Some(read.value.revision + 1);
        entries := entries[path := seeded];
      }
      host := entries[path].Choose();
    }
  }

  /** The keys of a method's instances begin with its path and a slash. */
  function PrefixOf(path: Bytes): Bytes {
    path + [47]
  }

  /** What a range read returns. */
  datatype Range = Range(keys: seq<Bytes>, revision: nat)

  /** A lookup that creates an entry, and the watch it starts: over any number of connections the table stays the set of
      instances live at the last revision processed. `keys` are those live at the read's revision. */
  method SeedAndWatch(log: Log, parse: Parser, path: Bytes, read: Range, store: Store, n: nat)
    returns (entry: MethodEntry, resumeRev: int)
    requires read.revision < |log| && NoDup(read.keys) && (forall i :: 0 <= i < |read.keys| ==> path + [47] <= read.keys[i])
    requires forall k :: k in read.keys <==> k in LiveAt(log, read.revision)
    requires LogUnder(path + [47], log) && HonestStore(log, parse, store)
    ensures read.revision < resumeRev <= |log| && Shows(path + [47], entry.instances, LiveAt(log, resumeRev - 1))
  {
    var prefix := path + [47];
    var cache := new AddressCache();
    var host, watch := cache.GetRpcAddress(path, p => if p == prefix then Some(read) else None);
    entry := cache.entries[path];
    var asked;
    ghost var now;
    resumeRev, asked, now := WatchPrefix(parse, prefix, entry, watch.value, store, n, []);
    SeededAndWatched(log, parse, prefix, read.revision, read.keys, store, n);
  }
}
