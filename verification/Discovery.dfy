/**
  From registration to lookup: which addresses a lookup finds in a store of registered instances.

  A provider registers every method under "/service/method/address"; a client asks for everything under
  "/service/method/", as a range of keys.
 */
module Discovery {
  import opened ByteStrings
  import opened PrefixRange
  import opened Watch
  import opened AddressCaches

  datatype Instance = Instance(service: Bytes, name: Bytes, addr: Bytes)

  predicate Plain(s: Bytes) {
    47 !in s
  }

  /** Names of services and methods and addresses have no slash, and an address is not empty. */
  predicate Registrable(i: Instance) {
    Plain(i.service) && Plain(i.name) && Plain(i.addr) && i.addr != []
  }

  function PathOf(service: Bytes, name: Bytes): Bytes {
    [47] + service + [47] + name
  }

  function KeyOf(i: Instance): Bytes {
    [47] + i.service + [47] + i.name + [47] + i.addr
  }

  function KeysOf(store: seq<Instance>): seq<Bytes> {
    if store == [] then [] else KeysOf(store[..|store| - 1]) + [KeyOf(store[|store| - 1])]
  }

  /** The range of keys from `from` on and below `end`, or without end for the marker. */
  function Within(keys: seq<Bytes>, from: Bytes, end: Bytes): seq<Bytes> {
    if keys == [] then []
    else
      var k := keys[|keys| - 1];
      Within(keys[..|keys| - 1], from, end) + if AtMost(from, k) && (end == [0] || Less(k, end)) then [k] else []
  }

  /** What the store answers when it is asked for everything that has a prefix. */
  function ReadOf(keys: seq<Bytes>, revision: nat): Bytes -> Option<Range> {
    prefix => Some(Range(Within(keys, prefix, PrefixEnd(prefix)), revision))
  }

  /** The addresses registered for one method, in the store's order. */
  function AddressesOf(store: seq<Instance>, service: Bytes, name: Bytes): seq<Bytes> {
    if store == [] then []
    else
      var i := store[|store| - 1];
      AddressesOf(store[..|store| - 1], service, name) + if i.service == service && i.name == name then [i.addr] else []
  }

  /** Where the first slash is. */
  lemma {:induction false} FirstSlash(a: Bytes, x: Bytes, b: Bytes, y: Bytes)
    requires Plain(a) && Plain(b)
    ensures a + [47] + x <= b + [47] + y <==> a == b && x <= y
    decreases |a|
  {
    var s, t := a + [47] + x, b + [47] + y;
    if a == [] || b == [] {
      assert s[0] == if a == [] then 47 else a[0];
      assert t[0] == if b == [] then 47 else b[0];
      assert s[1..] == if a == [] then x else a[1..] + [47] + x;
      assert t[1..] == if b == [] then y else b[1..] + [47] + y;
    } else {
      FirstSlash(a[1..], x, b[1..], y);
      assert s[1..] == a[1..] + [47] + x && t[1..] == b[1..] + [47] + y;
      assert a == [a[0]] + a[1..] && b == [b[0]] + b[1..];
    }
    PrefixTail(s, t);
  }

  /** A registered key begins with a method's path and a slash only if it is that method's. */
  lemma KeyUnder(i: Instance, service: Bytes, name: Bytes)
    requires Registrable(i) && Plain(service) && Plain(name)
    ensures PathOf(service, name) + [47] <= KeyOf(i) <==> i.service == service && i.name == name
    ensures PathOf(i.service, i.name) + [47] + i.addr == KeyOf(i)
  {
    var p, k := PathOf(service, name) + [47], KeyOf(i);
    var rest, rest' := name + [47], i.name + ([47] + i.addr);
    assert p == [] + [47] + (service + [47] + rest);
    assert k == [] + [47] + (i.service + [47] + rest');
    FirstSlash([], service + [47] + rest, [], i.service + [47] + rest');
    FirstSlash(service, rest, i.service, rest');
    assert rest == name + [47] + [] && rest' == i.name + [47] + i.addr;
    FirstSlash(name, [], i.name, i.addr);
  }

  /** Any key at all that ends in a slash and a plain address: it is read for a path exactly if it is a key of that path or
      of one below it, that is one that goes on after a slash. */
  lemma ReadForPathIff(path: Bytes, other: Bytes, addr: Bytes)
    requires Plain(addr)
    ensures path + [47] <= other + [47] + addr <==> other == path || path + [47] <= other
  {
    var p, k := path + [47], other + [47] + addr;
    if |p| <= |other| {
      assert k[..|p|] == other[..|p|];
      if p <= k {
        assert p == k[..|p|];
      }
      if p <= other {
        assert p == other[..|p|];
      }
    } else if |p| == |other| + 1 {
      assert k[..|p|] == other + [47];
      if p <= k {
        assert p[..|path|] == path && (other + [47])[..|path|] == other;
      }
    } else if |path| < |k| {
      var a := addr[|path| - |other| - 1];
      assert a in addr && k[|path|] == a && p[|path|] == 47;
    }
  }

  /** A range read from a method's prefix up to the prefix's end, seeded into a table: exactly its addresses, in order. */
  lemma {:induction false} ReadSeeds(store: seq<Instance>, service: Bytes, name: Bytes)
    requires (forall i :: 0 <= i < |store| ==> Registrable(store[i])) && Plain(service) && Plain(name)
    ensures var prefix := PathOf(service, name) + [47];
      SeedTable(prefix, Within(KeysOf(store), prefix, PrefixEnd(prefix))) == AddressesOf(store, service, name)
  {
    if store != [] {
      var front, i := store[..|store| - 1], store[|store| - 1];
      ReadSeeds(front, service, name);
      OneMoreInstance(PathOf(service, name), KeysOf(front), AddressesOf(front, service, name), i, service, name);
    }
  }

  lemma OneMoreInstance(path: Bytes, keys: seq<Bytes>, addrs: seq<Bytes>, i: Instance, service: Bytes, name: Bytes)
    requires Registrable(i) && Plain(service) && Plain(name) && path == PathOf(service, name)
    requires SeedTable(path + [47], Within(keys, path + [47], PrefixEnd(path + [47]))) == addrs
    ensures SeedTable(path + [47], Within(keys + [KeyOf(i)], path + [47], PrefixEnd(path + [47])))
         == addrs + if i.service == service && i.name == name then [i.addr] else []
  {
    KeyUnder(i, service, name);
    OneMoreRead(path + [47], keys, KeyOf(i), i.addr, i.service == service && i.name == name);
  }

  lemma OneMoreRead(prefix: Bytes, keys: seq<Bytes>, k: Bytes, addr: Bytes, mine: bool)
    requires (mine <==> prefix <= k) && (mine ==> k == prefix + addr) && addr != []
    ensures SeedTable(prefix, Within(keys + [k], prefix, PrefixEnd(prefix)))
         == SeedTable(prefix, Within(keys, prefix, PrefixEnd(prefix))) + if mine then [addr] else []
  {
    var read := Within(keys, prefix, PrefixEnd(prefix));
    RangeIsPrefix(prefix, k);
    WithinSnoc(keys, k, prefix, PrefixEnd(prefix), mine);
    if mine {
      SeedSnoc(prefix, read, addr);
    } else {
      assert read + [] == read && SeedTable(prefix, read) + [] == SeedTable(prefix, read);
    }
  }

  lemma WithinSnoc(keys: seq<Bytes>, k: Bytes, from: Bytes, end: Bytes, mine: bool)
    requires mine <==> AtMost(from, k) && (end == [0] || Less(k, end))
    ensures Within(keys + [k], from, end) == Within(keys, from, end) + if mine then [k] else []
  {
    assert (keys + [k])[..|keys|] == keys;
  }

  lemma SeedSnoc(prefix: Bytes, keys: seq<Bytes>, addr: Bytes)
    requires addr != []
    ensures SeedTable(prefix, keys + [prefix + addr]) == SeedTable(prefix, keys) + [addr]
  {
    var all := keys + [prefix + addr];
    assert all[..|keys|] == keys && all[|all| - 1] == prefix + addr;
    assert (prefix + addr)[|prefix|..] == addr;
  }

  method LookupIn(cache: AddressCache, path: Bytes, keys: seq<Bytes>, revision: nat) returns (host: Option<Bytes>, watch: Option<int>)
    requires path !in cache.entries
    modifies cache
    ensures path in cache.entries && fresh(cache.entries[path])
    ensures var table := SeedTable(path + [47], Within(keys, path + [47], PrefixEnd(path + [47])));
      && cache.entries[path].instances == table
      && host == (if table == [] then None else Some(table[0])) && watch.Some? && watch.value == revision + 1
  {
    ghost var table := SeedTable(path + [47], Within(keys, path + [47], PrefixEnd(path + [47])));
    ghost var read := ReadOf(keys, revision)(path + [47]);
    assert read == Some(Range(Within(keys, path + [47], PrefixEnd(path + [47])), revision));
    host, watch := cache.GetRpcAddress(path, ReadOf(keys, revision));
    FirstTurn(cache.entries[path].rr, |table|);
  }

  lemma FirstTurn(rr: nat, n: nat)
    ensures rr == 1 && n > 0 ==> (rr - 1) % n == 0
  {
  }

  /** The first lookup of a method. However many other methods are registered, also such as extend its name, the entry has
      exactly the addresses registered for it, in the store's order, and the host is the first. */
  method FirstLookup(cache: AddressCache, store: seq<Instance>, service: Bytes, name: Bytes, revision: nat)
    returns (host: Option<Bytes>, watch: Option<int>)
    requires (forall i :: 0 <= i < |store| ==> Registrable(store[i])) && Plain(service) && Plain(name)
    requires [47] + service + [47] + name !in cache.entries
    modifies cache
    ensures var path, addrs := [47] + service + [47] + name, AddressesOf(store, service, name);
      && path in cache.entries && fresh(cache.entries[path]) && cache.entries[path].instances == addrs
      && host == (if addrs == [] then None else Some(addrs[0])) && watch.Some? && watch.value == revision + 1
  {
    ReadSeeds(store, service, name);
    host, watch := LookupIn(cache, PathOf(service, name), KeysOf(store), revision);
  }
}
