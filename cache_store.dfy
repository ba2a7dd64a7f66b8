/**
 * The origin's CacheStorage (`caches`) as the worker uses it: named caches
 * in creation order, each mapping a request URL to a stored response.
 * `Storage` is the value, the functions below are its operations, and the
 * class `CacheStorage` is the mutable object the worker shares.
 */
module CacheStore {
  import opened Wrappers
  import opened Http

  /** The entries of one cache, keyed by request URL. */
  type Entries = map<string, Response>

  predicate Distinct(ns: seq<string>)
  {
    forall i, j :: 0 <= i < j < |ns| ==> ns[i] != ns[j]
  }

  /** `names` lists the caches in creation order; `caches` holds their entries. */
  datatype Storage = Storage(names: seq<string>, caches: map<string, Entries>)
  {
    /** Every cache is listed exactly once. */
    ghost predicate Valid()
    {
      && Distinct(names)
      && (forall n :: n in caches <==> n in names)
    }

    /** `caches.match(url)`: searches every cache, oldest first. */
    function Match(url: string): Option<Response>
    {
      MatchIn(names, caches, url)
    }
  }

  const Empty := Storage([], map[])

  /** Cache `name` exists and has an entry for `url`. */
  predicate Holds(caches: map<string, Entries>, name: string, url: string)
  {
    name in caches && url in caches[name]
  }

  /** The entry for `url` in the first of `names` whose cache holds one. */
  function MatchIn(names: seq<string>, caches: map<string, Entries>, url: string): (r: Option<Response>)
    ensures r.Some? <==> exists i :: 0 <= i < |names| && Holds(caches, names[i], url)
    ensures r.Some? ==> exists i :: && 0 <= i < |names| && Holds(caches, names[i], url)
                                    && r.value == caches[names[i]][url]
                                    && forall j :: 0 <= j < i ==> !Holds(caches, names[j], url)
  {
    if names == [] then None
    else if Holds(caches, names[0], url) then Some(caches[names[0]][url])
    else
      var r := MatchIn(names[1..], caches, url);
      assert forall i :: 0 < i < |names| ==> names[i] == names[1..][i - 1];
      r
  }

  /** `r` is `ns` with some elements dropped and the rest in their original order. */
  predicate SubsequenceOf(r: seq<string>, ns: seq<string>)
    decreases |ns|
  {
    if r == [] then true
    else if ns == [] then false
    else if r[0] == ns[0] then SubsequenceOf(r[1..], ns[1..])
    else SubsequenceOf(r, ns[1..])
  }

  /** The names of `ns` that lie in `keep`, in their original order. */
  function Filter(ns: seq<string>, keep: set<string>): (r: seq<string>)
    ensures forall n :: n in r <==> n in ns && n in keep
    ensures SubsequenceOf(r, ns)
    ensures Distinct(ns) ==> Distinct(r)
  {
    if ns == [] then []
    else
      var rest := Filter(ns[1..], keep);
      assert Distinct(ns) ==> Distinct(ns[1..]) && ns[0] !in ns[1..];
      if ns[0] in keep then [ns[0]] + rest else rest
  }

  /** `caches.open(name)`: creates an empty cache at the end if there is none. */
  function Opened(s: Storage, name: string): (t: Storage)
    ensures name in t.caches
    ensures t.caches.Keys == s.caches.Keys + {name}
    ensures forall n :: n in s.caches ==> t.caches[n] == s.caches[n]
    ensures name !in s.caches ==> t.caches[name] == map[]
    ensures s.Valid() ==> t.Valid()
  {
    if name in s.caches then s
    else Storage(s.names + [name], s.caches[name := map[]])
  }

  /** `cache.put(url, response)` on the cache `name`: overwrites the entry. */
  function Stored(s: Storage, name: string, url: string, response: Response): (t: Storage)
    requires name in s.caches
    ensures t.names == s.names && t.caches.Keys == s.caches.Keys
    ensures url in t.caches[name] && t.caches[name][url] == response
    ensures t.caches[name].Keys == s.caches[name].Keys + {url}
    ensures forall k :: k in s.caches[name] && k != url ==> t.caches[name][k] == s.caches[name][k]
    ensures forall n :: n in s.caches && n != name ==> t.caches[n] == s.caches[n]
    ensures s.Valid() ==> t.Valid()
  {
    Storage(s.names, s.caches[name := s.caches[name][url := response]])
  }

  /**
   * `cache.add(url)`: fetches, and stores the response exactly when the
   * Cache API accepts it (ok and not 206); otherwise it rejects and
   * stores nothing.
   */
  function Added(s: Storage, name: string, url: string, net: FetchOutcome): (t: Storage)
    requires name in s.caches
    ensures t.names == s.names && t.caches.Keys == s.caches.Keys
    ensures forall n :: n in s.caches && n != name ==> t.caches[n] == s.caches[n]
    ensures net.Got? && net.response.Cacheable() ==> t == Stored(s, name, url, net.response)
    ensures t != s ==> net.Got? && net.response.Cacheable() && t == Stored(s, name, url, net.response)
    ensures s.Valid() ==> t.Valid()
  {
    if net.Got? && net.response.Cacheable() then Stored(s, name, url, net.response) else s
  }

  /** The storage with only the caches whose names lie in `keep`. */
  function KeepOnly(s: Storage, keep: set<string>): (t: Storage)
    ensures t.caches.Keys == s.caches.Keys * keep
    ensures forall n :: n in t.caches ==> t.caches[n] == s.caches[n]
    ensures s.Valid() ==> t.Valid()
  {
    Storage(Filter(s.names, keep), map n | n in s.caches && n in keep :: s.caches[n])
  }

  /** `caches.delete(name)`: removes the cache and all its entries. */
  function Deleted(s: Storage, name: string): (t: Storage)
    ensures t.caches.Keys == s.caches.Keys - {name}
    ensures forall n :: n in t.caches ==> t.caches[n] == s.caches[n]
    ensures s.Valid() ==> t.Valid()
  {
    KeepOnly(s, s.caches.Keys - {name})
  }

  /** The sum of the body sizes of the entries. */
  ghost function SumSizes(entries: Entries): (total: nat)
    ensures forall u :: u in entries ==> entries[u].Size() <= total
    ensures entries == map[] ==> total == 0
    decreases entries.Keys
  {
    if entries == map[] then 0
    else
      var url :| url in entries;
      var rest := entries - {url};
      assert forall u :: u in entries && u != url ==> u in rest && rest[u] == entries[u];
      entries[url].Size() + SumSizes(rest)
  }

  /** Opening a cache twice is the same as opening it once, and keeps its entries. */
  lemma OpenedIdempotent(s: Storage, name: string)
    ensures Opened(Opened(s, name), name) == Opened(s, name)
    ensures name in s.caches ==> Opened(s, name).caches[name] == s.caches[name]
  {
  }

  /**
   * Put then match round-trips: once no cache created before `name` holds
   * `url`, a match finds exactly the response just put.
   */
  lemma {:induction false} MatchAfterPut(s: Storage, name: string, url: string, response: Response)
    requires s.Valid() && name in s.caches
    requires forall j, k :: 0 <= j < k < |s.names| && s.names[k] == name ==> !Holds(s.caches, s.names[j], url)
    ensures Stored(s, name, url, response).Match(url) == Some(response)
  {
    var t := Stored(s, name, url, response);
    assert name in t.names;
    var k :| 0 <= k < |t.names| && t.names[k] == name;
    assert Holds(t.caches, t.names[k], url);
    var r := t.Match(url);
    var i :| && 0 <= i < |t.names| && Holds(t.caches, t.names[i], url)
             && r.value == t.caches[t.names[i]][url]
             && forall j :: 0 <= j < i ==> !Holds(t.caches, t.names[j], url);
    assert t.names[i] == name;
  }

  /** Appending an empty cache to the search changes nothing. */
  lemma {:induction false} MatchInAppendEmpty(names: seq<string>, caches: map<string, Entries>, name: string, url: string)
    requires name !in names
    ensures MatchIn(names + [name], caches[name := map[]], url) == MatchIn(names, caches, url)
  {
    if names == [] {
      assert MatchIn([name][1..], caches[name := map[]], url) == None;
    } else {
      assert (names + [name])[1..] == names[1..] + [name];
      MatchInAppendEmpty(names[1..], caches, name, url);
    }
  }

  /**
   * Opening a cache does not change what a match finds: a newly created
   * cache is empty.
   */
  lemma MatchAfterOpen(s: Storage, name: string, url: string)
    requires s.Valid()
    ensures Opened(s, name).Match(url) == s.Match(url)
  {
    if name !in s.caches {
      MatchInAppendEmpty(s.names, s.caches, name, url);
    }
  }

  /** A match hits exactly when some cache, of any name, holds the URL. */
  lemma {:induction false} MatchSearchesEveryCache(s: Storage, name: string, url: string)
    requires s.Valid() && name in s.caches && url in s.caches[name]
    ensures s.Match(url).Some?
  {
    var k :| 0 <= k < |s.names| && s.names[k] == name;
    assert Holds(s.caches, s.names[k], url);
  }

  /** A match misses exactly when no cache holds the URL. */
  lemma MatchMissMeansAbsent(s: Storage, url: string)
    requires s.Valid() && s.Match(url).None?
    ensures forall n :: n in s.caches ==> url !in s.caches[n]
  {
    forall n | n in s.caches
      ensures url !in s.caches[n]
    {
      if url in s.caches[n] {
        MatchSearchesEveryCache(s, n, url);
      }
    }
  }

  /**
   * The older cache wins: when an outdated cache created before the current
   * one still holds a URL, a match returns the outdated entry.
   */
  lemma OlderCacheShadowsNewer(older: string, current: string, url: string, stale: Response, recent: Response)
    requires older != current
    ensures Storage([older, current], map[older := map[url := stale], current := map[url := recent]]).Match(url) == Some(stale)
  {
  }

  /** Filtering twice keeps the names both filters keep. */
  lemma {:induction false} FilterTwice(ns: seq<string>, a: set<string>, b: set<string>, c: set<string>)
    requires forall n :: n in ns ==> (n in a && n in b <==> n in c)
    ensures Filter(Filter(ns, a), b) == Filter(ns, c)
  {
    if ns != [] {
      FilterTwice(ns[1..], a, b, c);
    }
  }

  /** A filter that keeps every name keeps the sequence as it is. */
  lemma {:induction false} FilterKeepsAll(ns: seq<string>, keep: set<string>)
    requires forall n :: n in ns ==> n in keep
    ensures Filter(ns, keep) == ns
  {
    if ns != [] {
      FilterKeepsAll(ns[1..], keep);
    }
  }

  /** A filter that keeps no name leaves nothing. */
  lemma {:induction false} FilterNothing(ns: seq<string>)
    ensures Filter(ns, {}) == []
  {
    if ns != [] {
      FilterNothing(ns[1..]);
    }
  }

  /** A filter of distinct names down to one name leaves at most that name. */
  lemma {:induction false} FilterSingle(ns: seq<string>, name: string)
    requires Distinct(ns)
    ensures Filter(ns, {name}) == if name in ns then [name] else []
  {
    if ns != [] {
      assert Distinct(ns[1..]);
      FilterSingle(ns[1..], name);
      if ns[0] == name {
        assert name !in ns[1..];
      }
    }
  }

  /** Deleting a cache from a kept selection narrows the selection. */
  lemma DeleteFromKept(s: Storage, keep: set<string>, name: string)
    requires s.Valid()
    ensures Deleted(KeepOnly(s, keep), name) == KeepOnly(s, keep - {name})
  {
    var t := KeepOnly(s, keep);
    var u := Deleted(t, name);
    FilterTwice(s.names, keep, t.caches.Keys - {name}, keep - {name});
    assert u.names == KeepOnly(s, keep - {name}).names;
    assert u.caches == KeepOnly(s, keep - {name}).caches;
  }

  /** Keeping a superset of the names keeps everything. */
  lemma KeepAll(s: Storage, keep: set<string>)
    requires s.Valid() && s.caches.Keys <= keep
    ensures KeepOnly(s, keep) == s
  {
    FilterKeepsAll(s.names, keep);
  }

  /** The recursive sum may take any entry first. */
  lemma {:induction false} SumSizesRemove(entries: Entries, url: string)
    requires url in entries
    ensures SumSizes(entries) == entries[url].Size() + SumSizes(entries - {url})
    decreases entries.Keys
  {
    var k :| k in entries && SumSizes(entries) == entries[k].Size() + SumSizes(entries - {k});
    if k != url {
      var both := entries - {k} - {url};
      assert entries - {url} - {k} == both;
      SumSizesRemove(entries - {k}, url);
      SumSizesRemove(entries - {url}, k);
    }
  }

  /** Two entries of 100 and 250 bytes sum to 350 bytes. */
  lemma SumSizesOfTwo(a: string, b: string, ra: Response, rb: Response)
    requires a != b && ra.Size() == 100 && rb.Size() == 250
    ensures SumSizes(map[a := ra, b := rb]) == 350
  {
    var m := map[a := ra, b := rb];
    SumSizesRemove(m, a);
    assert m - {a} == map[b := rb];
    SumSizesRemove(map[b := rb], b);
    assert map[b := rb] - {b} == map[];
  }

  /** Walks every key of a cache and adds up the body sizes. */
  method TotalBytes(entries: Entries) returns (total: nat)
    ensures total == SumSizes(entries)
  {
    total := 0;
    var rest := entries;
    while rest != map[]
      invariant forall u :: u in rest ==> u in entries && rest[u] == entries[u]
      invariant total + SumSizes(rest) == SumSizes(entries)
      decreases rest.Keys
    {
      var url :| url in rest;
      SumSizesRemove(rest, url);
      total := total + entries[url].Size();
      rest := rest - {url};
    }
  }

  /** The shared `caches` object. */
  class CacheStorage {
    var names: seq<string>
    var caches: map<string, Entries>

    function State(): Storage
      reads this
    {
      Storage(names, caches)
    }

    ghost predicate Valid()
      reads this
    {
      State().Valid()
    }

    constructor ()
      ensures Valid() && State() == Empty
    {
      names, caches := [], map[];
    }

    method Open(name: string)
      modifies this
      ensures State() == Opened(old(State()), name)
    {
      if name !in caches {
        names := names + [name];
        caches := caches[name := map[]];
      }
    }

    /** `cache.put`: rejects a 206 Partial Content response and stores nothing. */
    method Put(name: string, url: string, response: Response)
      requires name in caches
      modifies this
      ensures State() == if response.status == 206 then old(State()) else Stored(old(State()), name, url, response)
    {
      if response.status != 206 {
        caches := caches[name := caches[name][url := response]];
      }
    }

    method Add(name: string, url: string, net: FetchOutcome)
      requires name in caches
      modifies this
      ensures State() == Added(old(State()), name, url, net)
    {
      if net.Got? && net.response.Cacheable() {
        Put(name, url, net.response);
      }
    }

    method Delete(name: string) returns (found: bool)
      modifies this
      ensures found <==> name in old(caches)
      ensures State() == Deleted(old(State()), name)
    {
      found := name in caches;
      var after := Deleted(State(), name);
      names, caches := after.names, after.caches;
    }
  }
}
