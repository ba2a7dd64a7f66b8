/**
 * What the install, activate and CLEAR_CACHE handlers do to the cache
 * storage, as functions of the storage before them.
 */
module Lifecycle {
  import opened Http
  import opened CacheStore
  import opened Config

  /** `cache.add(url)` for each URL in order, each failure caught and skipped. */
  function Precached(s: Storage, urls: seq<string>, outcomes: seq<FetchOutcome>): (t: Storage)
    requires |urls| == |outcomes| && CACHE_NAME in s.caches
    ensures t.names == s.names && t.caches.Keys == s.caches.Keys
    ensures forall n :: n in s.caches && n != CACHE_NAME ==> t.caches[n] == s.caches[n]
    ensures s.Valid() ==> t.Valid()
    decreases |urls|
  {
    if urls == [] then s
    else
      var last := |urls| - 1;
      Added(Precached(s, urls[..last], outcomes[..last]), CACHE_NAME, urls[last], outcomes[last])
  }

  /** The install handler: open the current cache, then precache every resource. */
  function Installed(s: Storage, outcomes: seq<FetchOutcome>): (t: Storage)
    requires |outcomes| == |PrecacheResources()|
    ensures s.Valid() ==> t.Valid()
  {
    Precached(Opened(s, CACHE_NAME), PrecacheResources(), outcomes)
  }

  /** The activate handler's deletions: every cache but the current one goes. */
  function Activated(s: Storage): (t: Storage)
    ensures s.Valid() ==> t.Valid()
  {
    KeepOnly(s, {CACHE_NAME})
  }

  /** The CLEAR_CACHE handler's deletions: every cache goes, the current one too. */
  function Cleared(s: Storage): (t: Storage)
    ensures s.Valid() ==> t.Valid()
  {
    KeepOnly(s, {})
  }

  /** The names listed in `ns`. */
  function Elems(ns: seq<string>): set<string>
  {
    set n | n in ns
  }

  /**
   * One turn of the deletion loops of activate and CLEAR_CACHE over the
   * names `s` had: the caches still kept are those in `spared` and those
   * not yet visited; visiting `s.names[i]` deletes it unless it is spared.
   */
  lemma DeleteVisited(s: Storage, spared: set<string>, i: nat)
    requires s.Valid() && i < |s.names|
    ensures var name := s.names[i];
            var keep := KeepOnly(s, spared + Elems(s.names[i..]));
            && (name in spared ==> keep == KeepOnly(s, spared + Elems(s.names[i + 1..])))
            && (name !in spared ==> Deleted(keep, name) == KeepOnly(s, spared + Elems(s.names[i + 1..])))
  {
    var name := s.names[i];
    assert s.names[i..] == [name] + s.names[i + 1..];
    assert Elems(s.names[i..]) == {name} + Elems(s.names[i + 1..]);
    if name in spared {
      assert spared + Elems(s.names[i..]) == spared + Elems(s.names[i + 1..]);
    } else {
      assert name !in s.names[i + 1..] by {
        forall j | i + 1 <= j < |s.names|
          ensures s.names[j] != name
        {
        }
      }
      assert spared + Elems(s.names[i..]) - {name} == spared + Elems(s.names[i + 1..]);
      DeleteFromKept(s, spared + Elems(s.names[i..]), name);
    }
  }

  /** Before the deletion loops visit any name, everything is kept. */
  lemma NothingVisited(s: Storage, spared: set<string>)
    requires s.Valid()
    ensures KeepOnly(s, spared + Elems(s.names[0..])) == s
  {
    assert s.names[0..] == s.names;
    KeepAll(s, spared + Elems(s.names));
  }

  /** After the deletion loops visit every name, only the spared caches are kept. */
  lemma AllVisited(s: Storage, spared: set<string>)
    ensures KeepOnly(s, spared + Elems(s.names[|s.names|..])) == KeepOnly(s, spared)
  {
    assert spared + Elems(s.names[|s.names|..]) == spared;
  }

  /** The URL was added with a cacheable response somewhere in the precache run. */
  ghost predicate AddedOk(urls: seq<string>, outcomes: seq<FetchOutcome>, url: string, r: Response)
    requires |urls| == |outcomes|
  {
    exists i :: 0 <= i < |urls| && urls[i] == url && outcomes[i] == Got(r) && r.Cacheable()
  }

  /**
   * Precaching only adds: every entry of the current cache afterwards was
   * there before, or is the cacheable response fetched for one of the listed URLs.
   */
  lemma {:induction false} PrecachedFromList(s: Storage, urls: seq<string>, outcomes: seq<FetchOutcome>)
    requires |urls| == |outcomes| && CACHE_NAME in s.caches
    ensures var c := Precached(s, urls, outcomes).caches[CACHE_NAME];
            forall k :: k in c ==>
              || (k in s.caches[CACHE_NAME] && c[k] == s.caches[CACHE_NAME][k])
              || AddedOk(urls, outcomes, k, c[k])
    decreases |urls|
  {
    if urls != [] {
      var last := |urls| - 1;
      var before := Precached(s, urls[..last], outcomes[..last]);
      PrecachedFromList(s, urls[..last], outcomes[..last]);
      var c := Precached(s, urls, outcomes).caches[CACHE_NAME];
      forall k | k in c
        ensures || (k in s.caches[CACHE_NAME] && c[k] == s.caches[CACHE_NAME][k])
                || AddedOk(urls, outcomes, k, c[k])
      {
        if k == urls[last] && outcomes[last].Got? && outcomes[last].response.Cacheable() {
          assert AddedOk(urls, outcomes, k, c[k]);
        } else {
          assert k in before.caches[CACHE_NAME] && c[k] == before.caches[CACHE_NAME][k];
          if AddedOk(urls[..last], outcomes[..last], k, c[k]) {
            var i :| 0 <= i < last && urls[..last][i] == k && outcomes[..last][i] == Got(c[k]) && c[k].Cacheable();
            assert urls[i] == k && outcomes[i] == Got(c[k]);
          }
        }
      }
    }
  }

  /** Every URL whose fetch answered a cacheable response is in the current cache afterwards. */
  lemma {:induction false} PrecachedKeepsOk(s: Storage, urls: seq<string>, outcomes: seq<FetchOutcome>, i: nat)
    requires |urls| == |outcomes| && CACHE_NAME in s.caches
    requires i < |urls| && outcomes[i].Got? && outcomes[i].response.Cacheable()
    ensures urls[i] in Precached(s, urls, outcomes).caches[CACHE_NAME]
    decreases |urls|
  {
    var last := |urls| - 1;
    var before := Precached(s, urls[..last], outcomes[..last]);
    var after := Precached(s, urls, outcomes);
    assert after == Added(before, CACHE_NAME, urls[last], outcomes[last]);
    if i < last {
      PrecachedKeepsOk(s, urls[..last], outcomes[..last], i);
      assert urls[..last][i] == urls[i];
      assert urls[i] in before.caches[CACHE_NAME];
    } else {
      assert after == Stored(before, CACHE_NAME, urls[i], outcomes[i].response);
    }
  }

  /**
   * `cache.add` overwrites: the entry of a listed URL that no later list
   * position repeats is the cacheable response fetched for it, even when
   * the cache held an older entry for that URL.
   */
  lemma {:induction false} PrecachedStoresFetched(s: Storage, urls: seq<string>, outcomes: seq<FetchOutcome>, i: nat)
    requires |urls| == |outcomes| && CACHE_NAME in s.caches
    requires i < |urls| && outcomes[i].Got? && outcomes[i].response.Cacheable()
    requires forall j :: i < j < |urls| ==> urls[j] != urls[i]
    ensures urls[i] in Precached(s, urls, outcomes).caches[CACHE_NAME]
    ensures Precached(s, urls, outcomes).caches[CACHE_NAME][urls[i]] == outcomes[i].response
    decreases |urls|
  {
    var last := |urls| - 1;
    var before := Precached(s, urls[..last], outcomes[..last]);
    assert Precached(s, urls, outcomes) == Added(before, CACHE_NAME, urls[last], outcomes[last]);
    if i < last {
      PrecachedStoresFetched(s, urls[..last], outcomes[..last], i);
      assert urls[..last][i] == urls[i];
    }
  }

  /** The sixteen precache URLs are pairwise different. */
  lemma PrecacheDistinct()
    ensures Distinct(PrecacheResources())
  {
    PrecacheInOrder();
  }

  /**
   * Install stores, for every precache URL whose fetch gives a cacheable
   * response, exactly that response.
   */
  lemma InstallStoresFetched(s: Storage, outcomes: seq<FetchOutcome>, i: nat)
    requires |outcomes| == |PrecacheResources()|
    requires i < |outcomes| && outcomes[i].Got? && outcomes[i].response.Cacheable()
    ensures var c := Installed(s, outcomes).caches[CACHE_NAME];
            PrecacheResources()[i] in c && c[PrecacheResources()[i]] == outcomes[i].response
  {
    PrecacheDistinct();
    PrecachedStoresFetched(Opened(s, CACHE_NAME), PrecacheResources(), outcomes, i);
  }

  /** Install only adds the precache list's cacheable responses to the current cache and touches no other cache. */
  lemma InstallAddsOnlyListed(s: Storage, outcomes: seq<FetchOutcome>)
    requires s.Valid() && |outcomes| == |PrecacheResources()|
    ensures var t := Installed(s, outcomes);
            && CACHE_NAME in t.caches
            && (forall n :: n in s.caches && n != CACHE_NAME ==> t.caches[n] == s.caches[n])
            && forall k :: k in t.caches[CACHE_NAME] ==>
                 || (CACHE_NAME in s.caches && k in s.caches[CACHE_NAME] && t.caches[CACHE_NAME][k] == s.caches[CACHE_NAME][k])
                 || AddedOk(PrecacheResources(), outcomes, k, t.caches[CACHE_NAME][k])
  {
    PrecachedFromList(Opened(s, CACHE_NAME), PrecacheResources(), outcomes);
  }

  /**
   * After activation only the current cache is left, with its entries
   * untouched: for caches {v1, v2, v3} with v3 current, only v3 remains.
   */
  lemma ActivatedKeepsOnlyCurrent(s: Storage)
    requires s.Valid()
    ensures Activated(s) == if CACHE_NAME in s.caches
                            then Storage([CACHE_NAME], map[CACHE_NAME := s.caches[CACHE_NAME]])
                            else Empty
  {
    FilterSingle(s.names, CACHE_NAME);
    var t := Activated(s);
    if CACHE_NAME in s.caches {
      assert t.caches == map[CACHE_NAME := s.caches[CACHE_NAME]];
    } else {
      assert t.caches == map[];
    }
  }

  /** After CLEAR_CACHE no cache is left at all. */
  lemma ClearedIsEmpty(s: Storage)
    ensures Cleared(s) == Empty
  {
    FilterNothing(s.names);
    assert Cleared(s).caches == map[];
  }
}
