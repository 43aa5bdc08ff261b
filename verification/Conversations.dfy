/** Eviction from the cache of AI conversations: entries expire after an hour, and
    above a cap the least recently used ones go. */
module Conversations {

  /** A conversation; its messages play no part. */
  datatype Entry = Entry(lastAccess: int, messages: string)

  type Cache = map<string, Entry>

  datatype KeyTime = KeyTime(key: string, time: int)

  /** One hour, in seconds. */
  const TTL := 3600
  const MAX_ENTRIES := 200

  // ------------------------------------------------------------- what it promises

  function Live(cache: Cache, now: int): Cache {
    map k | k in cache && cache[k].lastAccess >= now - TTL :: cache[k]
  }

  /** No kept entry is expired or changed; no more are evicted than the cap demands;
      and no evicted live entry was used later than a kept one. */
  ghost predicate CleanedUp(cache: Cache, now: int, kept: Cache) {
    var live := Live(cache, now);
    && kept.Keys <= live.Keys
    && (forall k :: k in kept ==> kept[k] == live[k])
    && |kept| == (if |live| > MAX_ENTRIES then MAX_ENTRIES else |live|)
    && (forall gone, k :: gone in live && gone !in kept && k in kept ==> live[gone].lastAccess <= live[k].lastAccess)
  }

  // ---------------------------------------------------------------------- sorting

  ghost predicate Ascending(s: seq<KeyTime>) {
    forall i, j :: 0 <= i < j < |s| ==> s[i].time <= s[j].time
  }

  ghost predicate Below(s: seq<KeyTime>, i: nat)
    requires i <= |s|
  {
    forall a, b :: 0 <= a < i <= b < |s| ==> s[a].time <= s[b].time
  }

  lemma SwapKeeps(s: seq<KeyTime>, i: nat, j: nat)
    requires i < j < |s| && Ascending(s[..i]) && Below(s, i)
    ensures var t := s[i := s[j]][j := s[i]]; multiset(t) == multiset(s) && Ascending(t[..i]) && Below(t, i)
  {
    var t := s[i := s[j]][j := s[i]];
    assert t[..i] == s[..i];
    assert forall b :: i <= b < |s| ==> t[b] == s[if b == i then j else if b == j then i else b];
  }

  /** The nested exchange sort, in place. */
  method ExchangeSort(a: array<KeyTime>)
    modifies a
    ensures Ascending(a[..]) && multiset(a[..]) == multiset(old(a[..]))
  {
    var i := 0;
    while i < a.Length - 1
      invariant 0 <= i <= a.Length && Ascending(a[..i]) && Below(a[..], i)
      invariant multiset(a[..]) == multiset(old(a[..]))
    {
      MoveMinimum(a, i);
      i := i + 1;
    }
    assert a[..i] + a[i..] == a[..];
  }

  method MoveMinimum(a: array<KeyTime>, i: nat)
    requires i < a.Length && Ascending(a[..i]) && Below(a[..], i)
    modifies a
    ensures Ascending(a[..i + 1]) && Below(a[..], i + 1) && multiset(a[..]) == multiset(old(a[..]))
  {
    for j := i + 1 to a.Length
      invariant Ascending(a[..i]) && Below(a[..], i)
      invariant forall b :: i < b < j ==> a[i].time <= a[b].time
      invariant multiset(a[..]) == multiset(old(a[..]))
    {
      if a[j].time < a[i].time {
        ghost var s := a[..];
        SwapKeeps(s, i, j);
        a[i], a[j] := a[j], a[i];
        assert a[..] == s[i := s[j]][j := s[i]];
        assert a[..i] == a[..][..i];
      }
    }
    MinimumPlaced(a[..], i);
    assert a[..i + 1] == a[..][..i + 1];
  }

  lemma MinimumPlaced(s: seq<KeyTime>, i: nat)
    requires i < |s| && Ascending(s[..i]) && Below(s, i) && forall b :: i < b < |s| ==> s[i].time <= s[b].time
    ensures Ascending(s[..i + 1]) && Below(s, i + 1)
  {
    assert forall k :: 0 <= k < i ==> s[..i][k] == s[k];
  }

  // --------------------------------------------------------------------- the cache

  /** The entries of a cache, each once. */
  ghost predicate Lists(s: seq<KeyTime>, cache: Cache) {
    && (forall i :: 0 <= i < |s| ==> s[i].key in cache && cache[s[i].key].lastAccess == s[i].time)
    && (forall i, j :: 0 <= i < j < |s| ==> s[i].key != s[j].key)
    && (forall k :: k in cache ==> KeyTime(k, cache[k].lastAccess) in s)
  }

  /** A key that is listed twice counts twice. */
  lemma TwiceInMultiset(s: seq<KeyTime>, i: nat, j: nat)
    requires i < j < |s| && s[i] == s[j]
    ensures multiset(s)[s[i]] >= 2
  {
    assert s == s[..i] + [s[i]] + s[i + 1..j] + [s[j]] + s[j + 1..];
  }

  lemma {:induction false} OnceInMultiset(s: seq<KeyTime>, x: KeyTime)
    requires forall i, j :: 0 <= i < j < |s| ==> s[i].key != s[j].key
    ensures multiset(s)[x] <= 1
    decreases |s|
  {
    if s != [] {
      var n := |s| - 1;
      assert s == s[..n] + [s[n]];
      OnceInMultiset(s[..n], x);
      assert forall i :: 0 <= i < n ==> s[..n][i].key != s[n].key;
      assert s[n] !in multiset(s[..n]);
    }
  }

  lemma SortedStillLists(s: seq<KeyTime>, t: seq<KeyTime>, cache: Cache)
    requires Lists(s, cache) && multiset(t) == multiset(s)
    ensures Lists(t, cache) && |t| == |s|
  {
    assert |multiset(t)| == |t| && |multiset(s)| == |s|;
    forall i | 0 <= i < |t| ensures t[i] in s && t[i].key in cache && cache[t[i].key].lastAccess == t[i].time {
      assert t[i] in multiset(t);
      assert t[i] in multiset(s);
    }
    forall i, j | 0 <= i < j < |t| ensures t[i].key != t[j].key {
      if t[i].key == t[j].key {
        TwiceInMultiset(t, i, j);
        OnceInMultiset(s, t[i]);
      }
    }
    forall k | k in cache ensures KeyTime(k, cache[k].lastAccess) in t {
      assert KeyTime(k, cache[k].lastAccess) in multiset(s);
      assert KeyTime(k, cache[k].lastAccess) in multiset(t);
    }
  }

  /** What is left after the first `m` of the sorted entries were deleted. */
  ghost predicate FirstGone(s: seq<KeyTime>, live: Cache, kept: Cache, m: nat)
    requires m <= |s|
  {
    && kept.Keys <= live.Keys && (forall k :: k in kept ==> kept[k] == live[k])
    && (forall b :: 0 <= b < m ==> s[b].key !in kept) && (forall b :: m <= b < |s| ==> s[b].key in kept)
    && |kept| == |live| - m
  }

  lemma OneMoreGone(s: seq<KeyTime>, live: Cache, kept: Cache, i: nat)
    requires i < |s| && Lists(s, live) && FirstGone(s, live, kept, i)
    ensures FirstGone(s, live, kept - {s[i].key}, i + 1)
  {
    var next := kept - {s[i].key};
    assert s[i].key in kept;
    assert next.Keys == kept.Keys - {s[i].key};
    assert |next| == |next.Keys| && |kept| == |kept.Keys|;
  }

  lemma OldestGone(s: seq<KeyTime>, live: Cache, kept: Cache, m: nat)
    requires m <= |s| && Lists(s, live) && Ascending(s) && FirstGone(s, live, kept, m)
    ensures forall gone, k :: gone in live && gone !in kept && k in kept ==> live[gone].lastAccess <= live[k].lastAccess
  {
    forall gone, k | gone in live && gone !in kept && k in kept ensures live[gone].lastAccess <= live[k].lastAccess {
      var a :| 0 <= a < |s| && s[a] == KeyTime(gone, live[gone].lastAccess);
      var b :| 0 <= b < |s| && s[b] == KeyTime(k, live[k].lastAccess);
      assert a < m <= b;
    }
  }

  class ConversationCache {
    var cache: Cache

    constructor ()
      ensures cache == map[]
    {
      cache := map[];
    }

    method DropExpired(now: int)
      modifies this
      ensures cache == Live(old(cache), now)
    {
      var cutoff := now - TTL;
      ghost var was := cache;
      var todo := cache.Keys;
      while todo != {}
        invariant todo <= cache.Keys <= was.Keys
        invariant forall k :: k in cache ==> cache[k] == was[k]
        invariant forall k :: k in was && k !in todo ==> (k in cache <==> was[k].lastAccess >= cutoff)
        decreases |todo|
      {
        var k :| k in todo;
        todo := todo - {k};
        if cache[k].lastAccess < cutoff { cache := cache - {k}; }
      }
    }

    /** The entries in whatever order the map yields them. */
    method ListEntries() returns (entries: array<KeyTime>)
      ensures fresh(entries) && entries.Length == |cache| && Lists(entries[..], cache)
    {
      var list: seq<KeyTime> := [];
      var todo := cache.Keys;
      while todo != {}
        invariant todo <= cache.Keys && |list| + |todo| == |cache.Keys|
        invariant forall i :: 0 <= i < |list| ==>
                    list[i].key in cache && cache[list[i].key].lastAccess == list[i].time && list[i].key !in todo
        invariant forall i, j :: 0 <= i < j < |list| ==> list[i].key != list[j].key
        invariant forall k :: k in cache && k !in todo ==> KeyTime(k, cache[k].lastAccess) in list
        decreases |todo|
      {
        var k :| k in todo;
        todo := todo - {k};
        list := list + [KeyTime(k, cache[k].lastAccess)];
      }
      entries := new KeyTime[|list|](i requires 0 <= i < |list| => list[i]);
      assert entries[..] == list;
      assert |cache.Keys| == |cache|;
    }

    method EvictFirst(entries: array<KeyTime>, m: nat)
      requires m <= entries.Length == |cache| && Lists(entries[..], cache)
      modifies this
      ensures FirstGone(entries[..], old(cache), cache, m)
    {
      for i := 0 to m
        invariant FirstGone(entries[..], old(cache), cache, i)
      {
        assert entries[..][i] == entries[i];
        OneMoreGone(entries[..], old(cache), cache, i);
        cache := cache - {entries[i].key};
      }
    }

    /** One round of `conversationCacheCleanup`. */
    method Cleanup(now: int)
      modifies this
      ensures CleanedUp(old(cache), now, cache) && |cache| <= 200
      ensures forall k :: k in cache ==>
                k in old(cache) && cache[k] == old(cache)[k] && cache[k].lastAccess >= now - 3600
    {
      DropExpired(now);
      if |cache| > MAX_ENTRIES {
        ghost var live := cache;
        var entries := ListEntries();
        ghost var listed := entries[..];
        ExchangeSort(entries);
        SortedStillLists(listed, entries[..], live);
        EvictFirst(entries, entries.Length - MAX_ENTRIES);
        OldestGone(entries[..], live, cache, entries.Length - MAX_ENTRIES);
      }
    }
  }

  // ------------------------------------------------------------------ consequences

  /** When no two conversations were used at the same moment, what is kept is
      determined: the order in which the map was visited does not matter. */
  lemma CleanupIsDetermined(cache: Cache, now: int, a: Cache, b: Cache)
    requires CleanedUp(cache, now, a) && CleanedUp(cache, now, b)
    requires forall k, m :: k in cache && m in cache && cache[k].lastAccess == cache[m].lastAccess ==> k == m
    ensures a == b
  {
    forall k | k in a ensures k in b { KeptInBoth(cache, now, a, b, k); }
    forall k | k in b ensures k in a { KeptInBoth(cache, now, b, a, k); }
  }

  lemma KeptInBoth(cache: Cache, now: int, a: Cache, b: Cache, k: string)
    requires CleanedUp(cache, now, a) && CleanedUp(cache, now, b) && k in a
    requires forall k, m :: k in cache && m in cache && cache[k].lastAccess == cache[m].lastAccess ==> k == m
    ensures k in b
  {
    assert |a.Keys| == |b.Keys|;
    if k !in b { SomeOther(a.Keys, b.Keys, k); }
  }

  lemma SomeOther(a: set<string>, b: set<string>, k: string)
    requires |a| == |b| && k in a && k !in b
    ensures exists m :: m in b && m !in a
  {
    if b <= a {
      Fewer(b, a - {k});
    }
  }

  lemma {:induction false} Fewer(a: set<string>, b: set<string>)
    requires a <= b
    ensures |a| <= |b|
    decreases |a|
  {
    if a != {} {
      var x :| x in a;
      Fewer(a - {x}, b - {x});
    }
  }

  /** A second pass at the same moment evicts nothing more. */
  lemma CleanupIsIdempotent(cache: Cache, now: int, kept: Cache, again: Cache)
    requires CleanedUp(cache, now, kept) && CleanedUp(kept, now, again)
    ensures again == kept
  {
    assert Live(kept, now) == kept;
    assert |kept| <= MAX_ENTRIES;
    if again != kept {
      var k :| k in kept && k !in again;
      Fewer(again.Keys, kept.Keys - {k});
    }
  }

  /** An entry that was used within the hour is evicted only if more than 200 were. */
  lemma EvictionNeedsCap(cache: Cache, now: int, kept: Cache, k: string)
    requires CleanedUp(cache, now, kept) && k in cache && cache[k].lastAccess >= now - 3600 && k !in kept
    ensures |Live(cache, now)| > 200 && |kept| == 200
  {
    var live := Live(cache, now);
    assert k in live;
    Fewer(kept.Keys, live.Keys - {k});
  }
}
