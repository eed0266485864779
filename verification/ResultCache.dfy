/**
 The gateway's result cache against the full log of everything ever stored in it.

 A Python dict is its keys in insertion order together with the mapping; the order
 matters because the eviction pass sorts the keys stably by timestamp.
 */
module ResultCache {
  import opened Prelude

  type Key = string

  datatype Entry<+R> = Entry(result: R, at: Time)

  datatype Cache<+R> = Cache(order: seq<Key>, entries: map<Key, Entry<R>>)

  const LIMIT := 1000
  const BATCH := 100

  predicate NoDup(s: seq<Key>) {
    forall i, j :: 0 <= i < j < |s| ==> s[i] != s[j]
  }

  ghost predicate WF<R>(c: Cache<R>) {
    NoDup(c.order) && forall k :: k in c.order <==> k in c.entries
  }

  function Empty<R>(): Cache<R> {
    Cache([], map[])
  }

  /** _get_cached_result. */
  function Lookup<R>(c: Cache<R>, key: Key, now: Time, ttl: Time): Option<R> {
    if key in c.entries && now - c.entries[key].at < ttl then Some(c.entries[key].result) else None
  }

  /** self.request_cache[key] = ..: an existing key keeps its place. */
  function Put<R>(c: Cache<R>, key: Key, e: Entry<R>): Cache<R> {
    Cache(if key in c.entries then c.order else c.order + [key], c.entries[key := e])
  }

  /** k put behind every element that is not newer. */
  function Insert<R>(sorted: seq<Key>, k: Key, entries: map<Key, Entry<R>>): seq<Key>
    requires k in entries && forall x <- sorted :: x in entries
  {
    if sorted == [] || entries[sorted[|sorted| - 1]].at <= entries[k].at then sorted + [k]
    else Insert(sorted[..|sorted| - 1], k, entries) + [sorted[|sorted| - 1]]
  }

  /** sorted(keys, key=timestamp), which is stable. */
  function SortByTime<R>(keys: seq<Key>, entries: map<Key, Entry<R>>): (r: seq<Key>)
    requires forall x <- keys :: x in entries
    ensures forall x <- r :: x in entries
  {
    if keys == [] then []
    else
      var front := SortByTime(keys[..|keys| - 1], entries);
      InsertMembers(front, keys[|keys| - 1], entries);
      Insert(front, keys[|keys| - 1], entries)
  }

  function Without(order: seq<Key>, dropped: set<Key>): seq<Key> {
    if order == [] then []
    else Without(order[..|order| - 1], dropped) + if order[|order| - 1] in dropped then [] else [order[|order| - 1]]
  }

  function Elements(s: seq<Key>): set<Key> {
    set k | k in s
  }

  function Drop<R>(c: Cache<R>, dropped: set<Key>): Cache<R> {
    Cache(Without(c.order, dropped), c.entries - dropped)
  }

  /** The keys that go: the first of the sorted keys. */
  function Oldest<R>(c: Cache<R>): set<Key>
    requires WF(c) && |c.order| >= BATCH
  {
    SortByTimeFacts(c.order, c.entries);
    Elements(SortByTime(c.order, c.entries)[..BATCH])
  }

  /** The cleaning pass of _cache_result. */
  function Evict<R>(c: Cache<R>): Cache<R>
    requires WF(c)
  {
    if |c.order| > LIMIT then
      Drop(c, Oldest(c))
    else c
  }

  /** _cache_result. */
  function Store<R>(c: Cache<R>, key: Key, result: R, now: Time): Cache<R>
    requires WF(c)
  {
    PutWF(c, key, Entry(result, now));
    Evict(Put(c, key, Entry(result, now)))
  }

  // ---------- Sorting ----------

  lemma {:induction false} InsertMembers<R>(sorted: seq<Key>, k: Key, entries: map<Key, Entry<R>>)
    requires k in entries && forall x <- sorted :: x in entries
    ensures forall x :: x in Insert(sorted, k, entries) <==> x in sorted || x == k
  {
    if !(sorted == [] || entries[sorted[|sorted| - 1]].at <= entries[k].at) {
      InsertMembers(sorted[..|sorted| - 1], k, entries);
      assert sorted == sorted[..|sorted| - 1] + [sorted[|sorted| - 1]];
    }
  }

  predicate Ascending<R>(s: seq<Key>, entries: map<Key, Entry<R>>)
    requires forall x <- s :: x in entries
  {
    forall i, j :: 0 <= i < j < |s| ==> entries[s[i]].at <= entries[s[j]].at
  }

  lemma AppendAscending<R>(s: seq<Key>, last: Key, entries: map<Key, Entry<R>>)
    requires last in entries && forall x <- s :: x in entries
    requires NoDup(s) && Ascending(s, entries)
    requires forall x <- s :: x != last && entries[x].at <= entries[last].at
    ensures NoDup(s + [last]) && (forall x <- s + [last] :: x in entries) && Ascending(s + [last], entries)
  {
  }

  lemma {:induction false} InsertFacts<R>(sorted: seq<Key>, k: Key, entries: map<Key, Entry<R>>)
    requires k in entries && forall x <- sorted :: x in entries
    requires NoDup(sorted) && k !in sorted && Ascending(sorted, entries)
    ensures var r := Insert(sorted, k, entries);
      |r| == |sorted| + 1 && NoDup(r) && (forall x <- r :: x in entries) && Ascending(r, entries)
  {
    InsertMembers(sorted, k, entries);
    if !(sorted == [] || entries[sorted[|sorted| - 1]].at <= entries[k].at) {
      var front, last := sorted[..|sorted| - 1], sorted[|sorted| - 1];
      InsertFacts(front, k, entries);
      InsertMembers(front, k, entries);
      assert sorted == front + [last];
      var r := Insert(front, k, entries);
      forall x <- r ensures x != last && entries[x].at <= entries[last].at {
        if x != k {
          var i :| 0 <= i < |front| && front[i] == x;
          assert sorted[i] == x && sorted[|sorted| - 1] == last;
        }
      }
      AppendAscending(r, last, entries);
    }
  }

  /** Sorting permutes, orders by timestamp, and loses and repeats nothing. */
  lemma {:induction false} SortByTimeFacts<R>(keys: seq<Key>, entries: map<Key, Entry<R>>)
    requires NoDup(keys) && forall x <- keys :: x in entries
    ensures var r := SortByTime(keys, entries);
      |r| == |keys| && NoDup(r) && Ascending(r, entries) && forall x :: x in r <==> x in keys
  {
    if keys != [] {
      var front, k := keys[..|keys| - 1], keys[|keys| - 1];
      SortByTimeFacts(front, entries);
      InsertFacts(SortByTime(front, entries), k, entries);
      InsertMembers(SortByTime(front, entries), k, entries);
      assert keys == front + [k];
    }
  }

  /** Stability: a last key at least as recent as all others comes out last. */
  lemma NewestLast<R>(keys: seq<Key>, entries: map<Key, Entry<R>>)
    requires keys != [] && NoDup(keys) && forall x <- keys :: x in entries
    requires forall x <- keys :: entries[x].at <= entries[keys[|keys| - 1]].at
    ensures |SortByTime(keys, entries)| == |keys| && SortByTime(keys, entries)[|keys| - 1] == keys[|keys| - 1]
  {
    var front := SortByTime(keys[..|keys| - 1], entries);
    SortByTimeFacts(keys[..|keys| - 1], entries);
    SortByTimeFacts(keys, entries);
    if front != [] { assert front[|front| - 1] in keys; }
  }

  // ---------- Dropping ----------

  lemma {:induction false} WithoutFacts(order: seq<Key>, dropped: set<Key>)
    requires NoDup(order)
    ensures NoDup(Without(order, dropped))
    ensures forall x :: x in Without(order, dropped) <==> x in order && x !in dropped
  {
    if order != [] {
      WithoutFacts(order[..|order| - 1], dropped);
      assert order == order[..|order| - 1] + [order[|order| - 1]];
      assert order[|order| - 1] !in order[..|order| - 1];
    }
  }

  lemma {:induction false} NoDupSize(s: seq<Key>)
    requires NoDup(s)
    ensures |Elements(s)| == |s|
  {
    if s != [] {
      NoDupSize(s[..|s| - 1]);
      assert Elements(s) == Elements(s[..|s| - 1]) + {s[|s| - 1]};
    }
  }

  lemma PutWF<R>(c: Cache<R>, key: Key, e: Entry<R>)
    requires WF(c)
    ensures WF(Put(c, key, e)) && |Put(c, key, e).order| <= |c.order| + 1
  {
  }

  /**
   The cleaning pass on a full cache: 901 entries stay, and each dropped entry is no
   newer than any that stays.
   */
  lemma EvictFacts<R>(c: Cache<R>)
    requires WF(c) && |c.order| <= LIMIT + 1
    ensures var d := Evict(c);
      && WF(d) && |d.order| <= 1000
      && (forall k <- d.entries :: k in c.entries && d.entries[k] == c.entries[k])
      && (forall k <- c.entries :: k !in d.entries ==>
            |d.entries.Keys| == 901 && forall x <- d.entries :: c.entries[k].at <= c.entries[x].at)
  {
    if |c.order| > LIMIT {
      OldestFacts(c);
      DropFacts(c, Oldest(c));
    }
  }

  lemma OldestFacts<R>(c: Cache<R>)
    requires WF(c) && |c.order| >= BATCH
    ensures |Oldest(c)| == BATCH && forall k <- Oldest(c) :: k in c.order
    ensures forall k, x :: k in Oldest(c) && x in c.entries && x !in Oldest(c) ==>
        k in c.entries && c.entries[k].at <= c.entries[x].at
  {
    var sorted := SortByTime(c.order, c.entries);
    SortByTimeFacts(c.order, c.entries);
    NoDupSize(sorted[..BATCH]);
    forall k | k in Oldest(c) ensures k in sorted { }
    forall k, x | k in Oldest(c) && x in c.entries && x !in Oldest(c)
      ensures k in c.entries && c.entries[k].at <= c.entries[x].at
    {
      OldestFirst(sorted, c.entries, k, x);
    }
  }

  lemma OldestFirst<R>(sorted: seq<Key>, entries: map<Key, Entry<R>>, k: Key, x: Key)
    requires |sorted| >= BATCH && (forall y <- sorted :: y in entries) && Ascending(sorted, entries)
    requires k in sorted[..BATCH] && x in sorted && x !in sorted[..BATCH]
    ensures entries[k].at <= entries[x].at
  {
  }

  lemma DropFacts<R>(c: Cache<R>, dropped: set<Key>)
    requires WF(c) && forall k <- dropped :: k in c.order
    ensures WF(Drop(c, dropped))
    ensures |Drop(c, dropped).order| == |Drop(c, dropped).entries.Keys| == |c.order| - |dropped|
  {
    WithoutFacts(c.order, dropped);
    var d := Drop(c, dropped);
    NoDupSize(c.order);
    NoDupSize(d.order);
    assert Elements(d.order) == Elements(c.order) - dropped;
    assert d.entries.Keys == Elements(d.order);
    assert Elements(c.order) == Elements(d.order) + dropped;
  }

  // ---------- Against the log ----------

  datatype Stored<+R> = Stored(key: Key, result: R, at: Time)

  /** One more result is stored. */
  function Next<R>(c: Cache<R>, s: Stored<R>): (d: Cache<R>)
    requires WF(c) && |c.order| <= LIMIT
    ensures WF(d) && |d.order| <= LIMIT
  {
    PutWF(c, s.key, Entry(s.result, s.at));
    EvictFacts(Put(c, s.key, Entry(s.result, s.at)));
    Store(c, s.key, s.result, s.at)
  }

  function After<R>(log: seq<Stored<R>>): (c: Cache<R>)
    ensures WF(c) && |c.order| <= LIMIT
  {
    if log == [] then Empty()
    else Next(After(log[..|log| - 1]), log[|log| - 1])
  }

  /** What was last stored under key. */
  function Latest<R>(log: seq<Stored<R>>, key: Key): Option<Entry<R>> {
    if log == [] then None
    else if log[|log| - 1].key == key then Some(Entry(log[|log| - 1].result, log[|log| - 1].at))
    else Latest(log[..|log| - 1], key)
  }

  /** The clock never goes back. */
  predicate Timely<R>(log: seq<Stored<R>>) {
    forall i, j :: 0 <= i < j < |log| ==> log[i].at <= log[j].at
  }

  lemma {:induction false} LatestInLog<R>(log: seq<Stored<R>>, key: Key)
    requires Timely(log) && Latest(log, key).Some?
    ensures log != [] && Latest(log, key).value.at <= log[|log| - 1].at
  {
    if log[|log| - 1].key != key { LatestInLog(log[..|log| - 1], key); }
  }

  /** Every entry is the latest result stored under its key. */
  lemma {:induction false} EntriesAreLatest<R>(log: seq<Stored<R>>, key: Key)
    requires key in After(log).entries
    ensures Latest(log, key) == Some(After(log).entries[key])
  {
    var front, s := log[..|log| - 1], log[|log| - 1];
    var p := Put(After(front), s.key, Entry(s.result, s.at));
    PutWF(After(front), s.key, Entry(s.result, s.at));
    EvictFacts(p);
    if s.key != key { EntriesAreLatest(front, key); }
  }

  /** A lookup answers v exactly when the key is not evicted and v was stored last under it, less than ttl ago. */
  lemma HitIsLatest<R>(log: seq<Stored<R>>, key: Key, now: Time, ttl: Time, v: R)
    ensures Lookup(After(log), key, now, ttl) == Some(v) <==>
      && key in After(log).entries && Latest(log, key).Some?
      && Latest(log, key).value.result == v && now - Latest(log, key).value.at < ttl
  {
    if key in After(log).entries { EntriesAreLatest(log, key); }
  }

  lemma StoreKeeps<R>(c: Cache<R>, key: Key, result: R, now: Time)
    requires WF(c) && |c.order| <= LIMIT && forall x <- c.entries :: c.entries[x].at <= now
    ensures key in Store(c, key, result, now).entries
  {
    var p := Put(c, key, Entry(result, now));
    PutWF(c, key, Entry(result, now));
    if |p.order| > LIMIT { NewestStays(p, key); }
  }

  /** What was stored last survives the cleaning pass it set off. */
  lemma JustStoredStays<R>(log: seq<Stored<R>>)
    requires log != [] && Timely(log)
    ensures log[|log| - 1].key in After(log).entries
  {
    var front, s := log[..|log| - 1], log[|log| - 1];
    forall x <- After(front).entries ensures After(front).entries[x].at <= s.at {
      EntriesAreLatest(front, x);
      LatestInLog(front, x);
    }
    StoreKeeps(After(front), s.key, s.result, s.at);
  }

  lemma NewestStays<R>(p: Cache<R>, k: Key)
    requires WF(p) && |p.order| == LIMIT + 1 && p.order[LIMIT] == k
    requires forall x <- p.entries :: p.entries[x].at <= p.entries[k].at
    ensures k !in Oldest(p)
  {
    SortByTimeFacts(p.order, p.entries);
    NewestLast(p.order, p.entries);
    NotAmongFirst(SortByTime(p.order, p.entries), k);
  }

  lemma NotAmongFirst(sorted: seq<Key>, k: Key)
    requires NoDup(sorted) && |sorted| == LIMIT + 1 && sorted[LIMIT] == k
    ensures k !in Elements(sorted[..BATCH])
  {
  }

  /** The other keys whose latest result is at least as recent as key's. */
  ghost function AsRecent<R>(log: seq<Stored<R>>, key: Key): set<Key>
    requires Latest(log, key).Some?
  {
    set i: nat | i < |log| && log[i].key != key && Latest(log, log[i].key).Some?
      && Latest(log, log[i].key).value.at >= Latest(log, key).value.at :: log[i].key
  }

  lemma InAsRecent<R>(log: seq<Stored<R>>, key: Key, other: Key)
    requires Latest(log, key).Some? && Latest(log, other).Some? && other != key
    requires Latest(log, other).value.at >= Latest(log, key).value.at
    ensures other in AsRecent(log, key)
  {
    LatestHasIndex(log, other);
  }

  lemma {:induction false} LatestHasIndex<R>(log: seq<Stored<R>>, key: Key)
    requires Latest(log, key).Some?
    ensures exists i: nat :: i < |log| && log[i].key == key
  {
    if log[|log| - 1].key == key {
      assert log[|log| - 1].key == key;
    } else {
      LatestHasIndex(log[..|log| - 1], key);
      var i: nat :| i < |log| - 1 && log[..|log| - 1][i].key == key;
      assert log[i].key == key;
    }
  }

  lemma SubsetSize(a: set<Key>, b: set<Key>)
    requires a <= b
    ensures |a| <= |b|
  {
    assert b == a + (b - a);
  }

  /**
   A result that was stored and is no longer in the cache has at least 901 other keys
   whose latest result is as recent.
   */
  lemma {:induction false} MissingMeansOvertaken<R>(log: seq<Stored<R>>, key: Key)
    requires Timely(log) && Latest(log, key).Some? && key !in After(log).entries
    ensures |AsRecent(log, key)| >= 901
  {
    var front, s := log[..|log| - 1], log[|log| - 1];
    JustStoredStays(log);
    if key in After(front).entries {
      var p := Put(After(front), s.key, Entry(s.result, s.at));
      PutWF(After(front), s.key, Entry(s.result, s.at));
      EvictFacts(p);
      EntriesAreLatest(front, key);
      forall x <- After(log).entries.Keys ensures x in AsRecent(log, key) {
        EntriesAreLatest(log, x);
        InAsRecent(log, key, x);
      }
      SubsetSize(After(log).entries.Keys, AsRecent(log, key));
    } else {
      MissingMeansOvertaken(front, key);
      AsRecentGrows(log, key);
    }
  }

  lemma AsRecentGrows<R>(log: seq<Stored<R>>, key: Key)
    requires Timely(log) && log != [] && log[|log| - 1].key != key && Latest(log, key).Some?
    ensures |AsRecent(log[..|log| - 1], key)| <= |AsRecent(log, key)|
  {
    var front := log[..|log| - 1];
    LatestInLog(front, key);
    forall x <- AsRecent(front, key) ensures x in AsRecent(log, key) {
      InAsRecent(log, key, x);
    }
    SubsetSize(AsRecent(front, key), AsRecent(log, key));
  }
}
