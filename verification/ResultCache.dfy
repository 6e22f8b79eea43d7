/**
 The result cache of knowledge/agent_runtime/metric_mcp.py: bounded, with a time to live and
 least-recently-used eviction.  The clock is a parameter; `K` is the key that `_key` builds.
 */
module ResultCache {
  import opened Common

  datatype Entry<K, V> = Entry(key: K, expires: real, value: V)

  datatype Limits = Limits(ttl: real, entries: nat)

  predicate Sane(l: Limits) { l.ttl >= 1.0 && l.entries >= 1 }

  function Find<K(==), V>(items: seq<Entry<K, V>>, k: K): Option<Entry<K, V>> {
    if items == [] then None else if items[0].key == k then Some(items[0]) else Find(items[1..], k)
  }

  function Without<K(==), V>(items: seq<Entry<K, V>>, k: K): (r: seq<Entry<K, V>>)
    ensures |items| - 1 <= |r| <= |items|
  {
    if items == [] then [] else if items[0].key == k then items[1..] else [items[0]] + Without(items[1..], k)
  }

  function Lookup<K(==), V>(items: seq<Entry<K, V>>, k: K, now: real): Option<V> {
    match Find(items, k)
    case Some(e) => if now < e.expires then Some(e.value) else None
    case None => None
  }

  function AfterGet<K(==), V>(items: seq<Entry<K, V>>, k: K, now: real): seq<Entry<K, V>> {
    match Find(items, k)
    case Some(e) => if e.expires <= now then Without(items, k) else Without(items, k) + [e]
    case None => items
  }

  function Newest<K, V>(items: seq<Entry<K, V>>, n: nat): seq<Entry<K, V>> {
    if |items| > n then items[|items| - n..] else items
  }

  function AfterPut<K(==), V>(items: seq<Entry<K, V>>, k: K, v: V, now: real, l: Limits): seq<Entry<K, V>> {
    Newest(Without(items, k) + [Entry(k, now + l.ttl, v)], l.entries)
  }

  lemma {:induction false} FoundAt<K, V>(items: seq<Entry<K, V>>, k: K, p: nat)
    requires p <= |items| && (p < |items| ==> items[p].key == k)
    requires forall i :: 0 <= i < p ==> items[i].key != k
    ensures Find(items, k) == if p < |items| then Some(items[p]) else None
    ensures Without(items, k) == if p < |items| then items[..p] + items[p + 1..] else items
  {
    if p > 0 {
      FoundAt(items[1..], k, p - 1);
    }
  }

  class MetricMCPResultCache<K(==), V> {
    const limits: Limits
    /** The ordered dictionary, oldest entry first. */
    var items: seq<Entry<K, V>>

    constructor (ttlSeconds: real, maxEntries: int)
      ensures Sane(limits) && items == []
      ensures limits.ttl == if ttlSeconds < 1.0 then 1.0 else ttlSeconds
      ensures limits.entries == if maxEntries < 1 then 1 else maxEntries
    {
      limits := Limits(if ttlSeconds < 1.0 then 1.0 else ttlSeconds, if maxEntries < 1 then 1 else maxEntries);
      items := [];
    }

    method Position(k: K) returns (p: nat)
      ensures p <= |items| && (p < |items| ==> items[p].key == k)
      ensures forall i :: 0 <= i < p ==> items[i].key != k
    {
      p := 0;
      while p < |items| && items[p].key != k
        invariant p <= |items| && forall i :: 0 <= i < p ==> items[i].key != k
      {
        p := p + 1;
      }
    }

    method Get(k: K, now: real) returns (r: Option<V>)
      modifies this
      ensures r == Lookup(old(items), k, now)
      ensures items == AfterGet(old(items), k, now)
    {
      var p := Position(k);
      FoundAt(items, k, p);
      if p == |items| { return None; }
      var item := items[p];
      if item.expires <= now {
        items := items[..p] + items[p + 1..];
        return None;
      }
      items := items[..p] + items[p + 1..] + [item];
      return Some(item.value);
    }

    method Put(k: K, v: V, now: real)
      modifies this
      ensures items == AfterPut(old(items), k, v, now, limits)
    {
      var p := Position(k);
      FoundAt(items, k, p);
      items := (if p < |items| then items[..p] + items[p + 1..] else items) + [Entry(k, now + limits.ttl, v)];
      ghost var all := items;
      ghost var dropped := 0;
      while |items| > limits.entries
        invariant 0 <= dropped <= |all| && items == all[dropped..]
        invariant dropped > 0 ==> |items| >= limits.entries
      {
        items := items[1..];
        dropped := dropped + 1;
      }
    }
  }
}

/** The cache against an unbounded timed map, over every history of calls. */
module ResultCacheRuns {
  import opened Common
  import opened ResultCache

  /** One call, with the answer a `get` gave. */
  datatype Call<K, V> = Put(key: K, value: V, at: real) | Got(key: K, at: real, answer: Option<V>)

  function Before<K, V>(h: seq<Call<K, V>>): seq<Call<K, V>>
    requires h != []
  {
    h[..|h| - 1]
  }

  function Last<K, V>(h: seq<Call<K, V>>): Call<K, V>
    requires h != []
  {
    h[|h| - 1]
  }

  function After<K(==), V>(items: seq<Entry<K, V>>, c: Call<K, V>, l: Limits): seq<Entry<K, V>> {
    match c
    case Put(k, v, at) => AfterPut(items, k, v, at, l)
    case Got(k, at, _) => AfterGet(items, k, at)
  }

  function Items<K(==), V>(h: seq<Call<K, V>>, l: Limits): seq<Entry<K, V>> {
    if h == [] then [] else After(Items(Before(h), l), Last(h), l)
  }

  /** Calls follow the monotonic clock, and each answer is what the cache returned. */
  ghost predicate Recorded<K, V>(h: seq<Call<K, V>>, l: Limits) {
    h != [] ==>
      && Recorded(Before(h), l)
      && (|h| > 1 ==> Last(Before(h)).at <= Last(h).at)
      && (Last(h).Got? ==> Last(h).answer == Lookup(Items(Before(h), l), Last(h).key, Last(h).at))
  }

  // ---- The unbounded timed map ----

  function LatestPut<K(==), V>(h: seq<Call<K, V>>, k: K): Option<(V, real)> {
    if h == [] then None
    else if Last(h).Put? && Last(h).key == k then Some((Last(h).value, Last(h).at))
    else LatestPut(Before(h), k)
  }

  /** What an unbounded map would answer. */
  function Unbounded<K(==), V>(h: seq<Call<K, V>>, k: K, now: real, l: Limits): Option<V> {
    var put := LatestPut(h, k);
    if put.Some? && now < put.value.1 + l.ttl then Some(put.value.0) else None
  }

  /** The call used its key: it stored it or found it. */
  predicate Uses<K, V>(c: Call<K, V>) { c.Put? || c.answer.Some? }

  /** The other keys used since `k` was last used, without those found expired after that. */
  function Rivals<K(==), V>(h: seq<Call<K, V>>, k: K, l: Limits): set<K> {
    if h == [] then {}
    else if Last(h).key == k then (if Uses(Last(h)) then {} else Rivals(Before(h), k, l))
    else if Uses(Last(h)) then Rivals(Before(h), k, l) + {Last(h).key}
    else if Unbounded(Before(h), Last(h).key, Last(h).at, l).None? then Rivals(Before(h), k, l) - {Last(h).key}
    else Rivals(Before(h), k, l)
  }

  /** At some moment since its last use, `k` had as many rivals as the cache has room for. */
  predicate Crowded<K(==), V>(h: seq<Call<K, V>>, k: K, l: Limits) {
    && h != []
    && !(Last(h).key == k && Uses(Last(h)))
    && (Crowded(Before(h), k, l) || |Rivals(h, k, l)| >= l.entries)
  }

  // ---- The order of the entries ----

  function Keys<K(==), V>(items: seq<Entry<K, V>>): set<K> {
    if items == [] then {} else {items[0].key} + Keys(items[1..])
  }

  predicate Distinct<K(==), V>(items: seq<Entry<K, V>>) {
    items != [] ==> items[0].key !in Keys(items[1..]) && Distinct(items[1..])
  }

  /** The keys of the entries after the one under `k`. */
  function KeysAfter<K(==), V>(items: seq<Entry<K, V>>, k: K): set<K> {
    if items == [] then {} else if items[0].key == k then Keys(items[1..]) else KeysAfter(items[1..], k)
  }

  lemma {:induction false} KeysCount<K, V>(items: seq<Entry<K, V>>)
    requires Distinct(items)
    ensures |Keys(items)| == |items|
  {
    if items != [] { KeysCount(items[1..]); }
  }

  lemma {:induction false} FindHas<K, V>(items: seq<Entry<K, V>>, k: K)
    ensures Find(items, k).Some? <==> k in Keys(items)
    ensures Find(items, k).Some? ==> Find(items, k).value.key == k
    ensures k !in Keys(items) ==> Without(items, k) == items && KeysAfter(items, k) == {}
  {
    if items != [] { FindHas(items[1..], k); }
  }

  lemma {:induction false} AfterBelow<K, V>(items: seq<Entry<K, V>>, k: K)
    requires Distinct(items)
    ensures KeysAfter(items, k) <= Keys(items) - {k}
  {
    if items != [] { AfterBelow(items[1..], k); }
  }

  lemma {:induction false} Removed<K, V>(items: seq<Entry<K, V>>, x: K, k: K)
    requires Distinct(items)
    ensures Distinct(Without(items, x)) && Keys(Without(items, x)) == Keys(items) - {x}
    ensures |Without(items, x)| == |items| - if x in Keys(items) then 1 else 0
    ensures k != x ==> Find(Without(items, x), k) == Find(items, k)
    ensures k != x && k in Keys(items) ==> KeysAfter(Without(items, x), k) == KeysAfter(items, k) - {x}
  {
    if items != [] && items[0].key != x {
      var rest := items[1..];
      Removed(rest, x, k);
      assert Without(items, x)[1..] == Without(rest, x);
    }
    if items != [] && items[0].key == x && k != x { AfterBelow(items, k); NotAfter(items[1..], k, x); }
  }

  lemma {:induction false} NotAfter<K, V>(items: seq<Entry<K, V>>, k: K, x: K)
    requires Distinct(items) && x !in Keys(items)
    ensures x !in KeysAfter(items, k)
  {
    AfterBelow(items, k);
  }

  lemma {:induction false} Appended<K, V>(items: seq<Entry<K, V>>, e: Entry<K, V>, k: K)
    requires Distinct(items) && e.key !in Keys(items)
    ensures Distinct(items + [e]) && Keys(items + [e]) == Keys(items) + {e.key}
    ensures Find(items + [e], k) == if k == e.key then Some(e) else Find(items, k)
    ensures KeysAfter(items + [e], k) == if k in Keys(items) then KeysAfter(items, k) + {e.key} else {}
  {
    if items == [] {
      assert items + [e] == [e] && [e][1..] == [];
    } else {
      assert (items + [e])[1..] == items[1..] + [e];
      Appended(items[1..], e, k);
      assert (items + [e])[0] == items[0];
    }
  }

  /** Dropping what does not fit loses exactly the entry with too many after it. */
  lemma {:induction false} Evicted<K, V>(items: seq<Entry<K, V>>, n: nat, k: K)
    requires Distinct(items) && |items| <= n + 1
    ensures Distinct(Newest(items, n)) && |Newest(items, n)| <= n
    ensures k in Keys(Newest(items, n)) <==> k in Keys(items) && |KeysAfter(items, k)| < n
    ensures k in Keys(Newest(items, n)) ==>
              && Find(Newest(items, n), k) == Find(items, k)
              && KeysAfter(Newest(items, n), k) == KeysAfter(items, k)
  {
    KeysCount(items);
    AfterBelow(items, k);
    if k in Keys(items) { SubsetSize(KeysAfter(items, k), Keys(items) - {k}); }
    if |items| == n + 1 {
      var rest := items[1..];
      assert Newest(items, n) == rest;
      KeysCount(rest);
      AfterBelow(rest, k);
      if k in Keys(rest) { SubsetSize(KeysAfter(rest, k), Keys(rest) - {k}); }
    }
  }

  // ---- What holds after every history ----

  /** If the key is present, its entry is that of the put, and it stands before exactly the rivals. */
  ghost predicate Stands<K, V>(items: seq<Entry<K, V>>, k: K, put: Option<(V, real)>, rivals: set<K>, ttl: real) {
    k in Keys(items) ==>
      && put.Some? && Find(items, k) == Some(Entry(k, put.value.1 + ttl, put.value.0)) && KeysAfter(items, k) == rivals
  }

  /** A key that is present holds its latest put, and stands before exactly its rivals. */
  ghost predicate Matches<K, V>(h: seq<Call<K, V>>, l: Limits, k: K) {
    Stands(Items(h, l), k, LatestPut(h, k), Rivals(h, k, l), l.ttl)
  }

  ghost predicate Inv<K(!new), V>(h: seq<Call<K, V>>, l: Limits) {
    && Distinct(Items(h, l)) && |Items(h, l)| <= l.entries
    && forall k :: Matches(h, l, k)
  }

  lemma {:induction false} PutItems<K, V>(items: seq<Entry<K, V>>, e: Entry<K, V>, n: nat, k: K)
    requires Distinct(items) && |items| <= n && n >= 1
    ensures var after := Newest(Without(items, e.key) + [e], n);
            && Distinct(after) && |after| <= n
            && (k == e.key ==> k in Keys(after) && Find(after, k) == Some(e) && KeysAfter(after, k) == {})
            && (k != e.key ==>
                  && (k in Keys(after) <==> k in Keys(items) && |KeysAfter(items, k) + {e.key}| < n)
                  && (k in Keys(after) ==>
                        Find(after, k) == Find(items, k) && KeysAfter(after, k) == KeysAfter(items, k) + {e.key}))
  {
    PutBack(items, e, k);
    Evicted(Without(items, e.key) + [e], n, k);
  }

  lemma {:induction false} PutBack<K, V>(items: seq<Entry<K, V>>, e: Entry<K, V>, k: K)
    requires Distinct(items)
    ensures var all := Without(items, e.key) + [e];
            && Distinct(all) && |all| <= |items| + 1
            && (k == e.key ==> k in Keys(all) && Find(all, k) == Some(e) && KeysAfter(all, k) == {})
            && (k != e.key ==>
                  && (k in Keys(all) <==> k in Keys(items)) && Find(all, k) == Find(items, k)
                  && (k in Keys(all) ==> KeysAfter(all, k) == KeysAfter(items, k) + {e.key}))
  {
    Removed(items, e.key, k);
    Appended(Without(items, e.key), e, k);
    if k in Keys(items) { assert KeysAfter(items, k) - {e.key} + {e.key} == KeysAfter(items, k) + {e.key}; }
  }

  lemma {:induction false} GetItems<K, V>(items: seq<Entry<K, V>>, x: K, now: real, k: K)
    requires Distinct(items)
    ensures var after := AfterGet(items, x, now);
            && Distinct(after) && |after| <= |items|
            && (k != x ==>
                  && (k in Keys(after) <==> k in Keys(items))
                  && (k in Keys(after) ==>
                        && Find(after, k) == Find(items, k)
                        && KeysAfter(after, k) ==
                             if Lookup(items, x, now).Some? then KeysAfter(items, k) + {x} else KeysAfter(items, k) - {x}))
            && (k == x ==>
                  && (k in Keys(after) <==> Lookup(items, x, now).Some?)
                  && (k in Keys(after) ==> Find(after, k) == Find(items, k) && KeysAfter(after, k) == {}))
  {
    FindHas(items, x);
    AfterBelow(items, k);
    var found := Find(items, x);
    if found.Some? {
      Removed(items, x, k);
      if now < found.value.expires {
        Appended(Without(items, x), found.value, k);
        assert k in Keys(items) ==> KeysAfter(items, k) - {x} + {x} == KeysAfter(items, k) + {x};
      }
    }
  }

  lemma {:induction false} PutUnfolds<K, V>(h: seq<Call<K, V>>, l: Limits, k: K)
    requires h != [] && Last(h).Put?
    ensures Items(h, l) == AfterPut(Items(Before(h), l), Last(h).key, Last(h).value, Last(h).at, l)
    ensures LatestPut(h, k) == if Last(h).key == k then Some((Last(h).value, Last(h).at)) else LatestPut(Before(h), k)
    ensures Rivals(h, k, l) == if Last(h).key == k then {} else Rivals(Before(h), k, l) + {Last(h).key}
  {
  }

  lemma {:induction false} PutOwn<K(!new), V>(h: seq<Call<K, V>>, l: Limits)
    requires Sane(l) && h != [] && Last(h).Put? && Inv(Before(h), l)
    ensures Distinct(Items(h, l)) && |Items(h, l)| <= l.entries && Matches(h, l, Last(h).key)
    ensures Last(h).key in Keys(Items(h, l))
  {
    var last := Last(h);
    PutUnfolds(h, l, last.key);
    PutItems(Items(Before(h), l), Entry(last.key, last.at + l.ttl, last.value), l.entries, last.key);
  }

  lemma {:induction false} StandsOn<K, V>(items: seq<Entry<K, V>>, e: Entry<K, V>, n: nat, k: K, put: Option<(V, real)>,
                                          rivals: set<K>, ttl: real)
    requires Distinct(items) && |items| <= n && n >= 1 && k != e.key && Stands(items, k, put, rivals, ttl)
    ensures var after := Newest(Without(items, e.key) + [e], n);
            && Stands(after, k, put, rivals + {e.key}, ttl)
            && (k in Keys(after) <==> k in Keys(items) && |rivals + {e.key}| < n)
  {
    PutItems(items, e, n, k);
  }

  lemma {:induction false} PutOther<K(!new), V>(h: seq<Call<K, V>>, l: Limits, k: K)
    requires Sane(l) && h != [] && Last(h).Put? && Inv(Before(h), l) && k != Last(h).key && Matches(Before(h), l, k)
    ensures Matches(h, l, k)
    ensures k in Keys(Items(h, l)) <==> k in Keys(Items(Before(h), l)) && |Rivals(h, k, l)| < l.entries
  {
    var last := Last(h);
    PutUnfolds(h, l, k);
    StandsOn(Items(Before(h), l), Entry(last.key, last.at + l.ttl, last.value), l.entries, k, LatestPut(Before(h), k),
             Rivals(Before(h), k, l), l.ttl);
  }

  lemma {:induction false} PutStep<K(!new), V>(h: seq<Call<K, V>>, l: Limits, k: K)
    requires Sane(l) && h != [] && Last(h).Put? && Inv(Before(h), l)
    ensures Distinct(Items(h, l)) && |Items(h, l)| <= l.entries && Matches(h, l, k)
    ensures k != Last(h).key ==>
              (k in Keys(Items(h, l)) <==> k in Keys(Items(Before(h), l)) && |Rivals(h, k, l)| < l.entries)
    ensures k == Last(h).key ==> k in Keys(Items(h, l))
  {
    PutOwn(h, l);
    if k != Last(h).key { PutOther(h, l, k); }
  }

  lemma {:induction false} GotStep<K(!new), V>(h: seq<Call<K, V>>, l: Limits, k: K)
    requires Sane(l) && h != [] && Last(h).Got? && Inv(Before(h), l)
    requires Last(h).answer == Lookup(Items(Before(h), l), Last(h).key, Last(h).at)
    ensures Distinct(Items(h, l)) && |Items(h, l)| <= l.entries && Matches(h, l, k)
    ensures k != Last(h).key ==> (k in Keys(Items(h, l)) <==> k in Keys(Items(Before(h), l)))
    ensures k == Last(h).key && Last(h).answer.Some? ==> k in Keys(Items(h, l))
    ensures k == Last(h).key && Last(h).answer.None? ==>
              k !in Keys(Items(h, l)) && (k in Keys(Items(Before(h), l)) ==> Unbounded(Before(h), k, Last(h).at, l).None?)
  {
    var items, last := Items(Before(h), l), Last(h);
    assert Matches(Before(h), l, k) && Matches(Before(h), l, last.key);
    GetItems(items, last.key, last.at, k);
    FindHas(items, last.key);
    AfterBelow(items, k);
  }

  lemma {:induction false} HistoryKeeps<K(!new), V>(h: seq<Call<K, V>>, l: Limits)
    requires Sane(l) && Recorded(h, l)
    ensures Inv(h, l)
  {
    if h != [] {
      HistoryKeeps(Before(h), l);
      if Last(h).Put? { PutStep(h, l, Last(h).key); } else { GotStep(h, l, Last(h).key); }
      forall k ensures Matches(h, l, k) {
        if Last(h).Put? { PutStep(h, l, k); } else { GotStep(h, l, k); }
      }
    }
  }

  /** The cache never holds more than `max_entries`, nor two entries under one key. */
  lemma {:induction false} SizeBounded<K(!new), V>(h: seq<Call<K, V>>, l: Limits)
    requires Sane(l) && Recorded(h, l)
    ensures |Items(h, l)| <= l.entries && Distinct(Items(h, l)) && |Keys(Items(h, l))| == |Items(h, l)|
  {
    HistoryKeeps(h, l);
    KeysCount(Items(h, l));
  }

  /** Any value that a `get` would return is what the unbounded timed map holds: the latest put
      under that key, still within its time to live. */
  lemma {:induction false} ReturnsLatestPut<K(!new), V>(h: seq<Call<K, V>>, l: Limits, k: K, now: real)
    requires Sane(l) && Recorded(h, l) && Lookup(Items(h, l), k, now).Some?
    ensures Lookup(Items(h, l), k, now) == Unbounded(h, k, now, l)
  {
    HistoryKeeps(h, l);
    assert Matches(h, l, k);
    FindHas(Items(h, l), k);
  }

  lemma {:induction false} PresentUnlessCrowded<K(!new), V>(h: seq<Call<K, V>>, l: Limits, k: K, now: real)
    requires Sane(l) && Recorded(h, l) && Unbounded(h, k, now, l).Some?
    requires h != [] ==> Last(h).at <= now
    ensures k in Keys(Items(h, l)) <==> !Crowded(h, k, l)
  {
    HistoryKeeps(Before(h), l);
    var last := Last(h);
    if last.Put? { PutStep(h, l, k); } else { GotStep(h, l, k); }
    if !(last.key == k && Uses(last)) {
      PresentUnlessCrowded(Before(h), l, k, now);
      HistoryKeeps(h, l);
      assert Matches(h, l, k);
      AfterBelow(Items(h, l), k);
      KeysCount(Items(h, l));
      if k in Keys(Items(h, l)) { SubsetSize(KeysAfter(Items(h, l), k), Keys(Items(h, l)) - {k}); }
    }
  }

  /** The cache answers like the unbounded timed map exactly for the keys that were never crowded
      out since their last use. */
  lemma {:induction false} MissesExactlyCrowded<K(!new), V>(h: seq<Call<K, V>>, l: Limits, k: K, now: real)
    requires Sane(l) && Recorded(h, l) && (h != [] ==> Last(h).at <= now)
    ensures Lookup(Items(h, l), k, now) == if Crowded(h, k, l) then None else Unbounded(h, k, now, l)
  {
    HistoryKeeps(h, l);
    assert Matches(h, l, k);
    FindHas(Items(h, l), k);
    if Unbounded(h, k, now, l).Some? { PresentUnlessCrowded(h, l, k, now); }
  }

  // ---- Crowding, written out ----

  /** Where `k` was last used, counted from the end of the call; 0 when never. */
  function LastUse<K(==), V>(h: seq<Call<K, V>>, k: K): (n: nat)
    ensures n <= |h|
  {
    if h == [] then 0 else if Last(h).key == k && Uses(Last(h)) then |h| else LastUse(Before(h), k)
  }

  /** The distinct other keys used by the calls from `n` on. */
  function UsedSince<K(==), V>(h: seq<Call<K, V>>, n: nat, k: K): set<K> {
    if |h| <= n then {}
    else UsedSince(Before(h), n, k) + if Uses(Last(h)) && Last(h).key != k then {Last(h).key} else {}
  }

  lemma {:induction false} RivalsWereUsed<K, V>(h: seq<Call<K, V>>, k: K, l: Limits)
    ensures Rivals(h, k, l) <= UsedSince(h, LastUse(h, k), k)
  {
    if h != [] && !(Last(h).key == k && Uses(Last(h))) { RivalsWereUsed(Before(h), k, l); }
  }

  /** An unexpired key is missing only if at least `max_entries` distinct other keys were used since
      its own last use. */
  lemma {:induction false} MissNeedsRivals<K(!new), V>(h: seq<Call<K, V>>, l: Limits, k: K, now: real)
    requires Sane(l) && Recorded(h, l) && (h != [] ==> Last(h).at <= now)
    requires Unbounded(h, k, now, l).Some? && Lookup(Items(h, l), k, now).None?
    ensures |UsedSince(h, LastUse(h, k), k)| >= l.entries
  {
    MissesExactlyCrowded(h, l, k, now);
    CrowdedByUsers(h, l, k);
  }

  lemma {:induction false} CrowdedByUsers<K, V>(h: seq<Call<K, V>>, l: Limits, k: K)
    requires Crowded(h, k, l)
    ensures |UsedSince(h, LastUse(h, k), k)| >= l.entries
  {
    if Crowded(Before(h), k, l) {
      CrowdedByUsers(Before(h), l, k);
      SubsetSize(UsedSince(Before(h), LastUse(h, k), k), UsedSince(h, LastUse(h, k), k));
    } else {
      RivalsWereUsed(h, k, l);
      SubsetSize(Rivals(h, k, l), UsedSince(h, LastUse(h, k), k));
    }
  }
}
