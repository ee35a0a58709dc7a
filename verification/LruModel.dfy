/** The recency order of src/lru_cache.c as a value, the least recently used entry first; and, over it, any number of
    threads that put, get and evict, one exclusive lock section at a time. */
module LruModel {
  import opened Memory

  type Key = int

  const INT64_MAX: int := 0x7FFF_FFFF_FFFF_FFFF

  /** A node of the cache: its hash table item, and the fields of LRU_NODE. */
  datatype Entry = Entry(item: nat, key: Key, value: int, size: int)

  function Sum(q: seq<Entry>): int { if q == [] then 0 else q[0].size + Sum(q[1..]) }

  predicate Has(q: seq<Entry>, k: Key) { exists i :: 0 <= i < |q| && q[i].key == k }

  ghost predicate DistinctKeys(q: seq<Entry>) { forall i, j :: 0 <= i < j < |q| ==> q[i].key != q[j].key }

  ghost predicate Positive(q: seq<Entry>) { forall i :: 0 <= i < |q| ==> q[i].size > 0 }

  /** Where the entry of k is. */
  function Find(q: seq<Entry>, k: Key): (i: nat)
    requires Has(q, k)
    ensures i < |q| && q[i].key == k
  {
    if q[0].key == k then 0 else 1 + Find(q[1..], k)
  }

  /** DList_RemoveEntryList of the entry of k. */
  function Without(q: seq<Entry>, k: Key): seq<Entry> {
    if Has(q, k) then q[..Find(q, k)] + q[Find(q, k) + 1..] else q
  }

  function SizeOf(q: seq<Entry>, k: Key): int { if Has(q, k) then q[Find(q, k)].size else 0 }

  /** A put of e: the old entry of its key, if there is one, goes, and e is the most recent. */
  function Linked(q: seq<Entry>, e: Entry): seq<Entry> { Without(q, e.key) + [e] }

  /** A get of k makes its entry the most recent. */
  function Touched(q: seq<Entry>, k: Key): seq<Entry> { if Has(q, k) then Without(q, k) + [q[Find(q, k)]] else q }

  /** What an eviction run alone leaves. */
  function Evicted(q: seq<Entry>, capacity: int): seq<Entry> {
    if q == [] || Sum(q) <= capacity then q else Evicted(q[1..], capacity)
  }

  // ---------- sums ----------

  lemma {:induction false} SumConcat(p: seq<Entry>, q: seq<Entry>)
    ensures Sum(p + q) == Sum(p) + Sum(q)
  {
    if p == [] {
      assert p + q == q;
    } else {
      assert (p + q)[1..] == p[1..] + q;
      SumConcat(p[1..], q);
    }
  }

  lemma {:induction false} SumIsNat(q: seq<Entry>)
    requires Positive(q)
    ensures Sum(q) >= 0 && (q != [] ==> Sum(q) >= q[0].size)
  {
    if q != [] { SumIsNat(q[1..]); }
  }

  lemma WithoutSum(q: seq<Entry>, k: Key)
    ensures Sum(Without(q, k)) == Sum(q) - SizeOf(q, k)
  {
    if Has(q, k) {
      var i := Find(q, k);
      SumConcat(q[..i], q[i + 1..]);
      SumConcat(q[..i], q[i..]);
      assert q == q[..i] + q[i..];
    }
  }

  lemma LinkedSum(q: seq<Entry>, e: Entry)
    ensures Sum(Linked(q, e)) == Sum(q) - SizeOf(q, e.key) + e.size
  {
    WithoutSum(q, e.key);
    SumConcat(Without(q, e.key), [e]);
  }

  lemma TouchedSum(q: seq<Entry>, k: Key)
    ensures Sum(Touched(q, k)) == Sum(q)
  {
    if Has(q, k) {
      WithoutSum(q, k);
      SumConcat(Without(q, k), [q[Find(q, k)]]);
    }
  }

  lemma CutOne(q: seq<Entry>, i: nat)
    requires i < |q| && DistinctKeys(q)
    ensures var w := q[..i] + q[i + 1..]; DistinctKeys(w) && forall e: Entry :: e in w <==> e in q && e.key != q[i].key
  {
    var w := q[..i] + q[i + 1..];
    forall j, k | 0 <= j < k < |w| ensures w[j].key != w[k].key {
      assert w[j] == q[if j < i then j else j + 1] && w[k] == q[if k < i then k else k + 1];
    }
    assert q == q[..i] + [q[i]] + q[i + 1..];
    forall e: Entry | e in w ensures e.key != q[i].key {
      var j :| 0 <= j < |w| && w[j] == e;
      assert e == q[if j < i then j else j + 1];
    }
  }

  /** Taking an entry out leaves the others, and the key is gone. */
  lemma WithoutKeys(q: seq<Entry>, k: Key)
    requires DistinctKeys(q)
    ensures DistinctKeys(Without(q, k)) && forall e: Entry :: e in Without(q, k) <==> e in q && e.key != k
  {
    if Has(q, k) {
      CutOne(q, Find(q, k));
    } else {
      forall e: Entry | e in q ensures e.key != k { var j :| 0 <= j < |q| && q[j] == e; assert q[j].key == e.key; }
    }
  }

  // ---------- eviction ----------

  /** Eviction takes the shortest least recent prefix that brings the sum within the capacity. */
  lemma {:induction false} EvictionIsShortest(q: seq<Entry>, capacity: int) returns (m: nat)
    requires capacity >= 0
    ensures m <= |q| && Evicted(q, capacity) == q[m..] && Sum(q[m..]) <= capacity
    ensures forall j :: 0 <= j < m ==> Sum(q[j..]) > capacity
  {
    assert q[0..] == q;
    if q == [] || Sum(q) <= capacity {
      m := 0;
    } else {
      var n := EvictionIsShortest(q[1..], capacity);
      m := n + 1;
      assert q[m..] == q[1..][n..];
      forall j | 0 <= j < m ensures Sum(q[j..]) > capacity {
        if j > 0 { assert q[j..] == q[1..][j - 1..]; }
      }
    }
  }

  /** The most recent entry stays, if it fits at all. */
  lemma {:induction false} NewestStays(q: seq<Entry>, e: Entry, capacity: int)
    requires e.size <= capacity && capacity >= 0
    ensures Evicted(q + [e], capacity) != [] && Evicted(q + [e], capacity)[|Evicted(q + [e], capacity)| - 1] == e
  {
    if q == [] {
      assert q + [e] == [e] && Sum([e]) == e.size;
    } else {
      assert (q + [e])[1..] == q[1..] + [e];
      NewestStays(q[1..], e, capacity);
    }
  }

  // ---------- the table ----------

  /** The table has exactly the keys of the list, each with the item of its entry. */
  ghost predicate Agrees(q: seq<Entry>, contents: map<Key, nat>) {
    && (forall e: Entry :: e in q ==> e.key in contents && contents[e.key] == e.item)
    && (forall k: Key :: k in contents ==> Has(q, k))
  }

  lemma HasIsIn(q: seq<Entry>, k: Key)
    requires Has(q, k)
    ensures q[Find(q, k)] in q && q[Find(q, k)].key == k
  {
  }

  lemma InHas(q: seq<Entry>, e: Entry)
    requires e in q
    ensures Has(q, e.key)
  {
    var i :| 0 <= i < |q| && q[i] == e;
    assert q[i].key == e.key;
  }

  lemma AgreesWithout(q: seq<Entry>, contents: map<Key, nat>, k: Key)
    requires DistinctKeys(q) && Agrees(q, contents)
    ensures Agrees(Without(q, k), contents - {k}) && DistinctKeys(Without(q, k))
  {
    WithoutKeys(q, k);
    forall j: Key | j in contents - {k} ensures Has(Without(q, k), j) {
      HasIsIn(q, j);
      InHas(Without(q, k), q[Find(q, j)]);
    }
  }

  lemma AgreesLinked(q: seq<Entry>, contents: map<Key, nat>, e: Entry)
    requires DistinctKeys(q) && Agrees(q, contents)
    ensures Agrees(Linked(q, e), contents[e.key := e.item]) && DistinctKeys(Linked(q, e))
  {
    AgreesWithout(q, contents, e.key);
    WithoutKeys(q, e.key);
    var w := Without(q, e.key);
    forall i | 0 <= i < |w| ensures w[i].key != e.key { assert w[i] in w; }
    forall j: Key | j in contents[e.key := e.item] ensures Has(w + [e], j) {
      if j == e.key { InHas(w + [e], e); } else {
        assert j in contents - {e.key};
        HasIsIn(w, j);
        InHas(w + [e], w[Find(w, j)]);
      }
    }
    forall x: Entry | x in w + [e]
      ensures x.key in contents[e.key := e.item] && contents[e.key := e.item][x.key] == x.item {
      assert x in w || x == e;
    }
  }

  lemma KeysOfTable(q: seq<Entry>, contents: map<Key, nat>, k: Key)
    requires Agrees(q, contents)
    ensures Has(q, k) <==> k in contents
  {
    if Has(q, k) { HasIsIn(q, k); }
  }

  /** The first entry is the one that its key finds. */
  lemma FirstIsFound(q: seq<Entry>)
    requires q != []
    ensures Has(q, q[0].key) && Find(q, q[0].key) == 0 && Without(q, q[0].key) == q[1..]
  {
    assert q[0].key == q[0].key && Has(q, q[0].key);
    assert q[..0] + q[1..] == q[1..];
  }

  lemma WithoutIsPositive(q: seq<Entry>, k: Key)
    requires Positive(q) && DistinctKeys(q)
    ensures Positive(Without(q, k))
  {
    WithoutKeys(q, k);
    var w := Without(q, k);
    forall i | 0 <= i < |w| ensures w[i].size > 0 { assert w[i] in w && w[i] in q; }
  }

  lemma LinkedIsPositive(q: seq<Entry>, e: Entry)
    requires Positive(q) && DistinctKeys(q) && e.size > 0
    ensures Positive(Linked(q, e)) && Positive(Without(q, e.key))
  {
    WithoutKeys(q, e.key);
    var w := Without(q, e.key);
    forall i | 0 <= i < |w| ensures w[i].size > 0 { assert w[i] in w && w[i] in q; }
  }

  lemma AgreesTouched(q: seq<Entry>, contents: map<Key, nat>, k: Key)
    requires DistinctKeys(q) && Positive(q) && Agrees(q, contents) && Has(q, k)
    ensures Agrees(Touched(q, k), contents) && DistinctKeys(Touched(q, k)) && Positive(Touched(q, k))
  {
    var e := q[Find(q, k)];
    HasIsIn(q, k);
    AgreesLinked(q, contents, e);
    LinkedIsPositive(q, e);
    assert contents[e.key := e.item] == contents;
  }

  // ---------- any number of threads ----------

  /** A put that has linked its entry and not yet ended its eviction. */
  datatype Flight = Flight(who: Tid, size: int)

  /** table is the hash table, errors the number of evictions that ended in an error. */
  datatype State = State(capacity: int, order: seq<Entry>, table: map<Key, nat>, currentSize: int, flying: seq<Flight>,
    errors: nat)

  datatype Action =
    | Put(t: Tid, e: Entry, stored: bool)   // stored: there is memory for the copy and for the table
    | Get(k: Key)
    | Evict(k: Key)
    | EvictRound(i: nat)                    // one round of the loop of evict_internal, by the put flying[i]

  function Sizes(f: seq<Flight>): int { if f == [] then 0 else f[0].size + Sizes(f[1..]) }

  /** The table and the list take e; the table tells whether the key had an item, which then leaves the list. */
  function Store(s: State, t: Tid, e: Entry): State {
    s.(table := s.table[e.key := e.item], flying := s.flying + [Flight(t, e.size)],
       order := (if e.key in s.table then Without(s.order, e.key) else s.order) + [e],
       currentSize := s.currentSize + e.size - if e.key in s.table then SizeOf(s.order, e.key) else 0)
  }

  /** One round above the capacity: an empty list or a size below zero is an error, and an entry whose key is not in the
      table is tried again. */
  function Round(s: State, i: nat): State
    requires i < |s.flying|
  {
    var rest := s.flying[..i] + s.flying[i + 1..];
    if s.currentSize <= s.capacity then s.(flying := rest)
    else if s.order == [] || s.currentSize - s.order[0].size < 0 then s.(flying := rest, errors := s.errors + 1)
    else if s.order[0].key !in s.table then s
    else s.(order := s.order[1..], table := s.table - {s.order[0].key}, currentSize := s.currentSize - s.order[0].size)
  }

  function Do(s: State, a: Action): State {
    match a
    case Put(t, e, stored) => if INT64_MAX - e.size < s.currentSize || !stored then s else Store(s, t, e)
    case Get(k) => if k in s.table then s.(order := Touched(s.order, k)) else s
    case Evict(k) =>
      if k !in s.table then s
      else s.(order := Without(s.order, k), table := s.table - {k}, currentSize := s.currentSize - SizeOf(s.order, k))
    case EvictRound(i) => if i < |s.flying| then Round(s, i) else s
  }

  /** A put whose size is not positive, or more than the capacity, is refused before it takes the lock. */
  predicate Allowed(s: State, a: Action) {
    match a
    case Put(t, e, _) => 0 < e.size <= s.capacity
    case EvictRound(i) => i < |s.flying|
    case _ => true
  }

  ghost predicate Init(s: State) {
    0 < s.capacity <= INT64_MAX && s.order == [] && s.table == map[] && s.currentSize == 0 && s.flying == []
      && s.errors == 0
  }

  ghost predicate Inv(s: State) {
    && 0 < s.capacity <= INT64_MAX && Positive(s.order) && DistinctKeys(s.order) && Agrees(s.order, s.table)
    && s.currentSize == Sum(s.order) <= INT64_MAX
    && (forall i :: 0 <= i < |s.flying| ==> s.flying[i].size > 0)
    && s.currentSize <= s.capacity + Sizes(s.flying)
    && s.errors == 0
  }

  lemma {:induction false} SizesAppend(f: seq<Flight>, x: Flight)
    ensures Sizes(f + [x]) == Sizes(f) + x.size
  {
    if f == [] {
      assert [x][1..] == [];
    } else {
      assert (f + [x])[1..] == f[1..] + [x];
      SizesAppend(f[1..], x);
    }
  }

  lemma {:induction false} SizesAreNat(f: seq<Flight>)
    requires forall i :: 0 <= i < |f| ==> f[i].size > 0
    ensures Sizes(f) >= 0
  {
    if f != [] { SizesAreNat(f[1..]); }
  }

  lemma SizeOfIsPositive(q: seq<Entry>, k: Key)
    requires Positive(q)
    ensures SizeOf(q, k) >= 0
  {
  }

  lemma PutKeeps(s: State, t: Tid, e: Entry, stored: bool)
    requires Inv(s) && 0 < e.size <= s.capacity
    ensures Inv(Do(s, Put(t, e, stored)))
  {
    KeysOfTable(s.order, s.table, e.key);
    LinkedSum(s.order, e);
    AgreesLinked(s.order, s.table, e);
    LinkedIsPositive(s.order, e);
    SizeOfIsPositive(s.order, e.key);
    SizesAppend(s.flying, Flight(t, e.size));
  }

  lemma GetKeeps(s: State, k: Key)
    requires Inv(s)
    ensures Inv(Do(s, Get(k)))
  {
    KeysOfTable(s.order, s.table, k);
    TouchedSum(s.order, k);
    if Has(s.order, k) { AgreesTouched(s.order, s.table, k); }
  }

  lemma EvictKeeps(s: State, k: Key)
    requires Inv(s)
    ensures Inv(Do(s, Evict(k)))
  {
    WithoutSum(s.order, k);
    AgreesWithout(s.order, s.table, k);
    WithoutIsPositive(s.order, k);
    SizeOfIsPositive(s.order, k);
  }

  /** A round of eviction ends the put only when the sum is within the capacity; otherwise there is an entry to evict,
      and the table has it: the branches for an empty list, a negative size and a key that is not found are not
      taken. */
  lemma RoundKeeps(s: State, i: nat)
    requires Inv(s) && i < |s.flying|
    ensures Inv(Do(s, EvictRound(i)))
    ensures s.currentSize > s.capacity ==>
      && s.order != [] && s.currentSize - s.order[0].size >= 0 && s.order[0].key in s.table
      && |Do(s, EvictRound(i)).order| == |s.order| - 1
  {
    SizesAreNat(s.flying[..i] + s.flying[i + 1..]);
    SumIsNat(s.order);
    if s.order != [] {
      FirstIsFound(s.order);
      AgreesWithout(s.order, s.table, s.order[0].key);
      assert s.order[0] in s.order;
    }
  }

  function After(s: State, actions: seq<Action>): State {
    if actions == [] then s else Do(After(s, actions[..|actions| - 1]), actions[|actions| - 1])
  }

  ghost predicate AllAllowed(s: State, actions: seq<Action>) {
    forall k :: 0 <= k < |actions| ==> Allowed(After(s, actions[..k]), actions[k])
  }

  lemma {:induction false} RunKeepsInv(s: State, actions: seq<Action>)
    requires Init(s) && AllAllowed(s, actions)
    ensures Inv(After(s, actions))
  {
    if actions != [] {
      var n := |actions| - 1;
      assert forall k :: 0 <= k < n ==> actions[..n][..k] == actions[..k];
      RunKeepsInv(s, actions[..n]);
      var s1 := After(s, actions[..n]);
      assert Allowed(After(s, actions[..n]), actions[n]);
      match actions[n]
      case Put(t, e, stored) => PutKeeps(s1, t, e, stored);
      case Get(k) => GetKeeps(s1, k);
      case Evict(k) => EvictKeeps(s1, k);
      case EvictRound(i) => RoundKeeps(s1, i);
    }
  }

  /** For any number of concurrent puts, gets and evictions, the running size is the sum of the stored sizes, fits in
      64 bits, and is at most the capacity and the sizes of the puts that have linked and not ended their eviction;
      the table and the list have the same keys and items, and no eviction ends in an error. */
  lemma SizeIsBounded(s: State, actions: seq<Action>)
    requires Init(s) && AllAllowed(s, actions)
    ensures var s' := After(s, actions);
      && s'.currentSize == Sum(s'.order) && 0 <= s'.currentSize <= INT64_MAX
      && s'.currentSize <= s'.capacity + Sizes(s'.flying) && (s'.flying == [] ==> s'.currentSize <= s'.capacity)
      && Agrees(s'.order, s'.table) && s'.errors == 0
  {
    RunKeepsInv(s, actions);
    SumIsNat(After(s, actions).order);
  }
}
