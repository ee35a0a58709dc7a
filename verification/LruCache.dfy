/** The cache of src/lru_cache.c, run one call at a time: a hash table, a recency list and a running size that agree. */
module LruCache {
  import opened LruModel
  import opened LruRecency
  import M = HashTableModel
  import T = HashTable
  import R = References

  datatype PutResult = PutOk | PutError | InvalidSize | CopyFailed
  datatype EvictResult = EvictOk | EvictNotFound

  /** An eviction of q has taken n entries, in order. */
  ghost predicate Evicting(q: seq<Entry>, n: nat, order: seq<Entry>, out: seq<Entry>, evicted: seq<Entry>,
          capacity: int)
  {
    n <= |q| && order == q[n..] && evicted == out + q[..n] && Evicted(order, capacity) == Evicted(q, capacity)
  }

  /** One more round. */
  lemma OneEvicted(q: seq<Entry>, n: nat, order: seq<Entry>, out: seq<Entry>, evicted: seq<Entry>, capacity: int)
    requires Evicting(q, n, order, out, evicted, capacity) && order != [] && Sum(order) > capacity
    ensures Evicting(q, n + 1, order[1..], out, evicted + [order[0]], capacity)
  {
    assert q[..n + 1] == q[..n] + [order[0]];
  }

  class Cache {
    const table: T.Table
    const capacity: int
    var currentSize: int
    var order: seq<Entry>       // the list, from head.Flink to head.Blink
    var nextItem: nat
    var evicted: seq<Entry>     // the calls of evict_callback

    ghost predicate Valid()
      reads this, table
    {
      && table.Valid() && 0 < capacity <= INT64_MAX
      && DistinctKeys(order) && Positive(order) && Agrees(order, table.contents)
      && currentSize == Sum(order) <= INT64_MAX
    }

    /** create with valid arguments, lines 59-146 */
    constructor (hash: M.Hash, bucketCount: nat, cap: int)
      requires bucketCount > 0 && 0 < cap <= INT64_MAX
      ensures Valid() && fresh(table) && order == [] && capacity == cap && evicted == []
    {
      table := new T.Table(hash, bucketCount);
      capacity, currentSize, order, nextItem, evicted := cap, 0, [], 0, [];
    }

    /** The locked section of put, lines 320-402. */
    method Link(key: Key, value: int, size: int, copyOk: bool, growOk: bool, listOk: bool)
      returns (r: PutResult, ghost e: Entry)
      requires Valid() && 0 < size <= capacity
      modifies this, table
      ensures Valid() && evicted == old(evicted)
      ensures e == Entry(old(nextItem), key, value, size)
      ensures size > INT64_MAX - old(currentSize) ==> r == InvalidSize
      ensures size <= INT64_MAX - old(currentSize) && !copyOk ==> r == CopyFailed
      ensures size <= INT64_MAX - old(currentSize) && copyOk ==>
        r == if listOk || old(Has(order, key) || !table.NeedsList(key, growOk)) then PutOk else PutError
      ensures if r.PutOk?
        then order == Linked(old(order), e) && order[|order| - 1] == e && RestIs(order, old(order), key)
        else order == old(order)
    {
      e := Entry(nextItem, key, value, size);
      if INT64_MAX - size < currentSize {
        return InvalidSize, e;
      }
      var item := nextItem;
      nextItem := nextItem + 1;
      if !copyOk {
        return CopyFailed, e;
      }
      ghost var contents := table.contents;
      KeysOfTable(order, contents, key);
      var set_ := table.SetValue(key, item, T.CheckOk, growOk, listOk);
      if !set_.SetOk? {
        return PutError, e;
      }
      AgreesLinked(order, contents, e);
      PutIsNewest(order, e);
      Append(contents, Entry(item, key, value, size), set_.was);
      return PutOk, e;
    }

    /** The list and the running size after the table took the new item, lines 371-397. */
    method Append(ghost contents: map<Key, nat>, e: Entry, was: T.Option<nat>)
      requires 0 < capacity <= INT64_MAX && DistinctKeys(order) && Positive(order) && Agrees(order, contents)
        && currentSize == Sum(order)
      requires currentSize + e.size <= INT64_MAX && e.size > 0
      requires was == if e.key in contents then T.Some(contents[e.key]) else T.None
      modifies `order, `currentSize
      ensures DistinctKeys(order) && Positive(order) && currentSize == Sum(order) <= INT64_MAX
        && order == Linked(old(order), e)
    {
      AgreesLinked(order, contents, e);
      LinkedIsPositive(order, e);
      LinkedSum(order, e);
      OldItemIsListed(order, contents, e.key);
      SizeOfIsPositive(order, e.key);
      if was.Some? {
        // the item that the table gives back is in the list
        var entry := order[Find(order, e.key)];
        assert entry.item == was.value;
        currentSize := currentSize - entry.size + e.size;
        order := Without(order, e.key);
      } else {
        currentSize := currentSize + e.size;
      }
      order := order + [e];
    }

    /** One round of evict_internal above the capacity, lines 172-260. The branches for an empty list, a negative size
        and an item that is not in the table are not taken: there is an entry, no bigger than the sum, and the table
        has it. */
    method EvictRound()
      requires Valid() && currentSize > capacity
      modifies this, table
      ensures Valid() && old(order) != [] && order == old(order)[1..] && evicted == old(evicted) + [old(order)[0]]
    {
      SumIsNat(order);
      assert order != [] && currentSize - order[0].size >= 0;
      var least := order[0];
      FirstIsFound(order);
      WithoutSum(order, least.key);
      AgreesWithout(order, table.contents, least.key);
      assert least in order;
      currentSize := currentSize - least.size;
      var removed := table.Remove(least.key);
      assert removed == T.RemoveOk(least.item);
      order, evicted := order[1..], evicted + [least];
    }

    /** evict_internal, lines 165-264 */
    method EvictInternal()
      requires Valid()
      modifies this, table
      ensures Valid() && order == Evicted(old(order), capacity) && |order| <= |old(order)|
      ensures evicted == old(evicted) + old(order)[..|old(order)| - |order|]
    {
      ghost var q, out, n := order, evicted, 0;
      while currentSize > capacity
        invariant Valid() && Evicting(q, n, order, out, evicted, capacity)
        decreases |order|
      {
        ghost var before, gone := order, evicted;
        EvictRound();
        OneEvicted(q, n, before, out, gone, capacity);
        n := n + 1;
      }
    }

    /** put, lines 277-419 */
    method Put(key: Key, value: int, size: int, copyOk: bool, growOk: bool, listOk: bool)
      returns (r: PutResult, ghost e: Entry)
      requires Valid()
      modifies this, table
      ensures Valid()
      ensures size <= 0 ==> r == PutError
      ensures size > 0 && (size > capacity || size > INT64_MAX - old(currentSize)) ==> r == InvalidSize
      ensures 0 < size <= capacity && size <= INT64_MAX - old(currentSize) ==>
        r == if !copyOk then CopyFailed
             else if listOk || old(Has(order, key) || !table.NeedsList(key, growOk)) then PutOk
             else PutError
      ensures !r.PutOk? ==> order == old(order) && evicted == old(evicted)
      ensures r.PutOk? ==>
        e == Entry(old(nextItem), key, value, size) && order == Evicted(Linked(old(order), e), capacity)
      ensures r.PutOk? ==> var q := Linked(old(order), e);
        |order| <= |q| && evicted == old(evicted) + q[..|q| - |order|]
    {
      e := Entry(nextItem, key, value, size);
      if size <= 0 {
        return PutError, e;
      }
      if size > capacity {
        return InvalidSize, e;
      }
      r, e := Link(key, value, size, copyOk, growOk, listOk);
      if r.PutOk? {
        EvictInternal();
      }
    }

    /** The move of an entry to the tail, lines 457-464. */
    method MoveToTail(key: Key, ghost contents: map<Key, nat>)
      requires DistinctKeys(order) && Positive(order) && Agrees(order, contents) && Has(order, key)
      modifies `order
      ensures DistinctKeys(order) && Positive(order) && Agrees(order, contents) && Sum(order) == old(Sum(order))
      ensures order == Touched(old(order), key) && order != [] && order[|order| - 1] == old(order[Find(order, key)])
        && RestIs(order, old(order), key)
    {
      HasIsIn(order, key);
      TouchedSum(order, key);
      GetIsNewest(order, key);
      AgreesTouched(order, contents, key);
      var entry := order[Find(order, key)];
      if order[|order| - 1] != entry {
        order := Without(order, key) + [entry];
      } else {
        LastIsTouched(order, key);
      }
    }

    /** get, lines 422-475. The reference that the table's find takes is given back. */
    method Get(key: Key, refs: R.Counts) returns (r: T.Option<int>, refs': R.Counts)
      requires Valid()
      modifies `order
      ensures forall n: R.Node :: refs'(n) == refs(n)
      ensures Valid() && order == Touched(old(order), key)
      ensures !Has(old(order), key) ==> r == T.None && order == old(order)
      ensures Has(old(order), key) ==>
        && order != [] && order[|order| - 1] in old(order) && order[|order| - 1].key == key
        && r == T.Some(order[|order| - 1].value) && RestIs(order, old(order), key)
    {
      var found, taken := table.Find(key, refs);
      if found.None? {
        KeysOfTable(order, table.contents, key);
        return T.None, taken;
      }
      KeysOfTable(order, table.contents, key);
      HasIsIn(order, key);
      var entry := order[Find(order, key)];
      assert entry.item == found.value;
      MoveToTail(key, table.contents);
      R.ReleaseUndoes(refs, [found.value], taken);
      return T.Some(entry.value), R.Release(taken, [found.value]);
    }

    /** evict, lines 477-555 */
    method Evict(key: Key) returns (r: EvictResult)
      requires Valid()
      modifies this, table
      ensures Valid() && evicted == old(evicted)
      ensures order == Without(old(order), key) && !Has(order, key) && RestIs(order, old(order), key)
      ensures r == if Has(old(order), key) then EvictOk else EvictNotFound
    {
      KeysOfTable(order, table.contents, key);
      AgreesWithout(order, table.contents, key);
      WithoutKeepsOrder(order, key);
      WithoutSum(order, key);
      SizeOfIsPositive(order, key);
      WithoutIsPositive(order, key);
      var removed := table.Remove(key);
      if removed.RemoveNotFound? {
        return EvictNotFound;
      }
      var entry := order[Find(order, key)];
      currentSize := currentSize - entry.size;
      order := Without(order, key);
      r := EvictOk;
    }
  }

  lemma OldItemIsListed(q: seq<Entry>, contents: map<Key, nat>, k: Key)
    requires Agrees(q, contents)
    ensures Has(q, k) <==> k in contents
    ensures k in contents ==> q[Find(q, k)].item == contents[k]
  {
    KeysOfTable(q, contents, k);
    if Has(q, k) { HasIsIn(q, k); }
  }

  /** The entry at the tail is already the most recent. */
  lemma LastIsTouched(q: seq<Entry>, k: Key)
    requires DistinctKeys(q) && Has(q, k) && q[|q| - 1] == q[Find(q, k)]
    ensures Touched(q, k) == q
  {
    assert Find(q, k) == |q| - 1;
    assert q == q[..|q| - 1] + [q[|q| - 1]];
  }

  /** A successful put that runs alone evicts exactly the shortest least recent prefix, keeps its own entry and ends
      within the capacity. */
  lemma PutEvictsShortest(q: seq<Entry>, e: Entry, capacity: int) returns (m: nat)
    requires 0 < e.size <= capacity
    ensures var p := Linked(q, e);
      m < |p| && Evicted(p, capacity) == p[m..] && Sum(p[m..]) <= capacity && p[|p| - 1] == e
    ensures forall j :: 0 <= j < m ==> Sum(Linked(q, e)[j..]) > capacity
  {
    var p := Linked(q, e);
    m := EvictionIsShortest(p, capacity);
    NewestStays(Without(q, e.key), e, capacity);
  }
}
