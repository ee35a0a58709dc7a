/** The single-threaded hash set of src/clds_st_hash_set.c, which a reclaim cycle collects hazard pointers into. */
module StHashSet {
  type Key = nat

  /** The pointer NULL, which is no key. */
  const NULL := 0

  /** The items of a bucket, the newest first. */
  datatype Chain = Nil | Item(key: Key, next: Chain)

  datatype InsertResult = InsertOk | InsertError
  datatype FindResult = FindOk | FindError | NotFound

  function Keys(c: Chain): set<Key> { if c.Nil? then {} else {c.key} + Keys(c.next) }

  class HashSet {
    const hash: Key -> nat
    const buckets: array<Chain>
    ghost var Contents: set<Key>

    /** A key is in the set if and only if it is in the bucket of its hash, and NULL is no key. */
    ghost predicate Valid()
      reads this, buckets
    {
      && 0 < buckets.Length
      && NULL !in Contents
      && forall i: nat, k: Key :: i < buckets.Length ==> InPlace(i, k)
    }

    ghost predicate InPlace(i: nat, k: Key)
      requires i < buckets.Length
      reads this, buckets
    {
      k in Keys(buckets[i]) <==> k in Contents && hash(k) % buckets.Length == i
    }

    /** create with a bucket count that is not 0, lines 30-91 */
    constructor (computeHash: Key -> nat, bucketCount: nat)
      requires bucketCount > 0
      ensures Valid() && fresh(buckets) && Contents == {}
    {
      hash := computeHash;
      buckets := new Chain[bucketCount](i => Nil);
      Contents := {};
    }

    /** insert, lines 122-163. It does not look for the key first, so a key may be in its bucket more than once. */
    method Insert(key: Key, memoryOk: bool) returns (r: InsertResult)
      requires Valid()
      modifies `Contents, buckets
      ensures Valid()
      ensures r.InsertOk? <==> key != NULL && memoryOk
      ensures Contents == if r.InsertOk? then old(Contents) + {key} else old(Contents)
    {
      if key == NULL || !memoryOk {
        return InsertError;
      }
      var i := hash(key) % buckets.Length;
      assert forall j: nat, k: Key :: j < buckets.Length ==> InPlace(j, k);
      label Before:
      buckets[i] := Item(key, buckets[i]);
      Contents := Contents + {key};
      forall j: nat, k: Key | j < buckets.Length ensures InPlace(j, k) { assert old@Before(InPlace(j, k)); }
      return InsertOk;
    }

    /** find, lines 165-206 */
    method Find(key: Key) returns (r: FindResult)
      requires Valid()
      ensures r == if key == NULL then FindError else if key in Contents then FindOk else NotFound
    {
      if key == NULL {
        return FindError;
      }
      assert InPlace(hash(key) % buckets.Length, key);
      var item := buckets[hash(key) % buckets.Length];
      while item.Item? && item.key != key
        invariant key in Keys(item) <==> key in Contents
        decreases item
      {
        item := item.next;
      }
      return if item.Nil? then NotFound else FindOk;
    }
  }
}
