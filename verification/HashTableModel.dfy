/** The chain of bucket arrays of src/clds_hash_table.c as a value, and what keeps it a finite map: each key is in at
    most one level, in the bucket of its hash, and each item count is the number of items stored in its level. */
module HashTableModel {
  type Key = int
  type Node = nat

  /** A bucket: no list yet, or a sorted list, given by the map it holds (see SortedListCalls). */
  datatype Bucket = NoList | List(items: map<Key, Node>)

  datatype Level = Level(bucketCount: nat, itemCount: int, pending: int, buckets: seq<Bucket>)

  type Hash = Key -> nat

  function Items(b: Bucket): map<Key, Node> { if b.NoList? then map[] else b.items }

  /** The number of items stored in a number of buckets. */
  function Stored(buckets: seq<Bucket>): nat { if buckets == [] then 0 else |Items(buckets[0])| + Stored(buckets[1..]) }

  /** The sum of the item counts. */
  function Total(levels: seq<Level>): int { if levels == [] then 0 else levels[0].itemCount + Total(levels[1..]) }

  predicate Shaped(level: Level) { 0 < level.bucketCount == |level.buckets| }

  function IndexOf(hash: Hash, level: Level, k: Key): nat
    requires level.bucketCount > 0
  {
    hash(k) % level.bucketCount
  }

  /** What the bucket of key k holds. */
  function AtKey(hash: Hash, level: Level, k: Key): map<Key, Node>
    requires Shaped(level)
  {
    Items(level.buckets[IndexOf(hash, level, k)])
  }

  predicate Holds(hash: Hash, level: Level, k: Key)
    requires Shaped(level)
  {
    k in AtKey(hash, level, k)
  }

  /** Every item is in the bucket of its key's hash, and the count is right. */
  ghost predicate LevelOk(hash: Hash, level: Level) {
    && Shaped(level)
    && (forall b: nat, k: Key {:trigger k in Items(level.buckets[b])} ::
       b < |level.buckets| && k in Items(level.buckets[b]) ==> b == IndexOf(hash, level, k))
    && level.itemCount == Stored(level.buckets)
  }

  /** The key's level, if it is in the table. */
  ghost predicate KeyOk(hash: Hash, levels: seq<Level>, contents: map<Key, Node>, home: map<Key, nat>, i: nat, k: Key)
    requires i < |levels| && Shaped(levels[i])
  {
    && (Holds(hash, levels[i], k) <==> k in home && home[k] == i)
    && (Holds(hash, levels[i], k) ==> k in contents && contents[k] == AtKey(hash, levels[i], k)[k])
  }

  /** The levels, the oldest first, hold the map contents; home tells the level of each key. */
  ghost predicate TableOk(hash: Hash, levels: seq<Level>, contents: map<Key, Node>, home: map<Key, nat>) {
    && levels != []
    && (forall i: nat {:trigger levels[i]} :: i < |levels| ==> Shaped(levels[i]))
    && (forall i: nat {:trigger LevelOk(hash, levels[i])} :: i < |levels| ==> LevelOk(hash, levels[i]))
    && home.Keys == contents.Keys
    && (forall k: Key :: k in home ==> home[k] < |levels|)
    && (forall i: nat, k: Key {:trigger KeyOk(hash, levels, contents, home, i, k)} :: i < |levels| ==>
       KeyOk(hash, levels, contents, home, i, k))
    && Total(levels) == |contents|
  }

  // ---------- counting ----------

  lemma {:induction false} StoredUpdate(buckets: seq<Bucket>, i: nat, b: Bucket)
    requires i < |buckets|
    ensures Stored(buckets[i := b]) + |Items(buckets[i])| == Stored(buckets) + |Items(b)|
  {
    if i == 0 {
      assert buckets[0 := b][1..] == buckets[1..];
    } else {
      assert buckets[i := b][1..] == buckets[1..][i - 1 := b] && buckets[1..][i - 1] == buckets[i];
      StoredUpdate(buckets[1..], i - 1, b);
    }
  }

  lemma {:induction false} NothingStored(buckets: seq<Bucket>)
    ensures Stored(buckets) == 0 <==> forall i :: 0 <= i < |buckets| ==> Items(buckets[i]) == map[]
  {
    if buckets != [] {
      NothingStored(buckets[1..]);
      assert forall i :: 1 <= i < |buckets| ==> buckets[i] == buckets[1..][i - 1];
      assert forall i :: 0 <= i < |buckets| - 1 ==> buckets[1..][i] == buckets[i + 1];
    }
  }

  lemma {:induction false} TotalUpdate(levels: seq<Level>, i: nat, level: Level)
    requires i < |levels|
    ensures Total(levels[i := level]) + levels[i].itemCount == Total(levels) + level.itemCount
  {
    if i == 0 {
      assert levels[0 := level][1..] == levels[1..];
    } else {
      assert levels[i := level][1..] == levels[1..][i - 1 := level] && levels[1..][i - 1] == levels[i];
      TotalUpdate(levels[1..], i - 1, level);
    }
  }

  lemma {:induction false} TotalAppend(levels: seq<Level>, level: Level)
    ensures Total(levels + [level]) == Total(levels) + level.itemCount
  {
    if levels == [] {
      assert [level][1..] == [];
    } else {
      assert (levels + [level])[1..] == levels[1..] + [level];
      TotalAppend(levels[1..], level);
    }
  }

  lemma {:induction false} CountBelowTotal(levels: seq<Level>, i: nat)
    requires i < |levels| && forall j: nat :: j < |levels| ==> levels[j].itemCount >= 0
    ensures 0 <= levels[i].itemCount <= Total(levels)
  {
    if i > 0 {
      assert forall j: nat :: j < |levels| - 1 ==> levels[1..][j] == levels[j + 1];
      CountBelowTotal(levels[1..], i - 1);
    } else if |levels| > 1 {
      assert forall j: nat :: j < |levels| - 1 ==> levels[1..][j] == levels[j + 1];
      CountBelowTotal(levels[1..], 0);
    }
  }

  /** A level whose count is zero holds no key: skipping it is sound. */
  lemma ZeroCountIsEmpty(hash: Hash, level: Level, k: Key)
    requires LevelOk(hash, level) && level.itemCount == 0
    ensures !Holds(hash, level, k)
  {
    NothingStored(level.buckets);
  }

  // ---------- one bucket changes ----------

  /** The level with b in place of the bucket of k. */
  function Rebucket(hash: Hash, level: Level, k: Key, b: Bucket): Level
    requires 0 < level.bucketCount == |level.buckets|
  {
    var i := IndexOf(hash, level, k);
    level.(buckets := level.buckets[i := b], itemCount := level.itemCount + |Items(b)| - |Items(level.buckets[i])|)
  }

  /** m' differs from m only in what it says of k. */
  ghost predicate OnlyKey<V>(m: map<Key, V>, m': map<Key, V>, k: Key) {
    forall j: Key :: j != k ==> (j in m' <==> j in m) && (j in m ==> m'[j] == m[j])
  }

  lemma MapPut<V>(m: map<Key, V>, k: Key, v: V)
    ensures OnlyKey(m, m[k := v], k) && |m[k := v]| == |m| + (if k in m then 0 else 1)
  {
    assert m[k := v].Keys == m.Keys + {k};
  }

  lemma MapDrop<V>(m: map<Key, V>, k: Key)
    requires k in m
    ensures OnlyKey(m, m - {k}, k) && |m - {k}| == |m| - 1
  {
    assert (m - {k}).Keys == m.Keys - {k};
  }

  lemma RebucketOk(hash: Hash, level: Level, k: Key, b: Bucket)
    requires LevelOk(hash, level) && OnlyKey(AtKey(hash, level, k), Items(b), k)
    ensures LevelOk(hash, Rebucket(hash, level, k, b))
  {
    StoredUpdate(level.buckets, IndexOf(hash, level, k), b);
  }

  ghost predicate SameElsewhere(hash: Hash, level: Level, level': Level, k: Key, j: Key)
    requires Shaped(level) && Shaped(level')
  {
    j != k ==>
      && Holds(hash, level', j) == Holds(hash, level, j)
      && (Holds(hash, level, j) ==> AtKey(hash, level', j)[j] == AtKey(hash, level, j)[j])
  }

  lemma RebucketElsewhere(hash: Hash, level: Level, k: Key, b: Bucket, j: Key)
    requires LevelOk(hash, level) && OnlyKey(AtKey(hash, level, k), Items(b), k)
    ensures SameElsewhere(hash, level, Rebucket(hash, level, k, b), k, j)
  {
  }

  /** Only key k of level i changes, and the map with it. */
  lemma ChangeKey(hash: Hash, levels: seq<Level>, contents: map<Key, Node>, home: map<Key, nat>, i: nat, k: Key,
          b: Bucket, contents': map<Key, Node>, home': map<Key, nat>)
    requires TableOk(hash, levels, contents, home) && i < |levels| && OnlyKey(AtKey(hash, levels[i], k), Items(b), k)
    requires OnlyKey(contents, contents', k) && OnlyKey(home, home', k) && home'.Keys == contents'.Keys
    requires (k in home ==> home[k] == i) && (k in home' ==> home'[k] == i) && (k in Items(b) <==> k in home')
    requires k in Items(b) ==> contents'[k] == Items(b)[k]
    requires |contents'| - |contents| == |Items(b)| - |AtKey(hash, levels[i], k)|
    ensures TableOk(hash, levels[i := Rebucket(hash, levels[i], k, b)], contents', home')
  {
    var level' := Rebucket(hash, levels[i], k, b);
    var levels' := levels[i := level'];
    RebucketOk(hash, levels[i], k, b);
    TotalUpdate(levels, i, level');
    forall m: nat, j: Key | m < |levels'| ensures KeyOk(hash, levels', contents', home', m, j) {
      assert KeyOk(hash, levels, contents, home, m, j);
      RebucketElsewhere(hash, levels[i], k, b, j);
    }
    forall m: nat | m < |levels'| ensures LevelOk(hash, levels'[m]) { assert LevelOk(hash, levels[m]); }
  }

  /** The levels with the given list in the bucket of k of level i, and the given count there. */
  function Relist(hash: Hash, levels: seq<Level>, i: nat, k: Key, list: map<Key, Node>, count: int): (r: seq<Level>)
    requires i < |levels| && Shaped(levels[i])
    ensures SameShape(levels, r)
  {
    levels[i := WithList(hash, levels[i], k, list, count)]
  }

  /** The same levels, with the same numbers of buckets and of inserts counted in. */
  ghost predicate SameShape(levels: seq<Level>, levels': seq<Level>) {
    |levels'| == |levels| && forall j {:trigger levels'[j]} :: 0 <= j < |levels| ==>
      levels'[j].bucketCount == levels[j].bucketCount && levels'[j].pending == levels[j].pending
  }

  /** The level with the given list in the bucket of k, and the given count. */
  function WithList(hash: Hash, level: Level, k: Key, list: map<Key, Node>, count: int): Level
    requires Shaped(level)
  {
    level.(buckets := level.buckets[IndexOf(hash, level, k) := List(list)], itemCount := count)
  }

  lemma PutKey(hash: Hash, levels: seq<Level>, contents: map<Key, Node>, home: map<Key, nat>, i: nat, k: Key, v: Node)
    requires TableOk(hash, levels, contents, home) && i < |levels| && k !in contents
    ensures var level := levels[i];
      TableOk(hash, Relist(hash, levels, i, k, AtKey(hash, level, k)[k := v], level.itemCount + 1), contents[k := v],
        home[k := i])
    ensures |contents[k := v]| == |contents| + 1
  {
    assert KeyOk(hash, levels, contents, home, i, k);
    var m := AtKey(hash, levels[i], k);
    MapPut(m, k, v);
    MapPut(contents, k, v);
    MapPut(home, k, i);
    ChangeKey(hash, levels, contents, home, i, k, List(m[k := v]), contents[k := v], home[k := i]);
  }

  lemma SwapKey(hash: Hash, levels: seq<Level>, contents: map<Key, Node>, home: map<Key, nat>, i: nat, k: Key, v: Node)
    requires TableOk(hash, levels, contents, home) && i < |levels| && Holds(hash, levels[i], k)
    ensures var level := levels[i];
      TableOk(hash, Relist(hash, levels, i, k, AtKey(hash, level, k)[k := v], level.itemCount), contents[k := v], home)
    ensures k in contents && contents[k] == AtKey(hash, levels[i], k)[k] && |contents[k := v]| == |contents|
  {
    assert KeyOk(hash, levels, contents, home, i, k);
    var m := AtKey(hash, levels[i], k);
    MapPut(m, k, v);
    MapPut(contents, k, v);
    ChangeKey(hash, levels, contents, home, i, k, List(m[k := v]), contents[k := v], home);
  }

  lemma DropKey(hash: Hash, levels: seq<Level>, contents: map<Key, Node>, home: map<Key, nat>, i: nat, k: Key)
    requires TableOk(hash, levels, contents, home) && i < |levels| && Holds(hash, levels[i], k)
    ensures var level := levels[i];
      TableOk(hash, Relist(hash, levels, i, k, AtKey(hash, level, k) - {k}, level.itemCount - 1), contents - {k},
        home - {k})
    ensures k in contents && contents[k] == AtKey(hash, levels[i], k)[k] && |contents - {k}| == |contents| - 1
  {
    assert KeyOk(hash, levels, contents, home, i, k);
    var m := AtKey(hash, levels[i], k);
    MapDrop(m, k);
    MapDrop(contents, k);
    MapDrop(home, k);
    ChangeKey(hash, levels, contents, home, i, k, List(m - {k}), contents - {k}, home - {k});
  }

  lemma NewList(hash: Hash, levels: seq<Level>, contents: map<Key, Node>, home: map<Key, nat>, i: nat, k: Key)
    requires TableOk(hash, levels, contents, home) && i < |levels|
      && levels[i].buckets[IndexOf(hash, levels[i], k)].NoList?
    ensures TableOk(hash, Relist(hash, levels, i, k, map[], levels[i].itemCount), contents, home)
  {
    assert KeyOk(hash, levels, contents, home, i, k);
    var level' := Rebucket(hash, levels[i], k, List(map[]));
    var levels' := levels[i := level'];
    RebucketOk(hash, levels[i], k, List(map[]));
    TotalUpdate(levels, i, level');
    forall m: nat, j: Key | m < |levels'| ensures KeyOk(hash, levels', contents, home, m, j) {
      assert KeyOk(hash, levels, contents, home, m, j);
    }
    forall m: nat | m < |levels'| ensures LevelOk(hash, levels'[m]) { assert LevelOk(hash, levels[m]); }
  }

  function Fresh(n: nat): Level { Level(n, 0, 0, seq(n, _ => NoList)) }

  /** A new level on top holds nothing. */
  lemma NewLevel(hash: Hash, levels: seq<Level>, contents: map<Key, Node>, home: map<Key, nat>, n: nat)
    requires TableOk(hash, levels, contents, home) && n > 0
    ensures TableOk(hash, levels + [Fresh(n)], contents, home)
  {
    TotalAppend(levels, Fresh(n));
    NothingStored(Fresh(n).buckets);
    var levels' := levels + [Fresh(n)];
    forall m: nat | m < |levels'| ensures LevelOk(hash, levels'[m]) {
      assert m < |levels| ==> LevelOk(hash, levels[m]);
    }
    forall m: nat, j: Key | m < |levels'| ensures KeyOk(hash, levels', contents, home, m, j) {
      if m < |levels| { assert KeyOk(hash, levels, contents, home, m, j); }
    }
  }

  /** The pending count of a level says nothing about the map. */
  lemma PendingIsApart(hash: Hash, levels: seq<Level>, contents: map<Key, Node>, home: map<Key, nat>, i: nat, p: int)
    requires TableOk(hash, levels, contents, home) && i < |levels|
    ensures TableOk(hash, levels[i := levels[i].(pending := p)], contents, home)
  {
    var levels' := levels[i := levels[i].(pending := p)];
    TotalUpdate(levels, i, levels'[i]);
    forall m: nat | m < |levels'| ensures LevelOk(hash, levels'[m]) { assert LevelOk(hash, levels[m]); }
    forall m: nat, j: Key | m < |levels'| ensures KeyOk(hash, levels', contents, home, m, j) {
      assert KeyOk(hash, levels, contents, home, m, j);
    }
  }

  /** No level counts more items than the whole table holds. */
  lemma CountIsLive(hash: Hash, levels: seq<Level>, contents: map<Key, Node>, home: map<Key, nat>, i: nat)
    requires TableOk(hash, levels, contents, home) && i < |levels|
    ensures 0 <= levels[i].itemCount <= |contents|
  {
    forall j: nat | j < |levels| ensures levels[j].itemCount >= 0 { assert LevelOk(hash, levels[j]); }
    CountBelowTotal(levels, i);
  }
}
