/** clds_hash_table_snapshot (src/clds_hash_table.c:1125-1249), which runs while the table is locked for writes, among
    find calls of other threads: its walks over the lists of the buckets are those of LockedList. */
module HashTableSnapshot {
  import opened Memory
  import opened References
  import M = HashTableModel
  import T = HashTable
  import L = SortedList
  import LL = LockedList

  type Key = M.Key

  datatype SnapshotResult = SnapshotOk | SnapshotError | Abandoned

  ghost predicate Distinct(q: seq<Key>) { forall i, j :: 0 <= i < j < |q| ==> q[i] != q[j] }

  // ---------- which keys a walk has met ----------

  /** A walk from the top level down that stands at bucket b of level l is past key k. */
  ghost predicate Past(hash: M.Hash, levels: seq<M.Level>, home: map<Key, nat>, l: int, b: nat, k: Key)
    requires k in home && home[k] < |levels| && levels[home[k]].bucketCount > 0
  {
    home[k] > l || (home[k] == l && M.IndexOf(hash, levels[home[k]], k) < b)
  }

  /** keys are the keys that the walk is past, each once. */
  ghost predicate Met(hash: M.Hash, levels: seq<M.Level>, contents: map<Key, Node>, home: map<Key, nat>, l: int,
          b: nat, keys: seq<Key>)
    requires M.TableOk(hash, levels, contents, home)
  {
    Distinct(keys) && forall k: Key :: k in keys <==> k in home && Past(hash, levels, home, l, b, k)
  }

  /** The number of items that the walk has yet to meet. */
  ghost function Left(levels: seq<M.Level>, l: nat, b: nat): int
    requires l < |levels| && b <= |levels[l].buckets|
  {
    M.Stored(levels[l].buckets[b..]) + M.Total(levels[..l])
  }

  lemma DistinctSum(p: seq<Key>, q: seq<Key>)
    requires Distinct(p) && Distinct(q) && forall k: Key :: !(k in p && k in q)
    ensures Distinct(p + q)
  {
    forall i, j | 0 <= i < j < |p + q| ensures (p + q)[i] != (p + q)[j] {
      assert i < |p| ==> p[i] in p;
      assert j >= |p| ==> q[j - |p|] in q;
    }
  }

  /** The items of a bucket are those whose keys have it as their place. */
  lemma PlaceIsExact(hash: M.Hash, levels: seq<M.Level>, contents: map<Key, Node>, home: map<Key, nat>, l: nat, b: nat,
          k: Key)
    requires M.TableOk(hash, levels, contents, home) && l < |levels| && b < levels[l].bucketCount
    ensures k in M.Items(levels[l].buckets[b]) <==> k in home && home[k] == l && M.IndexOf(hash, levels[l], k) == b
    ensures k in M.Items(levels[l].buckets[b]) ==> contents[k] == M.Items(levels[l].buckets[b])[k]
  {
    assert M.LevelOk(hash, levels[l]) && M.KeyOk(hash, levels, contents, home, l, k);
  }

  lemma BucketStep(hash: M.Hash, levels: seq<M.Level>, contents: map<Key, Node>, home: map<Key, nat>, l: nat, b: nat,
          keys: seq<Key>, more: seq<Key>)
    requires M.TableOk(hash, levels, contents, home) && l < |levels| && b < levels[l].bucketCount
      && Met(hash, levels, contents, home, l, b, keys)
    requires Distinct(more) && forall k: Key :: k in more <==> k in M.Items(levels[l].buckets[b])
    ensures Met(hash, levels, contents, home, l, b + 1, keys + more)
    ensures Left(levels, l, b) == |M.Items(levels[l].buckets[b])| + Left(levels, l, b + 1)
  {
    forall k: Key ensures k in keys + more <==> k in home && Past(hash, levels, home, l, b + 1, k) {
      PlaceIsExact(hash, levels, contents, home, l, b, k);
    }
    forall k: Key ensures !(k in keys && k in more) { PlaceIsExact(hash, levels, contents, home, l, b, k); }
    DistinctSum(keys, more);
    assert levels[l].buckets[b..][1..] == levels[l].buckets[b + 1..];
  }

  /** From the end of a level to the start of the next. */
  lemma LevelStep(hash: M.Hash, levels: seq<M.Level>, contents: map<Key, Node>, home: map<Key, nat>, l: nat,
          keys: seq<Key>)
    requires M.TableOk(hash, levels, contents, home) && l < |levels|
      && Met(hash, levels, contents, home, l, levels[l].bucketCount, keys)
    ensures Met(hash, levels, contents, home, l - 1, 0, keys)
    ensures Left(levels, l, levels[l].bucketCount) == M.Total(levels[..l])
  {
    forall k: Key ensures k in keys <==> k in home && Past(hash, levels, home, l - 1, 0, k) {
      assert k in keys <==> k in home && Past(hash, levels, home, l, levels[l].bucketCount, k);
    }
  }

  /** A level that counts no items is passed at once. */
  lemma EmptyLevel(hash: M.Hash, levels: seq<M.Level>, contents: map<Key, Node>, home: map<Key, nat>, l: nat,
          keys: seq<Key>)
    requires M.TableOk(hash, levels, contents, home) && l < |levels| && levels[l].itemCount == 0
      && Met(hash, levels, contents, home, l, 0, keys)
    ensures Met(hash, levels, contents, home, l - 1, 0, keys)
  {
    assert M.LevelOk(hash, levels[l]);
    forall k: Key ensures k in keys <==> k in home && Past(hash, levels, home, l - 1, 0, k) {
      assert M.KeyOk(hash, levels, contents, home, l, k);
      M.ZeroCountIsEmpty(hash, levels[l], k);
    }
  }

  lemma StartOfLevel(hash: M.Hash, levels: seq<M.Level>, contents: map<Key, Node>, home: map<Key, nat>, l: nat)
    requires M.TableOk(hash, levels, contents, home) && l < |levels|
    ensures Left(levels, l, 0) == levels[l].itemCount + M.Total(levels[..l]) == M.Total(levels[..l + 1])
  {
    assert M.LevelOk(hash, levels[l]) && levels[l].buckets[0..] == levels[l].buckets;
    assert levels[..l + 1] == levels[..l] + [levels[l]];
    M.TotalAppend(levels[..l], levels[l]);
  }

  lemma {:induction false} TotalIsNat(levels: seq<M.Level>)
    requires forall i :: 0 <= i < |levels| ==> levels[i].itemCount >= 0
    ensures M.Total(levels) >= 0
  {
    if levels != [] { TotalIsNat(levels[1..]); }
  }

  lemma LeftIsEnough(hash: M.Hash, levels: seq<M.Level>, contents: map<Key, Node>, home: map<Key, nat>, l: nat, b: nat)
    requires M.TableOk(hash, levels, contents, home) && l < |levels| && b < levels[l].bucketCount
    ensures |M.Items(levels[l].buckets[b])| <= Left(levels, l, b)
  {
    forall i | 0 <= i < l ensures levels[..l][i].itemCount >= 0 { assert M.LevelOk(hash, levels[i]); }
    TotalIsNat(levels[..l]);
  }

  // ---------- copying ----------

  predicate AllIn(keys: seq<Key>, list: map<Key, Node>) { forall i :: 0 <= i < |keys| ==> keys[i] in list }

  /** The items of a list for a number of its keys. */
  function NodesAt(list: map<Key, Node>, keys: seq<Key>): (q: seq<Node>)
    requires AllIn(keys, list)
    ensures |q| == |keys| && forall i :: 0 <= i < |q| ==> q[i] == list[keys[i]]
  {
    seq(|keys|, i requires 0 <= i < |keys| => list[keys[i]])
  }

  function Ptrs(q: seq<Node>): (p: seq<L.Ptr>)
    ensures |p| == |q| && forall i :: 0 <= i < |p| ==> p[i] == L.To(q[i])
  {
    seq(|q|, i requires 0 <= i < |q| => L.To(q[i]))
  }

  /** What a snapshot finds at its accesses to the list of each bucket. */
  type Views = (nat, nat) -> LL.View

  /** The walk of a bucket's list goes through its items; keys are their keys, in the order of the walk. */
  ghost predicate Listed(view: LL.View, items: map<Key, Node>, keys: seq<Key>) {
    && Distinct(keys) && AllIn(keys, items) && (forall k: Key :: k in keys <==> k in items)
    && LL.Still(view, NodesAt(items, keys))
  }

  ghost predicate Walkable(view: LL.View, bucket: M.Bucket) {
    bucket.List? ==> exists keys: seq<Key> :: Listed(view, bucket.items, keys)
  }

  ghost predicate AllWalkable(views: Views, levels: seq<M.Level>) {
    forall l: nat, b: nat :: l < |levels| && b < |levels[l].buckets| ==> Walkable(views(l, b), levels[l].buckets[b])
  }

  lemma {:induction false} DistinctSize(keys: seq<Key>, s: set<Key>)
    requires Distinct(keys) && forall k: Key :: k in keys <==> k in s
    ensures |keys| == |s|
  {
    if keys == [] {
      forall k: Key ensures k !in s { assert k in keys <==> k in s; }
      assert s == {};
    } else {
      assert keys == [keys[0]] + keys[1..];
      DistinctSize(keys[1..], s - {keys[0]});
    }
  }

  lemma {:induction false} AddRefsSum(refs: Counts, p: seq<Node>, q: seq<Node>)
    ensures AddRefs(AddRefs(refs, p), q) == AddRefs(refs, p + q)
  {
    if q == [] {
      assert p + q == p;
    } else {
      var n := |q| - 1;
      assert (p + q)[..|p + q| - 1] == p + q[..n];
      AddRefsSum(refs, p, q[..n]);
    }
  }

  /** How far a snapshot is: keys are those that it is past. */
  ghost predicate Progress(table: T.Table, l: int, b: nat, keys: seq<Key>)
    reads table
  {
    && M.TableOk(table.hash, table.levels, table.contents, table.home) && AllIn(keys, table.contents)
    && Met(table.hash, table.levels, table.contents, table.home, l, b, keys)
  }

  /** The buffer holds the items of keys, and of each one reference is taken. */
  ghost predicate Filled(contents: map<Key, Node>, keys: seq<Key>, buffer: seq<L.Ptr>, refs: Counts, taken: Counts) {
    AllIn(keys, contents) && buffer == Ptrs(NodesAt(contents, keys)) && taken == AddRefs(refs, NodesAt(contents, keys))
  }

  /** One bucket copied. */
  lemma ProgressStep(table: T.Table, l: nat, b: nat, keys: seq<Key>, more: seq<Key>)
    requires Progress(table, l, b, keys) && l < |table.levels| && b < table.levels[l].bucketCount
    requires var list := M.Items(table.levels[l].buckets[b]);
      AllIn(more, list) && Distinct(more) && forall k: Key :: k in more <==> k in list
    ensures Progress(table, l, b + 1, keys + more) && AllIn(more, table.contents)
    ensures NodesAt(table.contents, keys + more)
      == NodesAt(table.contents, keys) + NodesAt(M.Items(table.levels[l].buckets[b]), more)
    ensures Left(table.levels, l, b) == |M.Items(table.levels[l].buckets[b])| + Left(table.levels, l, b + 1)
  {
    var list := M.Items(table.levels[l].buckets[b]);
    BucketStep(table.hash, table.levels, table.contents, table.home, l, b, keys, more);
    forall i | 0 <= i < |more| ensures more[i] in table.contents && table.contents[more[i]] == list[more[i]] {
      PlaceIsExact(table.hash, table.levels, table.contents, table.home, l, b, more[i]);
    }
  }

  /** clds_sorted_list_get_all on one bucket, into the rest of the buffer, which has enough space. */
  method CopyList(view: LL.View, list: map<Key, Node>, ghost more: seq<Key>, items: array<L.Ptr>, index: nat,
          taken: Counts)
    returns (index': nat, taken': Counts)
    requires index + |list| <= items.Length && Listed(view, list, more)
    modifies items
    ensures index' == index + |more| <= items.Length
      && items[..index'] == old(items[..index]) + Ptrs(NodesAt(list, more))
    ensures taken' == AddRefs(taken, NodesAt(list, more)) && |more| == |list|
  {
    DistinctSize(more, list.Keys);
    ghost var q := NodesAt(list, more);
    var n, current;
    n, current, taken' := LL.CopyNodes(view, q, items, index, items.Length - index, taken);
    assert q[..n] == q;
    index' := index + n;
  }

  lemma FilledStep(contents: map<Key, Node>, list: map<Key, Node>, keys: seq<Key>, more: seq<Key>, buffer: seq<L.Ptr>,
          refs: Counts, taken: Counts)
    requires Filled(contents, keys, buffer, refs, taken) && AllIn(keys + more, contents) && AllIn(more, list)
    requires NodesAt(contents, keys + more) == NodesAt(contents, keys) + NodesAt(list, more)
    ensures Filled(contents, keys + more, buffer + Ptrs(NodesAt(list, more)), refs, AddRefs(taken, NodesAt(list, more)))
  {
    AddRefsSum(refs, NodesAt(contents, keys), NodesAt(list, more));
    assert Ptrs(NodesAt(contents, keys + more)) == Ptrs(NodesAt(contents, keys)) + Ptrs(NodesAt(list, more));
  }

  /** The copy of one bucket. */
  method CopyBucket(table: T.Table, views: Views, l: nat, b: nat, items: array<L.Ptr>, index: nat, ghost refs: Counts,
          taken: Counts, ghost keys: seq<Key>)
    returns (index': nat, taken': Counts, ghost keys': seq<Key>)
    requires Progress(table, l, b, keys) && l < |table.levels| && b < table.levels[l].bucketCount
    requires AllWalkable(views, table.levels) && table.levels[l].buckets[b].List?
    requires index <= items.Length && items.Length - index == Left(table.levels, l, b)
    requires Filled(table.contents, keys, items[..index], refs, taken)
    modifies items
    ensures index' <= items.Length && Progress(table, l, b + 1, keys')
      && items.Length - index' == Left(table.levels, l, b + 1)
    ensures Filled(table.contents, keys', items[..index'], refs, taken')
  {
    var list := table.levels[l].buckets[b].items;
    assert Walkable(views(l, b), table.levels[l].buckets[b]);
    ghost var more :| Listed(views(l, b), list, more);
    LeftIsEnough(table.hash, table.levels, table.contents, table.home, l, b);
    ProgressStep(table, l, b, keys, more);
    FilledStep(table.contents, list, keys, more, items[..index], refs, taken);
    index', taken' := CopyList(views(l, b), list, more, items, index, taken);
    keys' := keys + more;
  }

  lemma PassBucket(table: T.Table, l: nat, b: nat, keys: seq<Key>)
    requires Progress(table, l, b, keys) && l < |table.levels| && b < table.levels[l].bucketCount
    requires (table.levels[l].buckets[b].NoList? || Left(table.levels, l, b) <= 0)
    ensures Progress(table, l, b + 1, keys) && Left(table.levels, l, b + 1) == Left(table.levels, l, b)
  {
    LeftIsEnough(table.hash, table.levels, table.contents, table.home, l, b);
    ProgressStep(table, l, b, keys, []);
    assert keys + [] == keys;
  }

  // ---------- cancellation ----------

  /** How often the token is asked in a level: once for each bucket that has a list, while items are left, there or in
      the levels below. */
  function LevelPolls(buckets: seq<M.Bucket>, below: int): nat {
    if buckets == [] then 0
    else (if buckets[0].List? && M.Stored(buckets) + below > 0 then 1 else 0) + LevelPolls(buckets[1..], below)
  }

  /** How often a snapshot that is not cancelled asks the token: levels that count no items are passed. */
  function Polls(levels: seq<M.Level>): nat {
    if levels == [] then 0
    else
      var l := |levels| - 1;
      (if levels[l].itemCount != 0 then LevelPolls(levels[l].buckets, M.Total(levels[..l])) else 0) + Polls(levels[..l])
  }

  /** The token was cancelled when it was asked for one of the times from p on, n in number. */
  ghost predicate CancelledIn(cancelled: nat -> bool, p: nat, n: nat) {
    exists i: nat :: p <= i < p + n && cancelled(i)
  }

  lemma {:induction false} StoredIsPolled(buckets: seq<M.Bucket>, below: int)
    requires M.Stored(buckets) > 0 && below >= 0
    ensures LevelPolls(buckets, below) > 0
  {
    if M.Items(buckets[0]) == map[] { StoredIsPolled(buckets[1..], below); }
  }

  lemma {:induction false} ItemsArePolled(levels: seq<M.Level>)
    requires forall i :: 0 <= i < |levels| ==> levels[i].itemCount == M.Stored(levels[i].buckets)
    requires M.Total(levels) > 0
    ensures Polls(levels) > 0
  {
    var l := |levels| - 1;
    assert levels == levels[..l] + [levels[l]];
    M.TotalAppend(levels[..l], levels[l]);
    TotalIsNat(levels[..l]);
    if levels[l].itemCount > 0 { StoredIsPolled(levels[l].buckets, M.Total(levels[..l])); }
    else { ItemsArePolled(levels[..l]); }
  }

  /** A snapshot of a table with items asks at least once. */
  lemma TableIsPolled(table: T.Table)
    requires table.Valid() && table.contents != map[]
    ensures Polls(table.levels) > 0
  {
    var levels := table.levels;
    forall i | 0 <= i < |levels| ensures levels[i].itemCount == M.Stored(levels[i].buckets) {
      assert M.LevelOk(table.hash, levels[i]);
    }
    ItemsArePolled(levels);
  }

  lemma PollsStep(levels: seq<M.Level>, l: nat)
    requires l < |levels|
    ensures Polls(levels[..l + 1])
      == (if levels[l].itemCount != 0 then LevelPolls(levels[l].buckets, M.Total(levels[..l])) else 0)
        + Polls(levels[..l])
  {
    assert levels[..l + 1][..l] == levels[..l];
  }

  /** The token was not cancelled at p, ..., q - 1. */
  ghost predicate NotYet(cancelled: nat -> bool, p: nat, q: nat) { forall i: nat :: p <= i < q ==> !cancelled(i) }

  /** The token was asked p, ..., q - 1 in the first b buckets of a level, and was not cancelled. */
  ghost predicate Asked(cancelled: nat -> bool, p: nat, q: nat, buckets: seq<M.Bucket>, b: nat, below: int)
    requires b <= |buckets|
  {
    p <= q && q + LevelPolls(buckets[b..], below) == p + LevelPolls(buckets, below) && NotYet(cancelled, p, q)
  }

  /** The token is asked at bucket b, or the bucket is passed. */
  lemma AskedNext(cancelled: nat -> bool, p: nat, q: nat, buckets: seq<M.Bucket>, b: nat, below: int)
    requires b < |buckets| && Asked(cancelled, p, q, buckets, b, below)
    ensures if buckets[b].List? && M.Stored(buckets[b..]) + below > 0
      then if cancelled(q) then CancelledIn(cancelled, p, LevelPolls(buckets, below))
        else Asked(cancelled, p, q + 1, buckets, b + 1, below)
      else Asked(cancelled, p, q, buckets, b + 1, below)
  {
    assert buckets[b..][1..] == buckets[b + 1..];
  }

  lemma AskedAll(cancelled: nat -> bool, p: nat, q: nat, buckets: seq<M.Bucket>, below: int)
    requires Asked(cancelled, p, q, buckets, |buckets|, below)
    ensures q == p + LevelPolls(buckets, below) && !CancelledIn(cancelled, p, LevelPolls(buckets, below))
  {
  }

  /** The loop over the buckets of one level. A bucket is looked at only if it has a list and there is room left. */
  method CopyLevel(table: T.Table, views: Views, l: nat, items: array<L.Ptr>, index: nat, ghost refs: Counts,
          taken: Counts, cancelled: nat -> bool, polls: nat, ghost keys: seq<Key>)
    returns (stopped: bool, index': nat, taken': Counts, polls': nat, ghost keys': seq<Key>)
    requires Progress(table, l, 0, keys) && l < |table.levels| && AllWalkable(views, table.levels)
    requires index <= items.Length && items.Length - index == Left(table.levels, l, 0)
    requires Filled(table.contents, keys, items[..index], refs, taken)
    modifies items
    ensures index' <= items.Length && Filled(table.contents, keys', items[..index'], refs, taken')
    ensures !stopped ==> Progress(table, l - 1, 0, keys') && items.Length - index' == M.Total(table.levels[..l])
    ensures stopped <==> CancelledIn(cancelled, polls, LevelPolls(table.levels[l].buckets, M.Total(table.levels[..l])))
    ensures !stopped ==> polls' == polls + LevelPolls(table.levels[l].buckets, M.Total(table.levels[..l]))
  {
    ghost var below := M.Total(table.levels[..l]);
    var b, level := 0, table.levels[l];
    stopped, index', taken', polls', keys' := false, index, taken, polls, keys;
    assert level.buckets[0..] == level.buckets;
    while b < level.bucketCount
      invariant 0 <= b <= level.bucketCount && index' <= items.Length
      invariant Progress(table, l, b, keys') && items.Length - index' == Left(table.levels, l, b)
      invariant Filled(table.contents, keys', items[..index'], refs, taken')
      invariant Asked(cancelled, polls, polls', level.buckets, b, below)
    {
      AskedNext(cancelled, polls, polls', level.buckets, b, below);
      if level.buckets[b].List? && items.Length - index' > 0 {
        if cancelled(polls') {
          return true, index', taken', polls' + 1, keys';
        }
        polls' := polls' + 1;
        index', taken', keys' := CopyBucket(table, views, l, b, items, index', refs, taken', keys');
      } else {
        PassBucket(table, l, b, keys');
      }
      b := b + 1;
    }
    AskedAll(cancelled, polls, polls', level.buckets, below);
    LevelStep(table.hash, table.levels, table.contents, table.home, l, keys');
  }

  /** The first loop of the snapshot: the sum of the counts of all levels. */
  method CountItems(table: T.Table) returns (total: int)
    requires table.Valid()
    ensures total == |table.contents|
  {
    total := 0;
    var l := |table.levels|;
    assert table.levels[..l] == table.levels;
    while l > 0
      invariant 0 <= l <= |table.levels| && total + M.Total(table.levels[..l]) == |table.contents|
    {
      l := l - 1;
      StartOfLevel(table.hash, table.levels, table.contents, table.home, l);
      total := total + table.levels[l].itemCount;
    }
  }

  /** The end of a snapshot that failed: the references taken so far are given back. */
  method GiveBack(items: array<L.Ptr>, index: nat, taken: Counts, ghost refs: Counts, ghost q: seq<Node>)
    returns (refs': Counts)
    requires index <= items.Length && items[..index] == Ptrs(q) && taken == AddRefs(refs, q)
    ensures forall n: Node :: refs'(n) == refs(n)
  {
    refs' := taken;
    var i := 0;
    assert q[0..] == q && forall j :: 0 <= j < index ==> items[j] == items[..index][j] == L.To(q[j]);
    while i < index
      invariant 0 <= i <= index == |q| && Release(refs', q[i..]) == Release(taken, q)
    {
      assert q[i..][0] == q[i] && q[i..][1..] == q[i + 1..];
      refs' := Put(refs', items[i].node, refs'(items[i].node) - 1);
      i := i + 1;
    }
    AddRefsPlus(refs, q);
    ReleaseUndoes(refs, q, taken);
  }

  /** The loop over the levels, from the top, past those that count no items. */
  method CopyLevels(table: T.Table, views: Views, items: array<L.Ptr>, refs: Counts, cancelled: nat -> bool)
    returns (stopped: bool, index: nat, taken: Counts, ghost keys: seq<Key>)
    requires table.Valid() && items.Length == |table.contents| && AllWalkable(views, table.levels)
    modifies items
    ensures index <= items.Length && Filled(table.contents, keys, items[..index], refs, taken)
    ensures !stopped ==> Progress(table, -1, 0, keys) && index == items.Length
    ensures stopped <==> CancelledIn(cancelled, 0, Polls(table.levels))
  {
    stopped, index, taken, keys := false, 0, refs, [];
    ghost var most := Polls(table.levels);
    var polls: nat, l := 0, |table.levels|;
    assert table.levels[..l] == table.levels;
    while l > 0
      invariant 0 <= l <= |table.levels| && index <= items.Length && !stopped
      invariant Progress(table, l - 1, 0, keys) && items.Length - index == M.Total(table.levels[..l])
      invariant Filled(table.contents, keys, items[..index], refs, taken)
      invariant polls + Polls(table.levels[..l]) == most && NotYet(cancelled, 0, polls)
    {
      l := l - 1;
      PollsStep(table.levels, l);
      StartOfLevel(table.hash, table.levels, table.contents, table.home, l);
      if table.levels[l].itemCount != 0 {
        stopped, index, taken, polls, keys :=
          CopyLevel(table, views, l, items, index, refs, taken, cancelled, polls, keys);
        if stopped {
          return;
        }
      } else {
        EmptyLevel(table.hash, table.levels, table.contents, table.home, l, keys);
      }
    }
  }

  /** snapshot, among walks that find their lists in order. On success the buffer holds the items of all keys of the
      table, each once, and of each one reference was taken; otherwise what was taken was given back. It fails exactly
      for lack of memory, and is abandoned exactly if the token was cancelled when it was asked: at least once. refs
      are the references of the caller before it and refs' those after it; a node's count is what other threads make
      it, and these on top. */
  method Snapshot(table: T.Table, views: Views, refs: Counts, memoryOk: bool, cancelled: nat -> bool)
    returns (r: SnapshotResult, items: array?<L.Ptr>, refs': Counts, ghost keys: seq<Key>)
    requires table.Valid() && AllWalkable(views, table.levels)
    ensures r.SnapshotOk? ==>
      Distinct(keys) && AllIn(keys, table.contents) && (forall k: Key :: k in table.contents <==> k in keys)
    ensures r.SnapshotOk? ==> if items == null then keys == [] else items[..] == Ptrs(NodesAt(table.contents, keys))
    ensures r.SnapshotOk? ==> Plus(refs, NodesAt(table.contents, keys), refs')
    ensures !r.SnapshotOk? ==> items == null && forall n: Node :: refs'(n) == refs(n)
    ensures r.SnapshotError? <==> !memoryOk && table.contents != map[]
    ensures r.Abandoned? <==> memoryOk && table.contents != map[] && CancelledIn(cancelled, 0, Polls(table.levels))
    ensures table.contents != map[] ==> Polls(table.levels) > 0
  {
    var total := CountItems(table);
    if table.contents != map[] { TableIsPolled(table); }
    if total == 0 {
      return SnapshotOk, null, refs, [];
    }
    if !memoryOk {
      return SnapshotError, null, refs, [];
    }
    var buffer := new L.Ptr[total];
    var stopped, index, taken;
    stopped, index, taken, keys := CopyLevels(table, views, buffer, refs, cancelled);
    ghost var q := NodesAt(table.contents, keys);
    if stopped {
      refs' := GiveBack(buffer, index, taken, refs, q);
      return Abandoned, null, refs', [];
    }
    AddRefsPlus(refs, q);
    assert buffer[..index] == buffer[..];
    return SnapshotOk, buffer, taken, keys;
  }

  // ---------- the lists of a table under its lock ----------

  /** The list holds the map of a bucket. */
  ghost predicate Shows(s: L.State, items: map<Key, Node>) {
    && (forall k: Key :: k in items ==> s.status(items[k]).Linked? && s.key(items[k]) == k)
    && (forall n: Node {:trigger s.status(n)} :: s.status(n).Linked? ==> s.key(n) in items && items[s.key(n)] == n)
  }

  /** The list of a bucket, with the lock of the table, as me finds it from s on: me is undisturbed by writers. */
  ghost predicate LockedBucket(s: LL.State, me: Tid, view: LL.View, items: map<Key, Node>) {
    LL.Inv(s) && Shows(s.list, items) && forall k: nat :: LL.Later(s, me, view(k))
  }

  lemma LockedIsListed(s: LL.State, me: Tid, view: LL.View, items: map<Key, Node>)
    requires LockedBucket(s, me, view, items)
    ensures exists keys: seq<Key> :: Listed(view, items, keys)
  {
    LL.ViewIsStill(s, me, view);
    var q := LL.Items(s);
    var keys := seq(|q|, i requires 0 <= i < |q| => s.list.key(q[i]));
    forall i | 0 <= i < |q| ensures keys[i] in items && items[keys[i]] == q[i] {
      assert q[i] in q && s.list.status(q[i]).Linked?;
    }
    forall k: Key ensures k in keys <==> k in items {
      if k in items {
        var i :| 0 <= i < |q| && q[i] == items[k];
        assert keys[i] == k;
      }
    }
    assert NodesAt(items, keys) == q;
    assert Listed(view, items, keys);
  }

  /** While a snapshot has the lock of its table, every walk it makes over a bucket goes through exactly its items,
      whatever finds run beside it. */
  lemma LockedIsWalkable(lists: (nat, nat) -> LL.State, me: Tid, views: Views, levels: seq<M.Level>)
    requires forall l: nat, b: nat :: l < |levels| && b < |levels[l].buckets| && levels[l].buckets[b].List? ==>
      LockedBucket(lists(l, b), me, views(l, b), levels[l].buckets[b].items)
    ensures AllWalkable(views, levels)
  {
    forall l: nat, b: nat | l < |levels| && b < |levels[l].buckets|
      ensures Walkable(views(l, b), levels[l].buckets[b]) {
      if levels[l].buckets[b].List? { LockedIsListed(lists(l, b), me, views(l, b), levels[l].buckets[b].items); }
    }
  }
}
