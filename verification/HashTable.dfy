/** The operations of src/clds_hash_table.c, run one at a time, on the chain of bucket arrays: each does to the chain
    what it says it does to a map, also when there is no memory to grow. */
module HashTable {
  import opened HashTableModel
  import R = References

  datatype Option<T> = None | Some(value: T)

  datatype InsertResult = InsertOk | InsertError | KeyAlreadyExists
  datatype DeleteResult = DeleteOk | DeleteNotFound
  datatype RemoveResult = RemoveOk(item: Node) | RemoveNotFound
  datatype SetValueResult = SetOk(was: Option<Node>) | SetError | ConditionNotMet

  /** The answer of condition_check_func, or that there is none. */
  datatype Verdict = CheckOk | CheckNotMet | CheckError

  function Max(a: nat, b: nat): (m: nat)
    ensures a <= m && b <= m && (m == a || m == b)
  {
    if a < b then b else a
  }

  /** The bucket count of the top level. */
  function TopCount(levels: seq<Level>): nat
    requires levels != []
  {
    levels[|levels| - 1].bucketCount
  }

  /** Some item of the list is node. */
  predicate HasItem(items: map<Key, Node>, node: Node) { exists k :: k in items && items[k] == node }

  /** p inserts are counted in at level i, and none at the others. */
  ghost predicate Pending(levels: seq<Level>, i: nat, p: int) {
    forall j {:trigger levels[j]} :: 0 <= j < |levels| ==> levels[j].pending == if j == i then p else 0
  }

  class Table {
    const hash: Hash
    const initial: nat
    var levels: seq<Level>                // the oldest first: first_hash_table is the last
    ghost var contents: map<Key, Node>
    ghost var home: map<Key, nat>         // the level of each key
    ghost var peak: nat                   // the most items that ever were in the table together

    ghost predicate Consistent()
      reads this
    {
      TableOk(hash, levels, contents, home) && |contents| <= peak && TopCount(levels) <= Max(initial, 2 * peak)
    }

    ghost predicate Valid()
      reads this
    {
      Consistent() && Pending(levels, 0, 0)
    }

    /** create with a bucket count that is not 0, lines 195-277 */
    constructor (computeHash: Hash, initialBucketCount: nat)
      requires initialBucketCount > 0
      ensures Valid() && contents == map[] && hash == computeHash && initial == initialBucketCount && peak == 0
    {
      hash, initial := computeHash, initialBucketCount;
      levels := [Fresh(initialBucketCount)];
      contents, home, peak := map[], map[], 0;
      new;
      NothingStored(levels[0].buckets);
      assert levels[1..] == [] && LevelOk(hash, levels[0]);
      assert Total(levels) == 0;
      assert forall k: Key :: KeyOk(hash, levels, contents, home, 0, k);
    }

    /** get_first_bucket_array, lines 146-193. With no other thread its exchange succeeds, so its loop runs at most
        once. */
    method TopLevel(growOk: bool) returns (top: nat)
      requires Valid()
      modifies `levels
      ensures Valid() && top == |levels| - 1
      ensures levels != old(levels) ==> TopCount(old(levels)) <= |contents|
      ensures var was := old(levels)[|old(levels)| - 1];
        if was.itemCount >= was.bucketCount && growOk then
          && levels[..top] == old(levels) && Shaped(levels[top]) && levels[top].bucketCount == 2 * was.bucketCount
          && levels[top].itemCount == 0 && levels[top].pending == 0
          && forall b :: 0 <= b < |levels[top].buckets| ==> levels[top].buckets[b].NoList?
        else levels == old(levels)
    {
      top := |levels| - 1;
      if levels[top].itemCount >= levels[top].bucketCount && growOk {
        CountIsLive(hash, levels, contents, home, top);
        NewLevel(hash, levels, contents, home, 2 * levels[top].bucketCount);
        levels := levels + [Fresh(2 * levels[top].bucketCount)];
        top := top + 1;
      }
    }

    /** The bucket of a key at a level has no list yet. */
    predicate LacksList(i: nat, key: Key)
      reads this
      requires i < |levels| && Shaped(levels[i])
    {
      levels[i].buckets[IndexOf(hash, levels[i], key)].NoList?
    }

    /** An operation that puts a new key in is to create a list for it: the top level grows, or its bucket has none. */
    ghost predicate NeedsList(key: Key, growOk: bool)
      reads this
      requires Valid()
    {
      var top := |levels| - 1;
      (levels[top].itemCount >= levels[top].bucketCount && growOk) || LacksList(top, key)
    }

    /** Counts inserts in or out of a level. */
    method SetPending(i: nat, was: int, p: int)
      requires Consistent() && i < |levels| && Pending(levels, i, was)
      modifies `levels
      ensures Consistent() && |levels| == |old(levels)| && Pending(levels, i, p)
      ensures forall key: Key :: LacksList(i, key) == old(LacksList(i, key))
    {
      PendingIsApart(hash, levels, contents, home, i, p);
      var levels' := levels[i := levels[i].(pending := p)];
      assert TopCount(levels') == TopCount(levels);
      levels := levels';
    }

    /** The start of insert and of set_value: the top level, with an insert counted in. */
    method Enter(growOk: bool, ghost key: Key) returns (top: nat)
      requires Valid()
      modifies `levels
      ensures Consistent() && top == |levels| - 1 && Pending(levels, top, 1)
      ensures LacksList(top, key) == old(NeedsList(key, growOk))
    {
      top := TopLevel(growOk);
      SetPending(top, 0, 1);
    }

    /** The look into the levels below top, lines 376-413. */
    method FoundBelow(top: nat, key: Key) returns (found: bool)
      requires Consistent() && top < |levels| && Pending(levels, top, 1)
      ensures found <==> key in home && home[key] < top
    {
      if top > 0 {
        // the wait for inserts pending below is over at once
        assert levels[top - 1].pending == 0;
      }
      var i := top;
      while i > 0
        invariant 0 <= i <= top
        invariant key in home && home[key] < top ==> home[key] < i
      {
        i := i - 1;
        assert KeyOk(hash, levels, contents, home, i, key) && LevelOk(hash, levels[i]);
        if levels[i].buckets[IndexOf(hash, levels[i], key)].List? && Holds(hash, levels[i], key) {
          return true;
        }
      }
      found := false;
    }

    // ---------- the changes of one bucket ----------

    /** The list in the bucket of a key, which is created if there is none, lines 426-459 and 944-977. */
    method MakeList(i: nat, key: Key, listOk: bool) returns (ok: bool)
      requires Consistent() && i < |levels|
      modifies `levels
      ensures Consistent() && SameShape(old(levels), levels)
      ensures ok <==> listOk || !old(LacksList(i, key))
      ensures old(LacksList(i, key)) ==> !(key in home && home[key] == i)
    {
      assert KeyOk(hash, levels, contents, home, i, key);
      var level := levels[i];
      if level.buckets[IndexOf(hash, level, key)].List? {
        return true;
      }
      if !listOk {
        return false;
      }
      NewList(hash, levels, contents, home, i, key);
      levels := Relist(hash, levels, i, key, map[], level.itemCount);
      ok := true;
    }

    /** Whether the key is in the list of its bucket. */
    method InList(i: nat, key: Key) returns (yes: bool)
      requires Consistent() && i < |levels|
      ensures yes <==> key in home && home[key] == i
      ensures Shaped(levels[i]) && (yes <==> Holds(hash, levels[i], key))
    {
      assert KeyOk(hash, levels, contents, home, i, key);
      yes := Holds(hash, levels[i], key);
    }

    /** clds_sorted_list_insert of a new key into the list of its bucket, and the count. */
    method PutInList(i: nat, key: Key, node: Node)
      requires Consistent() && i < |levels| && key !in contents
      modifies `levels, `contents, `home, `peak
      ensures Consistent() && SameShape(old(levels), levels) && contents == old(contents)[key := node]
        && peak == Max(old(peak), |contents|)
    {
      Put(i, key, node);
      RaisePeak();
    }

    method Put(i: nat, key: Key, node: Node)
      requires TableOk(hash, levels, contents, home) && i < |levels| && key !in contents
      modifies `levels, `contents, `home
      ensures TableOk(hash, levels, contents, home) && SameShape(old(levels), levels)
        && contents == old(contents)[key := node]
    {
      PutKey(hash, levels, contents, home, i, key, node);
      var level := levels[i];
      levels := Relist(hash, levels, i, key, AtKey(hash, level, key)[key := node], level.itemCount + 1);
      contents, home := contents[key := node], home[key := i];
    }

    ghost method RaisePeak()
      requires TableOk(hash, levels, contents, home) && TopCount(levels) <= Max(initial, 2 * peak)
      modifies `peak
      ensures Consistent() && peak == Max(old(peak), |contents|)
    {
      peak := Max(peak, |contents|);
    }

    /** clds_sorted_list_set_value of a key that is in the list of its bucket. */
    method SwapInList(i: nat, key: Key, node: Node) returns (was: Node)
      requires Consistent() && i < |levels| && Shaped(levels[i]) && Holds(hash, levels[i], key)
      modifies `levels, `contents
      ensures Consistent() && SameShape(old(levels), levels)
      ensures key in old(contents) && was == old(contents)[key] && contents == old(contents)[key := node]
        && |contents| == |old(contents)|
    {
      SwapKey(hash, levels, contents, home, i, key, node);
      var level := levels[i];
      was := AtKey(hash, level, key)[key];
      levels := Relist(hash, levels, i, key, AtKey(hash, level, key)[key := node], level.itemCount);
      contents := contents[key := node];
    }

    /** clds_sorted_list_delete_key or remove_key of a key that is in the list of its bucket, and the count. */
    method DropFromList(i: nat, key: Key) returns (was: Node)
      requires Consistent() && i < |levels| && Shaped(levels[i]) && Holds(hash, levels[i], key)
      modifies `levels, `contents, `home
      ensures Consistent() && SameShape(old(levels), levels)
      ensures key in old(contents) && was == old(contents)[key] && contents == old(contents) - {key}
    {
      DropKey(hash, levels, contents, home, i, key);
      var level := levels[i];
      var list := AtKey(hash, level, key);
      was := list[key];
      var levels' := Relist(hash, levels, i, key, list - {key}, level.itemCount - 1);
      assert TopCount(levels') == TopCount(levels);
      levels, contents, home := levels', contents - {key}, home - {key};
    }

    // ---------- the operations ----------

    /** insert, lines 327-512 */
    method Insert(key: Key, node: Node, growOk: bool, listOk: bool) returns (r: InsertResult)
      requires Valid()
      modifies `levels, `contents, `home, `peak
      ensures Valid() && peak == Max(old(peak), |contents|)
      ensures key in old(contents) ==> r.KeyAlreadyExists?
      ensures key !in old(contents) ==> r == if listOk || !old(NeedsList(key, growOk)) then InsertOk else InsertError
      ensures contents == if r.InsertOk? then old(contents)[key := node] else old(contents)
    {
      var top := Enter(growOk, key);
      var found := FoundBelow(top, key);
      r := if found then KeyAlreadyExists else InsertOk;
      if !found {
        r := InsertAtTop(top, key, node, listOk);
      }
      SetPending(top, 1, 0);
    }

    /** The rest of insert once no lower level has the key, lines 419-503. The count goes up before the list is asked
        and down again if it has the key, or cannot be made. */
    method InsertAtTop(top: nat, key: Key, node: Node, listOk: bool) returns (r: InsertResult)
      requires Consistent() && top < |levels| && (key in home ==> home[key] == top)
      modifies `levels, `contents, `home, `peak
      ensures Consistent() && SameShape(old(levels), levels) && peak == Max(old(peak), |contents|)
      ensures key in old(contents) ==> r.KeyAlreadyExists?
      ensures key !in old(contents) ==> r == if listOk || !old(LacksList(top, key)) then InsertOk else InsertError
      ensures contents == if r.InsertOk? then old(contents)[key := node] else old(contents)
    {
      var ok := MakeList(top, key, listOk);
      if !ok {
        return InsertError;
      }
      var has := InList(top, key);
      if has {
        return KeyAlreadyExists;
      }
      PutInList(top, key, node);
      r := InsertOk;
    }

    /** The search of find, delete and remove, lines 564-619, 756-809 and 1053-1099: from the top level down, past
        levels that count no items. */
    method Seek(key: Key) returns (i: int)
      requires Valid()
      ensures -1 <= i < |levels| && (i >= 0 <==> key in contents)
      ensures i >= 0 ==> Shaped(levels[i]) && Holds(hash, levels[i], key)
    {
      i := |levels| - 1;
      while i >= 0
        invariant -1 <= i < |levels|
        invariant key in home ==> home[key] <= i
      {
        assert KeyOk(hash, levels, contents, home, i, key) && LevelOk(hash, levels[i]);
        if levels[i].itemCount != 0 {
          var bucket := levels[i].buckets[IndexOf(hash, levels[i], key)];
          if bucket.List? && key in bucket.items {
            return i;
          }
        } else {
          ZeroCountIsEmpty(hash, levels[i], key);
        }
        i := i - 1;
      }
    }

    /** find, lines 1029-1102. The item comes with one reference more. */
    method Find(key: Key, refs: R.Counts) returns (r: Option<Node>, refs': R.Counts)
      requires Valid()
      ensures r == if key in contents then Some(contents[key]) else None
      ensures R.Plus(refs, if r.Some? then [r.value] else [], refs')
    {
      var i := Seek(key);
      if i < 0 {
        return None, refs;
      }
      assert KeyOk(hash, levels, contents, home, i, key);
      var item := AtKey(hash, levels[i], key)[key];
      R.AddRefsPlus(refs, [item]);
      return Some(item), R.AddRefs(refs, [item]);
    }

    method Delete(key: Key) returns (r: DeleteResult)
      requires Valid()
      modifies `levels, `contents, `home
      ensures Valid()
      ensures r == if key in old(contents) then DeleteOk else DeleteNotFound
      ensures contents == old(contents) - {key}
    {
      var i := Seek(key);
      if i < 0 {
        return DeleteNotFound;
      }
      var _ := DropFromList(i, key);
      r := DeleteOk;
    }

    method Remove(key: Key) returns (r: RemoveResult)
      requires Valid()
      modifies `levels, `contents, `home
      ensures Valid()
      ensures r == if key in old(contents) then RemoveOk(old(contents)[key]) else RemoveNotFound
      ensures contents == old(contents) - {key}
    {
      var i := Seek(key);
      if i < 0 {
        return RemoveNotFound;
      }
      var was := DropFromList(i, key);
      r := RemoveOk(was);
    }

    /** In the level that has the key own, key leads to the bucket of own. */
    ghost predicate SameBucket(own: Key, key: Key)
      reads this
      requires Valid()
    {
      own in home && IndexOf(hash, levels[home[own]], key) == IndexOf(hash, levels[home[own]], own)
    }

    /** delete_key_value, lines 627-720, of an item whose own key is own. The list looks for the item alone: an item is
        deleted through another key exactly when that key leads to its bucket. */
    method DeleteKeyValue(key: Key, node: Node, ghost own: Key) returns (r: DeleteResult)
      requires Valid() && forall k :: k in contents && contents[k] == node ==> k == own
      modifies `levels, `contents, `home
      ensures Valid()
      ensures r == if own in old(contents) && old(contents)[own] == node && old(SameBucket(own, key)) then DeleteOk
        else DeleteNotFound
      ensures key == own ==>
        r == if key in old(contents) && old(contents)[key] == node then DeleteOk else DeleteNotFound
      ensures contents == if r.DeleteOk? then old(contents) - {own} else old(contents)
    {
      var i := |levels| - 1;
      while i >= 0
        invariant -1 <= i < |levels| && unchanged(this)
        invariant own in contents && contents[own] == node && SameBucket(own, key) ==> home[own] <= i
      {
        assert KeyOk(hash, levels, contents, home, i, own) && LevelOk(hash, levels[i]);
        if levels[i].itemCount != 0 {
          var bucket := levels[i].buckets[IndexOf(hash, levels[i], key)];
          if bucket.List? && HasItem(bucket.items, node) {
            var k: Key :| k in bucket.items && bucket.items[k] == node;
            ItemIsOwn(i, key, node, own, k);
            var _ := DropFromList(i, k);
            return DeleteOk;
          }
        } else {
          ZeroCountIsEmpty(hash, levels[i], own);
        }
        i := i - 1;
      }
      r := DeleteNotFound;
    }

    /** An item found in the bucket that key leads to is there under its own key. */
    lemma ItemIsOwn(i: nat, key: Key, node: Node, own: Key, k: Key)
      requires Valid() && i < |levels| && (forall k :: k in contents && contents[k] == node ==> k == own)
      requires LevelOk(hash, levels[i]) && k in AtKey(hash, levels[i], key) && AtKey(hash, levels[i], key)[k] == node
      ensures k == own && Holds(hash, levels[i], own) && own in contents && contents[own] == node
        && SameBucket(own, key)
    {
      assert k in Items(levels[i].buckets[IndexOf(hash, levels[i], key)]);
      assert KeyOk(hash, levels, contents, home, i, k);
    }

    /** clds_sorted_list_set_value of a key in the list of its bucket. */
    method SetInList(i: nat, key: Key, node: Node, verdict: Verdict) returns (r: SetValueResult)
      requires Consistent() && i < |levels| && Shaped(levels[i]) && Holds(hash, levels[i], key)
      modifies `levels, `contents
      ensures Consistent() && SameShape(old(levels), levels) && key in old(contents) && |contents| == |old(contents)|
      ensures verdict.CheckOk? ==> r == SetOk(Some(old(contents)[key])) && contents == old(contents)[key := node]
      ensures verdict.CheckNotMet? ==> r == ConditionNotMet && contents == old(contents)
      ensures verdict.CheckError? ==> r == SetError && contents == old(contents)
    {
      assert KeyOk(hash, levels, contents, home, i, key);
      if verdict.CheckError? {
        return SetError;
      }
      if verdict.CheckNotMet? {
        return ConditionNotMet;
      }
      var was := SwapInList(i, key, node);
      r := SetOk(Some(was));
    }

    /** The loop of set_value over the levels below top, lines 874-932. It goes on after it found the key. */
    method SetBelow(top: nat, key: Key, node: Node, verdict: Verdict) returns (r: Option<SetValueResult>)
      requires Consistent() && top < |levels|
      modifies `levels, `contents
      ensures Consistent() && SameShape(old(levels), levels) && |contents| == |old(contents)|
      ensures r.Some? <==> key in home && home[key] < top
      ensures r.Some? ==> key in old(contents)
      ensures r.Some? && verdict.CheckOk? ==>
        r.value == SetOk(Some(old(contents)[key])) && contents == old(contents)[key := node]
      ensures r.Some? && verdict.CheckNotMet? ==> r.value == ConditionNotMet && contents == old(contents)
      ensures r.Some? && verdict.CheckError? ==> r.value == SetError && contents == old(contents)
      ensures r.None? ==> contents == old(contents) && levels == old(levels)
    {
      r := None;
      var i := top;
      while i > 0
        invariant 0 <= i <= top && Consistent() && SameShape(old(levels), levels) && |contents| == |old(contents)|
        invariant r.Some? <==> key in home && i <= home[key] < top
        invariant r.Some? ==> key in old(contents)
        invariant r.Some? && verdict.CheckOk? ==>
          r.value == SetOk(Some(old(contents)[key])) && contents == old(contents)[key := node]
        invariant r.Some? && verdict.CheckNotMet? ==> r.value == ConditionNotMet && contents == old(contents)
        invariant r.Some? && verdict.CheckError? ==> r.value == SetError && contents == old(contents)
        invariant r.None? ==> contents == old(contents) && levels == old(levels)
      {
        i := i - 1;
        var has := InList(i, key);
        if has {
          var answer := SetInList(i, key, node, verdict);
          r := Some(answer);
        }
      }
    }

    /** clds_sorted_list_set_value in the list of the bucket of a key, whether the list has it or not. */
    method SetOrPut(top: nat, key: Key, node: Node, verdict: Verdict) returns (r: SetValueResult)
      requires Consistent() && top < |levels| && (key in home ==> home[key] == top)
      modifies `levels, `contents, `home, `peak
      ensures Consistent() && SameShape(old(levels), levels) && peak == Max(old(peak), |contents|)
      ensures key in old(contents) && verdict.CheckOk? ==>
        r == SetOk(Some(old(contents)[key])) && contents == old(contents)[key := node]
      ensures key in old(contents) && verdict.CheckNotMet? ==> r == ConditionNotMet && contents == old(contents)
      ensures key in old(contents) && verdict.CheckError? ==> r == SetError && contents == old(contents)
      ensures key !in old(contents) ==> r == SetOk(None) && contents == old(contents)[key := node]
    {
      var has := InList(top, key);
      if has {
        r := SetInList(top, key, node, verdict);
      } else {
        PutInList(top, key, node);
        r := SetOk(None);
      }
    }

    /** The set_value of the top level, lines 934-1018. */
    method SetAtTop(top: nat, key: Key, node: Node, verdict: Verdict, listOk: bool) returns (r: SetValueResult)
      requires Consistent() && top < |levels| && (key in home ==> home[key] == top)
      modifies `levels, `contents, `home, `peak
      ensures Consistent() && SameShape(old(levels), levels) && peak == Max(old(peak), |contents|)
      ensures key in old(contents) && verdict.CheckOk? ==>
        r == SetOk(Some(old(contents)[key])) && contents == old(contents)[key := node]
      ensures key in old(contents) && verdict.CheckNotMet? ==> r == ConditionNotMet && contents == old(contents)
      ensures key in old(contents) && verdict.CheckError? ==> r == SetError && contents == old(contents)
      ensures key !in old(contents) ==>
        if listOk || !old(LacksList(top, key)) then r == SetOk(None) && contents == old(contents)[key := node]
        else r == SetError && contents == old(contents)
    {
      var ok := MakeList(top, key, listOk);
      if !ok {
        return SetError;
      }
      r := SetOrPut(top, key, node, verdict);
    }

    /** The levels below, and then the top level if the key is in none of them, lines 874-1018. */
    method SetInLevels(top: nat, key: Key, node: Node, verdict: Verdict, listOk: bool) returns (r: SetValueResult)
      requires Consistent() && top == |levels| - 1
      modifies `levels, `contents, `home, `peak
      ensures Consistent() && SameShape(old(levels), levels) && peak == Max(old(peak), |contents|)
      ensures key in old(contents) && verdict.CheckOk? ==>
        r == SetOk(Some(old(contents)[key])) && contents == old(contents)[key := node]
      ensures key in old(contents) && verdict.CheckNotMet? ==> r == ConditionNotMet && contents == old(contents)
      ensures key in old(contents) && verdict.CheckError? ==> r == SetError && contents == old(contents)
      ensures key !in old(contents) ==>
        if listOk || !old(LacksList(top, key)) then r == SetOk(None) && contents == old(contents)[key := node]
        else r == SetError && contents == old(contents)
    {
      var below := SetBelow(top, key, node, verdict);
      if below.Some? {
        r := below.value;
      } else {
        r := SetAtTop(top, key, node, verdict, listOk);
      }
    }

    /** set_value, lines 817-1027 */
    method SetValue(key: Key, node: Node, verdict: Verdict, growOk: bool, listOk: bool) returns (r: SetValueResult)
      requires Valid()
      modifies `levels, `contents, `home, `peak
      ensures Valid() && peak == Max(old(peak), |contents|)
      ensures key in old(contents) && verdict.CheckOk? ==>
        r == SetOk(Some(old(contents)[key])) && contents == old(contents)[key := node]
      ensures key in old(contents) && verdict.CheckNotMet? ==> r == ConditionNotMet && contents == old(contents)
      ensures key in old(contents) && verdict.CheckError? ==> r == SetError && contents == old(contents)
      ensures key !in old(contents) ==>
        if listOk || !old(NeedsList(key, growOk)) then r == SetOk(None) && contents == old(contents)[key := node]
        else r == SetError && contents == old(contents)
    {
      var top := Enter(growOk, key);
      r := SetInLevels(top, key, node, verdict, listOk);
      SetPending(top, 1, 0);
    }
  }
}
