/** The order that the cache keeps is the order of last use, whatever the threads do, and what eviction takes is the
    entry that has not been used for the longest time. */
module LruRecency {
  import opened LruModel

  // ---------- the order of the list ----------

  /** x comes before y. */
  ghost predicate Before(q: seq<Entry>, x: Entry, y: Entry) {
    exists i, j :: 0 <= i < j < |q| && q[i] == x && q[j] == y
  }

  /** p has the entries of q that are not of key k, in the same order. */
  ghost predicate RestIs(p: seq<Entry>, q: seq<Entry>, k: Key) {
    && (forall x: Entry :: x.key != k ==> (x in p <==> x in q))
    && (forall x: Entry, y: Entry :: x.key != k && y.key != k ==> (Before(p, x, y) <==> Before(q, x, y)))
  }

  lemma CutKeepsOrder(q: seq<Entry>, c: nat, x: Entry, y: Entry)
    requires c < |q| && x.key != q[c].key && y.key != q[c].key
    ensures Before(q[..c] + q[c + 1..], x, y) <==> Before(q, x, y)
  {
    var w := q[..c] + q[c + 1..];
    if i, j :| 0 <= i < j < |q| && q[i] == x && q[j] == y {
      assert w[if i < c then i else i - 1] == x && w[if j < c then j else j - 1] == y;
    }
    if i, j :| 0 <= i < j < |w| && w[i] == x && w[j] == y {
      assert q[if i < c then i else i + 1] == x && q[if j < c then j else j + 1] == y;
    }
  }

  lemma WithoutKeepsOrder(q: seq<Entry>, k: Key)
    requires DistinctKeys(q)
    ensures RestIs(Without(q, k), q, k) && !Has(Without(q, k), k)
  {
    WithoutKeys(q, k);
    forall x: Entry, y: Entry | x.key != k && y.key != k ensures Before(Without(q, k), x, y) <==> Before(q, x, y) {
      if Has(q, k) { CutKeepsOrder(q, Find(q, k), x, y); }
    }
    if Has(Without(q, k), k) { HasIsIn(Without(q, k), k); }
  }

  lemma EndKeepsOrder(q: seq<Entry>, e: Entry, x: Entry, y: Entry)
    requires x.key != e.key && y.key != e.key
    ensures Before(q + [e], x, y) <==> Before(q, x, y)
  {
    if i, j :| 0 <= i < j < |q| && q[i] == x && q[j] == y { assert (q + [e])[i] == x && (q + [e])[j] == y; }
    if i, j :| 0 <= i < j < |q + [e]| && (q + [e])[i] == x && (q + [e])[j] == y { assert q[i] == x && q[j] == y; }
  }

  /** After a put its entry is the most recent and the only one of its key, and the others are as they were. */
  lemma PutIsNewest(q: seq<Entry>, e: Entry)
    requires DistinctKeys(q)
    ensures var p := Linked(q, e); p != [] && p[|p| - 1] == e && DistinctKeys(p) && RestIs(p, q, e.key)
  {
    WithoutKeepsOrder(q, e.key);
    WithoutKeys(q, e.key);
    var w, p := Without(q, e.key), Linked(q, e);
    forall x: Entry, y: Entry | x.key != e.key && y.key != e.key ensures Before(p, x, y) <==> Before(q, x, y) {
      EndKeepsOrder(w, e, x, y);
    }
    forall i | 0 <= i < |w| ensures w[i].key != e.key { assert w[i] in w; }
  }

  /** After a get of k the entry of k is the most recent, and the others are as they were. */
  lemma GetIsNewest(q: seq<Entry>, k: Key)
    requires DistinctKeys(q) && Has(q, k)
    ensures var p := Touched(q, k);
      p != [] && p[|p| - 1] in q && p[|p| - 1].key == k && DistinctKeys(p) && RestIs(p, q, k)
  {
    HasIsIn(q, k);
    PutIsNewest(q, q[Find(q, k)]);
  }

  /** After a get of k an eviction takes every other entry before it takes that of k, and leaves that of k if it
      fits. */
  lemma GetOutlastsOthers(q: seq<Entry>, k: Key, capacity: int)
    requires DistinctKeys(q) && Has(q, k) && capacity >= 0
    ensures var p := Evicted(Touched(q, k), capacity);
      && (p != [] ==> p[|p| - 1] in q && p[|p| - 1].key == k)
      && (SizeOf(q, k) <= capacity ==> p != [])
  {
    GetIsNewest(q, k);
    var m := EvictionIsShortest(Touched(q, k), capacity);
    if SizeOf(q, k) <= capacity { NewestStays(Without(q, k), q[Find(q, k)], capacity); }
  }

  // ---------- the order of last use ----------

  /** The action is a use of key k: a put that stores, or a get that finds. */
  predicate Uses(s: State, a: Action, k: Key) {
    match a
    case Put(_, e, stored) => e.key == k && stored && e.size <= INT64_MAX - s.currentSize
    case Get(j) => j == k && k in s.table
    case _ => false
  }

  /** The number of the last action that used k, counted from 1; 0 if none did. */
  function LastUse(s: State, actions: seq<Action>, k: Key): nat {
    if actions == [] then 0
    else if UsesLast(s, actions, k) then |actions|
    else LastUse(s, actions[..|actions| - 1], k)
  }

  predicate UsesLast(s: State, actions: seq<Action>, k: Key)
    requires actions != []
  {
    Uses(After(s, actions[..|actions| - 1]), actions[|actions| - 1], k)
  }

  lemma {:induction false} LastUseIsPast(s: State, actions: seq<Action>, k: Key)
    ensures LastUse(s, actions, k) <= |actions|
  {
    if actions != [] { LastUseIsPast(s, actions[..|actions| - 1], k); }
  }

  /** The list runs from the entry that was used the longest time ago to the one used last. */
  ghost predicate ByLastUse(s: State, actions: seq<Action>, q: seq<Entry>) {
    forall i, j :: 0 <= i < j < |q| ==> LastUse(s, actions, q[i].key) < LastUse(s, actions, q[j].key)
  }

  /** Where the entry at i was before the one at c was cut out. */
  function Uncut(c: nat, i: nat): nat { if i < c then i else i + 1 }

  lemma CutAt(q: seq<Entry>, c: nat, i: nat)
    requires c < |q| && i < |q| - 1
    ensures (q[..c] + q[c + 1..])[i] == q[Uncut(c, i)]
  {
  }

  /** Leaving out an entry, with no use, keeps the order. */
  lemma LeavingOut(s: State, actions: seq<Action>, q: seq<Entry>, k: Key)
    requires ByLastUse(s, actions, q)
    ensures ByLastUse(s, actions, Without(q, k))
  {
    if Has(q, k) {
      var c, w := Find(q, k), Without(q, k);
      forall i, j | 0 <= i < j < |w| ensures LastUse(s, actions, w[i].key) < LastUse(s, actions, w[j].key) {
        CutAt(q, c, i);
        CutAt(q, c, j);
        assert LastUse(s, actions, q[Uncut(c, i)].key) < LastUse(s, actions, q[Uncut(c, j)].key);
      }
    }
  }

  /** A use of k moves its entry to the end. */
  lemma UsedGoesLast(s: State, actions: seq<Action>, q: seq<Entry>, e: Entry)
    requires actions != [] && DistinctKeys(q) && ByLastUse(s, actions[..|actions| - 1], q)
    requires forall k: Key {:trigger UsesLast(s, actions, k)} :: UsesLast(s, actions, k) <==> k == e.key
    ensures ByLastUse(s, actions, Linked(q, e))
  {
    var n := |actions| - 1;
    var w := Without(q, e.key);
    WithoutKeys(q, e.key);
    LeavingOut(s, actions[..n], q, e.key);
    forall i | 0 <= i < |w|
      ensures LastUse(s, actions, w[i].key) == LastUse(s, actions[..n], w[i].key) < LastUse(s, actions, e.key)
    {
      assert w[i] in w;
      LastUseIsPast(s, actions[..n], w[i].key);
    }
    forall i, j | 0 <= i < j < |w + [e]|
      ensures LastUse(s, actions, (w + [e])[i].key) < LastUse(s, actions, (w + [e])[j].key)
    {
      assert j < |w| ==> LastUse(s, actions[..n], w[i].key) < LastUse(s, actions[..n], w[j].key);
    }
  }

  lemma UnusedStays(s: State, actions: seq<Action>, q: seq<Entry>)
    requires actions != [] && ByLastUse(s, actions[..|actions| - 1], q)
    requires forall k: Key {:trigger UsesLast(s, actions, k)} :: !UsesLast(s, actions, k)
    ensures ByLastUse(s, actions, q)
  {
    var n := |actions| - 1;
    forall i, j | 0 <= i < j < |q| ensures LastUse(s, actions, q[i].key) < LastUse(s, actions, q[j].key) {
      assert LastUse(s, actions[..n], q[i].key) < LastUse(s, actions[..n], q[j].key);
    }
  }

  lemma OneMoreAction(s: State, actions: seq<Action>)
    requires actions != [] && Inv(After(s, actions[..|actions| - 1]))
    requires ByLastUse(s, actions[..|actions| - 1], After(s, actions[..|actions| - 1]).order)
    ensures ByLastUse(s, actions, After(s, actions).order)
  {
    var s1, a := After(s, actions[..|actions| - 1]), actions[|actions| - 1];
    match a
    case Put(_, e, stored) =>
      KeysOfTable(s1.order, s1.table, e.key);
      if stored && e.size <= INT64_MAX - s1.currentSize { UsedGoesLast(s, actions, s1.order, e); }
      else { UnusedStays(s, actions, s1.order); }
    case Get(k) =>
      KeysOfTable(s1.order, s1.table, k);
      if k in s1.table { HasIsIn(s1.order, k); UsedGoesLast(s, actions, s1.order, s1.order[Find(s1.order, k)]); }
      else { UnusedStays(s, actions, s1.order); }
    case Evict(k) =>
      UnusedStays(s, actions, s1.order);
      LeavingOut(s, actions, s1.order, k);
    case EvictRound(_) =>
      UnusedStays(s, actions, s1.order);
  }

  /** In every run of any number of threads the recency list is in the order of last use. */
  lemma {:induction false} ListIsByLastUse(s: State, actions: seq<Action>)
    requires Init(s) && AllAllowed(s, actions)
    ensures ByLastUse(s, actions, After(s, actions).order)
  {
    if actions != [] {
      var q := actions[..|actions| - 1];
      assert forall k :: 0 <= k < |q| ==> q[..k] == actions[..k];
      ListIsByLastUse(s, q);
      RunKeepsInv(s, q);
      OneMoreAction(s, actions);
    }
  }

  /** From s to s' entry e leaves the list, the table and the size, and nothing else changes there. */
  ghost predicate Loses(s: State, s': State, e: Entry) {
    && e in s.order && s'.table == s.table - {e.key} && s'.currentSize == s.currentSize - e.size
    && forall x: Entry :: x in s'.order <==> x in s.order && x != e
  }

  lemma RoundLoses(s: State, i: nat)
    requires Inv(s) && i < |s.flying| && s.currentSize > s.capacity
    ensures s.order != [] && Do(s, EvictRound(i)).order == s.order[1..] && Loses(s, Do(s, EvictRound(i)), s.order[0])
  {
    RoundKeeps(s, i);
    assert s.order == [s.order[0]] + s.order[1..];
    forall x: Entry | x in s.order[1..] ensures x != s.order[0] { var j :| 1 <= j < |s.order| && s.order[j] == x; }
  }

  lemma FirstIsOldest(s: State, actions: seq<Action>, q: seq<Entry>, x: Entry)
    requires ByLastUse(s, actions, q) && q != [] && x in q && x != q[0]
    ensures LastUse(s, actions, q[0].key) < LastUse(s, actions, x.key)
  {
    var j :| 0 <= j < |q| && q[j] == x;
  }

  /** A round of an eviction above the capacity takes out one entry: the one that has not been used for the longest
      time. */
  lemma EvictsLeastRecentlyUsed(s: State, actions: seq<Action>, i: nat) returns (e: Entry)
    requires Init(s) && AllAllowed(s, actions)
    requires var s1 := After(s, actions); i < |s1.flying| && s1.currentSize > s1.capacity
    ensures Loses(After(s, actions), Do(After(s, actions), EvictRound(i)), e)
    ensures forall x: Entry :: x in After(s, actions).order && x != e ==>
      LastUse(s, actions, e.key) < LastUse(s, actions, x.key)
  {
    var s1 := After(s, actions);
    ListIsByLastUse(s, actions);
    RunKeepsInv(s, actions);
    RoundLoses(s1, i);
    e := s1.order[0];
    forall x: Entry | x in s1.order && x != e ensures LastUse(s, actions, e.key) < LastUse(s, actions, x.key) {
      FirstIsOldest(s, actions, s1.order, x);
    }
  }

  // ---------- what each action does ----------

  /** The entry of k is e, the most recent, and the others are as they were. */
  ghost predicate Renewed(q': seq<Entry>, q: seq<Entry>, e: Entry) {
    q' != [] && q'[|q'| - 1] == e && RestIs(q', q, e.key)
  }

  /** A put that is not refused stores its entry as the most recent one, a get that finds renews its entry, an evict
      takes out its key, and a round within the capacity ends its put; whatever is refused, or not found, changes
      nothing. */
  lemma ActionDoes(s: State, a: Action)
    requires Inv(s) && Allowed(s, a)
    ensures var s' := Do(s, a);
      match a
      case Put(t, e, stored) =>
        if stored && e.size <= INT64_MAX - s.currentSize
        then Renewed(s'.order, s.order, e) && s'.table == s.table[e.key := e.item]
        else s' == s
      case Get(k) =>
        if k in s.table
        then s'.table == s.table && exists e: Entry :: e in s.order && e.key == k && Renewed(s'.order, s.order, e)
        else s' == s
      case Evict(k) => k !in s'.table && s'.table == s.table - {k} && !Has(s'.order, k) && RestIs(s'.order, s.order, k)
      case EvictRound(i) =>
        s.currentSize <= s.capacity ==> s'.order == s.order && s'.table == s.table && |s'.flying| == |s.flying| - 1
  {
    match a
    case Put(t, e, stored) =>
      KeysOfTable(s.order, s.table, e.key);
      PutIsNewest(s.order, e);
    case Get(k) =>
      KeysOfTable(s.order, s.table, k);
      if k in s.table {
        GetIsNewest(s.order, k);
        var q := Touched(s.order, k);
        assert Renewed(q, s.order, q[|q| - 1]);
      }
    case Evict(k) =>
      KeysOfTable(s.order, s.table, k);
      WithoutKeepsOrder(s.order, k);
    case EvictRound(i) =>
  }
}
