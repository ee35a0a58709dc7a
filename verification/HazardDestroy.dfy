/** Destroying a hazard pointers instance after any run of its threads (src/clds_hazard_pointers.c:454-502): with no
    call under way, no hazard pointer held, and memory for the sets, every node that was ever handed in has been
    reclaimed, once. */
module HazardDestroy {
  import opened StHashSet
  import opened HazardReclaim
  import H = HazardPointers
  import HC = HazardPointersCalls
  import HT = HazardPointersTheorems

  /** Thread t of the domain is thread t of the state. */
  ghost predicate ShowsThread(s: H.State, d: Domain, t: nat)
    requires t < |d.active| == |d.hazards| == |d.lists| == |d.counts|
    reads d
  {
    && d.active[t] == s.active(t) && d.lists[t] == s.list(t) && d.counts[t] == s.count(t)
    && forall n: Node :: n in d.hazards[t] && n != NULL <==> n != NULL && exists r: H.Rec :: OnRecord(s, t, r, n)
  }

  ghost predicate OnRecord(s: H.State, t: nat, r: H.Rec, n: Node) { H.Listed(s, t, r) && s.node(r) == H.To(n) }

  /** The domain is what the run has come to. */
  ghost predicate Shows(s: H.State, d: Domain)
    reads d
  {
    && |d.active| == |d.hazards| == |d.lists| == |d.counts| == s.threads && d.pending == s.pending
    && (forall t: nat :: t < s.threads ==> ShowsThread(s, d, t))
    && (forall n: Node :: multiset(d.reclaimed)[n] == if s.place(n).Done? then 1 else 0)
  }

  /** No call is under way, and nobody holds a hazard pointer. */
  ghost predicate Quiet(s: H.State) {
    && (forall t: nat {:trigger s.local(t)} :: s.local(t).pc.Idle? || s.local(t).pc.Absent? || s.local(t).pc.Gone?)
    && (forall r: H.Rec, t: nat :: s.rec(r) != H.Held(t))
  }

  /** The run from start has come to an end with no call under way and nothing held. */
  ghost predicate EndOfRun(start: H.State, run: seq<H.Action>) {
    H.Init(start) && HT.AllAllowed(start, run) && Quiet(HT.After(start, run))
  }

  // ---------- counting ----------

  lemma {:induction false} OnceInDistinct(q: seq<Node>, n: Node)
    requires H.Distinct(q)
    ensures multiset(q)[n] == if n in q then 1 else 0
  {
    if q != [] {
      assert q == [q[0]] + q[1..];
      OnceInDistinct(q[1..], n);
    }
  }

  /** A node that is on list t alone, and once there, is counted once; one that is on none is not counted. */
  lemma {:induction false} TotalOnce(lists: seq<seq<Node>>, n: Node, t: int)
    requires forall i :: 0 <= i < |lists| ==> H.Distinct(lists[i]) && (n in lists[i] <==> i == t)
    ensures Total(lists)[n] == if 0 <= t < |lists| then 1 else 0
  {
    if lists != [] {
      OnceInDistinct(lists[0], n);
      TotalOnce(lists[1..], n, t - 1);
    }
  }

  lemma PlaceTimes(s: H.State, d: Domain, n: Node)
    requires HT.Inv(s) && Shows(s, d) && Quiet(s)
    ensures Times(d.lists, d.pending, d.reclaimed, n) == if s.place(n).NotRetired? then 0 else 1
  {
    assert H.EntryOk(s, n);
    var p := s.place(n);
    assert p.Swept? ==> n in H.Chain(s.local(p.who));
    var t := if p.OnList? then p.who as int else -1;
    forall i | 0 <= i < |d.lists| ensures H.Distinct(d.lists[i]) && (n in d.lists[i] <==> i == t) {
      assert ShowsThread(s, d, i) && H.EntryLocalOk(s, i);
    }
    if p.OnList? { assert H.EntryLocalOk(s, p.who) && H.RecLocalOk(s, p.who); }
    TotalOnce(d.lists, n, t);
    OnceInDistinct(d.pending, n);
  }

  /** How often a node is to be reclaimed: once if it was handed to reclaim in the run, with memory for its entry. */
  function Owed(run: seq<H.Action>, n: Node): nat { if HC.HandedIn(run, n) then 1 else 0 }

  /** What is reclaimed or still to be reclaimed is each node that was handed in, once. */
  ghost predicate Owes(d: Domain, run: seq<H.Action>)
    reads d
  {
    forall n: Node :: Times(d.lists, d.pending, d.reclaimed, n) == Owed(run, n)
  }

  /** At the end of a run, with no call under way, a node that was handed in is in one place: reclaimed, pending, or on
      one reclaim list; a node that was not is nowhere. */
  lemma QuietTimes(start: H.State, run: seq<H.Action>, d: Domain, n: Node)
    requires EndOfRun(start, run) && Shows(HT.After(start, run), d)
    ensures Times(d.lists, d.pending, d.reclaimed, n) == Owed(run, n)
  {
    HT.InitHolds(start);
    HT.RunKeepsInv(start, run);
    HC.PlaceIsHistory(start, run, n);
    PlaceTimes(HT.After(start, run), d, n);
  }

  // ---------- no hazards ----------

  lemma {:induction false} NothingStored(q: seq<Node>)
    requires forall i :: 0 <= i < |q| ==> q[i] == NULL
    ensures Stored(q) == 0 && NonNull(q) == {}
  {
    if q != [] { NothingStored(q[1..]); }
  }

  lemma {:induction false} NoneIsFound(active: seq<bool>, hazards: seq<seq<Node>>, n: nat)
    requires n <= |active| == |hazards| && forall i, j :: 0 <= i < n && 0 <= j < |hazards[i]| ==> hazards[i][j] == NULL
    ensures HazardSet(active, hazards, n) == {} && HazardCount(active, hazards, n) == 0
  {
    if n > 0 {
      NoneIsFound(active, hazards, n - 1);
      NothingStored(hazards[n - 1]);
    }
  }

  ghost predicate NoHazards(d: Domain)
    requires |d.active| == |d.hazards|
    reads d
  {
    HazardSet(d.active, d.hazards, |d.active|) == {} && HazardCount(d.active, d.hazards, |d.active|) == 0
  }

  lemma QuietHasNoHazards(s: H.State, d: Domain)
    requires HT.Inv(s) && Shows(s, d) && Quiet(s)
    ensures NoHazards(d)
  {
    forall i, j | 0 <= i < |d.hazards| && 0 <= j < |d.hazards[i]| ensures d.hazards[i][j] == NULL {
      assert ShowsThread(s, d, i) && d.hazards[i][j] in d.hazards[i];
      forall r: H.Rec, n: Node ensures !OnRecord(s, i, r, n) { assert H.RecOk(s, r); }
    }
    NoneIsFound(d.active, d.hazards, |d.active|);
  }

  // ---------- destroy ----------

  /** With no hazards a cycle that has memory for its set leaves nothing of its list. */
  lemma CycleLeavesNothing(d: Domain, i: nat, memory: nat -> Memory)
    requires d.Valid() && i < |d.lists| && NoHazards(d) && memory(i)(0)
    ensures d.LeftOn(i, d.lists[i], memory) == []
  {
    d.NothingIsLost(i, d.lists[i], memory);
  }

  lemma OnlyReclaimed(lists: seq<seq<Node>>, reclaimed: seq<Node>, n: Node)
    requires forall i :: 0 <= i < |lists| ==> lists[i] == []
    ensures Times(lists, [], reclaimed, n) == multiset(reclaimed)[n]
  {
    NothingLeft(lists);
  }

  /** With no hazards, a cycle for each thread and the drain of the pending list leave nothing. */
  method ReclaimAll(d: Domain, memory: nat -> Memory, ghost run: seq<H.Action>)
    requires d.Valid() && Owes(d, run) && NoHazards(d)
    requires forall t :: 0 <= t < |d.lists| ==> memory(t)(0)
    modifies d`lists, d`counts, d`pending, d`reclaimed
    ensures d.pending == [] && forall i :: 0 <= i < |d.lists| ==> d.lists[i] == []
    ensures forall n: Node :: multiset(d.reclaimed)[n] == Owed(run, n)
  {
    forall i | 0 <= i < |d.lists| { CycleLeavesNothing(d, i, memory); }
    d.Destroy(memory);
    forall n: Node ensures multiset(d.reclaimed)[n] == Owed(run, n) { OnlyReclaimed(d.lists, d.reclaimed, n); }
  }

  /** destroy after a run: nothing remains, and over the run and the destroy the reclaim function was called once for
      every node that the run handed in, and for no other. */
  method Destroy(ghost start: H.State, ghost run: seq<H.Action>, d: Domain, memory: nat -> Memory)
    requires EndOfRun(start, run) && Shows(HT.After(start, run), d)
    requires d.Valid() && forall t :: 0 <= t < |d.lists| ==> memory(t)(0)
    modifies d`lists, d`counts, d`pending, d`reclaimed
    ensures d.pending == [] && forall i :: 0 <= i < |d.lists| ==> d.lists[i] == []
    ensures forall n: Node :: multiset(d.reclaimed)[n] == if HC.HandedIn(run, n) then 1 else 0
  {
    HT.InitHolds(start);
    HT.RunKeepsInv(start, run);
    QuietHasNoHazards(HT.After(start, run), d);
    forall n: Node ensures Times(d.lists, d.pending, d.reclaimed, n) == Owed(run, n) { QuietTimes(start, run, d, n); }
    ReclaimAll(d, memory, run);
  }
}
