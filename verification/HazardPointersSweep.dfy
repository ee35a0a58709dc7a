/** What a reclaim call does not promise. It collects the hazards before it detaches the pending list, so an entry that
    was retired and handed over in between may be reclaimed while its node is guarded. This is a run in which every
    caller does as promised, and to which HazardPointersTheorems.ReclaimIsSafe does not extend. */
module HazardPointersSweep {
  import opened Memory
  import opened HazardPointers
  import opened HazardPointersSafety
  import opened HazardPointersTheorems

  function Start(): State {
    State(0, t => false, t => Null, t => Null, r => Null, r => Null, t => [], t => 0, 1, [],
          t => Local(Absent, 0, 0, Null, Null, Null, Null, -1, {}, [], [], 0),
          0, 0, r => Unborn, r => 0, r => false, n => NotRetired, n => 0)
  }

  const YES := Env(true)

  /** A run from the start, and what holds after it. */
  ghost predicate Reached(q: seq<Action>, s: State) { AllAllowed(Start(), q) && After(Start(), q) == s }

  lemma Extend(q: seq<Action>, s: State, a: Action) returns (q': seq<Action>, s': State)
    requires Reached(q, s) && Allowed(s, a)
    ensures Reached(q', s') && s' == Do(s, a)
  {
    OneMore(Start(), q, a);
    q', s' := q + [a], Do(s, a);
  }

  lemma Acquires(q: seq<Action>, s: State, t: Tid) returns (q': seq<Action>, s': State)
    requires Reached(q, s) && InAcquire(s.local(t).pc)
    ensures Reached(q', s') && s' == Tick(Acquiring(s, t, YES))
  {
    MoveIs(s, t, YES);
    q', s' := Extend(q, s, Move(t, YES));
  }

  lemma Scans(q: seq<Action>, s: State, t: Tid) returns (q': seq<Action>, s': State)
    requires Reached(q, s) && InScan(s.local(t).pc)
    ensures Reached(q', s') && s' == Tick(Run(s, t, Scanning(s, s.local(t), YES)))
  {
    MoveIs(s, t, YES);
    q', s' := Extend(q, s, Move(t, YES));
  }

  lemma Uses(q: seq<Action>, s: State, t: Tid) returns (q': seq<Action>, s': State)
    requires Reached(q, s) && InUse(s.local(t).pc)
    ensures Reached(q', s') && s' == Tick(Using(s, t))
  {
    MoveIs(s, t, YES);
    q', s' := Extend(q, s, Move(t, YES));
  }

  lemma Parks(q: seq<Action>, s: State, t: Tid) returns (q': seq<Action>, s': State)
    requires Reached(q, s) && InPark(s.local(t).pc)
    ensures Reached(q', s') && s' == Tick(Parking(s, t))
  {
    MoveIs(s, t, YES);
    q', s' := Extend(q, s, Move(t, YES));
  }

  /** Nobody but thread 0 is there, and it is at pc. */
  ghost predicate Alone(s: State, pc: Pc) {
    && s.threads == 1 && s.active(0) && s.local(0).pc == pc && s.head(0).Null? && s.list(0) == [1] && s.count(0) == 1
    && s.pending == [] && s.place(2).NotRetired? && s.records == 0 && forall r: Rec :: s.rec(r).Unborn?
  }

  /** Thread 0 has collected the hazards, when there were none, and is to use them. */
  ghost predicate Collected(s: State) {
    && s.local(0).pc.Filter? && s.local(0).found == {} && s.local(0).kept == [] && s.list(0) == [1] && s.count(0) == 1
  }

  lemma Registers() returns (q: seq<Action>, s: State)
    ensures Reached(q, s) && Alone(s, ScanHead) && s.local(0).found == {}
  {
    q, s := [], Start();
    q, s := Extend(q, s, Register);
    q, s := Extend(q, s, Reclaim(0, 1, YES));
    q, s := Scans(q, s, 0);
  }

  lemma ReadsHead() returns (q: seq<Action>, s: State)
    ensures Reached(q, s) && Alone(s, ScanActive) && s.local(0).found == {} && s.local(0).at == 0
  {
    q, s := Registers();
    q, s := Scans(q, s, 0);
  }

  lemma ReadsActive() returns (q: seq<Action>, s: State)
    ensures Reached(q, s) && Alone(s, ScanPointers) && s.local(0).found == {} && s.local(0).at == 0
  {
    q, s := ReadsHead();
    q, s := Scans(q, s, 0);
  }

  lemma Collects() returns (q: seq<Action>, s: State)
    ensures Reached(q, s) && Alone(s, Filter) && Collected(s)
  {
    q, s := ReadsActive();
    q, s := Scans(q, s, 0);
  }

  /** Thread 1 is acquiring a record for node 2; thread 2 does nothing yet. */
  ghost predicate Acquiring1(s: State, pc: Pc) {
    && Collected(s) && s.threshold == 2 && s.threads == 3 && s.pending == [] && s.place(2).NotRetired?
    && s.local(1).pc == pc && s.local(1).node == 2 && s.free(1).Null? && s.records <= 1
    && s.local(2).pc.Idle? && s.list(2) == [] && s.count(2) == 0
    && (forall r: Rec :: s.rec(r).Unborn? || (r == 0 && s.rec(r).who == 1))
  }

  lemma Joins() returns (q: seq<Action>, s: State)
    ensures Reached(q, s) && Acquiring1(s, TakeFree) && s.records == 0
  {
    q, s := Collects();
    q, s := Extend(q, s, SetThreshold(2));
    q, s := Extend(q, s, Register);
    q, s := Extend(q, s, Register);
    q, s := Extend(q, s, Acquire(1, 2));
  }

  lemma Allocates() returns (q: seq<Action>, s: State)
    ensures Reached(q, s) && Acquiring1(s, TakeHead) && s.local(1).rec == 0
  {
    q, s := Joins();
    q, s := Acquires(q, s, 1);
  }

  lemma Takes() returns (q: seq<Action>, s: State)
    ensures Reached(q, s) && Acquiring1(s, SetNext) && s.local(1).rec == 0 && s.node(0) == To(2)
  {
    q, s := Allocates();
    q, s := Acquires(q, s, 1);
    q, s := Acquires(q, s, 1);
  }

  lemma Pushes() returns (q: seq<Action>, s: State)
    ensures Reached(q, s) && Acquiring1(s, Idle) && s.rec(0) == Held(1) && s.node(0) == To(2)
  {
    q, s := Takes();
    q, s := Acquires(q, s, 1);
    q, s := Acquires(q, s, 1);
  }

  /** Thread 2 is to hand node 2 over, which thread 1 guards. */
  ghost predicate HandingOver(s: State, pc: Pc) {
    && Collected(s) && s.pending == [] && s.list(2) == [2] && s.local(2).pc == pc && Guards(s, 1, 0, 2)
    && forall r: Rec :: s.rec(r) != Held(2)
  }

  lemma Retires() returns (q: seq<Action>, s: State)
    ensures Reached(q, s) && HandingOver(s, Idle)
  {
    q, s := Pushes();
    q, s := Extend(q, s, Validate(1, 0));
    q, s := Extend(q, s, Reclaim(2, 2, YES));
  }

  lemma ReadsPending() returns (q: seq<Action>, s: State)
    ensures Reached(q, s) && HandingOver(s, ParkPush) && s.local(2).h.Null?
  {
    q, s := Retires();
    q, s := Extend(q, s, Unregister(2));
    q, s := Parks(q, s, 2);
  }

  /** Node 2 is pending, and guarded. */
  ghost predicate HandedOver(s: State) {
    s.local(0).found == {} && s.local(0).kept == [] && s.pending == [2] && Guards(s, 1, 0, 2)
  }

  lemma Hands() returns (q: seq<Action>, s: State)
    ensures Reached(q, s) && Collected(s) && HandedOver(s)
  {
    q, s := ReadsPending();
    q, s := Parks(q, s, 2);
  }

  lemma Filters() returns (q: seq<Action>, s: State)
    ensures Reached(q, s) && s.local(0).pc.Filter? && s.list(0) == [] && HandedOver(s)
  {
    q, s := Hands();
    q, s := Uses(q, s, 0);
  }

  lemma EndsFilter() returns (q: seq<Action>, s: State)
    ensures Reached(q, s) && s.local(0).pc.SweepTake? && HandedOver(s)
  {
    q, s := Filters();
    q, s := Uses(q, s, 0);
  }

  lemma Sweeps() returns (q: seq<Action>, s: State)
    ensures Reached(q, s) && Guards(s, 1, 0, 2) && s.place(2) == Swept(0)
    ensures s.local(0).pc.SweepEach? && s.local(0).todo == [2] && s.local(0).found == {}
  {
    q, s := EndsFilter();
    q, s := Uses(q, s, 0);
  }

  lemma SweepsGuarded(s: State)
    requires Guards(s, 1, 0, 2) && s.place(2) == Swept(0)
    requires s.local(0).pc.SweepEach? && s.local(0).todo == [2] && s.local(0).found == {}
    ensures Reclaims(s, Move(0, YES), 2)
  {
    MoveIs(s, 0, YES);
  }

  lemma StartIsInit()
    ensures Init(Start())
  {
  }

  /** From the start, and with every promise of the callers kept, a swept node is reclaimed while it is guarded. */
  lemma SweptWhileGuarded() returns (q: seq<Action>, a: Action)
    ensures Init(Start()) && AllAllowed(Start(), q) && Allowed(After(Start(), q), a)
    ensures Reclaims(After(Start(), q), a, 2) && Guards(After(Start(), q), 1, 0, 2)
  {
    var s;
    q, s := Sweeps();
    a := Move(0, YES);
    StartIsInit();
    SweepsGuarded(s);
  }
}
