/** Each call of the queue, however the steps of others come between its own: an enqueue that returns has appended its
    item, once; a dequeue takes one item out exactly when it answers one; peek and is_empty take none. */
module MpscQueueCalls {
  import opened Memory
  import opened MpscQueue
  import opened MpscQueueTheorems

  lemma WithoutLast(s: State, actions: seq<Action>)
    requires actions != [] && AllAllowed(s, actions)
    ensures var q := actions[..|actions| - 1]; AllAllowed(s, q) && Allowed(After(s, q), actions[|actions| - 1])
    ensures forall k :: 0 <= k < |actions| ==> actions[..|actions| - 1][..k] == actions[..k]
  {
    var q := actions[..|actions| - 1];
    assert forall k :: 0 <= k < |actions| ==> q[..k] == actions[..k];
  }

  lemma {:induction false} RunFrom(s: State, actions: seq<Action>)
    requires Inv(s) && AllAllowed(s, actions)
    ensures Inv(After(s, actions))
  {
    if actions != [] {
      WithoutLast(s, actions);
      RunFrom(s, actions[..|actions| - 1]);
      ActionEffect(After(s, actions[..|actions| - 1]), actions[|actions| - 1]);
    }
  }

  // ---------- enqueue ----------

  /** The enqueue of t runs over all the actions. */
  ghost predicate InEnqueue(s: State, actions: seq<Action>, t: Tid) {
    forall k :: 0 <= k <= |actions| ==> !After(s, actions[..k]).producer(t).pc.EnqIdle?
  }

  /** How often t appended i in the run. */
  function AppendCount(s: State, actions: seq<Action>, t: Tid, i: Item): nat {
    if actions == [] then 0
    else
      var s1, a := After(s, actions[..|actions| - 1]), actions[|actions| - 1];
      AppendCount(s, actions[..|actions| - 1], t, i)
      + if Appends(s1, a) && a.t == t && s1.producer(t).item == i then 1 else 0
  }

  /** An enqueue goes on with its item until its CAS succeeds. */
  lemma EnqueueGoesOn(s: State, a: Action, t: Tid)
    requires Allowed(s, a) && !s.producer(t).pc.EnqIdle?
    ensures Do(s, a).producer(t).pc.EnqIdle? <==> Appends(s, a) && a.t == t
    ensures Do(s, a).producer(t).item == s.producer(t).item
  {
  }

  lemma {:induction false} NoneYet(s: State, actions: seq<Action>, t: Tid, i: Item)
    requires AllAllowed(s, actions) && InEnqueue(s, actions, t) && s.producer(t).item == i
    ensures AppendCount(s, actions, t, i) == 0 && After(s, actions).producer(t).item == i
  {
    if actions != [] {
      var q := actions[..|actions| - 1];
      WithoutLast(s, actions);
      assert InEnqueue(s, q, t);
      NoneYet(s, q, t, i);
      assert actions[..|q|] == q && actions[..|actions|] == actions;
      EnqueueGoesOn(After(s, q), actions[|q|], t);
    }
  }

  /** An enqueue that returns has appended its item once, and returns with the step that does. */
  lemma EnqueueAppendsOnce(s: State, actions: seq<Action>, t: Tid, i: Item)
    requires Inv(s) && Allowed(s, BeginEnqueue(t, i)) && actions != []
    requires var s1 := Do(s, BeginEnqueue(t, i));
      && AllAllowed(s1, actions) && InEnqueue(s1, actions[..|actions| - 1], t)
      && After(s1, actions).producer(t).pc.EnqIdle?
    ensures var s1, q := Do(s, BeginEnqueue(t, i)), actions[..|actions| - 1];
      AppendCount(s1, actions, t, i) == 1 && Queue(After(s1, actions)) == Queue(After(s1, q)) + [i]
  {
    var s1, q := Do(s, BeginEnqueue(t, i)), actions[..|actions| - 1];
    ActionEffect(s, BeginEnqueue(t, i));
    WithoutLast(s1, actions);
    NoneYet(s1, q, t, i);
    RunFrom(s1, q);
    assert q[..|q|] == q;
    EnqueueGoesOn(After(s1, q), actions[|q|], t);
    ActionEffect(After(s1, q), actions[|q|]);
  }

  // ---------- dequeue, peek and is_empty ----------

  /** What a call is to answer for the queue as it is in s. */
  function RightAnswer(s: State, c: Call): Answer {
    if c.IsEmpty? then Empty(Queue(s) == []) else if Queue(s) == [] then GotNull else Got(Queue(s)[0])
  }

  /** How often the oldest item was taken out in the run. */
  function PopCount(s: State, actions: seq<Action>): nat {
    if actions == [] then 0
    else
      var s1, a := After(s, actions[..|actions| - 1]), actions[|actions| - 1];
      PopCount(s, actions[..|actions| - 1]) + if Pops(s1, a) then 1 else 0
  }

  /** The answer is right for the queue before the k-th action, with which it leaves the queue if the call is
      dequeue. */
  ghost predicate SettledAt(s: State, actions: seq<Action>, c: Call, r: Answer, k: nat)
    requires k < |actions|
  {
    var s1 := After(s, actions[..k]);
    r == RightAnswer(s1, c) && (Pops(s1, actions[k]) <==> c.Dequeue? && r.Got?)
  }

  ghost predicate Settled(s: State, actions: seq<Action>, c: Call, r: Answer) {
    exists k: nat :: k < |actions| && SettledAt(s, actions, c, r, k)
  }

  lemma SettledLonger(s: State, actions: seq<Action>, c: Call, r: Answer)
    requires actions != []
    ensures Settled(s, actions[..|actions| - 1], c, r) ==> Settled(s, actions, c, r)
  {
    var q := actions[..|actions| - 1];
    if k: nat :| k < |q| && SettledAt(s, q, c, r, k) {
      assert q[..k] == actions[..k] && SettledAt(s, actions, c, r, k);
    }
  }

  ghost predicate InCall(s: State, actions: seq<Action>) {
    forall k :: 0 <= k <= |actions| ==> !After(s, actions[..k]).consumer.pc.DeqIdle?
  }

  /** Where a call of the consumer stands. */
  ghost predicate CallStands(s: State, actions: seq<Action>, c: Call) {
    var l := After(s, actions).consumer;
    && l.call == c
    && (if l.pc.Return? then Settled(s, actions, c, l.answer) else PopCount(s, actions) == 0)
    && (l.pc.Return? ==> PopCount(s, actions) == if c.Dequeue? && l.answer.Got? then 1 else 0)
  }

  lemma ConsumerGoesOn(s: State, a: Action)
    requires Inv(s) && Allowed(s, a) && !s.consumer.pc.DeqIdle? && !Do(s, a).consumer.pc.DeqIdle?
    ensures var l, l' := s.consumer, Do(s, a).consumer;
      && l'.call == l.call
      && (l.pc.Return? ==> l'.pc.Return? && l'.answer == l.answer && !Pops(s, a))
      && (!l.pc.Return? && l'.pc.Return? ==>
         l'.answer == RightAnswer(s, l.call) && (Pops(s, a) <==> l.call.Dequeue? && l'.answer.Got?))
      && (!l'.pc.Return? ==> !Pops(s, a))
  {
    if a.Consume? && !s.consumer.pc.Return? && Do(s, a).consumer.pc.Return? {
      AnswerIsRight(s);
      PopIsAnswer(s);
    }
  }

  lemma PopIsAnswer(s: State)
    requires Inv(s) && s.consumer.pc != Return && Do(s, Consume).consumer.pc == Return
    ensures Pops(s, Consume) <==> s.consumer.call.Dequeue? && Do(s, Consume).consumer.answer.Got?
  {
    if s.consumer.pc.Publish? { ReversedIsQueue(s); }
  }

  lemma SettlesNow(s: State, actions: seq<Action>, c: Call, r: Answer)
    requires actions != [] && SettledAt(s, actions, c, r, |actions| - 1)
    ensures Settled(s, actions, c, r)
  {
  }

  /** One action more in a call. */
  lemma CallGoesOn(s: State, actions: seq<Action>, c: Call)
    requires actions != [] && CallStands(s, actions[..|actions| - 1], c)
    requires var s1, a := After(s, actions[..|actions| - 1]), actions[|actions| - 1];
      Inv(s1) && Allowed(s1, a) && !s1.consumer.pc.DeqIdle? && !Do(s1, a).consumer.pc.DeqIdle?
    ensures CallStands(s, actions, c)
  {
    var s1, a := After(s, actions[..|actions| - 1]), actions[|actions| - 1];
    var l' := Do(s1, a).consumer;
    ConsumerGoesOn(s1, a);
    if s1.consumer.pc.Return? { SettledLonger(s, actions, c, l'.answer); }
    else if l'.pc.Return? { SettlesNow(s, actions, c, l'.answer); }
  }

  lemma {:induction false} CallRun(s: State, actions: seq<Action>, c: Call)
    requires Inv(s) && AllAllowed(s, actions) && InCall(s, actions) && s.consumer.call == c
      && s.consumer.pc.ReadDequeueHead?
    ensures CallStands(s, actions, c)
  {
    if actions != [] {
      var q := actions[..|actions| - 1];
      WithoutLast(s, actions);
      assert InCall(s, q);
      CallRun(s, q, c);
      RunFrom(s, q);
      assert actions[..|q|] == q && actions[..|actions|] == actions;
      CallGoesOn(s, actions, c);
    }
  }

  /** A call of the consumer that returns answers for the queue as it was at one moment of the call; dequeue takes its
      answer out at that moment, and no call takes out anything else. */
  lemma CallAnswersOnce(s: State, actions: seq<Action>, c: Call)
    requires Inv(s) && Allowed(s, BeginCall(c))
    requires var s1 := Do(s, BeginCall(c));
      AllAllowed(s1, actions) && InCall(s1, actions) && After(s1, actions).consumer.pc.Return?
    ensures var s1 := Do(s, BeginCall(c)); var r := After(s1, actions).consumer.answer;
      Settled(s1, actions, c, r) && PopCount(s1, actions) == if c.Dequeue? && r.Got? then 1 else 0
  {
    ActionEffect(s, BeginCall(c));
    CallRun(Do(s, BeginCall(c)), actions, c);
  }
}
