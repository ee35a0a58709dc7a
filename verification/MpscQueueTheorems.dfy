/** In every run the queue is first in, first out, in the order of the enqueue CAS. */
module MpscQueueTheorems {
  import opened Memory
  import opened MpscQueue

  // ---------- lists ----------

  lemma {:induction false} TurnedAppend(q: seq<Item>, i: Item)
    ensures Turned([i] + q) == Turned(q) + [i]
  {
    assert ([i] + q)[1..] == q;
  }

  /** A store to an item that is not on the list leaves the list alone. */
  lemma ChainKeeps(next: Item -> Ptr, p: Ptr, q: seq<Item>, x: Item, v: Ptr)
    requires Chain(next, p, q) && x !in q
    ensures Chain(Put(next, x, v), p, q)
  {
  }

  lemma ChainTail(next: Item -> Ptr, p: Ptr, q: seq<Item>)
    requires Chain(next, p, q) && p.To?
    ensures q != [] && p.item == q[0] && Chain(next, next(p.item), q[1..])
  {
    forall i {:trigger next(q[1..][i])} | 0 <= i < |q| - 1 ensures next(q[1..][i]) == PtrAt(q[1..], i + 1) {
      assert next(q[i + 1]) == PtrAt(q, i + 2);
    }
    assert next(q[0]) == PtrAt(q, 1);
  }

  lemma ChainPush(next: Item -> Ptr, p: Ptr, q: seq<Item>, x: Item)
    requires Chain(next, p, q) && next(x) == p
    ensures Chain(next, To(x), [x] + q)
  {
    forall i {:trigger next(([x] + q)[i])} | 0 <= i < |q| + 1 ensures next(([x] + q)[i]) == PtrAt([x] + q, i + 1) {
      if i > 0 { assert next(q[i - 1]) == PtrAt(q, i); }
    }
  }

  // ---------- producers ----------

  /** A producer's steps before its CAS leave the lists alone. */
  lemma ProducerKeeps(s: State, t: Tid)
    requires Inv(s) && !(s.producer(t).pc.CasHead? && s.enqueueHead == s.producer(t).head)
    ensures Inv(Do(s, Enqueue(t))) && Queue(Do(s, Enqueue(t))) == Queue(s)
  {
    var s', l := Do(s, Enqueue(t)), s.producer(t);
    assert ProducerOk(s, t) && ItemOk(s, l.item);
    if l.pc.SetNext? {
      ChainKeeps(s.next, s.dequeueHead, s.d, l.item, l.head);
      ChainKeeps(s.next, s.enqueueHead, s.e, l.item, l.head);
      if s.consumer.pc.Reverse? || s.consumer.pc.Publish? {
        ChainKeeps(s.next, s.consumer.cur, s.u, l.item, l.head);
        ChainKeeps(s.next, s.consumer.newHead, s.r, l.item, l.head);
      }
    }
    forall i: Item ensures ItemOk(s', i) { assert ItemOk(s, i); }
    forall u: Tid ensures ProducerOk(s', u) { assert ProducerOk(s, u); }
  }

  /** The enqueue CAS appends its item to the queue. */
  lemma CasAppends(s: State, t: Tid)
    requires Inv(s) && s.producer(t).pc.CasHead? && s.enqueueHead == s.producer(t).head
    ensures Inv(Do(s, Enqueue(t))) && Queue(Do(s, Enqueue(t))) == Queue(s) + [s.producer(t).item]
  {
    var s', l := Do(s, Enqueue(t)), s.producer(t);
    assert ProducerOk(s, t) && ItemOk(s, l.item);
    ChainPush(s.next, s.enqueueHead, s.e, l.item);
    TurnedAppend(s.e, l.item);
    assert Queue(s') == Queue(s) + [l.item];
    forall i: Item ensures ItemOk(s', i) { assert ItemOk(s, i); }
    forall u: Tid ensures ProducerOk(s', u) { assert ProducerOk(s, u); }
  }

  // ---------- the consumer ----------

  lemma DistinctTail(q: seq<Item>)
    requires Distinct(q) && q != []
    ensures Distinct(q[1..]) && forall i: Item :: i in q[1..] <==> i in q && i != q[0]
  {
    assert q == [q[0]] + q[1..];
    forall i: Item | i in q[1..] ensures i != q[0] {
      var k :| 0 <= k < |q| - 1 && q[1..][k] == i;
      assert q[k + 1] == i;
    }
  }

  /** Popping the dequeue list takes the oldest item. */
  lemma AdvancePops(s: State)
    requires Inv(s) && s.consumer.pc.Advance?
    ensures Inv(Do(s, Consume)) && Queue(s) == [s.d[0]] + Queue(Do(s, Consume))
      && Do(s, Consume).consumer.answer == Got(s.d[0])
  {
    var s' := Do(s, Consume);
    ChainTail(s.next, s.dequeueHead, s.d);
    DistinctTail(s.d);
    assert s.d == [s.d[0]] + s.d[1..];
    assert Queue(s) == [s.d[0]] + Queue(s');
    assert s'.dequeued + Queue(s') == s.dequeued + Queue(s);
    forall i: Item ensures ItemOk(s', i) { assert ItemOk(s, i); }
    forall u: Tid ensures ProducerOk(s', u) { assert ProducerOk(s, u) && ItemOk(s, s.producer(u).item); }
  }

  /** Taking the whole enqueue list moves nothing in the queue. */
  lemma GrabKeeps(s: State)
    requires Inv(s) && s.consumer.pc.Grab?
    ensures Inv(Do(s, Consume)) && Queue(Do(s, Consume)) == Queue(s)
    ensures s.enqueueHead.Null? <==> Queue(s) == []
  {
    var s' := Do(s, Consume);
    assert s.e != [] ==> Turned(s.e) != [];
    if s.enqueueHead.To? { assert Queue(s') == Queue(s); }
    forall i: Item ensures ItemOk(s', i) { assert ItemOk(s, i); }
    forall u: Tid ensures ProducerOk(s', u) { assert ProducerOk(s, u) && ItemOk(s, s.producer(u).item); }
  }

  /** One pass of the reversal moves nothing in the queue. */
  lemma ReverseKeeps(s: State)
    requires Inv(s) && s.consumer.pc.Reverse? && s.consumer.cur.To?
    ensures Inv(Do(s, Consume)) && Queue(Do(s, Consume)) == Queue(s)
  {
    var s', x := Do(s, Consume), s.consumer.cur.item;
    var p := s.consumer.newHead;
    ChainTail(s.next, s.consumer.cur, s.u);
    assert ItemOk(s, x);
    DistinctTail(s.u);
    ChainKeeps(s.next, s.next(x), s.u[1..], x, p);
    ChainKeeps(s.next, p, s.r, x, p);
    ChainPush(s'.next, p, s.r, x);
    ChainKeeps(s.next, s.dequeueHead, s.d, x, p);
    ChainKeeps(s.next, s.enqueueHead, s.e, x, p);
    assert Queue(s') == Queue(s) by {
      assert Turned(s.u) == Turned(s.u[1..]) + [x];
      assert (Turned(s.u[1..]) + [x]) + (s.r + Turned(s.e)) == Turned(s.u[1..]) + (([x] + s.r) + Turned(s.e));
    }
    ReversePlaces(s);
  }

  lemma ReversePlaces(s: State)
    requires Inv(s) && s.consumer.pc.Reverse? && s.consumer.cur.To? && s.u != [] && s.consumer.cur.item == s.u[0]
    ensures var s' := Do(s, Consume);
      (forall i: Item :: ItemOk(s', i)) && (forall u: Tid :: ProducerOk(s', u)) && Distinct(s'.r) && Distinct(s'.u)
  {
    var s', x := Do(s, Consume), s.consumer.cur.item;
    DistinctTail(s.u);
    assert ItemOk(s, x);
    forall i: Item ensures ItemOk(s', i) { assert ItemOk(s, i); }
    forall u: Tid ensures ProducerOk(s', u) { assert ProducerOk(s, u) && ItemOk(s, s.producer(u).item); }
  }

  lemma ReversedIsQueue(s: State)
    requires Inv(s) && s.consumer.pc.Publish?
    ensures s.r != [] && s.consumer.newHead == To(s.r[0]) && Queue(s) == s.r + Turned(s.e)
      && Queue(s) == [s.r[0]] + (s.r[1..] + Turned(s.e))
    ensures Chain(s.next, s.next(s.r[0]), s.r[1..])
    ensures Distinct(s.r[1..]) && forall i: Item :: i in s.r[1..] <==> i in s.r && i != s.r[0]
  {
    ChainTail(s.next, s.consumer.newHead, s.r);
    DistinctTail(s.r);
    assert s.r == [s.r[0]] + s.r[1..] && Turned(s.u) == [];
  }

  /** Publishing the reversed list for dequeue takes its first item. */
  lemma PublishTakes(s: State)
    requires Inv(s) && s.consumer.pc.Publish? && s.consumer.call.Dequeue?
    ensures s.r != [] && Queue(s) == s.r + Turned(s.e) && Do(s, Consume) == Taken(s, s.r[0], s.r[1..])
  {
    ReversedIsQueue(s);
  }

  lemma PublishPops(s: State)
    requires Inv(s) && s.consumer.pc.Publish? && s.consumer.call.Dequeue?
    ensures var s' := Do(s, Consume);
      Inv(s') && s.r != [] && s'.consumer.answer == Got(s.r[0]) && Queue(s) == [s.r[0]] + Queue(s')
  {
    var s' := Do(s, Consume);
    PublishTakes(s);
    assert Queue(s') == s.r[1..] + Turned(s.e);
    assert s'.dequeued + Queue(s') == s.dequeued + Queue(s);
    PublishPlaces(s);
  }

  lemma PublishPlaces(s: State)
    requires Inv(s) && s.consumer.pc.Publish?
    ensures var s' := Do(s, Consume); (forall i: Item :: ItemOk(s', i)) && (forall u: Tid :: ProducerOk(s', u))
  {
    var s' := Do(s, Consume);
    ReversedIsQueue(s);
    forall i: Item ensures ItemOk(s', i) { assert ItemOk(s, i); }
    forall u: Tid ensures ProducerOk(s', u) { assert ProducerOk(s, u) && ItemOk(s, s.producer(u).item); }
  }

  /** Publishing it moves nothing for peek. */
  lemma PublishKeeps(s: State)
    requires Inv(s) && s.consumer.pc.Publish? && !s.consumer.call.Dequeue?
    ensures var s' := Do(s, Consume);
      Inv(s') && s.r != [] && s'.consumer.answer == Got(s.r[0]) && Queue(s) == Queue(s') && Queue(s) != []
      && Queue(s)[0] == s.r[0]
  {
    var s' := Do(s, Consume);
    ReversedIsQueue(s);
    assert Queue(s') == s.r + Turned(s.e);
    PublishPlaces(s);
  }

  lemma LookKeeps(s: State)
    requires Inv(s) && var l := s.consumer;
      l.pc.ReadDequeueHead? || l.pc.ReadEnqueueHead? || l.pc.Return? || l.pc.DeqIdle? || (l.pc.Reverse? && l.cur.Null?)
    ensures Inv(Do(s, Consume)) && Queue(Do(s, Consume)) == Queue(s)
  {
    var s' := Do(s, Consume);
    forall i: Item ensures ItemOk(s', i) { assert ItemOk(s, i); }
    forall u: Tid ensures ProducerOk(s', u) { assert ProducerOk(s, u); }
  }

  // ---------- every action ----------

  /** The action takes the oldest item out. */
  predicate Pops(s: State, a: Action) {
    a.Consume? && (s.consumer.pc.Advance? || (s.consumer.pc.Publish? && s.consumer.call.Dequeue?))
  }

  /** The action is an enqueue CAS that succeeds. */
  predicate Appends(s: State, a: Action) {
    a.Enqueue? && s.producer(a.t).pc.CasHead? && s.enqueueHead == s.producer(a.t).head
  }

  /** The queue changes only by an append at an enqueue CAS or a pop of the oldest item, which is the answer. */
  lemma ActionEffect(s: State, a: Action)
    requires Inv(s) && Allowed(s, a)
    ensures Inv(Do(s, a))
    ensures if Pops(s, a)
      then Queue(s) != [] && Queue(Do(s, a)) == Queue(s)[1..] && Do(s, a).consumer.answer == Got(Queue(s)[0])
            else Queue(Do(s, a)) == if Appends(s, a) then Queue(s) + [s.producer(a.t).item] else Queue(s)
  {
    match a
    case BeginEnqueue(t, x) => BeginKeeps(s, a);
    case BeginCall(c) => BeginKeeps(s, a);
    case Enqueue(t) => if Appends(s, a) { CasAppends(s, t); } else { ProducerKeeps(s, t); }
    case Consume =>
      var l := s.consumer;
      if l.pc.Advance? { AdvancePops(s); }
      else if l.pc.Grab? { GrabKeeps(s); }
      else if l.pc.Reverse? && l.cur.To? { ReverseKeeps(s); }
      else if l.pc.Publish? && l.call.Dequeue? { PublishPops(s); }
      else if l.pc.Publish? { PublishKeeps(s); }
      else { LookKeeps(s); }
  }

  lemma BeginKeeps(s: State, a: Action)
    requires Inv(s) && Allowed(s, a) && (a.BeginEnqueue? || a.BeginCall?)
    ensures Inv(Do(s, a)) && Queue(Do(s, a)) == Queue(s)
  {
    forall i: Item ensures ItemOk(Do(s, a), i) { assert ItemOk(s, i); }
    forall u: Tid ensures ProducerOk(Do(s, a), u) { assert ProducerOk(s, u); }
  }

  function After(s: State, actions: seq<Action>): State {
    if actions == [] then s else Do(After(s, actions[..|actions| - 1]), actions[|actions| - 1])
  }

  ghost predicate AllAllowed(s: State, actions: seq<Action>) {
    forall k :: 0 <= k < |actions| ==> Allowed(After(s, actions[..k]), actions[k])
  }

  lemma {:induction false} RunKeepsInv(s: State, actions: seq<Action>)
    requires Init(s) && AllAllowed(s, actions)
    ensures Inv(After(s, actions))
  {
    if actions == [] {
      assert forall i: Item :: ItemOk(s, i);
      assert forall t: Tid :: ProducerOk(s, t);
    } else {
      var n := |actions| - 1;
      assert forall k :: 0 <= k < n ==> actions[..n][..k] == actions[..k];
      RunKeepsInv(s, actions[..n]);
      ActionEffect(After(s, actions[..n]), actions[n]);
    }
  }

  /** First in, first out: what was dequeued so far, followed by what is in the queue, is what was enqueued so far, in
      the order in which the enqueue CASes succeeded. Nothing is lost, doubled or overtaken. */
  lemma FirstInFirstOut(s: State, actions: seq<Action>)
    requires Init(s) && AllAllowed(s, actions)
    ensures var s' := After(s, actions); s'.enqueued == s'.dequeued + Queue(s')
  {
    RunKeepsInv(s, actions);
  }

  // ---------- the answers ----------

  lemma QueueEnds(s: State)
    requires Inv(s)
    ensures s.d != [] ==> Queue(s) != [] && Queue(s)[0] == s.d[0]
    ensures s.d == [] && s.u == [] && s.r == [] ==> (Queue(s) == [] <==> s.e == [])
  {
    assert s.e != [] ==> Turned(s.e) != [];
  }

  /** The step that settles an answer of the consumer does so for the queue as it is then: dequeue and peek give NULL
      exactly when it is empty and its oldest item otherwise, and is_empty tells whether it is empty. */
  lemma AnswerIsRight(s: State)
    requires Inv(s) && s.consumer.pc != Return && Do(s, Consume).consumer.pc == Return
    ensures match Do(s, Consume).consumer.answer
      case Got(x) => Queue(s) != [] && x == Queue(s)[0] && !s.consumer.call.IsEmpty?
      case GotNull => Queue(s) == [] && !s.consumer.call.IsEmpty?
      case Empty(yes) => yes == (Queue(s) == []) && s.consumer.call.IsEmpty?
      case NoAnswer => false
  {
    QueueEnds(s);
    if s.consumer.pc.Grab? { GrabKeeps(s); }
    if s.consumer.pc.Publish? { ReversedIsQueue(s); }
    if s.consumer.pc.Advance? { AdvancePops(s); }
  }
}
