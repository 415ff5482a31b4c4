/*
  The global buffer: a priority queue of sentences that always yields a
  highest-priority item first. The queue is a list sorted by priority,
  highest first, and a new item goes after every item of equal or higher
  priority, so ties leave in arrival order.
*/
module Buffers {
  import opened Wrappers
  import opened Terms

  /** A queued sentence and the priority it was queued under. */
  datatype Queued = Queued(sentence: Sentence, priority: real)

  /** Priorities never increase along the queue: each item's is at least the next one's. */
  predicate QueueSorted(q: seq<Queued>)
  {
    |q| <= 1 || (q[0].priority >= q[1].priority && QueueSorted(q[1..]))
  }

  /** In a sorted queue the head has the highest priority. */
  lemma {:induction false} SortedHead(q: seq<Queued>)
    requires QueueSorted(q) && q != []
    ensures forall x :: x in q ==> x.priority <= q[0].priority
  {
    if |q| > 1 {
      SortedHead(q[1..]);
      assert q == [q[0]] + q[1..];
    }
  }

  /** In a sorted queue priorities never increase between any two positions. */
  lemma {:induction false} SortedPairs(q: seq<Queued>)
    requires QueueSorted(q)
    ensures forall a, b :: 0 <= a < b < |q| ==> q[a].priority >= q[b].priority
  {
    if |q| > 1 {
      SortedPairs(q[1..]);
      SortedHead(q);
      forall a, b | 0 <= a < b < |q| ensures q[a].priority >= q[b].priority {
        if a > 0 {
          assert q[a] == q[1..][a - 1] && q[b] == q[1..][b - 1];
        } else {
          assert q[b] in q;
        }
      }
    }
  }

  /** Where a new item of priority p goes: after every item of priority at least p. */
  function QueuePosition(q: seq<Queued>, p: real): (i: nat)
    ensures i <= |q|
    ensures forall a :: 0 <= a < i ==> q[a].priority >= p
    ensures i < |q| ==> q[i].priority < p
  {
    if q == [] || q[0].priority < p then 0 else 1 + QueuePosition(q[1..], p)
  }

  /** Enqueueing one item: it passes every item of priority at least its own. */
  function Enqueue(q: seq<Queued>, x: Queued): (r: seq<Queued>)
    ensures |r| == |q| + 1
  {
    if q == [] || q[0].priority < x.priority then [x] + q else [q[0]] + Enqueue(q[1..], x)
  }

  /** The item lands at its queue position, with everything else in order around it. */
  lemma {:induction false} EnqueuePosition(q: seq<Queued>, x: Queued)
    ensures var i := QueuePosition(q, x.priority); Enqueue(q, x) == q[..i] + [x] + q[i..]
  {
    if q != [] && q[0].priority >= x.priority {
      EnqueuePosition(q[1..], x);
      var i := QueuePosition(q[1..], x.priority);
      assert q[..i + 1] == [q[0]] + q[1..][..i];
      assert q[i + 1..] == q[1..][i..];
    }
  }

  lemma EnqueueContents(q: seq<Queued>, x: Queued)
    ensures multiset(Enqueue(q, x)) == multiset(q) + multiset{x}
  {
    EnqueuePosition(q, x);
    var i := QueuePosition(q, x.priority);
    assert q == q[..i] + q[i..];
  }

  lemma {:induction false} EnqueueSorted(q: seq<Queued>, x: Queued)
    requires QueueSorted(q)
    ensures QueueSorted(Enqueue(q, x))
  {
    if q == [] || q[0].priority < x.priority {
      assert ([x] + q)[1..] == q;
    } else {
      var r := Enqueue(q[1..], x);
      EnqueueSorted(q[1..], x);
      assert r[0] == x || r[0] == q[1];
      assert ([q[0]] + r)[1..] == r;
    }
  }

  /** Enqueueing sentences first to last under the priorities a container gives them. */
  function EnqueueAll(q: seq<Queued>, ss: seq<Sentence>, priority: Sentence -> real): (r: seq<Queued>)
    ensures |r| == |q| + |ss|
  {
    if ss == [] then q
    else Enqueue(EnqueueAll(q, ss[..|ss| - 1], priority), Queued(ss[|ss| - 1], priority(ss[|ss| - 1])))
  }

  /** Queueing a batch keeps the queue sorted. */
  lemma {:induction false} EnqueueAllSorted(q: seq<Queued>, ss: seq<Sentence>, priority: Sentence -> real)
    requires QueueSorted(q)
    ensures QueueSorted(EnqueueAll(q, ss, priority))
  {
    if ss != [] {
      EnqueueAllSorted(q, ss[..|ss| - 1], priority);
      EnqueueSorted(EnqueueAll(q, ss[..|ss| - 1], priority), Queued(ss[|ss| - 1], priority(ss[|ss| - 1])));
    }
  }

  /** Reference definition of EnqueueAll's contents: every sentence is queued once, under its priority. */
  function Queuings(ss: seq<Sentence>, priority: Sentence -> real): (r: seq<Queued>)
    ensures |r| == |ss|
    ensures forall i :: 0 <= i < |ss| ==> r[i] == Queued(ss[i], priority(ss[i]))
  {
    seq(|ss|, i requires 0 <= i < |ss| => Queued(ss[i], priority(ss[i])))
  }

  lemma {:induction false} EnqueueAllContents(q: seq<Queued>, ss: seq<Sentence>, priority: Sentence -> real)
    ensures multiset(EnqueueAll(q, ss, priority)) == multiset(q) + multiset(Queuings(ss, priority))
  {
    if ss != [] {
      var init := ss[..|ss| - 1];
      var x := Queued(ss[|ss| - 1], priority(ss[|ss| - 1]));
      var prefix := EnqueueAll(q, init, priority);
      EnqueueAllContents(q, init, priority);
      EnqueueContents(prefix, x);
      QueuingsSnoc(ss, priority);
    }
  }

  lemma QueuingsSnoc(ss: seq<Sentence>, priority: Sentence -> real)
    requires ss != []
    ensures multiset(Queuings(ss, priority)) ==
      multiset(Queuings(ss[..|ss| - 1], priority)) + multiset{Queued(ss[|ss| - 1], priority(ss[|ss| - 1]))}
  {
    assert Queuings(ss, priority) == Queuings(ss[..|ss| - 1], priority) + [Queued(ss[|ss| - 1], priority(ss[|ss| - 1]))];
  }

  /** Queueing one more sentence after a batch. */
  lemma EnqueueAllSnoc(q: seq<Queued>, ss: seq<Sentence>, s: Sentence, priority: Sentence -> real)
    ensures EnqueueAll(q, ss + [s], priority) == Enqueue(EnqueueAll(q, ss, priority), Queued(s, priority(s)))
  {
    assert (ss + [s])[..|ss|] == ss;
  }

  /** Queueing a batch of one sentence is enqueueing it. */
  lemma EnqueueOne(q: seq<Queued>, s: Sentence, priority: Sentence -> real)
    ensures EnqueueAll(q, [s], priority) == Enqueue(q, Queued(s, priority(s)))
  {
    assert [s][..0] == [];
  }

  /** Queueing two batches one after the other is queueing their concatenation. */
  lemma {:induction false} EnqueueAllAppend(q: seq<Queued>, xs: seq<Sentence>, ys: seq<Sentence>, priority: Sentence -> real)
    ensures EnqueueAll(EnqueueAll(q, xs, priority), ys, priority) == EnqueueAll(q, xs + ys, priority)
  {
    if ys != [] {
      var init := ys[..|ys| - 1];
      var last := ys[|ys| - 1];
      EnqueueAllAppend(q, xs, init, priority);
      assert ys == init + [last];
      assert xs + ys == (xs + init) + [last];
      EnqueueAllSnoc(q, xs + init, last, priority);
      EnqueueAllSnoc(EnqueueAll(q, xs, priority), init, last, priority);
    } else {
      assert xs + ys == xs;
    }
  }

  class Buffer {
    const capacity: nat
    /** The container's priority of a sentence. */
    const priority: Sentence -> real
    var queue: seq<Queued>

    ghost predicate Valid()
      reads this
    {
      QueueSorted(queue)
    }

    constructor(capacity: nat, priority: Sentence -> real)
      ensures Valid()
      ensures this.capacity == capacity && this.priority == priority && queue == []
    {
      this.capacity := capacity;
      this.priority := priority;
      queue := [];
    }

    function Count(): (n: nat)
      reads this
      ensures n == |queue|
    {
      |queue|
    }

    /** The head of the queue, an item of maximal priority; None when empty. */
    function Peek(): (r: Option<Queued>)
      reads this
      requires Valid()
      ensures r.None? <==> |queue| == 0
      ensures r.Some? ==> r.value in queue
      ensures r.Some? ==> forall x :: x in queue ==> x.priority <= r.value.priority
    {
      if |queue| == 0 then None else SortedHead(queue); Some(queue[0])
    }

    /** Removes and returns a maximal-priority sentence; None, changing nothing, when empty. */
    method Take() returns (r: Option<Sentence>)
      requires Valid()
      modifies this
      ensures Valid()
      ensures r.None? <==> old(|queue|) == 0
      ensures r.None? ==> queue == old(queue)
      ensures r.Some? ==> r == Some(old(queue)[0].sentence) && queue == old(queue)[1..]
      ensures r.Some? ==> |queue| == old(|queue|) - 1
      ensures r.Some? ==> forall x :: x in old(queue) ==> x.priority <= old(queue)[0].priority
    {
      if |queue| == 0 {
        return None;
      }
      SortedHead(queue);
      r := Some(queue[0].sentence);
      queue := queue[1..];
    }

    /** Queues a sentence under its container priority. */
    method PutNew(s: Sentence)
      requires Valid()
      modifies this
      ensures Valid()
      ensures queue == Enqueue(old(queue), Queued(s, priority(s)))
    {
      EnqueueSorted(queue, Queued(s, priority(s)));
      queue := Enqueue(queue, Queued(s, priority(s)));
    }
  }
}
