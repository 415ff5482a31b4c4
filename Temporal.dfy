/*
  The temporal module: a capacity-bounded chain of recent events kept in
  occurrence-time order, contingency formation over it into the global
  buffer, and anticipations that disappoint an expected event when its
  window runs out.
*/
module Temporal {
  import opened Wrappers
  import opened Values
  import opened Terms
  import opened Configs
  import opened Buffers
  import opened Enumerations
  import opened Contingencies
  import opened ContingencyLoops

  /** Occurrence times never decrease along the chain. */
  predicate ChainSorted(chain: seq<Sentence>)
  {
    forall a, b :: 0 <= a < b < |chain| ==> Time(chain[a]) <= Time(chain[b])
  }

  /**
    The binary search of List.BinarySearch over chain[lo..hi] (both ends
    included): probe the midpoint, report it when its time equals the
    event's, otherwise continue in the half that can still hold the time;
    when the range runs out, the insertion point is lo.
  */
  function Search(chain: seq<Sentence>, time: int, lo: int, hi: int): (r: int)
    requires 0 <= lo && hi < |chain| && lo <= hi + 1
    ensures lo <= r <= hi + 1
    decreases hi - lo + 1
  {
    if lo > hi then lo
    else
      var mid := lo + (hi - lo) / 2;
      if Time(chain[mid]) == time then mid
      else if Time(chain[mid]) < time then Search(chain, time, mid + 1, hi)
      else Search(chain, time, lo, mid - 1)
  }

  /** The insertion index of an event: the index BinarySearch reports, or the insertion point it encodes. */
  function TimePosition(chain: seq<Sentence>, time: int): (i: nat)
    ensures i <= |chain|
  {
    Search(chain, time, 0, |chain| - 1)
  }

  /** In a sorted range, the search splits the chain at a point with no later time before it and no earlier one after it. */
  lemma {:induction false} SearchSplits(chain: seq<Sentence>, time: int, lo: int, hi: int)
    requires ChainSorted(chain)
    requires 0 <= lo && hi < |chain| && lo <= hi + 1
    requires forall a :: 0 <= a < lo ==> Time(chain[a]) < time
    requires forall a :: hi < a < |chain| ==> Time(chain[a]) > time
    ensures forall a :: 0 <= a < Search(chain, time, lo, hi) ==> Time(chain[a]) <= time
    ensures forall a :: Search(chain, time, lo, hi) <= a < |chain| ==> Time(chain[a]) >= time
    decreases hi - lo + 1
  {
    if lo <= hi {
      var mid := lo + (hi - lo) / 2;
      if Time(chain[mid]) < time {
        SearchSplits(chain, time, mid + 1, hi);
      } else if Time(chain[mid]) > time {
        SearchSplits(chain, time, lo, mid - 1);
      }
    }
  }

  /** In a sorted chain the insertion index has no later event before it and no earlier one from it on. */
  lemma TimePositionSplits(chain: seq<Sentence>, time: int)
    requires ChainSorted(chain)
    ensures forall a :: 0 <= a < TimePosition(chain, time) ==> Time(chain[a]) <= time
    ensures forall a :: TimePosition(chain, time) <= a < |chain| ==> Time(chain[a]) >= time
  {
    SearchSplits(chain, time, 0, |chain| - 1);
  }

  /** Among equal times the search reports the one its first probe hits: here index 2, not the first equal index 1. */
  lemma SearchReportsProbe(s0: Sentence, s1: Sentence)
    requires Time(s0) == 0 && Time(s1) == 1
    ensures TimePosition([s0, s1, s1, s1, s1], 1) == 2
  {
  }

  /** The chain with an event inserted at its time position. */
  function Inserted(chain: seq<Sentence>, s: Sentence): (r: seq<Sentence>)
    ensures |r| == |chain| + 1
    ensures multiset(r) == multiset(chain) + multiset{s}
  {
    var i := TimePosition(chain, Time(s));
    assert chain == chain[..i] + chain[i..];
    chain[..i] + [s] + chain[i..]
  }

  lemma InsertedSorted(chain: seq<Sentence>, s: Sentence)
    requires ChainSorted(chain)
    ensures ChainSorted(Inserted(chain, s))
  {
    var i := TimePosition(chain, Time(s));
    TimePositionSplits(chain, Time(s));
    var r := Inserted(chain, s);
    forall a, b | 0 <= a < b < |r| ensures Time(r[a]) <= Time(r[b]) {
      if b < i {
        assert r[a] == chain[a] && r[b] == chain[b];
      } else if b == i {
        assert r[a] == chain[a];
      } else if a > i {
        assert r[a] == chain[a - 1] && r[b] == chain[b - 1];
      } else if a == i {
        assert r[b] == chain[b - 1];
      } else {
        assert r[a] == chain[a] && r[b] == chain[b - 1];
      }
    }
  }

  /** In a sorted chain the head is an earliest event. */
  lemma HeadEarliest(chain: seq<Sentence>)
    requires ChainSorted(chain) && |chain| > 0
    ensures forall x :: x in chain ==> Time(chain[0]) <= Time(x)
  {
  }

  /** The strategy temporal chaining runs: the first one the configuration enables. */
  function StrategyFor(config: Config): Option<Strategy>
  {
    if config.runtimeCompounds1 then Some(OneSensor)
    else if config.runtimeCompounds2 then Some(TwoSensor)
    else if config.runtimeCompounds3 then Some(ThreeSensor)
    else None
  }

  /** What temporal chaining emits for a chain: nothing below three events. */
  function Chaining(config: Config, engine: Engine, chain: seq<Sentence>): seq<Sentence>
  {
    if |chain| < 3 then []
    else match StrategyFor(config)
      case None => []
      case Some(s) => Emissions(s, engine, config.compoundConfidence, chain)
  }

  /** An expected event and the cycles left before it disappoints. */
  datatype Anticipation = Anticipation(term: Term, timeRemaining: int)

  /** How many anticipations in the list expect a term. */
  function Pending(anticipations: seq<Anticipation>, t: Term): (n: nat)
    ensures n <= |anticipations|
  {
    if anticipations == [] then 0
    else (if anticipations[0].term == t then 1 else 0) + Pending(anticipations[1..], t)
  }

  /** The dictionary holds exactly the expected terms, each with its number of pending anticipations. */
  ghost predicate Agree(anticipations: seq<Anticipation>, counts: map<Term, int>)
  {
    (forall t :: t in counts ==> counts[t] > 0 && counts[t] == Pending(anticipations, t))
    && (forall t :: t !in counts ==> Pending(anticipations, t) == 0)
  }

  lemma {:induction false} PendingAppend(x: seq<Anticipation>, y: seq<Anticipation>, t: Term)
    ensures Pending(x + y, t) == Pending(x, t) + Pending(y, t)
  {
    if x == [] {
      assert x + y == y;
    } else {
      PendingAppend(x[1..], y, t);
      assert (x + y)[1..] == x[1..] + y;
    }
  }

  /** A term is pending exactly when some anticipation in the list expects it. */
  lemma {:induction false} PendingIff(anticipations: seq<Anticipation>, t: Term)
    ensures Pending(anticipations, t) > 0 <==> exists i :: 0 <= i < |anticipations| && anticipations[i].term == t
  {
    if anticipations != [] {
      PendingIff(anticipations[1..], t);
      if exists i :: 1 <= i < |anticipations| && anticipations[i].term == t {
        var i :| 1 <= i < |anticipations| && anticipations[i].term == t;
        assert anticipations[1..][i - 1].term == t;
      }
      if exists i :: 0 <= i < |anticipations[1..]| && anticipations[1..][i].term == t {
        var i :| 0 <= i < |anticipations[1..]| && anticipations[1..][i].term == t;
        assert anticipations[i + 1].term == t;
      }
    }
  }

  /** Adding an anticipation increments its term's count or adds the term with count 1. */
  lemma AddedAgree(anticipations: seq<Anticipation>, counts: map<Term, int>, a: Anticipation)
    requires Agree(anticipations, counts)
    ensures Agree(anticipations + [a], if a.term in counts then counts[a.term := counts[a.term] + 1] else counts[a.term := 1])
  {
    forall u ensures Pending(anticipations + [a], u) == Pending(anticipations, u) + (if a.term == u then 1 else 0) {
      PendingAppend(anticipations, [a], u);
    }
  }

  /** Splitting the list around index i counts the anticipation there apart. */
  lemma PendingAround(anticipations: seq<Anticipation>, i: nat, u: Term)
    requires i < |anticipations|
    ensures Pending(anticipations, u) ==
      Pending(anticipations[..i] + anticipations[i + 1..], u) + (if anticipations[i].term == u then 1 else 0)
  {
    var a := anticipations[i];
    assert anticipations == anticipations[..i] + ([a] + anticipations[i + 1..]);
    PendingAppend(anticipations[..i], [a] + anticipations[i + 1..], u);
    PendingAppend([a], anticipations[i + 1..], u);
    PendingAppend(anticipations[..i], anticipations[i + 1..], u);
  }

  /** Removing the anticipation at i decrements its term's count and drops the term at zero. */
  lemma RemovedAgree(anticipations: seq<Anticipation>, counts: map<Term, int>, i: nat, t: Term)
    requires Agree(anticipations, counts) && i < |anticipations| && t == anticipations[i].term
    ensures t in counts
    ensures var decremented := counts[t := counts[t] - 1];
      Agree(anticipations[..i] + anticipations[i + 1..],
            if decremented[t] <= 0 then decremented - {t} else decremented)
  {
    var rest := anticipations[..i] + anticipations[i + 1..];
    forall u ensures Pending(rest, u) == if u == t then Pending(anticipations, u) - 1 else Pending(anticipations, u) {
      PendingAround(anticipations, i, u);
    }
  }

  /** Rewriting the time left of an anticipation keeps the counts. */
  lemma RewrittenAgree(anticipations: seq<Anticipation>, counts: map<Term, int>, i: nat, time: int)
    requires Agree(anticipations, counts) && i < |anticipations|
    ensures Agree(anticipations[i := anticipations[i].(timeRemaining := time)], counts)
  {
    var rewritten := anticipations[i := anticipations[i].(timeRemaining := time)];
    assert rewritten[..i] + rewritten[i + 1..] == anticipations[..i] + anticipations[i + 1..];
    forall u ensures Pending(rewritten, u) == Pending(anticipations, u) {
      PendingAround(anticipations, i, u);
      PendingAround(rewritten, i, u);
    }
  }

  /** The anticipations that do not expect t, in order. */
  function Without(anticipations: seq<Anticipation>, t: Term): (r: seq<Anticipation>)
    ensures |r| <= |anticipations|
  {
    if anticipations == [] then []
    else (if anticipations[0].term == t then [] else [anticipations[0]]) + Without(anticipations[1..], t)
  }

  /** Exactly the anticipations of other terms survive. */
  lemma {:induction false} WithoutMembers(anticipations: seq<Anticipation>, t: Term)
    ensures forall a :: a in Without(anticipations, t) <==> a in anticipations && a.term != t
  {
    if anticipations != [] {
      WithoutMembers(anticipations[1..], t);
      assert anticipations == [anticipations[0]] + anticipations[1..];
    }
  }

  lemma {:induction false} WithoutPending(anticipations: seq<Anticipation>, t: Term, u: Term)
    ensures Pending(Without(anticipations, t), u) == if u == t then 0 else Pending(anticipations, u)
  {
    if anticipations != [] {
      var a := anticipations[0];
      var head := if a.term == t then [] else [a];
      WithoutPending(anticipations[1..], t, u);
      PendingAppend(head, Without(anticipations[1..], t), u);
    }
  }

  lemma WithoutAgree(anticipations: seq<Anticipation>, counts: map<Term, int>, t: Term)
    requires Agree(anticipations, counts)
    ensures Agree(Without(anticipations, t), counts - {t})
  {
    forall u ensures Pending(Without(anticipations, t), u) == if u == t then 0 else Pending(anticipations, u) {
      WithoutPending(anticipations, t, u);
    }
  }

  /** Whether one tick lets an anticipation run out. */
  predicate Expires(a: Anticipation)
  {
    a.timeRemaining - 1 <= 0
  }

  /** One tick: every anticipation loses a cycle and those that run out are dropped. */
  function Ticked(anticipations: seq<Anticipation>): (r: seq<Anticipation>)
    ensures |r| <= |anticipations|
  {
    if anticipations == [] then []
    else
      var a := anticipations[0];
      (if Expires(a) then [] else [a.(timeRemaining := a.timeRemaining - 1)]) + Ticked(anticipations[1..])
  }

  /** The negative judgment of a failed anticipation: frequency 0, one unit of evidence, eternal. */
  function Disappointment(engine: Engine, a: Anticipation): (s: Sentence)
    ensures s.kind == JudgmentKind && s.statement == a.term && s.value.frequency == 0.0
    ensures s.occurrence.None?
  {
    Judgment(a.term, MakeValue(0.0, engine.unitConfidence), None)
  }

  /** The disappointments of one tick, in emission order: the list is walked from its end. */
  function Disappointments(engine: Engine, anticipations: seq<Anticipation>): (r: seq<Sentence>)
    ensures |r| + |Ticked(anticipations)| == |anticipations|
  {
    if anticipations == [] then []
    else
      var a := anticipations[0];
      Disappointments(engine, anticipations[1..]) + (if Expires(a) then [Disappointment(engine, a)] else [])
  }

  /** Ticking works element by element. */
  lemma {:induction false} TickedSplit(x: seq<Anticipation>, y: seq<Anticipation>)
    ensures Ticked(x + y) == Ticked(x) + Ticked(y)
  {
    if x == [] {
      assert x + y == y;
    } else {
      assert (x + y)[1..] == x[1..] + y;
      TickedSplit(x[1..], y);
    }
  }

  /** The disappointments of one tick are those of the anticipations that run out. */
  lemma {:induction false} DisappointmentsMembers(engine: Engine, anticipations: seq<Anticipation>, s: Sentence)
    ensures s in Disappointments(engine, anticipations) <==>
      exists a :: a in anticipations && Expires(a) && s == Disappointment(engine, a)
  {
    if anticipations != [] {
      DisappointmentsMembers(engine, anticipations[1..], s);
      var a := anticipations[0];
      assert forall b :: b in anticipations <==> b == a || b in anticipations[1..];
    }
  }

  /** k ticks in a row. */
  function Ticks(anticipations: seq<Anticipation>, k: nat): seq<Anticipation>
    decreases k
  {
    if k == 0 then anticipations else Ticks(Ticked(anticipations), k - 1)
  }

  /**
    An anticipation with a window of w >= 1 cycles survives exactly w - 1
    ticks, counting down, and disappoints on tick w.
  */
  lemma {:induction false} Lifetime(engine: Engine, t: Term, w: int, k: nat)
    requires w >= 1
    ensures Ticks([Anticipation(t, w)], k) == if k < w then [Anticipation(t, w - k)] else []
    ensures k < w ==>
      Disappointments(engine, Ticks([Anticipation(t, w)], k)) ==
        (if k + 1 == w then [Disappointment(engine, Anticipation(t, 1))] else [])
    decreases k
  {
    var a := Anticipation(t, w);
    assert [a][1..] == [];
    if k > 0 {
      if w > 1 {
        assert Ticked([a]) == [Anticipation(t, w - 1)];
        Lifetime(engine, t, w - 1, k - 1);
      } else {
        assert Ticked([a]) == [];
        EmptyTicks(k - 1);
      }
    } else {
      assert [a][1..] == [];
    }
  }

  lemma {:induction false} EmptyTicks(k: nat)
    ensures Ticks([], k) == []
  {
    if k > 0 {
      EmptyTicks(k - 1);
    }
  }

  /** One turn of the backward walk: index i's anticipation ticks in front of the ticked rest. */
  lemma TickAt(engine: Engine, anticipations: seq<Anticipation>, i: nat)
    requires i < |anticipations|
    ensures var a := anticipations[i];
      Ticked(anticipations[i..]) ==
        (if Expires(a) then [] else [a.(timeRemaining := a.timeRemaining - 1)]) + Ticked(anticipations[i + 1..])
    ensures var a := anticipations[i];
      Disappointments(engine, anticipations[i..]) ==
        Disappointments(engine, anticipations[i + 1..]) + (if Expires(a) then [Disappointment(engine, a)] else [])
  {
    assert anticipations[i..][1..] == anticipations[i + 1..];
  }

  /** One turn of the backward removal walk. */
  lemma WithoutAt(anticipations: seq<Anticipation>, t: Term, i: nat)
    requires i < |anticipations|
    ensures Without(anticipations[i..], t) ==
      (if anticipations[i].term == t then [] else [anticipations[i]]) + Without(anticipations[i + 1..], t)
  {
    assert anticipations[i..][1..] == anticipations[i + 1..];
  }

  /** Replacing or removing the entry at the seam of a prefix and a processed suffix. */
  lemma Seam<T>(prefix: seq<T>, rest: seq<T>, i: nat, x: T)
    requires i + 1 == |prefix|
    ensures (prefix + rest)[..i] + (prefix + rest)[i + 1..] == prefix[..i] + rest
    ensures (prefix + rest)[i := x] == prefix[..i] + ([x] + rest)
    ensures (prefix + rest)[i] == prefix[i]
  {
  }

  /**
    One turn of the tick loop at index i, for an anticipation that runs out.
    The results are indexed by i - 1 + 1, the loop's next index plus one,
    so that they match the invariant syntactically.
  */
  lemma TickDrop(engine: Engine, original: seq<Anticipation>, i: nat, list: seq<Anticipation>, a: Anticipation)
    requires i < |original| && list == original[..i + 1] + Ticked(original[i + 1..])
    requires a == original[i].(timeRemaining := original[i].timeRemaining - 1) && Expires(original[i])
    ensures list[..i] + list[i + 1..] == original[..i - 1 + 1] + Ticked(original[i - 1 + 1..])
    ensures Disappointments(engine, original[i - 1 + 1..]) ==
      Disappointments(engine, original[i + 1..]) + [Disappointment(engine, a)]
  {
    TickAt(engine, original, i);
    Seam(original[..i + 1], Ticked(original[i + 1..]), i, original[i]);
    assert original[..i + 1] == original[..i] + [original[i]];
  }

  /** One turn of the tick loop at index i, for an anticipation that stays, rewritten as a. */
  lemma TickKeep(engine: Engine, original: seq<Anticipation>, i: nat, list: seq<Anticipation>, a: Anticipation)
    requires i < |original| && list == original[..i + 1] + Ticked(original[i + 1..])
    requires a == original[i].(timeRemaining := original[i].timeRemaining - 1) && !Expires(original[i])
    ensures list[i := a] == original[..i - 1 + 1] + Ticked(original[i - 1 + 1..])
    ensures Disappointments(engine, original[i - 1 + 1..]) == Disappointments(engine, original[i + 1..])
  {
    TickAt(engine, original, i);
    Seam(original[..i + 1], Ticked(original[i + 1..]), i, a);
    assert original[..i + 1] == original[..i] + [original[i]];
  }

  /** One turn of the removal loop, at index i. */
  lemma RemoveStep(original: seq<Anticipation>, t: Term, i: nat, list: seq<Anticipation>)
    requires i < |original| && list == original[..i + 1] + Without(original[i + 1..], t)
    ensures list[i] == original[i]
    ensures (if list[i].term == t then list[..i] + list[i + 1..] else list) == original[..i - 1 + 1] + Without(original[i - 1 + 1..], t)
  {
    WithoutAt(original, t, i);
    Seam(original[..i + 1], Without(original[i + 1..], t), i, original[i]);
    assert original[..i + 1] == original[..i] + [original[i]];
  }

  /** The loop of RemoveAnticipations: deletes, from the end backwards, every anticipation of t. */
  method RemoveAll(original: seq<Anticipation>, t: Term) returns (list: seq<Anticipation>)
    ensures list == Without(original, t)
  {
    list := original;
    var i := |list| - 1;
    assert original[..i + 1] == original && original[i + 1..] == [];
    while i >= 0
      invariant -1 <= i < |original|
      invariant list == original[..i + 1] + Without(original[i + 1..], t)
      decreases i
    {
      var a := list[i];
      RemoveStep(original, t, i, list);
      if a.term == t {
        list := list[..i] + list[i + 1..];
      }
      i := i - 1;
    }
    assert i + 1 == 0 && original[0..] == original && original[..0] == [];
  }

  class TemporalModule {
    const capacity: nat
    const engine: Engine
    /** The reasoner's global buffer, where every derived sentence goes. */
    const buffer: Buffer
    var chain: seq<Sentence>
    var anticipations: seq<Anticipation>
    var counts: map<Term, int>

    ghost predicate Valid()
      reads this, buffer
    {
      buffer.Valid()
      && ChainSorted(chain) && |chain| <= capacity
      && (forall s :: s in chain ==> s.IsEvent() && s.statement.Statement?)
      && Agree(anticipations, counts)
    }

    constructor(capacity: nat, engine: Engine, buffer: Buffer)
      requires buffer.Valid()
      ensures Valid()
      ensures this.capacity == capacity && this.engine == engine && this.buffer == buffer
      ensures chain == [] && anticipations == [] && counts == map[]
    {
      this.capacity := capacity;
      this.engine := engine;
      this.buffer := buffer;
      chain := [];
      anticipations := [];
      counts := map[];
    }

    function Count(): (n: nat)
      reads this
      ensures n == |chain|
    {
      |chain|
    }

    /** The latest event of the chain; None when empty. */
    function MostRecent(): (r: Option<Sentence>)
      reads this, buffer
      requires Valid()
      ensures r.None? <==> |chain| == 0
      ensures r.Some? ==> r.value in chain && forall x :: x in chain ==> Time(x) <= Time(r.value)
    {
      if |chain| == 0 then None else Some(chain[|chain| - 1])
    }

    /**
      Inserts an event by time, drops the earliest when over capacity, and
      runs temporal chaining on the result. A sentence whose term is not a
      statement is refused.
    */
    method PutNew(s: Sentence, config: Config) returns (popped: Option<Sentence>)
      requires Valid() && s.IsEvent()
      modifies this`chain, buffer
      ensures Valid()
      ensures anticipations == old(anticipations) && counts == old(counts)
      ensures !s.statement.Statement? ==>
        popped.None? && chain == old(chain) && buffer.queue == old(buffer.queue)
      ensures s.statement.Statement? ==>
        var grown := Inserted(old(chain), s);
        chain == (if |grown| > capacity then grown[1..] else grown)
        && popped == (if |grown| > capacity then Some(grown[0]) else None)
        && buffer.queue == EnqueueAll(old(buffer.queue), Chaining(config, engine, chain), buffer.priority)
    {
      if !s.statement.Statement? {
        return None;
      }
      InsertedSorted(chain, s);
      chain := Inserted(chain, s);
      popped := None;
      if |chain| > capacity {
        popped := Some(chain[0]);
        chain := chain[1..];
      }
      ChainingSteps(config);
    }

    /** Temporal chaining once the chain holds at least three events. */
    method ChainingSteps(config: Config)
      requires buffer.Valid()
      modifies buffer
      ensures buffer.Valid()
      ensures buffer.queue == EnqueueAll(old(buffer.queue), Chaining(config, engine, chain), buffer.priority)
    {
      if |chain| >= 3 {
        if config.runtimeCompounds1 {
          FormContingencies1S(config.compoundConfidence);
        } else if config.runtimeCompounds2 {
          FormContingencies2S(config.compoundConfidence);
        } else if config.runtimeCompounds3 {
          FormContingencies3S(config.compoundConfidence);
        }
      }
    }

    /** One sensory event, then an operation, then an outcome: every accepted triple, in loop order. */
    method FormContingencies1S(cc: real)
      requires buffer.Valid()
      modifies buffer
      ensures buffer.Valid()
      ensures buffer.queue == EnqueueAll(old(buffer.queue), Emissions(OneSensor, engine, cc, chain), buffer.priority)
    {
      var events := chain;
      var n := |events|;
      ghost var q0 := buffer.queue;
      var i := 0;
      while i < n - 2
        invariant 0 <= i && (i == 0 || i + 2 <= n)
        invariant buffer.Valid()
        invariant buffer.queue == EnqueueAll(q0, Contexts1S(engine, cc, events, i), buffer.priority)
      {
        FormContingencies1STurn(events, cc, i, q0);
        i := i + 1;
      }
      assert |events| < 2 || i == |events| - 2;
      assert Contexts1S(engine, cc, events, i) == Formed1S(engine, cc, events);
      Formed1SEmissions(engine, cc, events);
    }

    /** One turn of the loop of FormContingencies1S, over index i. */
    method FormContingencies1STurn(events: seq<Sentence>, cc: real, i: nat, ghost q0: seq<Queued>)
      requires buffer.Valid()
      requires i + 2 < |events|
      requires buffer.queue == EnqueueAll(q0, Contexts1S(engine, cc, events, i), buffer.priority)
      modifies buffer
      ensures buffer.Valid()
      ensures buffer.queue == EnqueueAll(q0, Contexts1S(engine, cc, events, i + 1), buffer.priority)
    {
      var a := events[i];
      if a.statement.Statement? {
        Contexts1SEmit(engine, cc, events, i);
        OneSensorOperations(events, cc, i);
        EnqueueAllAppend(q0, Contexts1S(engine, cc, events, i), Operations1S(engine, cc, events, i, |events| - 1), buffer.priority);
      } else {
        Contexts1SSkip(engine, cc, events, i);
      }
    }

    /** The loop over the operation b after sensory event i. */
    method OneSensorOperations(events: seq<Sentence>, cc: real, i: nat)
      requires buffer.Valid()
      requires i + 2 < |events|
      modifies buffer
      ensures buffer.Valid()
      ensures buffer.queue == EnqueueAll(old(buffer.queue), Operations1S(engine, cc, events, i, |events| - 1), buffer.priority)
    {
      ghost var q0 := buffer.queue;
      var j := i + 1;
      while j < |events| - 1
        invariant i + 1 <= j <= |events| - 1
        invariant buffer.Valid()
        invariant buffer.queue == EnqueueAll(q0, Operations1S(engine, cc, events, i, j), buffer.priority)
      {
        OneSensorOperationsTurn(events, cc, i, j, q0);
        j := j + 1;
      }
      assert j == |events| - 1;
    }

    /** One turn of the loop of OneSensorOperations, over index j. */
    method OneSensorOperationsTurn(events: seq<Sentence>, cc: real, i: nat, j: nat, ghost q0: seq<Queued>)
      requires buffer.Valid()
      requires i < j && j + 1 < |events|
      requires buffer.queue == EnqueueAll(q0, Operations1S(engine, cc, events, i, j), buffer.priority)
      modifies buffer
      ensures buffer.Valid()
      ensures buffer.queue == EnqueueAll(q0, Operations1S(engine, cc, events, i, j + 1), buffer.priority)
    {
      var a := events[i];
      var b := events[j];
      if Time(b) >= Time(a) && b.statement.Statement? {
        Operations1SEmit(engine, cc, events, i, j);
        OneSensorOutcomes(events, cc, i, j);
        EnqueueAllAppend(q0, Operations1S(engine, cc, events, i, j), Outcomes1S(engine, cc, events, i, j, |events|), buffer.priority);
      } else {
        Operations1SSkip(engine, cc, events, i, j);
      }
    }

    /** The loop over the outcome c after sensory event i and operation j. */
    method OneSensorOutcomes(events: seq<Sentence>, cc: real, i: nat, j: nat)
      requires buffer.Valid()
      requires i < j < |events|
      modifies buffer
      ensures buffer.Valid()
      ensures buffer.queue == EnqueueAll(old(buffer.queue), Outcomes1S(engine, cc, events, i, j, |events|), buffer.priority)
    {
      ghost var q0 := buffer.queue;
      var k := j + 1;
      while k < |events|
        invariant j + 1 <= k <= |events|
        invariant buffer.Valid()
        invariant buffer.queue == EnqueueAll(q0, Outcomes1S(engine, cc, events, i, j, k), buffer.priority)
      {
        OneSensorOutcomesTurn(events, cc, i, j, k, q0);
        k := k + 1;
      }
      assert k == |events|;
    }

    /** One turn of the loop of OneSensorOutcomes, over index k. */
    method OneSensorOutcomesTurn(events: seq<Sentence>, cc: real, i: nat, j: nat, k: nat, ghost q0: seq<Queued>)
      requires buffer.Valid()
      requires i < j < k && k < |events|
      requires buffer.queue == EnqueueAll(q0, Outcomes1S(engine, cc, events, i, j, k), buffer.priority)
      modifies buffer
      ensures buffer.Valid()
      ensures buffer.queue == EnqueueAll(q0, Outcomes1S(engine, cc, events, i, j, k + 1), buffer.priority)
    {
      var a, b := events[i], events[j];
      var c := events[k];
      if c.statement.Statement?
        && a.statement != b.statement && a.statement != c.statement && b.statement != c.statement
        && IsOp(b.statement) && !IsOp(a.statement) && !IsOp(c.statement)
        && Time(c) > Time(b)
      {
        var conjunction := engine.temporalIntersection(a, b);
        conjunction := conjunction.(occurrence := a.occurrence);
        var implication := engine.temporalInduction(conjunction, c);
        implication := implication.(value := EvidentialValue(1.0, cc));
        Outcomes1SEmit(engine, cc, events, i, j, k, implication);
        EnqueueAllSnoc(q0, Outcomes1S(engine, cc, events, i, j, k), implication, buffer.priority);
        buffer.PutNew(implication);
      } else {
        Outcomes1SSkip(engine, cc, events, i, j, k);
      }
    }

    /** Two simultaneous sensory events, an operation, an outcome: every accepted quadruple, in loop order. */
    method FormContingencies2S(cc: real)
      requires buffer.Valid()
      modifies buffer
      ensures buffer.Valid()
      ensures buffer.queue == EnqueueAll(old(buffer.queue), Emissions(TwoSensor, engine, cc, chain), buffer.priority)
    {
      var events := chain;
      var n := |events|;
      ghost var q0 := buffer.queue;
      var i := 0;
      while i < n - 3
        invariant 0 <= i && (i == 0 || i + 3 <= n)
        invariant buffer.Valid()
        invariant buffer.queue == EnqueueAll(q0, Firsts2S(engine, cc, events, i), buffer.priority)
      {
        FormContingencies2STurn(events, cc, i, q0);
        i := i + 1;
      }
      assert |events| < 3 || i == |events| - 3;
      assert Firsts2S(engine, cc, events, i) == Formed2S(engine, cc, events);
      Formed2SEmissions(engine, cc, events);
    }

    /** One turn of the loop of FormContingencies2S, over index i. */
    method FormContingencies2STurn(events: seq<Sentence>, cc: real, i: nat, ghost q0: seq<Queued>)
      requires buffer.Valid()
      requires i + 3 < |events|
      requires buffer.queue == EnqueueAll(q0, Firsts2S(engine, cc, events, i), buffer.priority)
      modifies buffer
      ensures buffer.Valid()
      ensures buffer.queue == EnqueueAll(q0, Firsts2S(engine, cc, events, i + 1), buffer.priority)
    {
      var a := events[i];
      if a.statement.Statement? && !IsOp(a.statement) {
        Firsts2SEmit(engine, cc, events, i);
        TwoSensorSecond(events, cc, i);
        EnqueueAllAppend(q0, Firsts2S(engine, cc, events, i), Seconds2S(engine, cc, events, i, |events| - 2), buffer.priority);
      } else {
        Firsts2SSkip(engine, cc, events, i);
      }
    }

    /** The loop over the second sensory event b after a. */
    method TwoSensorSecond(events: seq<Sentence>, cc: real, i: nat)
      requires buffer.Valid()
      requires i + 3 < |events|
      modifies buffer
      ensures buffer.Valid()
      ensures buffer.queue == EnqueueAll(old(buffer.queue), Seconds2S(engine, cc, events, i, |events| - 2), buffer.priority)
    {
      ghost var q0 := buffer.queue;
      var j := i + 1;
      while j < |events| - 2
        invariant i + 1 <= j <= |events| - 2
        invariant buffer.Valid()
        invariant buffer.queue == EnqueueAll(q0, Seconds2S(engine, cc, events, i, j), buffer.priority)
      {
        TwoSensorSecondTurn(events, cc, i, j, q0);
        j := j + 1;
      }
      assert j == |events| - 2;
    }

    /** One turn of the loop of TwoSensorSecond, over index j. */
    method TwoSensorSecondTurn(events: seq<Sentence>, cc: real, i: nat, j: nat, ghost q0: seq<Queued>)
      requires buffer.Valid()
      requires i < j && j + 2 < |events|
      requires buffer.queue == EnqueueAll(q0, Seconds2S(engine, cc, events, i, j), buffer.priority)
      modifies buffer
      ensures buffer.Valid()
      ensures buffer.queue == EnqueueAll(q0, Seconds2S(engine, cc, events, i, j + 1), buffer.priority)
    {
      var a := events[i];
      var b := events[j];
      if b.statement.Statement? && !IsOp(b.statement) && Time(a) == Time(b) && a.statement != b.statement {
        Seconds2SEmit(engine, cc, events, i, j);
        var conjAB := engine.compound(ParallelConjunction, [a.statement, b.statement]);
        TwoSensorOperations(events, cc, i, j, conjAB);
        EnqueueAllAppend(q0, Seconds2S(engine, cc, events, i, j), Operations2S(engine, cc, events, i, j, |events| - 1), buffer.priority);
      } else {
        Seconds2SSkip(engine, cc, events, i, j);
      }
    }

    /** The loop over the operation c after the context (a &| b). */
    method TwoSensorOperations(events: seq<Sentence>, cc: real, i: nat, j: nat, conjAB: Term)
      requires buffer.Valid()
      requires i < j && j + 2 < |events|
      requires conjAB == Context2S(engine, events[i], events[j])
      modifies buffer
      ensures buffer.Valid()
      ensures buffer.queue == EnqueueAll(old(buffer.queue), Operations2S(engine, cc, events, i, j, |events| - 1), buffer.priority)
    {
      ghost var q0 := buffer.queue;
      var k := j + 1;
      while k < |events| - 1
        invariant j + 1 <= k <= |events| - 1
        invariant buffer.Valid()
        invariant buffer.queue == EnqueueAll(q0, Operations2S(engine, cc, events, i, j, k), buffer.priority)
      {
        TwoSensorOperationsTurn(events, cc, i, j, conjAB, k, q0);
        k := k + 1;
      }
      assert k == |events| - 1;
    }

    /** One turn of the loop of TwoSensorOperations, over index k. */
    method TwoSensorOperationsTurn(events: seq<Sentence>, cc: real, i: nat, j: nat, conjAB: Term, k: nat, ghost q0: seq<Queued>)
      requires buffer.Valid()
      requires i < j < k && k + 1 < |events|
      requires conjAB == Context2S(engine, events[i], events[j])
      requires buffer.queue == EnqueueAll(q0, Operations2S(engine, cc, events, i, j, k), buffer.priority)
      modifies buffer
      ensures buffer.Valid()
      ensures buffer.queue == EnqueueAll(q0, Operations2S(engine, cc, events, i, j, k + 1), buffer.priority)
    {
      var a, b := events[i], events[j];
      var c := events[k];
      if c.statement.Statement? && IsOp(c.statement) && Time(c) >= Time(a)
        && c.statement != a.statement && c.statement != b.statement
      {
        Operations2SEmit(engine, cc, events, i, j, k);
        var subject := engine.compound(SequentialConjunction, [conjAB, c.statement]);
        TwoSensorOutcomes(events, cc, i, j, k, subject);
        EnqueueAllAppend(q0, Operations2S(engine, cc, events, i, j, k), Outcomes2S(engine, cc, events, i, j, k, |events|), buffer.priority);
      } else {
        Operations2SSkip(engine, cc, events, i, j, k);
      }
    }

    /** The loop over the outcome d after the subject ((a &| b) &/ c). */
    method TwoSensorOutcomes(events: seq<Sentence>, cc: real, i: nat, j: nat, k: nat, subject: Term)
      requires buffer.Valid()
      requires i < j < k < |events| - 1
      requires subject == Subject2S(engine, events[i], events[j], events[k])
      modifies buffer
      ensures buffer.Valid()
      ensures buffer.queue == EnqueueAll(old(buffer.queue), Outcomes2S(engine, cc, events, i, j, k, |events|), buffer.priority)
    {
      ghost var q0 := buffer.queue;
      var l := k + 1;
      while l < |events|
        invariant k + 1 <= l <= |events|
        invariant buffer.Valid()
        invariant buffer.queue == EnqueueAll(q0, Outcomes2S(engine, cc, events, i, j, k, l), buffer.priority)
      {
        TwoSensorOutcomesTurn(events, cc, i, j, k, subject, l, q0);
        l := l + 1;
      }
      assert l == |events|;
    }

    /** One turn of the loop of TwoSensorOutcomes, over index l. */
    method TwoSensorOutcomesTurn(events: seq<Sentence>, cc: real, i: nat, j: nat, k: nat, subject: Term, l: nat, ghost q0: seq<Queued>)
      requires buffer.Valid()
      requires i < j < k < l && l < |events|
      requires subject == Subject2S(engine, events[i], events[j], events[k])
      requires buffer.queue == EnqueueAll(q0, Outcomes2S(engine, cc, events, i, j, k, l), buffer.priority)
      modifies buffer
      ensures buffer.Valid()
      ensures buffer.queue == EnqueueAll(q0, Outcomes2S(engine, cc, events, i, j, k, l + 1), buffer.priority)
    {
      var a, b, c := events[i], events[j], events[k];
      var d := events[l];
      if d.statement.Statement? && !IsOp(d.statement) && Time(d) > Time(c)
        && d.statement != a.statement && d.statement != b.statement && d.statement != c.statement
      {
        var implication := Judgment(Statement(subject, PredictiveImplication, d.statement), DefaultValue(), None);
        implication := implication.(value := EvidentialValue(1.0, cc));
        Outcomes2SEmit(engine, cc, events, i, j, k, l, implication);
        EnqueueAllSnoc(q0, Outcomes2S(engine, cc, events, i, j, k, l), implication, buffer.priority);
        buffer.PutNew(implication);
      } else {
        Outcomes2SSkip(engine, cc, events, i, j, k, l);
      }
    }

    /** Three simultaneous sensory events, an operation, an outcome: every accepted quintuple, in loop order. */
    method FormContingencies3S(cc: real)
      requires buffer.Valid()
      modifies buffer
      ensures buffer.Valid()
      ensures buffer.queue == EnqueueAll(old(buffer.queue), Emissions(ThreeSensor, engine, cc, chain), buffer.priority)
    {
      var events := chain;
      var n := |events|;
      ghost var q0 := buffer.queue;
      var i := 0;
      while i < n - 4
        invariant 0 <= i && (i == 0 || i + 4 <= n)
        invariant buffer.Valid()
        invariant buffer.queue == EnqueueAll(q0, Firsts3S(engine, cc, events, i), buffer.priority)
      {
        FormContingencies3STurn(events, cc, i, q0);
        i := i + 1;
      }
      assert |events| < 4 || i == |events| - 4;
      assert Firsts3S(engine, cc, events, i) == Formed3S(engine, cc, events);
      Formed3SEmissions(engine, cc, events);
    }

    /** One turn of the loop of FormContingencies3S, over index i. */
    method FormContingencies3STurn(events: seq<Sentence>, cc: real, i: nat, ghost q0: seq<Queued>)
      requires buffer.Valid()
      requires i + 4 < |events|
      requires buffer.queue == EnqueueAll(q0, Firsts3S(engine, cc, events, i), buffer.priority)
      modifies buffer
      ensures buffer.Valid()
      ensures buffer.queue == EnqueueAll(q0, Firsts3S(engine, cc, events, i + 1), buffer.priority)
    {
      var a := events[i];
      if a.statement.Statement? && !IsOp(a.statement) {
        Firsts3SEmit(engine, cc, events, i);
        ThreeSensorSecond(events, cc, i);
        EnqueueAllAppend(q0, Firsts3S(engine, cc, events, i), Seconds3S(engine, cc, events, i, |events| - 3), buffer.priority);
      } else {
        Firsts3SSkip(engine, cc, events, i);
      }
    }

    /** The loop over the second sensory event b after a. */
    method ThreeSensorSecond(events: seq<Sentence>, cc: real, i: nat)
      requires buffer.Valid()
      requires i + 4 < |events|
      modifies buffer
      ensures buffer.Valid()
      ensures buffer.queue == EnqueueAll(old(buffer.queue), Seconds3S(engine, cc, events, i, |events| - 3), buffer.priority)
    {
      ghost var q0 := buffer.queue;
      var j := i + 1;
      while j < |events| - 3
        invariant i + 1 <= j <= |events| - 3
        invariant buffer.Valid()
        invariant buffer.queue == EnqueueAll(q0, Seconds3S(engine, cc, events, i, j), buffer.priority)
      {
        ThreeSensorSecondTurn(events, cc, i, j, q0);
        j := j + 1;
      }
      assert j == |events| - 3;
    }

    /** One turn of the loop of ThreeSensorSecond, over index j. */
    method ThreeSensorSecondTurn(events: seq<Sentence>, cc: real, i: nat, j: nat, ghost q0: seq<Queued>)
      requires buffer.Valid()
      requires i < j && j + 3 < |events|
      requires buffer.queue == EnqueueAll(q0, Seconds3S(engine, cc, events, i, j), buffer.priority)
      modifies buffer
      ensures buffer.Valid()
      ensures buffer.queue == EnqueueAll(q0, Seconds3S(engine, cc, events, i, j + 1), buffer.priority)
    {
      var a := events[i];
      var b := events[j];
      if b.statement.Statement? && !IsOp(b.statement) && Time(b) == Time(a) && b.statement != a.statement {
        Seconds3SEmit(engine, cc, events, i, j);
        ThreeSensorThird(events, cc, i, j);
        EnqueueAllAppend(q0, Seconds3S(engine, cc, events, i, j), Thirds3S(engine, cc, events, i, j, |events| - 2), buffer.priority);
      } else {
        Seconds3SSkip(engine, cc, events, i, j);
      }
    }

    /** The loop over the third sensory event c after a and b. */
    method ThreeSensorThird(events: seq<Sentence>, cc: real, i: nat, j: nat)
      requires buffer.Valid()
      requires i < j && j + 3 < |events|
      modifies buffer
      ensures buffer.Valid()
      ensures buffer.queue == EnqueueAll(old(buffer.queue), Thirds3S(engine, cc, events, i, j, |events| - 2), buffer.priority)
    {
      ghost var q0 := buffer.queue;
      var k := j + 1;
      while k < |events| - 2
        invariant j + 1 <= k <= |events| - 2
        invariant buffer.Valid()
        invariant buffer.queue == EnqueueAll(q0, Thirds3S(engine, cc, events, i, j, k), buffer.priority)
      {
        ThreeSensorThirdTurn(events, cc, i, j, k, q0);
        k := k + 1;
      }
      assert k == |events| - 2;
    }

    /** One turn of the third sensory loop: event k, when its test accepts it, starts the operation loop. */
    method ThreeSensorThirdTurn(events: seq<Sentence>, cc: real, i: nat, j: nat, k: nat, ghost q0: seq<Queued>)
      requires buffer.Valid()
      requires i < j < k && k + 3 <= |events|
      requires buffer.queue == EnqueueAll(q0, Thirds3S(engine, cc, events, i, j, k), buffer.priority)
      modifies buffer
      ensures buffer.Valid()
      ensures buffer.queue == EnqueueAll(q0, Thirds3S(engine, cc, events, i, j, k + 1), buffer.priority)
    {
      var a, b, c := events[i], events[j], events[k];
      if c.statement.Statement? && !IsOp(c.statement) && Time(c) == Time(a)
        && c.statement != a.statement && c.statement != b.statement
      {
        Thirds3SEmit(engine, cc, events, i, j, k);
        var contextABC := engine.compound(ParallelConjunction, [a.statement, b.statement, c.statement]);
        ThreeSensorOperations(events, cc, i, j, k, contextABC);
        EnqueueAllAppend(q0, Thirds3S(engine, cc, events, i, j, k), Operations3S(engine, cc, events, i, j, k, |events| - 1), buffer.priority);
      } else {
        Thirds3SSkip(engine, cc, events, i, j, k);
      }
    }

    /** The loop over the operation d after the context (a &| b &| c). */
    method ThreeSensorOperations(events: seq<Sentence>, cc: real, i: nat, j: nat, k: nat, contextABC: Term)
      requires buffer.Valid()
      requires i < j < k && k + 2 < |events|
      requires contextABC == Context3S(engine, events[i], events[j], events[k])
      modifies buffer
      ensures buffer.Valid()
      ensures buffer.queue == EnqueueAll(old(buffer.queue), Operations3S(engine, cc, events, i, j, k, |events| - 1), buffer.priority)
    {
      ghost var q0 := buffer.queue;
      var d := k + 1;
      while d < |events| - 1
        invariant k + 1 <= d <= |events| - 1
        invariant buffer.Valid()
        invariant buffer.queue == EnqueueAll(q0, Operations3S(engine, cc, events, i, j, k, d), buffer.priority)
      {
        ThreeSensorOperationsTurn(events, cc, i, j, k, contextABC, d, q0);
        d := d + 1;
      }
      assert d == |events| - 1;
    }

    /** One turn of the loop of ThreeSensorOperations, over index d. */
    method ThreeSensorOperationsTurn(events: seq<Sentence>, cc: real, i: nat, j: nat, k: nat, contextABC: Term, d: nat, ghost q0: seq<Queued>)
      requires buffer.Valid()
      requires i < j < k < d && d + 1 < |events|
      requires contextABC == Context3S(engine, events[i], events[j], events[k])
      requires buffer.queue == EnqueueAll(q0, Operations3S(engine, cc, events, i, j, k, d), buffer.priority)
      modifies buffer
      ensures buffer.Valid()
      ensures buffer.queue == EnqueueAll(q0, Operations3S(engine, cc, events, i, j, k, d + 1), buffer.priority)
    {
      var a, b, c := events[i], events[j], events[k];
      var eventD := events[d];
      if eventD.statement.Statement? && IsOp(eventD.statement) && Time(eventD) >= Time(a)
        && eventD.statement != a.statement && eventD.statement != b.statement && eventD.statement != c.statement
      {
        Operations3SEmit(engine, cc, events, i, j, k, d);
        var subject := engine.compound(SequentialConjunction, [contextABC, eventD.statement]);
        ThreeSensorOutcomes(events, cc, i, j, k, d, subject);
        EnqueueAllAppend(q0, Operations3S(engine, cc, events, i, j, k, d), Outcomes3S(engine, cc, events, i, j, k, d, |events|), buffer.priority);
      } else {
        Operations3SSkip(engine, cc, events, i, j, k, d);
      }
    }

    /** The loop over the outcome e after the subject ((a &| b &| c) &/ d). */
    method ThreeSensorOutcomes(events: seq<Sentence>, cc: real, i: nat, j: nat, k: nat, d: nat, subject: Term)
      requires buffer.Valid()
      requires i < j < k < d < |events| - 1
      requires subject == Subject3S(engine, events[i], events[j], events[k], events[d])
      modifies buffer
      ensures buffer.Valid()
      ensures buffer.queue == EnqueueAll(old(buffer.queue), Outcomes3S(engine, cc, events, i, j, k, d, |events|), buffer.priority)
    {
      ghost var q0 := buffer.queue;
      var e := d + 1;
      while e < |events|
        invariant d + 1 <= e <= |events|
        invariant buffer.Valid()
        invariant buffer.queue == EnqueueAll(q0, Outcomes3S(engine, cc, events, i, j, k, d, e), buffer.priority)
      {
        ThreeSensorOutcomesTurn(events, cc, i, j, k, d, subject, e, q0);
        e := e + 1;
      }
      assert e == |events|;
    }

    /** One turn of the loop of ThreeSensorOutcomes, over index e. */
    method ThreeSensorOutcomesTurn(events: seq<Sentence>, cc: real, i: nat, j: nat, k: nat, d: nat, subject: Term, e: nat, ghost q0: seq<Queued>)
      requires buffer.Valid()
      requires i < j < k < d < e && e < |events|
      requires subject == Subject3S(engine, events[i], events[j], events[k], events[d])
      requires buffer.queue == EnqueueAll(q0, Outcomes3S(engine, cc, events, i, j, k, d, e), buffer.priority)
      modifies buffer
      ensures buffer.Valid()
      ensures buffer.queue == EnqueueAll(q0, Outcomes3S(engine, cc, events, i, j, k, d, e + 1), buffer.priority)
    {
      var a, b, c, eventD := events[i], events[j], events[k], events[d];
      var eventE := events[e];
      if eventE.statement.Statement? && !IsOp(eventE.statement) && Time(eventE) > Time(eventD)
        && eventE.statement != a.statement && eventE.statement != b.statement
        && eventE.statement != c.statement && eventE.statement != eventD.statement
      {
        var implication := Judgment(Statement(subject, PredictiveImplication, eventE.statement), DefaultValue(), None);
        implication := implication.(value := EvidentialValue(1.0, cc));
        Outcomes3SEmit(engine, cc, events, i, j, k, d, e, implication);
        EnqueueAllSnoc(q0, Outcomes3S(engine, cc, events, i, j, k, d, e), implication, buffer.priority);
        buffer.PutNew(implication);
      } else {
        Outcomes3SSkip(engine, cc, events, i, j, k, d, e);
      }
    }

    /** Expects t within the window: one more anticipation, one more count for t. */
    method Anticipate(t: Term, window: int)
      requires Valid()
      modifies this
      ensures Valid()
      ensures chain == old(chain)
      ensures anticipations == old(anticipations) + [Anticipation(t, window)]
      ensures counts == if t in old(counts) then old(counts)[t := old(counts)[t] + 1] else old(counts)[t := 1]
      ensures Pending(anticipations, t) == Pending(old(anticipations), t) + 1
    {
      var a := Anticipation(t, window);
      AddedAgree(anticipations, counts, a);
      anticipations := anticipations + [a];
      if t in counts {
        counts := counts[t := counts[t] + 1];
      } else {
        counts := counts[t := 1];
      }
    }

    /**
      One cycle of anticipation: walking the list from its end, every
      anticipation loses a cycle; one that runs out is dropped, uncounted
      and disappointed with a negative judgment into the global buffer.
    */
    method UpdateAnticipations()
      requires Valid()
      modifies this, buffer
      ensures Valid()
      ensures chain == old(chain)
      ensures anticipations == Ticked(old(anticipations))
      ensures buffer.queue == EnqueueAll(old(buffer.queue), Disappointments(engine, old(anticipations)), buffer.priority)
    {
      var list, dict := TickAll(anticipations, counts);
      anticipations, counts := list, dict;
    }

    /** The loop of UpdateAnticipations, on a snapshot of the list and the dictionary. */
    method TickAll(original: seq<Anticipation>, counts0: map<Term, int>) returns (list: seq<Anticipation>, dict: map<Term, int>)
      requires buffer.Valid() && Agree(original, counts0)
      modifies buffer
      ensures buffer.Valid()
      ensures list == Ticked(original) && Agree(list, dict)
      ensures buffer.queue == EnqueueAll(old(buffer.queue), Disappointments(engine, original), buffer.priority)
    {
      list, dict := original, counts0;
      ghost var q0 := buffer.queue;
      ghost var emitted: seq<Sentence> := [];
      var i := |list| - 1;
      assert original[..i + 1] == original && original[i + 1..] == [];
      while i >= 0
        invariant -1 <= i < |original|
        invariant list == original[..i + 1] + Ticked(original[i + 1..])
        invariant Agree(list, dict)
        invariant emitted == Disappointments(engine, original[i + 1..])
        invariant buffer.Valid()
        invariant buffer.queue == EnqueueAll(q0, emitted, buffer.priority)
        decreases i
      {
        var a := list[i];
        assert list[i] == original[i];
        a := a.(timeRemaining := a.timeRemaining - 1);
        if a.timeRemaining <= 0 {
          TickDrop(engine, original, i, list, a);
          RemovedAgree(list, dict, i, a.term);
          list := list[..i] + list[i + 1..];
          dict := dict[a.term := dict[a.term] - 1];
          if dict[a.term] <= 0 {
            dict := dict - {a.term};
          }
          var disappoint := Disappointment(engine, a);
          EnqueueAllSnoc(q0, emitted, disappoint, buffer.priority);
          buffer.PutNew(disappoint);
          emitted := emitted + [disappoint];
        } else {
          TickKeep(engine, original, i, list, a);
          RewrittenAgree(list, dict, i, a.timeRemaining);
          list := list[i := a];
        }
        i := i - 1;
      }
      assert i + 1 == 0 && original[0..] == original && original[..0] == [];
    }

    /** Whether some pending anticipation expects t. */
    function DoesAnticipate(t: Term): (b: bool)
      reads this, buffer
      requires Valid()
      ensures b <==> exists i :: 0 <= i < |anticipations| && anticipations[i].term == t
    {
      PendingIff(anticipations, t);
      t in counts
    }

    /** Drops every anticipation of t, walking the list from its end, and forgets t's count. */
    method RemoveAnticipations(t: Term)
      requires Valid()
      modifies this
      ensures Valid()
      ensures chain == old(chain)
      ensures anticipations == Without(old(anticipations), t)
      ensures counts == old(counts) - {t}
      ensures forall a :: a in anticipations ==> a.term != t
    {
      var list := RemoveAll(anticipations, t);
      WithoutAgree(anticipations, counts, t);
      WithoutMembers(anticipations, t);
      anticipations, counts := list, counts - {t};
    }
  }
}
