/*
  The contingencies temporal chaining forms from the event chain. Each of
  the three strategies runs m nested loops over the chain (m = 3, 4, 5);
  the tuples of chain indices it accepts, in visiting order, are the
  Enumerations enumeration of the strategy's acceptance test, and every
  accepted tuple contributes one implication to the global buffer.
*/
module Contingencies {
  import opened Wrappers
  import opened Values
  import opened Terms
  import opened Buffers
  import opened Enumerations

  /** The occurrence time of a chain event (every chain entry is an event). */
  function Time(s: Sentence): int
  {
    if s.occurrence.Some? then s.occurrence.value else 0
  }

  /*
    The tests each loop of a strategy applies to the event it visits; an
    event failing its loop's test is skipped. a, b, c, ... are the events
    chosen by the loops so far, outermost first.
  */

  /** One-sensor strategy, first loop: the sensory event is a statement. */
  predicate Context1S(a: Sentence)
  {
    a.statement.Statement?
  }

  /** Second loop: the operation is a statement no earlier than the sensory event. */
  predicate Operation1S(a: Sentence, b: Sentence)
  {
    Time(b) >= Time(a) && b.statement.Statement?
  }

  /**
    Innermost loop: the outcome is a statement, the three terms are pairwise
    different, b is an operation and a and c are not, and c is later than b.
  */
  predicate Outcome1S(a: Sentence, b: Sentence, c: Sentence)
  {
    c.statement.Statement?
    && a.statement != b.statement && a.statement != c.statement && b.statement != c.statement
    && IsOp(b.statement) && !IsOp(a.statement) && !IsOp(c.statement)
    && Time(c) > Time(b)
  }

  /** Two-sensor strategy, first loop: a non-operation statement. */
  predicate Sensory(a: Sentence)
  {
    a.statement.Statement? && !IsOp(a.statement)
  }

  /** Second loop: a different non-operation statement at the same time as a. */
  predicate Second2S(a: Sentence, b: Sentence)
  {
    b.statement.Statement? && !IsOp(b.statement)
    && Time(a) == Time(b) && a.statement != b.statement
  }

  /** Third loop: an operation no earlier than a, different from a and b. */
  predicate Operation2S(a: Sentence, b: Sentence, c: Sentence)
  {
    c.statement.Statement? && IsOp(c.statement) && Time(c) >= Time(a)
    && c.statement != a.statement && c.statement != b.statement
  }

  /** Innermost loop: a non-operation statement later than c, different from a, b and c. */
  predicate Outcome2S(a: Sentence, b: Sentence, c: Sentence, d: Sentence)
  {
    d.statement.Statement? && !IsOp(d.statement) && Time(d) > Time(c)
    && d.statement != a.statement && d.statement != b.statement && d.statement != c.statement
  }

  /** Three-sensor strategy, second loop: a non-operation statement at a's time, different from a. */
  predicate Second3S(a: Sentence, b: Sentence)
  {
    b.statement.Statement? && !IsOp(b.statement)
    && Time(b) == Time(a) && b.statement != a.statement
  }

  /** Third loop: a non-operation statement at a's time, different from a and b. */
  predicate Third3S(a: Sentence, b: Sentence, c: Sentence)
  {
    c.statement.Statement? && !IsOp(c.statement) && Time(c) == Time(a)
    && c.statement != a.statement && c.statement != b.statement
  }

  /** Fourth loop: an operation no earlier than a, different from a, b and c. */
  predicate Operation3S(a: Sentence, b: Sentence, c: Sentence, d: Sentence)
  {
    d.statement.Statement? && IsOp(d.statement) && Time(d) >= Time(a)
    && d.statement != a.statement && d.statement != b.statement && d.statement != c.statement
  }

  /** Innermost loop: a non-operation statement later than d, different from the other four. */
  predicate Outcome3S(a: Sentence, b: Sentence, c: Sentence, d: Sentence, e: Sentence)
  {
    e.statement.Statement? && !IsOp(e.statement) && Time(e) > Time(d)
    && e.statement != a.statement && e.statement != b.statement
    && e.statement != c.statement && e.statement != d.statement
  }

  /**
    One sensory event a, an operation b no earlier than a, and a later
    non-operation outcome c, all statements and pairwise different.
  */
  predicate OneSensorContingency(a: Sentence, b: Sentence, c: Sentence)
  {
    Context1S(a) && Operation1S(a, b) && Outcome1S(a, b, c)
  }

  /**
    Two simultaneous, different sensory events a and b, an operation c no
    earlier than them, and a later non-operation outcome d different from
    the other three.
  */
  predicate TwoSensorContingency(a: Sentence, b: Sentence, c: Sentence, d: Sentence)
  {
    Sensory(a) && Second2S(a, b) && Operation2S(a, b, c) && Outcome2S(a, b, c, d)
  }

  /**
    Three simultaneous, pairwise different sensory events a, b and c, an
    operation d no earlier than them, and a later non-operation outcome e
    different from the other four.
  */
  predicate ThreeSensorContingency(a: Sentence, b: Sentence, c: Sentence, d: Sentence, e: Sentence)
  {
    Sensory(a) && Second3S(a, b) && Third3S(a, b, c) && Operation3S(a, b, c, d) && Outcome3S(a, b, c, d, e)
  }

  /** The three composition strategies. */
  datatype Strategy = OneSensor | TwoSensor | ThreeSensor

  /** The number of events a strategy combines. */
  function Arity(s: Strategy): nat
  {
    match s
    case OneSensor => 3
    case TwoSensor => 4
    case ThreeSensor => 5
  }

  /** The strategy accepts the events of the chain at the indices t. */
  predicate Accepts(s: Strategy, chain: seq<Sentence>, t: Tuple)
  {
    |t| == Arity(s) && (forall d :: 0 <= d < |t| ==> t[d] < |chain|)
    && match s
       case OneSensor => OneSensorContingency(chain[t[0]], chain[t[1]], chain[t[2]])
       case TwoSensor => TwoSensorContingency(chain[t[0]], chain[t[1]], chain[t[2]], chain[t[3]])
       case ThreeSensor =>
         ThreeSensorContingency(chain[t[0]], chain[t[1]], chain[t[2]], chain[t[3]], chain[t[4]])
  }

  /** The acceptance test as the filter of the enumeration. */
  function OkFor(s: Strategy, chain: seq<Sentence>): Tuple -> bool
  {
    t => Accepts(s, chain, t)
  }

  /** The value every formed contingency carries: frequency 1 and the compound confidence, unclamped. */
  function CompoundValue(cc: real): EvidentialValue
  {
    EvidentialValue(1.0, cc)
  }

  /**
    (a &/ b) =/> c by temporal intersection and temporal induction, with the
    intersection moved to a's time.
  */
  function OneSensorImplication(engine: Engine, cc: real, a: Sentence, b: Sentence, c: Sentence): Sentence
  {
    var conjunction := engine.temporalIntersection(a, b).(occurrence := a.occurrence);
    engine.temporalInduction(conjunction, c).(value := CompoundValue(cc))
  }

  /** The parallel conjunction (a &| b). */
  function Context2S(engine: Engine, a: Sentence, b: Sentence): Term
  {
    engine.compound(ParallelConjunction, [a.statement, b.statement])
  }

  /** The sequential conjunction ((a &| b) &/ c). */
  function Subject2S(engine: Engine, a: Sentence, b: Sentence, c: Sentence): Term
  {
    engine.compound(SequentialConjunction, [Context2S(engine, a, b), c.statement])
  }

  /** The eternal judgment ((a &| b) &/ c) =/> d. */
  function TwoSensorImplication(engine: Engine, cc: real, a: Sentence, b: Sentence, c: Sentence, d: Sentence): Sentence
  {
    Judgment(Statement(Subject2S(engine, a, b, c), PredictiveImplication, d.statement), CompoundValue(cc), None)
  }

  /** The parallel conjunction (a &| b &| c). */
  function Context3S(engine: Engine, a: Sentence, b: Sentence, c: Sentence): Term
  {
    engine.compound(ParallelConjunction, [a.statement, b.statement, c.statement])
  }

  /** The sequential conjunction ((a &| b &| c) &/ d). */
  function Subject3S(engine: Engine, a: Sentence, b: Sentence, c: Sentence, d: Sentence): Term
  {
    engine.compound(SequentialConjunction, [Context3S(engine, a, b, c), d.statement])
  }

  /** The eternal judgment ((a &| b &| c) &/ d) =/> e. */
  function ThreeSensorImplication(engine: Engine, cc: real, a: Sentence, b: Sentence, c: Sentence, d: Sentence, e: Sentence): Sentence
  {
    Judgment(Statement(Subject3S(engine, a, b, c, d), PredictiveImplication, e.statement), CompoundValue(cc), None)
  }

  /** The implication an accepted tuple contributes. */
  function Emit(s: Strategy, engine: Engine, cc: real, chain: seq<Sentence>, t: Tuple): Sentence
    requires Accepts(s, chain, t)
  {
    match s
    case OneSensor => OneSensorImplication(engine, cc, chain[t[0]], chain[t[1]], chain[t[2]])
    case TwoSensor => TwoSensorImplication(engine, cc, chain[t[0]], chain[t[1]], chain[t[2]], chain[t[3]])
    case ThreeSensor =>
      ThreeSensorImplication(engine, cc, chain[t[0]], chain[t[1]], chain[t[2]], chain[t[3]], chain[t[4]])
  }

  /** What an accepted tuple contributes, as a list: its implication, or nothing. */
  function EmitFor(s: Strategy, engine: Engine, cc: real, chain: seq<Sentence>): Tuple -> seq<Sentence>
  {
    t => if Accepts(s, chain, t) then [Emit(s, engine, cc, chain, t)] else []
  }

  /** The contributions of a list of tuples, in list order. */
  function Flatten(emit: Tuple -> seq<Sentence>, ts: seq<Tuple>): seq<Sentence>
  {
    if ts == [] then [] else Flatten(emit, ts[..|ts| - 1]) + emit(ts[|ts| - 1])
  }

  /** Everything a strategy emits for a chain, in the loops' visiting order. */
  function Emissions(s: Strategy, engine: Engine, cc: real, chain: seq<Sentence>): seq<Sentence>
  {
    Flatten(EmitFor(s, engine, cc, chain), Enum(|chain|, Arity(s), OkFor(s, chain), [], 0))
  }

  lemma {:induction false} FlattenAppend(emit: Tuple -> seq<Sentence>, xs: seq<Tuple>, ys: seq<Tuple>)
    ensures Flatten(emit, xs + ys) == Flatten(emit, xs) + Flatten(emit, ys)
  {
    if ys == [] {
      assert xs + ys == xs;
    } else {
      var init := ys[..|ys| - 1];
      FlattenAppend(emit, xs, init);
      assert (xs + ys)[..|xs + ys| - 1] == xs + init;
    }
  }

  /** When every tuple contributes exactly one sentence, the contributions line up with the tuples. */
  lemma {:induction false} FlattenSingles(emit: Tuple -> seq<Sentence>, ts: seq<Tuple>)
    requires forall t :: t in ts ==> |emit(t)| == 1
    ensures |Flatten(emit, ts)| == |ts|
    ensures forall i :: 0 <= i < |ts| ==> Flatten(emit, ts)[i] == emit(ts[i])[0]
  {
    if ts != [] {
      var init, last := ts[..|ts| - 1], ts[|ts| - 1];
      assert forall t :: t in init ==> t in ts;
      assert last in ts;
      FlattenSingles(emit, init);
      forall i | 0 <= i < |ts| ensures Flatten(emit, ts)[i] == emit(ts[i])[0] {
        if i < |init| {
          assert ts[i] == init[i];
        }
      }
    }
  }

  /** On a list of accepted tuples, the contributions are their implications element by element. */
  lemma FlattenAccepted(s: Strategy, engine: Engine, cc: real, chain: seq<Sentence>, ts: seq<Tuple>)
    requires forall t :: t in ts ==> Accepts(s, chain, t)
    ensures |Flatten(EmitFor(s, engine, cc, chain), ts)| == |ts|
    ensures forall i :: 0 <= i < |ts| ==> Flatten(EmitFor(s, engine, cc, chain), ts)[i] == Emit(s, engine, cc, chain, ts[i])
  {
    var emit := EmitFor(s, engine, cc, chain);
    forall t | t in ts ensures emit(t) == [Emit(s, engine, cc, chain, t)] {
    }
    FlattenSingles(emit, ts);
  }

  /**
    A strategy emits one implication per tuple of the enumeration, in
    order, and the enumeration holds every reachable accepted tuple once.
  */
  lemma EmissionsEnumerate(s: Strategy, engine: Engine, cc: real, chain: seq<Sentence>)
    ensures var ts := Enum(|chain|, Arity(s), OkFor(s, chain), [], 0);
      |Emissions(s, engine, cc, chain)| == |ts|
      && (forall i :: 0 <= i < |ts| ==> Accepts(s, chain, ts[i]) && Emissions(s, engine, cc, chain)[i] == Emit(s, engine, cc, chain, ts[i]))
      && (forall t :: multiset(ts)[t] == if Admissible(|chain|, Arity(s), t) && Accepts(s, chain, t) then 1 else 0)
  {
    var ts := Enum(|chain|, Arity(s), OkFor(s, chain), [], 0);
    EnumMembers(|chain|, Arity(s), OkFor(s, chain), [], 0);
    FlattenAccepted(s, engine, cc, chain, ts);
    forall t ensures multiset(ts)[t] == if Admissible(|chain|, Arity(s), t) && Accepts(s, chain, t) then 1 else 0 {
      Exactly(|chain|, Arity(s), OkFor(s, chain), t);
    }
  }

  /**
    Every emitted implication has frequency 1 and the compound confidence;
    those of the two- and three-sensor strategies are eternal predictive
    implications whose outcome is a statement that is not an operation.
  */
  lemma EmissionsShape(s: Strategy, engine: Engine, cc: real, chain: seq<Sentence>, x: Sentence)
    requires x in Emissions(s, engine, cc, chain)
    ensures x.value == CompoundValue(cc)
    ensures s != OneSensor ==>
      x.kind == JudgmentKind && x.occurrence.None? && x.statement.Statement?
      && x.statement.copula == PredictiveImplication
      && x.statement.predicateTerm.Statement? && !IsOp(x.statement.predicateTerm)
  {
    EmissionsEnumerate(s, engine, cc, chain);
    var ts := Enum(|chain|, Arity(s), OkFor(s, chain), [], 0);
    var i :| 0 <= i < |Emissions(s, engine, cc, chain)| && Emissions(s, engine, cc, chain)[i] == x;
    assert Accepts(s, chain, ts[i]);
  }

  /** What the loops after prefix p contribute, computed while enumerating: Flatten(emit, Enum(...)) in one pass. */
  function EnumOut(emit: Tuple -> seq<Sentence>, n: nat, m: nat, ok: Tuple -> bool, p: Tuple, lo: nat): seq<Sentence>
    requires |p| <= m
    decreases m - |p|, 1, 0
  {
    if |p| == m then (if ok(p) then emit(p) else [])
    else SpanOut(emit, n, m, ok, p, lo, Bound(n, m, |p|))
  }

  /** What the loop after prefix p contributes over indices [lo, hi). */
  function SpanOut(emit: Tuple -> seq<Sentence>, n: nat, m: nat, ok: Tuple -> bool, p: Tuple, lo: nat, hi: int): seq<Sentence>
    requires |p| < m
    decreases m - |p|, 0, hi - lo
  {
    if hi <= lo then []
    else SpanOut(emit, n, m, ok, p, lo, hi - 1) + EnumOut(emit, n, m, ok, p + [hi - 1], hi)
  }

  lemma {:induction false} EnumOutFlatten(emit: Tuple -> seq<Sentence>, n: nat, m: nat, ok: Tuple -> bool, p: Tuple, lo: nat)
    requires |p| <= m
    ensures EnumOut(emit, n, m, ok, p, lo) == Flatten(emit, Enum(n, m, ok, p, lo))
    decreases m - |p|, 1, 0
  {
    if |p| == m {
      Complete(n, m, ok, emit, p, lo);
    } else {
      SpanOutFlatten(emit, n, m, ok, p, lo, Bound(n, m, |p|));
    }
  }

  lemma {:induction false} SpanOutFlatten(emit: Tuple -> seq<Sentence>, n: nat, m: nat, ok: Tuple -> bool, p: Tuple, lo: nat, hi: int)
    requires |p| < m
    ensures SpanOut(emit, n, m, ok, p, lo, hi) == Flatten(emit, Span(n, m, ok, p, lo, hi))
    decreases m - |p|, 0, hi - lo
  {
    if hi > lo {
      SpanOutFlatten(emit, n, m, ok, p, lo, hi - 1);
      EnumOutFlatten(emit, n, m, ok, p + [hi - 1], hi);
      FlattenAppend(emit, Span(n, m, ok, p, lo, hi - 1), Enum(n, m, ok, p + [hi - 1], hi));
    }
  }

  /** One more turn of the loop after p, where q = p + [hi - 1] is still incomplete with bound b. */
  lemma OutNext(emit: Tuple -> seq<Sentence>, n: nat, m: nat, ok: Tuple -> bool, p: Tuple, lo: nat, hi: nat, q: Tuple, b: int)
    requires |p| + 1 < m && lo < hi && q == p + [hi - 1] && b == Bound(n, m, |q|)
    ensures SpanOut(emit, n, m, ok, p, lo, hi) == SpanOut(emit, n, m, ok, p, lo, hi - 1) + SpanOut(emit, n, m, ok, q, hi, b)
  {
  }

  /** One more turn of the innermost loop after p, completing the tuple q = p + [hi - 1]. */
  lemma OutLeaf(emit: Tuple -> seq<Sentence>, n: nat, m: nat, ok: Tuple -> bool, p: Tuple, lo: nat, hi: nat, q: Tuple)
    requires |p| + 1 == m && lo < hi && q == p + [hi - 1]
    ensures SpanOut(emit, n, m, ok, p, lo, hi) == SpanOut(emit, n, m, ok, p, lo, hi - 1) + (if ok(q) then emit(q) else [])
  {
  }

  /** The loop after a prefix every completion of which is rejected contributes nothing. */
  lemma OutSkip(emit: Tuple -> seq<Sentence>, n: nat, m: nat, ok: Tuple -> bool, p: Tuple, lo: nat, hi: int)
    requires |p| < m && NoneAfter(ok, m, p)
    ensures SpanOut(emit, n, m, ok, p, lo, hi) == []
  {
    SpanNone(n, m, ok, p, lo, hi);
    SpanOutFlatten(emit, n, m, ok, p, lo, hi);
  }

  /** A tuple that starts with q agrees with q on q's indices. */
  lemma PrefixIndex(t: Tuple, q: Tuple)
    requires |q| <= |t| && t[..|q|] == q
    ensures forall d :: 0 <= d < |q| ==> t[d] == q[d]
  {
    forall d | 0 <= d < |q| ensures t[d] == q[d] {
      assert t[d] == t[..|q|][d];
    }
  }

  /** ok accepts no m-tuple that starts with p. */
  ghost predicate NoneAfter(ok: Tuple -> bool, m: nat, p: Tuple)
  {
    forall t :: |t| == m && |p| <= m && t[..|p|] == p ==> !ok(t)
  }

  /** A complete tuple contributes emit's value exactly when it is accepted. */
  lemma Complete(n: nat, m: nat, ok: Tuple -> bool, emit: Tuple -> seq<Sentence>, t: Tuple, lo: nat)
    requires |t| == m
    ensures Flatten(emit, Enum(n, m, ok, t, lo)) == if ok(t) then emit(t) else []
  {
    if ok(t) {
      assert Enum(n, m, ok, t, lo) == [t];
      assert [t][..0] == [];
    }
  }
}
