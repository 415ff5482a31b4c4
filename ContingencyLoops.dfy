/*
  The loops of the three contingency strategies, one function per loop:
  each lists what its loop puts into the global buffer when run over
  indices below hi, skipping the events its test rejects, exactly as the
  loops visit them. The link lemmas prove every strategy's loops emit
  precisely Emissions, the enumeration of all accepted index tuples.
*/
module ContingencyLoops {
  import opened Terms
  import opened Enumerations
  import opened Contingencies

  // ---------------------------------------------------------------------
  // One sensory event, an operation, an outcome.
  // ---------------------------------------------------------------------

  /** The outcome loop after events i and j, over indices j + 1 .. hi - 1. */
  function Outcomes1S(engine: Engine, cc: real, chain: seq<Sentence>, i: nat, j: nat, hi: nat): seq<Sentence>
    requires i < j < |chain| && hi <= |chain|
    decreases hi
  {
    if hi <= j + 1 then []
    else
      Outcomes1S(engine, cc, chain, i, j, hi - 1) +
      (if Outcome1S(chain[i], chain[j], chain[hi - 1])
       then [OneSensorImplication(engine, cc, chain[i], chain[j], chain[hi - 1])] else [])
  }

  /** The operation loop after event i, over indices i + 1 .. hi - 1. */
  function Operations1S(engine: Engine, cc: real, chain: seq<Sentence>, i: nat, hi: nat): seq<Sentence>
    requires i < |chain| && hi + 1 <= |chain|
    decreases hi
  {
    if hi <= i + 1 then []
    else
      Operations1S(engine, cc, chain, i, hi - 1) +
      (if Operation1S(chain[i], chain[hi - 1])
       then Outcomes1S(engine, cc, chain, i, hi - 1, |chain|) else [])
  }

  /** The sensory-event loop, over indices 0 .. hi - 1. */
  function Contexts1S(engine: Engine, cc: real, chain: seq<Sentence>, hi: nat): seq<Sentence>
    requires hi == 0 || hi + 2 <= |chain|
    decreases hi
  {
    if hi == 0 then []
    else
      Contexts1S(engine, cc, chain, hi - 1) +
      (if Context1S(chain[hi - 1])
       then Operations1S(engine, cc, chain, hi - 1, |chain| - 1) else [])
  }

  /** Everything the one-sensor loops emit for a chain. */
  function Formed1S(engine: Engine, cc: real, chain: seq<Sentence>): seq<Sentence>
  {
    if |chain| < 2 then [] else Contexts1S(engine, cc, chain, |chain| - 2)
  }

  /** A turn of the outcome loop whose test accepts index x adds its contribution at the end. */
  lemma Outcomes1SEmit(engine: Engine, cc: real, chain: seq<Sentence>, i: nat, j: nat, x: nat, s: Sentence)
    requires i < j < x && x + 1 <= |chain|
    requires Outcome1S(chain[i], chain[j], chain[x]) && s == OneSensorImplication(engine, cc, chain[i], chain[j], chain[x])
    ensures Outcomes1S(engine, cc, chain, i, j, x + 1) == Outcomes1S(engine, cc, chain, i, j, x) + [s]
  {
  }

  /** A turn of the outcome loop whose test rejects index x adds nothing. */
  lemma Outcomes1SSkip(engine: Engine, cc: real, chain: seq<Sentence>, i: nat, j: nat, x: nat)
    requires i < j < x && x + 1 <= |chain|
    requires !Outcome1S(chain[i], chain[j], chain[x])
    ensures Outcomes1S(engine, cc, chain, i, j, x + 1) == Outcomes1S(engine, cc, chain, i, j, x)
  {
  }

  /** A turn of the operation loop whose test accepts index x adds its contribution at the end. */
  lemma Operations1SEmit(engine: Engine, cc: real, chain: seq<Sentence>, i: nat, x: nat)
    requires i < x && x + 2 <= |chain|
    requires Operation1S(chain[i], chain[x])
    ensures Operations1S(engine, cc, chain, i, x + 1) == Operations1S(engine, cc, chain, i, x) + Outcomes1S(engine, cc, chain, i, x, |chain|)
  {
  }

  /** A turn of the operation loop whose test rejects index x adds nothing. */
  lemma Operations1SSkip(engine: Engine, cc: real, chain: seq<Sentence>, i: nat, x: nat)
    requires i < x && x + 2 <= |chain|
    requires !Operation1S(chain[i], chain[x])
    ensures Operations1S(engine, cc, chain, i, x + 1) == Operations1S(engine, cc, chain, i, x)
  {
  }

  /** A turn of the sensory-event loop whose test accepts index x adds its contribution at the end. */
  lemma Contexts1SEmit(engine: Engine, cc: real, chain: seq<Sentence>, x: nat)
    requires x + 3 <= |chain|
    requires Context1S(chain[x])
    ensures Contexts1S(engine, cc, chain, x + 1) == Contexts1S(engine, cc, chain, x) + Operations1S(engine, cc, chain, x, |chain| - 1)
  {
  }

  /** A turn of the sensory-event loop whose test rejects index x adds nothing. */
  lemma Contexts1SSkip(engine: Engine, cc: real, chain: seq<Sentence>, x: nat)
    requires x + 3 <= |chain|
    requires !Context1S(chain[x])
    ensures Contexts1S(engine, cc, chain, x + 1) == Contexts1S(engine, cc, chain, x)
  {
  }

  /** At a complete triple after accepted events, ok is the outcome test and emit the implication. */
  ghost predicate Leaves1S(engine: Engine, cc: real, chain: seq<Sentence>, ok: Tuple -> bool, emit: Tuple -> seq<Sentence>)
  {
    forall i: nat, j: nat, x: nat {:trigger ok([i, j, x])} ::
      i < j < x < |chain| && Context1S(chain[i]) && Operation1S(chain[i], chain[j]) ==>
      ok([i, j, x]) == Outcome1S(chain[i], chain[j], chain[x])
      && (ok([i, j, x]) ==> emit([i, j, x]) == [OneSensorImplication(engine, cc, chain[i], chain[j], chain[x])])
  }

  /** ok accepts no triple that starts with events a loop skips. */
  ghost predicate Skips1S(chain: seq<Sentence>, ok: Tuple -> bool)
  {
    (forall i: nat {:trigger NoneAfter(ok, 3, [i])} ::
          i < |chain| && !Context1S(chain[i]) ==> NoneAfter(ok, 3, [i]))
    && (forall i: nat, j: nat {:trigger NoneAfter(ok, 3, [i, j])} ::
          i < j < |chain| && !Operation1S(chain[i], chain[j]) ==> NoneAfter(ok, 3, [i, j]))
  }

  /** The one-sensor acceptance test rejects every triple whose event at depth 0 the sensory-event loop skips. */
  lemma Rejects1SAt0(chain: seq<Sentence>)
    ensures forall i: nat {:trigger NoneAfter(OkFor(OneSensor, chain), 3, [i])} ::
      i < |chain| && !Context1S(chain[i]) ==> NoneAfter(OkFor(OneSensor, chain), 3, [i])
  {
    forall i: nat | i < |chain| && !Context1S(chain[i])
      ensures NoneAfter(OkFor(OneSensor, chain), 3, [i])
    {
      forall t | |t| == 3 && t[..1] == [i] ensures !Accepts(OneSensor, chain, t) {
        PrefixIndex(t, [i]);
      }
    }
  }

  /** The one-sensor acceptance test rejects every triple whose event at depth 1 the operation loop skips. */
  lemma Rejects1SAt1(chain: seq<Sentence>)
    ensures forall i: nat, j: nat {:trigger NoneAfter(OkFor(OneSensor, chain), 3, [i, j])} ::
      i < j < |chain| && !Operation1S(chain[i], chain[j]) ==> NoneAfter(OkFor(OneSensor, chain), 3, [i, j])
  {
    forall i: nat, j: nat | i < j < |chain| && !Operation1S(chain[i], chain[j])
      ensures NoneAfter(OkFor(OneSensor, chain), 3, [i, j])
    {
      forall t | |t| == 3 && t[..2] == [i, j] ensures !Accepts(OneSensor, chain, t) {
        PrefixIndex(t, [i, j]);
      }
    }
  }

  /** The one-sensor acceptance test meets Leaves1S and Skips1S. */
  lemma Facts1S(engine: Engine, cc: real, chain: seq<Sentence>)
    ensures Leaves1S(engine, cc, chain, OkFor(OneSensor, chain), EmitFor(OneSensor, engine, cc, chain))
    ensures Skips1S(chain, OkFor(OneSensor, chain))
  {
    Rejects1SAt0(chain);
    Rejects1SAt1(chain);
  }

  lemma {:induction false} Outcomes1SLink(engine: Engine, cc: real, chain: seq<Sentence>,
      ok: Tuple -> bool, emit: Tuple -> seq<Sentence>, i: nat, j: nat, lo: nat, hi: nat)
    requires Leaves1S(engine, cc, chain, ok, emit)
    requires i < j && lo == j + 1 && lo <= hi && hi <= |chain|
    requires Context1S(chain[i]) && Operation1S(chain[i], chain[j])
    ensures Outcomes1S(engine, cc, chain, i, j, hi) == SpanOut(emit, |chain|, 3, ok, [i, j], lo, hi)
    decreases hi
  {
    if hi > lo {
      Outcomes1SLink(engine, cc, chain, ok, emit, i, j, lo, hi - 1);
      Outcomes1STurn(engine, cc, chain, ok, emit, i, j, lo, hi);
    }
  }

  /** The turn of the loop at index hi - 1, given the loop before it. */
  lemma Outcomes1STurn(engine: Engine, cc: real, chain: seq<Sentence>,
      ok: Tuple -> bool, emit: Tuple -> seq<Sentence>, i: nat, j: nat, lo: nat, hi: nat)
    requires Leaves1S(engine, cc, chain, ok, emit)
    requires i < j && lo == j + 1 && lo <= hi && hi <= |chain|
    requires Context1S(chain[i]) && Operation1S(chain[i], chain[j])
    requires hi > lo
    requires Outcomes1S(engine, cc, chain, i, j, hi - 1) == SpanOut(emit, |chain|, 3, ok, [i, j], lo, hi - 1)
    ensures Outcomes1S(engine, cc, chain, i, j, hi) == SpanOut(emit, |chain|, 3, ok, [i, j], lo, hi)
  {
    var q := [i, j, hi - 1];
    OutLeaf(emit, |chain|, 3, ok, [i, j], lo, hi, q);
  }

  lemma {:induction false} Operations1SLink(engine: Engine, cc: real, chain: seq<Sentence>,
      ok: Tuple -> bool, emit: Tuple -> seq<Sentence>, i: nat, lo: nat, hi: nat)
    requires Leaves1S(engine, cc, chain, ok, emit) && Skips1S(chain, ok)
    requires lo == i + 1 && lo <= hi && hi + 1 <= |chain|
    requires Context1S(chain[i])
    ensures Operations1S(engine, cc, chain, i, hi) == SpanOut(emit, |chain|, 3, ok, [i], lo, hi)
    decreases hi
  {
    if hi > lo {
      Operations1SLink(engine, cc, chain, ok, emit, i, lo, hi - 1);
      Operations1STurn(engine, cc, chain, ok, emit, i, lo, hi);
    }
  }

  /** The turn of the loop at index hi - 1, given the loop before it. */
  lemma Operations1STurn(engine: Engine, cc: real, chain: seq<Sentence>,
      ok: Tuple -> bool, emit: Tuple -> seq<Sentence>, i: nat, lo: nat, hi: nat)
    requires Leaves1S(engine, cc, chain, ok, emit) && Skips1S(chain, ok)
    requires lo == i + 1 && lo <= hi && hi + 1 <= |chain|
    requires Context1S(chain[i])
    requires hi > lo
    requires Operations1S(engine, cc, chain, i, hi - 1) == SpanOut(emit, |chain|, 3, ok, [i], lo, hi - 1)
    ensures Operations1S(engine, cc, chain, i, hi) == SpanOut(emit, |chain|, 3, ok, [i], lo, hi)
  {
    var q := [i, hi - 1];
    OutNext(emit, |chain|, 3, ok, [i], lo, hi, q, |chain|);
    if Operation1S(chain[i], chain[hi - 1]) {
      Outcomes1SLink(engine, cc, chain, ok, emit, i, hi - 1, hi, |chain|);
    } else {
      OutSkip(emit, |chain|, 3, ok, q, hi, |chain|);
    }
  }

  lemma {:induction false} Contexts1SLink(engine: Engine, cc: real, chain: seq<Sentence>,
      ok: Tuple -> bool, emit: Tuple -> seq<Sentence>, hi: nat)
    requires Leaves1S(engine, cc, chain, ok, emit) && Skips1S(chain, ok)
    requires hi + 2 <= |chain|
    ensures Contexts1S(engine, cc, chain, hi) == SpanOut(emit, |chain|, 3, ok, [], 0, hi)
    decreases hi
  {
    if hi > 0 {
      Contexts1SLink(engine, cc, chain, ok, emit, hi - 1);
      Contexts1STurn(engine, cc, chain, ok, emit, hi);
    }
  }

  /** The turn of the loop at index hi - 1, given the loop before it. */
  lemma Contexts1STurn(engine: Engine, cc: real, chain: seq<Sentence>,
      ok: Tuple -> bool, emit: Tuple -> seq<Sentence>, hi: nat)
    requires Leaves1S(engine, cc, chain, ok, emit) && Skips1S(chain, ok)
    requires hi + 2 <= |chain|
    requires hi > 0
    requires Contexts1S(engine, cc, chain, hi - 1) == SpanOut(emit, |chain|, 3, ok, [], 0, hi - 1)
    ensures Contexts1S(engine, cc, chain, hi) == SpanOut(emit, |chain|, 3, ok, [], 0, hi)
  {
    var q := [hi - 1];
    OutNext(emit, |chain|, 3, ok, [], 0, hi, q, |chain| - 1);
    if Context1S(chain[hi - 1]) {
      Operations1SLink(engine, cc, chain, ok, emit, hi - 1, hi, |chain| - 1);
    } else {
      OutSkip(emit, |chain|, 3, ok, q, hi, |chain| - 1);
    }
  }

  /** The one-sensor loops emit exactly the one-sensor enumeration. */
  lemma Formed1SEmissions(engine: Engine, cc: real, chain: seq<Sentence>)
    ensures Formed1S(engine, cc, chain) == Emissions(OneSensor, engine, cc, chain)
  {
    var ok, emit := OkFor(OneSensor, chain), EmitFor(OneSensor, engine, cc, chain);
    Facts1S(engine, cc, chain);
    if |chain| >= 2 {
      EnumOutFlatten(emit, |chain|, 3, ok, [], 0);
      Contexts1SLink(engine, cc, chain, ok, emit, |chain| - 2);
    }
  }

  // ---------------------------------------------------------------------
  // Two simultaneous sensory events, an operation, an outcome.
  // ---------------------------------------------------------------------

  /** The outcome loop after events i, j and k, over indices k + 1 .. hi - 1. */
  function Outcomes2S(engine: Engine, cc: real, chain: seq<Sentence>, i: nat, j: nat, k: nat, hi: nat): seq<Sentence>
    requires i < j < k < |chain| && hi <= |chain|
    decreases hi
  {
    if hi <= k + 1 then []
    else
      Outcomes2S(engine, cc, chain, i, j, k, hi - 1) +
      (if Outcome2S(chain[i], chain[j], chain[k], chain[hi - 1])
       then [TwoSensorImplication(engine, cc, chain[i], chain[j], chain[k], chain[hi - 1])] else [])
  }

  /** The operation loop after events i and j, over indices j + 1 .. hi - 1. */
  function Operations2S(engine: Engine, cc: real, chain: seq<Sentence>, i: nat, j: nat, hi: nat): seq<Sentence>
    requires i < j < |chain| && hi + 1 <= |chain|
    decreases hi
  {
    if hi <= j + 1 then []
    else
      Operations2S(engine, cc, chain, i, j, hi - 1) +
      (if Operation2S(chain[i], chain[j], chain[hi - 1])
       then Outcomes2S(engine, cc, chain, i, j, hi - 1, |chain|) else [])
  }

  /** The second sensory loop after event i, over indices i + 1 .. hi - 1. */
  function Seconds2S(engine: Engine, cc: real, chain: seq<Sentence>, i: nat, hi: nat): seq<Sentence>
    requires i < |chain| && hi + 2 <= |chain|
    decreases hi
  {
    if hi <= i + 1 then []
    else
      Seconds2S(engine, cc, chain, i, hi - 1) +
      (if Second2S(chain[i], chain[hi - 1])
       then Operations2S(engine, cc, chain, i, hi - 1, |chain| - 1) else [])
  }

  /** The first sensory loop, over indices 0 .. hi - 1. */
  function Firsts2S(engine: Engine, cc: real, chain: seq<Sentence>, hi: nat): seq<Sentence>
    requires hi == 0 || hi + 3 <= |chain|
    decreases hi
  {
    if hi == 0 then []
    else
      Firsts2S(engine, cc, chain, hi - 1) +
      (if Sensory(chain[hi - 1])
       then Seconds2S(engine, cc, chain, hi - 1, |chain| - 2) else [])
  }

  /** Everything the two-sensor loops emit for a chain. */
  function Formed2S(engine: Engine, cc: real, chain: seq<Sentence>): seq<Sentence>
  {
    if |chain| < 3 then [] else Firsts2S(engine, cc, chain, |chain| - 3)
  }

  /** A turn of the outcome loop whose test accepts index x adds its contribution at the end. */
  lemma Outcomes2SEmit(engine: Engine, cc: real, chain: seq<Sentence>, i: nat, j: nat, k: nat, x: nat, s: Sentence)
    requires i < j < k < x && x + 1 <= |chain|
    requires Outcome2S(chain[i], chain[j], chain[k], chain[x]) && s == TwoSensorImplication(engine, cc, chain[i], chain[j], chain[k], chain[x])
    ensures Outcomes2S(engine, cc, chain, i, j, k, x + 1) == Outcomes2S(engine, cc, chain, i, j, k, x) + [s]
  {
  }

  /** A turn of the outcome loop whose test rejects index x adds nothing. */
  lemma Outcomes2SSkip(engine: Engine, cc: real, chain: seq<Sentence>, i: nat, j: nat, k: nat, x: nat)
    requires i < j < k < x && x + 1 <= |chain|
    requires !Outcome2S(chain[i], chain[j], chain[k], chain[x])
    ensures Outcomes2S(engine, cc, chain, i, j, k, x + 1) == Outcomes2S(engine, cc, chain, i, j, k, x)
  {
  }

  /** A turn of the operation loop whose test accepts index x adds its contribution at the end. */
  lemma Operations2SEmit(engine: Engine, cc: real, chain: seq<Sentence>, i: nat, j: nat, x: nat)
    requires i < j < x && x + 2 <= |chain|
    requires Operation2S(chain[i], chain[j], chain[x])
    ensures Operations2S(engine, cc, chain, i, j, x + 1) == Operations2S(engine, cc, chain, i, j, x) + Outcomes2S(engine, cc, chain, i, j, x, |chain|)
  {
  }

  /** A turn of the operation loop whose test rejects index x adds nothing. */
  lemma Operations2SSkip(engine: Engine, cc: real, chain: seq<Sentence>, i: nat, j: nat, x: nat)
    requires i < j < x && x + 2 <= |chain|
    requires !Operation2S(chain[i], chain[j], chain[x])
    ensures Operations2S(engine, cc, chain, i, j, x + 1) == Operations2S(engine, cc, chain, i, j, x)
  {
  }

  /** A turn of the second sensory loop whose test accepts index x adds its contribution at the end. */
  lemma Seconds2SEmit(engine: Engine, cc: real, chain: seq<Sentence>, i: nat, x: nat)
    requires i < x && x + 3 <= |chain|
    requires Second2S(chain[i], chain[x])
    ensures Seconds2S(engine, cc, chain, i, x + 1) == Seconds2S(engine, cc, chain, i, x) + Operations2S(engine, cc, chain, i, x, |chain| - 1)
  {
  }

  /** A turn of the second sensory loop whose test rejects index x adds nothing. */
  lemma Seconds2SSkip(engine: Engine, cc: real, chain: seq<Sentence>, i: nat, x: nat)
    requires i < x && x + 3 <= |chain|
    requires !Second2S(chain[i], chain[x])
    ensures Seconds2S(engine, cc, chain, i, x + 1) == Seconds2S(engine, cc, chain, i, x)
  {
  }

  /** A turn of the first sensory loop whose test accepts index x adds its contribution at the end. */
  lemma Firsts2SEmit(engine: Engine, cc: real, chain: seq<Sentence>, x: nat)
    requires x + 4 <= |chain|
    requires Sensory(chain[x])
    ensures Firsts2S(engine, cc, chain, x + 1) == Firsts2S(engine, cc, chain, x) + Seconds2S(engine, cc, chain, x, |chain| - 2)
  {
  }

  /** A turn of the first sensory loop whose test rejects index x adds nothing. */
  lemma Firsts2SSkip(engine: Engine, cc: real, chain: seq<Sentence>, x: nat)
    requires x + 4 <= |chain|
    requires !Sensory(chain[x])
    ensures Firsts2S(engine, cc, chain, x + 1) == Firsts2S(engine, cc, chain, x)
  {
  }

  /** At a complete quadruple after accepted events, ok is the outcome test and emit the implication. */
  ghost predicate Leaves2S(engine: Engine, cc: real, chain: seq<Sentence>, ok: Tuple -> bool, emit: Tuple -> seq<Sentence>)
  {
    forall i: nat, j: nat, k: nat, x: nat {:trigger ok([i, j, k, x])} ::
      i < j < k < x < |chain| && Sensory(chain[i]) && Second2S(chain[i], chain[j]) && Operation2S(chain[i], chain[j], chain[k]) ==>
      ok([i, j, k, x]) == Outcome2S(chain[i], chain[j], chain[k], chain[x])
      && (ok([i, j, k, x]) ==> emit([i, j, k, x]) == [TwoSensorImplication(engine, cc, chain[i], chain[j], chain[k], chain[x])])
  }

  /** ok accepts no quadruple that starts with events a loop skips. */
  ghost predicate Skips2S(chain: seq<Sentence>, ok: Tuple -> bool)
  {
    (forall i: nat {:trigger NoneAfter(ok, 4, [i])} ::
          i < |chain| && !Sensory(chain[i]) ==> NoneAfter(ok, 4, [i]))
    && (forall i: nat, j: nat {:trigger NoneAfter(ok, 4, [i, j])} ::
          i < j < |chain| && !Second2S(chain[i], chain[j]) ==> NoneAfter(ok, 4, [i, j]))
    && (forall i: nat, j: nat, k: nat {:trigger NoneAfter(ok, 4, [i, j, k])} ::
          i < j < k < |chain| && !Operation2S(chain[i], chain[j], chain[k]) ==> NoneAfter(ok, 4, [i, j, k]))
  }

  /** The two-sensor acceptance test rejects every quadruple whose event at depth 0 the first sensory loop skips. */
  lemma Rejects2SAt0(chain: seq<Sentence>)
    ensures forall i: nat {:trigger NoneAfter(OkFor(TwoSensor, chain), 4, [i])} ::
      i < |chain| && !Sensory(chain[i]) ==> NoneAfter(OkFor(TwoSensor, chain), 4, [i])
  {
    forall i: nat | i < |chain| && !Sensory(chain[i])
      ensures NoneAfter(OkFor(TwoSensor, chain), 4, [i])
    {
      forall t | |t| == 4 && t[..1] == [i] ensures !Accepts(TwoSensor, chain, t) {
        PrefixIndex(t, [i]);
      }
    }
  }

  /** The two-sensor acceptance test rejects every quadruple whose event at depth 1 the second sensory loop skips. */
  lemma Rejects2SAt1(chain: seq<Sentence>)
    ensures forall i: nat, j: nat {:trigger NoneAfter(OkFor(TwoSensor, chain), 4, [i, j])} ::
      i < j < |chain| && !Second2S(chain[i], chain[j]) ==> NoneAfter(OkFor(TwoSensor, chain), 4, [i, j])
  {
    forall i: nat, j: nat | i < j < |chain| && !Second2S(chain[i], chain[j])
      ensures NoneAfter(OkFor(TwoSensor, chain), 4, [i, j])
    {
      forall t | |t| == 4 && t[..2] == [i, j] ensures !Accepts(TwoSensor, chain, t) {
        PrefixIndex(t, [i, j]);
      }
    }
  }

  /** The two-sensor acceptance test rejects every quadruple whose event at depth 2 the operation loop skips. */
  lemma Rejects2SAt2(chain: seq<Sentence>)
    ensures forall i: nat, j: nat, k: nat {:trigger NoneAfter(OkFor(TwoSensor, chain), 4, [i, j, k])} ::
      i < j < k < |chain| && !Operation2S(chain[i], chain[j], chain[k]) ==> NoneAfter(OkFor(TwoSensor, chain), 4, [i, j, k])
  {
    forall i: nat, j: nat, k: nat | i < j < k < |chain| && !Operation2S(chain[i], chain[j], chain[k])
      ensures NoneAfter(OkFor(TwoSensor, chain), 4, [i, j, k])
    {
      forall t | |t| == 4 && t[..3] == [i, j, k] ensures !Accepts(TwoSensor, chain, t) {
        PrefixIndex(t, [i, j, k]);
      }
    }
  }

  /** The two-sensor acceptance test meets Leaves2S and Skips2S. */
  lemma Facts2S(engine: Engine, cc: real, chain: seq<Sentence>)
    ensures Leaves2S(engine, cc, chain, OkFor(TwoSensor, chain), EmitFor(TwoSensor, engine, cc, chain))
    ensures Skips2S(chain, OkFor(TwoSensor, chain))
  {
    Rejects2SAt0(chain);
    Rejects2SAt1(chain);
    Rejects2SAt2(chain);
  }

  lemma {:induction false} Outcomes2SLink(engine: Engine, cc: real, chain: seq<Sentence>,
      ok: Tuple -> bool, emit: Tuple -> seq<Sentence>, i: nat, j: nat, k: nat, lo: nat, hi: nat)
    requires Leaves2S(engine, cc, chain, ok, emit)
    requires i < j < k && lo == k + 1 && lo <= hi && hi <= |chain|
    requires Sensory(chain[i]) && Second2S(chain[i], chain[j]) && Operation2S(chain[i], chain[j], chain[k])
    ensures Outcomes2S(engine, cc, chain, i, j, k, hi) == SpanOut(emit, |chain|, 4, ok, [i, j, k], lo, hi)
    decreases hi
  {
    if hi > lo {
      Outcomes2SLink(engine, cc, chain, ok, emit, i, j, k, lo, hi - 1);
      Outcomes2STurn(engine, cc, chain, ok, emit, i, j, k, lo, hi);
    }
  }

  /** The turn of the loop at index hi - 1, given the loop before it. */
  lemma Outcomes2STurn(engine: Engine, cc: real, chain: seq<Sentence>,
      ok: Tuple -> bool, emit: Tuple -> seq<Sentence>, i: nat, j: nat, k: nat, lo: nat, hi: nat)
    requires Leaves2S(engine, cc, chain, ok, emit)
    requires i < j < k && lo == k + 1 && lo <= hi && hi <= |chain|
    requires Sensory(chain[i]) && Second2S(chain[i], chain[j]) && Operation2S(chain[i], chain[j], chain[k])
    requires hi > lo
    requires Outcomes2S(engine, cc, chain, i, j, k, hi - 1) == SpanOut(emit, |chain|, 4, ok, [i, j, k], lo, hi - 1)
    ensures Outcomes2S(engine, cc, chain, i, j, k, hi) == SpanOut(emit, |chain|, 4, ok, [i, j, k], lo, hi)
  {
    var q := [i, j, k, hi - 1];
    OutLeaf(emit, |chain|, 4, ok, [i, j, k], lo, hi, q);
  }

  lemma {:induction false} Operations2SLink(engine: Engine, cc: real, chain: seq<Sentence>,
      ok: Tuple -> bool, emit: Tuple -> seq<Sentence>, i: nat, j: nat, lo: nat, hi: nat)
    requires Leaves2S(engine, cc, chain, ok, emit) && Skips2S(chain, ok)
    requires i < j && lo == j + 1 && lo <= hi && hi + 1 <= |chain|
    requires Sensory(chain[i]) && Second2S(chain[i], chain[j])
    ensures Operations2S(engine, cc, chain, i, j, hi) == SpanOut(emit, |chain|, 4, ok, [i, j], lo, hi)
    decreases hi
  {
    if hi > lo {
      Operations2SLink(engine, cc, chain, ok, emit, i, j, lo, hi - 1);
      Operations2STurn(engine, cc, chain, ok, emit, i, j, lo, hi);
    }
  }

  /** The turn of the loop at index hi - 1, given the loop before it. */
  lemma Operations2STurn(engine: Engine, cc: real, chain: seq<Sentence>,
      ok: Tuple -> bool, emit: Tuple -> seq<Sentence>, i: nat, j: nat, lo: nat, hi: nat)
    requires Leaves2S(engine, cc, chain, ok, emit) && Skips2S(chain, ok)
    requires i < j && lo == j + 1 && lo <= hi && hi + 1 <= |chain|
    requires Sensory(chain[i]) && Second2S(chain[i], chain[j])
    requires hi > lo
    requires Operations2S(engine, cc, chain, i, j, hi - 1) == SpanOut(emit, |chain|, 4, ok, [i, j], lo, hi - 1)
    ensures Operations2S(engine, cc, chain, i, j, hi) == SpanOut(emit, |chain|, 4, ok, [i, j], lo, hi)
  {
    var q := [i, j, hi - 1];
    OutNext(emit, |chain|, 4, ok, [i, j], lo, hi, q, |chain|);
    if Operation2S(chain[i], chain[j], chain[hi - 1]) {
      Outcomes2SLink(engine, cc, chain, ok, emit, i, j, hi - 1, hi, |chain|);
    } else {
      OutSkip(emit, |chain|, 4, ok, q, hi, |chain|);
    }
  }

  lemma {:induction false} Seconds2SLink(engine: Engine, cc: real, chain: seq<Sentence>,
      ok: Tuple -> bool, emit: Tuple -> seq<Sentence>, i: nat, lo: nat, hi: nat)
    requires Leaves2S(engine, cc, chain, ok, emit) && Skips2S(chain, ok)
    requires lo == i + 1 && lo <= hi && hi + 2 <= |chain|
    requires Sensory(chain[i])
    ensures Seconds2S(engine, cc, chain, i, hi) == SpanOut(emit, |chain|, 4, ok, [i], lo, hi)
    decreases hi
  {
    if hi > lo {
      Seconds2SLink(engine, cc, chain, ok, emit, i, lo, hi - 1);
      Seconds2STurn(engine, cc, chain, ok, emit, i, lo, hi);
    }
  }

  /** The turn of the loop at index hi - 1, given the loop before it. */
  lemma Seconds2STurn(engine: Engine, cc: real, chain: seq<Sentence>,
      ok: Tuple -> bool, emit: Tuple -> seq<Sentence>, i: nat, lo: nat, hi: nat)
    requires Leaves2S(engine, cc, chain, ok, emit) && Skips2S(chain, ok)
    requires lo == i + 1 && lo <= hi && hi + 2 <= |chain|
    requires Sensory(chain[i])
    requires hi > lo
    requires Seconds2S(engine, cc, chain, i, hi - 1) == SpanOut(emit, |chain|, 4, ok, [i], lo, hi - 1)
    ensures Seconds2S(engine, cc, chain, i, hi) == SpanOut(emit, |chain|, 4, ok, [i], lo, hi)
  {
    var q := [i, hi - 1];
    OutNext(emit, |chain|, 4, ok, [i], lo, hi, q, |chain| - 1);
    if Second2S(chain[i], chain[hi - 1]) {
      Operations2SLink(engine, cc, chain, ok, emit, i, hi - 1, hi, |chain| - 1);
    } else {
      OutSkip(emit, |chain|, 4, ok, q, hi, |chain| - 1);
    }
  }

  lemma {:induction false} Firsts2SLink(engine: Engine, cc: real, chain: seq<Sentence>,
      ok: Tuple -> bool, emit: Tuple -> seq<Sentence>, hi: nat)
    requires Leaves2S(engine, cc, chain, ok, emit) && Skips2S(chain, ok)
    requires hi + 3 <= |chain|
    ensures Firsts2S(engine, cc, chain, hi) == SpanOut(emit, |chain|, 4, ok, [], 0, hi)
    decreases hi
  {
    if hi > 0 {
      Firsts2SLink(engine, cc, chain, ok, emit, hi - 1);
      Firsts2STurn(engine, cc, chain, ok, emit, hi);
    }
  }

  /** The turn of the loop at index hi - 1, given the loop before it. */
  lemma Firsts2STurn(engine: Engine, cc: real, chain: seq<Sentence>,
      ok: Tuple -> bool, emit: Tuple -> seq<Sentence>, hi: nat)
    requires Leaves2S(engine, cc, chain, ok, emit) && Skips2S(chain, ok)
    requires hi + 3 <= |chain|
    requires hi > 0
    requires Firsts2S(engine, cc, chain, hi - 1) == SpanOut(emit, |chain|, 4, ok, [], 0, hi - 1)
    ensures Firsts2S(engine, cc, chain, hi) == SpanOut(emit, |chain|, 4, ok, [], 0, hi)
  {
    var q := [hi - 1];
    OutNext(emit, |chain|, 4, ok, [], 0, hi, q, |chain| - 2);
    if Sensory(chain[hi - 1]) {
      Seconds2SLink(engine, cc, chain, ok, emit, hi - 1, hi, |chain| - 2);
    } else {
      OutSkip(emit, |chain|, 4, ok, q, hi, |chain| - 2);
    }
  }

  /** The two-sensor loops emit exactly the two-sensor enumeration. */
  lemma Formed2SEmissions(engine: Engine, cc: real, chain: seq<Sentence>)
    ensures Formed2S(engine, cc, chain) == Emissions(TwoSensor, engine, cc, chain)
  {
    var ok, emit := OkFor(TwoSensor, chain), EmitFor(TwoSensor, engine, cc, chain);
    Facts2S(engine, cc, chain);
    if |chain| >= 3 {
      EnumOutFlatten(emit, |chain|, 4, ok, [], 0);
      Firsts2SLink(engine, cc, chain, ok, emit, |chain| - 3);
    }
  }

  // ---------------------------------------------------------------------
  // Three simultaneous sensory events, an operation, an outcome.
  // ---------------------------------------------------------------------

  /** The outcome loop after events i, j, k and l, over indices l + 1 .. hi - 1. */
  function Outcomes3S(engine: Engine, cc: real, chain: seq<Sentence>, i: nat, j: nat, k: nat, l: nat, hi: nat): seq<Sentence>
    requires i < j < k < l < |chain| && hi <= |chain|
    decreases hi
  {
    if hi <= l + 1 then []
    else
      Outcomes3S(engine, cc, chain, i, j, k, l, hi - 1) +
      (if Outcome3S(chain[i], chain[j], chain[k], chain[l], chain[hi - 1])
       then [ThreeSensorImplication(engine, cc, chain[i], chain[j], chain[k], chain[l], chain[hi - 1])] else [])
  }

  /** The operation loop after events i, j and k, over indices k + 1 .. hi - 1. */
  function Operations3S(engine: Engine, cc: real, chain: seq<Sentence>, i: nat, j: nat, k: nat, hi: nat): seq<Sentence>
    requires i < j < k < |chain| && hi + 1 <= |chain|
    decreases hi
  {
    if hi <= k + 1 then []
    else
      Operations3S(engine, cc, chain, i, j, k, hi - 1) +
      (if Operation3S(chain[i], chain[j], chain[k], chain[hi - 1])
       then Outcomes3S(engine, cc, chain, i, j, k, hi - 1, |chain|) else [])
  }

  /** The third sensory loop after events i and j, over indices j + 1 .. hi - 1. */
  function Thirds3S(engine: Engine, cc: real, chain: seq<Sentence>, i: nat, j: nat, hi: nat): seq<Sentence>
    requires i < j < |chain| && hi + 2 <= |chain|
    decreases hi
  {
    if hi <= j + 1 then []
    else
      Thirds3S(engine, cc, chain, i, j, hi - 1) +
      (if Third3S(chain[i], chain[j], chain[hi - 1])
       then Operations3S(engine, cc, chain, i, j, hi - 1, |chain| - 1) else [])
  }

  /** The second sensory loop after event i, over indices i + 1 .. hi - 1. */
  function Seconds3S(engine: Engine, cc: real, chain: seq<Sentence>, i: nat, hi: nat): seq<Sentence>
    requires i < |chain| && hi + 3 <= |chain|
    decreases hi
  {
    if hi <= i + 1 then []
    else
      Seconds3S(engine, cc, chain, i, hi - 1) +
      (if Second3S(chain[i], chain[hi - 1])
       then Thirds3S(engine, cc, chain, i, hi - 1, |chain| - 2) else [])
  }

  /** The first sensory loop, over indices 0 .. hi - 1. */
  function Firsts3S(engine: Engine, cc: real, chain: seq<Sentence>, hi: nat): seq<Sentence>
    requires hi == 0 || hi + 4 <= |chain|
    decreases hi
  {
    if hi == 0 then []
    else
      Firsts3S(engine, cc, chain, hi - 1) +
      (if Sensory(chain[hi - 1])
       then Seconds3S(engine, cc, chain, hi - 1, |chain| - 3) else [])
  }

  /** Everything the three-sensor loops emit for a chain. */
  function Formed3S(engine: Engine, cc: real, chain: seq<Sentence>): seq<Sentence>
  {
    if |chain| < 4 then [] else Firsts3S(engine, cc, chain, |chain| - 4)
  }

  /** A turn of the outcome loop whose test accepts index x adds its contribution at the end. */
  lemma Outcomes3SEmit(engine: Engine, cc: real, chain: seq<Sentence>, i: nat, j: nat, k: nat, l: nat, x: nat, s: Sentence)
    requires i < j < k < l < x && x + 1 <= |chain|
    requires Outcome3S(chain[i], chain[j], chain[k], chain[l], chain[x]) && s == ThreeSensorImplication(engine, cc, chain[i], chain[j], chain[k], chain[l], chain[x])
    ensures Outcomes3S(engine, cc, chain, i, j, k, l, x + 1) == Outcomes3S(engine, cc, chain, i, j, k, l, x) + [s]
  {
  }

  /** A turn of the outcome loop whose test rejects index x adds nothing. */
  lemma Outcomes3SSkip(engine: Engine, cc: real, chain: seq<Sentence>, i: nat, j: nat, k: nat, l: nat, x: nat)
    requires i < j < k < l < x && x + 1 <= |chain|
    requires !Outcome3S(chain[i], chain[j], chain[k], chain[l], chain[x])
    ensures Outcomes3S(engine, cc, chain, i, j, k, l, x + 1) == Outcomes3S(engine, cc, chain, i, j, k, l, x)
  {
  }

  /** A turn of the operation loop whose test accepts index x adds its contribution at the end. */
  lemma Operations3SEmit(engine: Engine, cc: real, chain: seq<Sentence>, i: nat, j: nat, k: nat, x: nat)
    requires i < j < k < x && x + 2 <= |chain|
    requires Operation3S(chain[i], chain[j], chain[k], chain[x])
    ensures Operations3S(engine, cc, chain, i, j, k, x + 1) == Operations3S(engine, cc, chain, i, j, k, x) + Outcomes3S(engine, cc, chain, i, j, k, x, |chain|)
  {
  }

  /** A turn of the operation loop whose test rejects index x adds nothing. */
  lemma Operations3SSkip(engine: Engine, cc: real, chain: seq<Sentence>, i: nat, j: nat, k: nat, x: nat)
    requires i < j < k < x && x + 2 <= |chain|
    requires !Operation3S(chain[i], chain[j], chain[k], chain[x])
    ensures Operations3S(engine, cc, chain, i, j, k, x + 1) == Operations3S(engine, cc, chain, i, j, k, x)
  {
  }

  /** A turn of the third sensory loop whose test accepts index x adds its contribution at the end. */
  lemma Thirds3SEmit(engine: Engine, cc: real, chain: seq<Sentence>, i: nat, j: nat, x: nat)
    requires i < j < x && x + 3 <= |chain|
    requires Third3S(chain[i], chain[j], chain[x])
    ensures Thirds3S(engine, cc, chain, i, j, x + 1) == Thirds3S(engine, cc, chain, i, j, x) + Operations3S(engine, cc, chain, i, j, x, |chain| - 1)
  {
  }

  /** A turn of the third sensory loop whose test rejects index x adds nothing. */
  lemma Thirds3SSkip(engine: Engine, cc: real, chain: seq<Sentence>, i: nat, j: nat, x: nat)
    requires i < j < x && x + 3 <= |chain|
    requires !Third3S(chain[i], chain[j], chain[x])
    ensures Thirds3S(engine, cc, chain, i, j, x + 1) == Thirds3S(engine, cc, chain, i, j, x)
  {
  }

  /** A turn of the second sensory loop whose test accepts index x adds its contribution at the end. */
  lemma Seconds3SEmit(engine: Engine, cc: real, chain: seq<Sentence>, i: nat, x: nat)
    requires i < x && x + 4 <= |chain|
    requires Second3S(chain[i], chain[x])
    ensures Seconds3S(engine, cc, chain, i, x + 1) == Seconds3S(engine, cc, chain, i, x) + Thirds3S(engine, cc, chain, i, x, |chain| - 2)
  {
  }

  /** A turn of the second sensory loop whose test rejects index x adds nothing. */
  lemma Seconds3SSkip(engine: Engine, cc: real, chain: seq<Sentence>, i: nat, x: nat)
    requires i < x && x + 4 <= |chain|
    requires !Second3S(chain[i], chain[x])
    ensures Seconds3S(engine, cc, chain, i, x + 1) == Seconds3S(engine, cc, chain, i, x)
  {
  }

  /** A turn of the first sensory loop whose test accepts index x adds its contribution at the end. */
  lemma Firsts3SEmit(engine: Engine, cc: real, chain: seq<Sentence>, x: nat)
    requires x + 5 <= |chain|
    requires Sensory(chain[x])
    ensures Firsts3S(engine, cc, chain, x + 1) == Firsts3S(engine, cc, chain, x) + Seconds3S(engine, cc, chain, x, |chain| - 3)
  {
  }

  /** A turn of the first sensory loop whose test rejects index x adds nothing. */
  lemma Firsts3SSkip(engine: Engine, cc: real, chain: seq<Sentence>, x: nat)
    requires x + 5 <= |chain|
    requires !Sensory(chain[x])
    ensures Firsts3S(engine, cc, chain, x + 1) == Firsts3S(engine, cc, chain, x)
  {
  }

  /** At a complete quintuple after accepted events, ok is the outcome test and emit the implication. */
  ghost predicate Leaves3S(engine: Engine, cc: real, chain: seq<Sentence>, ok: Tuple -> bool, emit: Tuple -> seq<Sentence>)
  {
    forall i: nat, j: nat, k: nat, l: nat, x: nat {:trigger ok([i, j, k, l, x])} ::
      i < j < k < l < x < |chain| && Sensory(chain[i]) && Second3S(chain[i], chain[j]) && Third3S(chain[i], chain[j], chain[k]) && Operation3S(chain[i], chain[j], chain[k], chain[l]) ==>
      ok([i, j, k, l, x]) == Outcome3S(chain[i], chain[j], chain[k], chain[l], chain[x])
      && (ok([i, j, k, l, x]) ==> emit([i, j, k, l, x]) == [ThreeSensorImplication(engine, cc, chain[i], chain[j], chain[k], chain[l], chain[x])])
  }

  /** ok accepts no quintuple that starts with events a loop skips. */
  ghost predicate Skips3S(chain: seq<Sentence>, ok: Tuple -> bool)
  {
    (forall i: nat {:trigger NoneAfter(ok, 5, [i])} ::
          i < |chain| && !Sensory(chain[i]) ==> NoneAfter(ok, 5, [i]))
    && (forall i: nat, j: nat {:trigger NoneAfter(ok, 5, [i, j])} ::
          i < j < |chain| && !Second3S(chain[i], chain[j]) ==> NoneAfter(ok, 5, [i, j]))
    && (forall i: nat, j: nat, k: nat {:trigger NoneAfter(ok, 5, [i, j, k])} ::
          i < j < k < |chain| && !Third3S(chain[i], chain[j], chain[k]) ==> NoneAfter(ok, 5, [i, j, k]))
    && (forall i: nat, j: nat, k: nat, l: nat {:trigger NoneAfter(ok, 5, [i, j, k, l])} ::
          i < j < k < l < |chain| && !Operation3S(chain[i], chain[j], chain[k], chain[l]) ==> NoneAfter(ok, 5, [i, j, k, l]))
  }

  /** The three-sensor acceptance test rejects every quintuple whose event at depth 0 the first sensory loop skips. */
  lemma Rejects3SAt0(chain: seq<Sentence>)
    ensures forall i: nat {:trigger NoneAfter(OkFor(ThreeSensor, chain), 5, [i])} ::
      i < |chain| && !Sensory(chain[i]) ==> NoneAfter(OkFor(ThreeSensor, chain), 5, [i])
  {
    forall i: nat | i < |chain| && !Sensory(chain[i])
      ensures NoneAfter(OkFor(ThreeSensor, chain), 5, [i])
    {
      forall t | |t| == 5 && t[..1] == [i] ensures !Accepts(ThreeSensor, chain, t) {
        PrefixIndex(t, [i]);
      }
    }
  }

  /** The three-sensor acceptance test rejects every quintuple whose event at depth 1 the second sensory loop skips. */
  lemma Rejects3SAt1(chain: seq<Sentence>)
    ensures forall i: nat, j: nat {:trigger NoneAfter(OkFor(ThreeSensor, chain), 5, [i, j])} ::
      i < j < |chain| && !Second3S(chain[i], chain[j]) ==> NoneAfter(OkFor(ThreeSensor, chain), 5, [i, j])
  {
    forall i: nat, j: nat | i < j < |chain| && !Second3S(chain[i], chain[j])
      ensures NoneAfter(OkFor(ThreeSensor, chain), 5, [i, j])
    {
      forall t | |t| == 5 && t[..2] == [i, j] ensures !Accepts(ThreeSensor, chain, t) {
        PrefixIndex(t, [i, j]);
      }
    }
  }

  /** The three-sensor acceptance test rejects every quintuple whose event at depth 2 the third sensory loop skips. */
  lemma Rejects3SAt2(chain: seq<Sentence>)
    ensures forall i: nat, j: nat, k: nat {:trigger NoneAfter(OkFor(ThreeSensor, chain), 5, [i, j, k])} ::
      i < j < k < |chain| && !Third3S(chain[i], chain[j], chain[k]) ==> NoneAfter(OkFor(ThreeSensor, chain), 5, [i, j, k])
  {
    forall i: nat, j: nat, k: nat | i < j < k < |chain| && !Third3S(chain[i], chain[j], chain[k])
      ensures NoneAfter(OkFor(ThreeSensor, chain), 5, [i, j, k])
    {
      forall t | |t| == 5 && t[..3] == [i, j, k] ensures !Accepts(ThreeSensor, chain, t) {
        PrefixIndex(t, [i, j, k]);
      }
    }
  }

  /** The three-sensor acceptance test rejects every quintuple whose event at depth 3 the operation loop skips. */
  lemma Rejects3SAt3(chain: seq<Sentence>)
    ensures forall i: nat, j: nat, k: nat, l: nat {:trigger NoneAfter(OkFor(ThreeSensor, chain), 5, [i, j, k, l])} ::
      i < j < k < l < |chain| && !Operation3S(chain[i], chain[j], chain[k], chain[l]) ==> NoneAfter(OkFor(ThreeSensor, chain), 5, [i, j, k, l])
  {
    forall i: nat, j: nat, k: nat, l: nat | i < j < k < l < |chain| && !Operation3S(chain[i], chain[j], chain[k], chain[l])
      ensures NoneAfter(OkFor(ThreeSensor, chain), 5, [i, j, k, l])
    {
      forall t | |t| == 5 && t[..4] == [i, j, k, l] ensures !Accepts(ThreeSensor, chain, t) {
        PrefixIndex(t, [i, j, k, l]);
      }
    }
  }

  /** The three-sensor acceptance test meets Leaves3S and Skips3S. */
  lemma Facts3S(engine: Engine, cc: real, chain: seq<Sentence>)
    ensures Leaves3S(engine, cc, chain, OkFor(ThreeSensor, chain), EmitFor(ThreeSensor, engine, cc, chain))
    ensures Skips3S(chain, OkFor(ThreeSensor, chain))
  {
    Rejects3SAt0(chain);
    Rejects3SAt1(chain);
    Rejects3SAt2(chain);
    Rejects3SAt3(chain);
  }

  lemma {:induction false} Outcomes3SLink(engine: Engine, cc: real, chain: seq<Sentence>,
      ok: Tuple -> bool, emit: Tuple -> seq<Sentence>, i: nat, j: nat, k: nat, l: nat, lo: nat, hi: nat)
    requires Leaves3S(engine, cc, chain, ok, emit)
    requires i < j < k < l && lo == l + 1 && lo <= hi && hi <= |chain|
    requires Sensory(chain[i]) && Second3S(chain[i], chain[j]) && Third3S(chain[i], chain[j], chain[k]) && Operation3S(chain[i], chain[j], chain[k], chain[l])
    ensures Outcomes3S(engine, cc, chain, i, j, k, l, hi) == SpanOut(emit, |chain|, 5, ok, [i, j, k, l], lo, hi)
    decreases hi
  {
    if hi > lo {
      Outcomes3SLink(engine, cc, chain, ok, emit, i, j, k, l, lo, hi - 1);
      Outcomes3STurn(engine, cc, chain, ok, emit, i, j, k, l, lo, hi);
    }
  }

  /** The turn of the loop at index hi - 1, given the loop before it. */
  lemma Outcomes3STurn(engine: Engine, cc: real, chain: seq<Sentence>,
      ok: Tuple -> bool, emit: Tuple -> seq<Sentence>, i: nat, j: nat, k: nat, l: nat, lo: nat, hi: nat)
    requires Leaves3S(engine, cc, chain, ok, emit)
    requires i < j < k < l && lo == l + 1 && lo <= hi && hi <= |chain|
    requires Sensory(chain[i]) && Second3S(chain[i], chain[j]) && Third3S(chain[i], chain[j], chain[k]) && Operation3S(chain[i], chain[j], chain[k], chain[l])
    requires hi > lo
    requires Outcomes3S(engine, cc, chain, i, j, k, l, hi - 1) == SpanOut(emit, |chain|, 5, ok, [i, j, k, l], lo, hi - 1)
    ensures Outcomes3S(engine, cc, chain, i, j, k, l, hi) == SpanOut(emit, |chain|, 5, ok, [i, j, k, l], lo, hi)
  {
    var q := [i, j, k, l, hi - 1];
    OutLeaf(emit, |chain|, 5, ok, [i, j, k, l], lo, hi, q);
  }

  lemma {:induction false} Operations3SLink(engine: Engine, cc: real, chain: seq<Sentence>,
      ok: Tuple -> bool, emit: Tuple -> seq<Sentence>, i: nat, j: nat, k: nat, lo: nat, hi: nat)
    requires Leaves3S(engine, cc, chain, ok, emit) && Skips3S(chain, ok)
    requires i < j < k && lo == k + 1 && lo <= hi && hi + 1 <= |chain|
    requires Sensory(chain[i]) && Second3S(chain[i], chain[j]) && Third3S(chain[i], chain[j], chain[k])
    ensures Operations3S(engine, cc, chain, i, j, k, hi) == SpanOut(emit, |chain|, 5, ok, [i, j, k], lo, hi)
    decreases hi
  {
    if hi > lo {
      Operations3SLink(engine, cc, chain, ok, emit, i, j, k, lo, hi - 1);
      Operations3STurn(engine, cc, chain, ok, emit, i, j, k, lo, hi);
    }
  }

  /** The turn of the loop at index hi - 1, given the loop before it. */
  lemma Operations3STurn(engine: Engine, cc: real, chain: seq<Sentence>,
      ok: Tuple -> bool, emit: Tuple -> seq<Sentence>, i: nat, j: nat, k: nat, lo: nat, hi: nat)
    requires Leaves3S(engine, cc, chain, ok, emit) && Skips3S(chain, ok)
    requires i < j < k && lo == k + 1 && lo <= hi && hi + 1 <= |chain|
    requires Sensory(chain[i]) && Second3S(chain[i], chain[j]) && Third3S(chain[i], chain[j], chain[k])
    requires hi > lo
    requires Operations3S(engine, cc, chain, i, j, k, hi - 1) == SpanOut(emit, |chain|, 5, ok, [i, j, k], lo, hi - 1)
    ensures Operations3S(engine, cc, chain, i, j, k, hi) == SpanOut(emit, |chain|, 5, ok, [i, j, k], lo, hi)
  {
    var q := [i, j, k, hi - 1];
    OutNext(emit, |chain|, 5, ok, [i, j, k], lo, hi, q, |chain|);
    if Operation3S(chain[i], chain[j], chain[k], chain[hi - 1]) {
      Outcomes3SLink(engine, cc, chain, ok, emit, i, j, k, hi - 1, hi, |chain|);
    } else {
      OutSkip(emit, |chain|, 5, ok, q, hi, |chain|);
    }
  }

  lemma {:induction false} Thirds3SLink(engine: Engine, cc: real, chain: seq<Sentence>,
      ok: Tuple -> bool, emit: Tuple -> seq<Sentence>, i: nat, j: nat, lo: nat, hi: nat)
    requires Leaves3S(engine, cc, chain, ok, emit) && Skips3S(chain, ok)
    requires i < j && lo == j + 1 && lo <= hi && hi + 2 <= |chain|
    requires Sensory(chain[i]) && Second3S(chain[i], chain[j])
    ensures Thirds3S(engine, cc, chain, i, j, hi) == SpanOut(emit, |chain|, 5, ok, [i, j], lo, hi)
    decreases hi
  {
    if hi > lo {
      Thirds3SLink(engine, cc, chain, ok, emit, i, j, lo, hi - 1);
      Thirds3STurn(engine, cc, chain, ok, emit, i, j, lo, hi);
    }
  }

  /** The turn of the loop at index hi - 1, given the loop before it. */
  lemma Thirds3STurn(engine: Engine, cc: real, chain: seq<Sentence>,
      ok: Tuple -> bool, emit: Tuple -> seq<Sentence>, i: nat, j: nat, lo: nat, hi: nat)
    requires Leaves3S(engine, cc, chain, ok, emit) && Skips3S(chain, ok)
    requires i < j && lo == j + 1 && lo <= hi && hi + 2 <= |chain|
    requires Sensory(chain[i]) && Second3S(chain[i], chain[j])
    requires hi > lo
    requires Thirds3S(engine, cc, chain, i, j, hi - 1) == SpanOut(emit, |chain|, 5, ok, [i, j], lo, hi - 1)
    ensures Thirds3S(engine, cc, chain, i, j, hi) == SpanOut(emit, |chain|, 5, ok, [i, j], lo, hi)
  {
    var q := [i, j, hi - 1];
    OutNext(emit, |chain|, 5, ok, [i, j], lo, hi, q, |chain| - 1);
    if Third3S(chain[i], chain[j], chain[hi - 1]) {
      Operations3SLink(engine, cc, chain, ok, emit, i, j, hi - 1, hi, |chain| - 1);
    } else {
      OutSkip(emit, |chain|, 5, ok, q, hi, |chain| - 1);
    }
  }

  lemma {:induction false} Seconds3SLink(engine: Engine, cc: real, chain: seq<Sentence>,
      ok: Tuple -> bool, emit: Tuple -> seq<Sentence>, i: nat, lo: nat, hi: nat)
    requires Leaves3S(engine, cc, chain, ok, emit) && Skips3S(chain, ok)
    requires lo == i + 1 && lo <= hi && hi + 3 <= |chain|
    requires Sensory(chain[i])
    ensures Seconds3S(engine, cc, chain, i, hi) == SpanOut(emit, |chain|, 5, ok, [i], lo, hi)
    decreases hi
  {
    if hi > lo {
      Seconds3SLink(engine, cc, chain, ok, emit, i, lo, hi - 1);
      Seconds3STurn(engine, cc, chain, ok, emit, i, lo, hi);
    }
  }

  /** The turn of the loop at index hi - 1, given the loop before it. */
  lemma Seconds3STurn(engine: Engine, cc: real, chain: seq<Sentence>,
      ok: Tuple -> bool, emit: Tuple -> seq<Sentence>, i: nat, lo: nat, hi: nat)
    requires Leaves3S(engine, cc, chain, ok, emit) && Skips3S(chain, ok)
    requires lo == i + 1 && lo <= hi && hi + 3 <= |chain|
    requires Sensory(chain[i])
    requires hi > lo
    requires Seconds3S(engine, cc, chain, i, hi - 1) == SpanOut(emit, |chain|, 5, ok, [i], lo, hi - 1)
    ensures Seconds3S(engine, cc, chain, i, hi) == SpanOut(emit, |chain|, 5, ok, [i], lo, hi)
  {
    var q := [i, hi - 1];
    OutNext(emit, |chain|, 5, ok, [i], lo, hi, q, |chain| - 2);
    if Second3S(chain[i], chain[hi - 1]) {
      Thirds3SLink(engine, cc, chain, ok, emit, i, hi - 1, hi, |chain| - 2);
    } else {
      OutSkip(emit, |chain|, 5, ok, q, hi, |chain| - 2);
    }
  }

  lemma {:induction false} Firsts3SLink(engine: Engine, cc: real, chain: seq<Sentence>,
      ok: Tuple -> bool, emit: Tuple -> seq<Sentence>, hi: nat)
    requires Leaves3S(engine, cc, chain, ok, emit) && Skips3S(chain, ok)
    requires hi + 4 <= |chain|
    ensures Firsts3S(engine, cc, chain, hi) == SpanOut(emit, |chain|, 5, ok, [], 0, hi)
    decreases hi
  {
    if hi > 0 {
      Firsts3SLink(engine, cc, chain, ok, emit, hi - 1);
      Firsts3STurn(engine, cc, chain, ok, emit, hi);
    }
  }

  /** The turn of the loop at index hi - 1, given the loop before it. */
  lemma Firsts3STurn(engine: Engine, cc: real, chain: seq<Sentence>,
      ok: Tuple -> bool, emit: Tuple -> seq<Sentence>, hi: nat)
    requires Leaves3S(engine, cc, chain, ok, emit) && Skips3S(chain, ok)
    requires hi + 4 <= |chain|
    requires hi > 0
    requires Firsts3S(engine, cc, chain, hi - 1) == SpanOut(emit, |chain|, 5, ok, [], 0, hi - 1)
    ensures Firsts3S(engine, cc, chain, hi) == SpanOut(emit, |chain|, 5, ok, [], 0, hi)
  {
    var q := [hi - 1];
    OutNext(emit, |chain|, 5, ok, [], 0, hi, q, |chain| - 3);
    if Sensory(chain[hi - 1]) {
      Seconds3SLink(engine, cc, chain, ok, emit, hi - 1, hi, |chain| - 3);
    } else {
      OutSkip(emit, |chain|, 5, ok, q, hi, |chain| - 3);
    }
  }

  /** The three-sensor loops emit exactly the three-sensor enumeration. */
  lemma Formed3SEmissions(engine: Engine, cc: real, chain: seq<Sentence>)
    ensures Formed3S(engine, cc, chain) == Emissions(ThreeSensor, engine, cc, chain)
  {
    var ok, emit := OkFor(ThreeSensor, chain), EmitFor(ThreeSensor, engine, cc, chain);
    Facts3S(engine, cc, chain);
    if |chain| >= 4 {
      EnumOutFlatten(emit, |chain|, 5, ok, [], 0);
      Firsts3SLink(engine, cc, chain, ok, emit, |chain| - 4);
    }
  }
}
