/*
  The reasoner (NARS.cs): memory of concepts, the global buffer, the
  temporal module and the working cycle that drains the buffer into the
  judgment, question and goal handlers.

  Every step the reasoner takes is first defined as a function on a State
  value (the cycle number, the concepts' tables, the event chain, the
  global queue and the anticipation list); the Nars class's methods are
  proved to move their fields exactly as those functions say, and the
  lemmas state what the functions keep and what they never do.
*/
module Reasoner {
  import opened Wrappers
  import opened Values
  import opened Terms
  import opened Draws
  import opened Configs
  import opened Tables
  import opened Buffers
  import opened Temporal
  import Genomes

  /** A concept's belief and desire tables. */
  datatype Concept = Concept(beliefs: seq<Entry>, desires: seq<Entry>)

  /** A term's concept; looking a term up creates its concept, with empty tables, when there is none. */
  function ConceptOf(memory: map<Term, Concept>, t: Term): Concept
  {
    if t in memory then memory[t] else Concept([], [])
  }

  ghost predicate ConceptValid(c: Concept, cap: nat)
  {
    Sorted(c.beliefs) && |c.beliefs| <= cap && Sorted(c.desires) && |c.desires| <= cap
  }

  ghost predicate MemoryValid(memory: map<Term, Concept>, cap: nat)
  {
    forall t :: t in memory ==> ConceptValid(memory[t], cap)
  }

  lemma ConceptOfValid(memory: map<Term, Concept>, cap: nat, t: Term)
    requires MemoryValid(memory, cap)
    ensures ConceptValid(ConceptOf(memory, t), cap)
  {
  }

  /** A table after put: staged, then trimmed to its capacity; it stays ordered and within capacity. */
  function Stored(es: seq<Entry>, s: Sentence, engine: Engine, cap: nat): (r: seq<Entry>)
    requires Sorted(es)
    ensures Sorted(r) && |r| <= cap
  {
    StagedSorted(es, s, engine);
    TrimmedSorted(Staged(es, s, engine), cap);
    PutBounds(es, s, engine, cap);
    Trimmed(Staged(es, s, engine), cap)
  }

  /** The head of a table, the sentence peek returns; None for an empty table. */
  function Top(es: seq<Entry>): (r: Option<Sentence>)
    ensures r.None? <==> |es| == 0
    ensures Sorted(es) && r.Some? ==> forall e :: e in es ==> e.key <= es[0].key && r.value == es[0].sentence
  {
    if |es| == 0 then None else Some(es[0].sentence)
  }

  /** Memory after a judgment is put into its concept's belief table. */
  function Believed(memory: map<Term, Concept>, j: Sentence, engine: Engine, cap: nat): (r: map<Term, Concept>)
    requires MemoryValid(memory, cap)
    ensures MemoryValid(r, cap)
    ensures forall t :: ConceptOf(r, t).desires == ConceptOf(memory, t).desires
    ensures forall t :: t != j.statement ==> ConceptOf(r, t) == ConceptOf(memory, t)
  {
    var c := ConceptOf(memory, j.statement);
    memory[j.statement := c.(beliefs := Stored(c.beliefs, j, engine, cap))]
  }

  /** Memory with a term's desire table replaced. */
  function Desired(memory: map<Term, Concept>, t: Term, desires: seq<Entry>): (r: map<Term, Concept>)
    ensures ConceptOf(r, t).desires == desires
    ensures forall u :: ConceptOf(r, u).beliefs == ConceptOf(memory, u).beliefs
    ensures forall u :: u != t ==> ConceptOf(r, u) == ConceptOf(memory, u)
  {
    memory[t := ConceptOf(memory, t).(desires := desires)]
  }

  lemma DesiredValid(memory: map<Term, Concept>, t: Term, desires: seq<Entry>, cap: nat)
    requires MemoryValid(memory, cap) && Sorted(desires) && |desires| <= cap
    ensures MemoryValid(Desired(memory, t, desires), cap)
  {
  }

  lemma DropHeadSorted(es: seq<Entry>)
    requires Sorted(es) && |es| > 0
    ensures Sorted(es[1..]) && |es[1..]| == |es| - 1
  {
  }

  /**
    The collaborators and settings a reasoner is built with: configuration,
    inference engine, evolution mode and the motor terms it babbles from.
  */
  datatype Rules = Rules(config: Config, engine: Engine, mode: Genomes.EvolutionType, motorTerms: seq<Term>)

  /**
    What the working cycle reads and writes: the cycle number, memory, the
    temporal module's chain and anticipation list, and the global queue.
    The anticipation dictionary is left out: it is a function of the list.
  */
  datatype State = State(
    cycle: int,
    memory: map<Term, Concept>,
    chain: seq<Sentence>,
    queue: seq<Queued>,
    anticipations: seq<Anticipation>)

  /** What a handler leaves behind, and whether it ran to its end (false: it threw). */
  datatype Outcome = Outcome(state: State, ok: bool)

  ghost predicate StateValid(r: Rules, st: State)
  {
    MemoryValid(st.memory, r.config.tableCapacity)
    && ChainSorted(st.chain) && |st.chain| <= r.config.eventBufferCapacity
    && (forall s :: s in st.chain ==> s.IsEvent() && s.statement.Statement?)
    && QueueSorted(st.queue)
  }

  /** Sentences queued in order, each under the engine's priority. */
  function Queue(r: Rules, st: State, ss: seq<Sentence>): State
  {
    st.(queue := EnqueueAll(st.queue, ss, r.engine.priority))
  }

  /** A sentence marked as input, as SendInput marks it. */
  function AsInput(s: Sentence): (x: Sentence)
    ensures x.fromInput && x.kind == s.kind && x.statement == s.statement
    ensures x.value == s.value && x.occurrence == s.occurrence
  {
    s.(fromInput := true)
  }

  /** The chain after an event is pushed: inserted by time, and the earliest dropped when over capacity. */
  function Pushed(chain: seq<Sentence>, s: Sentence, cap: nat): seq<Sentence>
  {
    var grown := Inserted(chain, s);
    if |grown| > cap then grown[1..] else grown
  }

  // ---------------------------------------------------------------- judgments

  /** Whether a judgment enters the temporal module: in a learning mode, an event on a statement. */
  predicate Temporalized(r: Rules, j: Sentence)
  {
    Genomes.UseLearning(r.mode) && j.IsEvent() && j.statement.Statement?
  }

  /**
    process_judgment_initial: in a learning mode an event goes into the
    temporal module (whose chaining queues its contingencies); the
    judgment is put into its concept's belief table. When that table is
    then empty, peek gives null and process_judgment_continued throws on
    it; otherwise every anticipation of its term is cancelled.
  */
  function Judge(r: Rules, st: State, j: Sentence): (o: Outcome)
    requires MemoryValid(st.memory, r.config.tableCapacity)
  {
    var put := Received(r, st, j);
    if ConceptOf(put.memory, j.statement).beliefs == [] then Outcome(put, false)
    else Outcome(put.(anticipations := Without(st.anticipations, j.statement)), true)
  }

  /** The state once the judgment is in the temporal module and in its belief table. */
  function Received(r: Rules, st: State, j: Sentence): State
    requires MemoryValid(st.memory, r.config.tableCapacity)
  {
    var chain := if Temporalized(r, j) then Pushed(st.chain, j, r.config.eventBufferCapacity) else st.chain;
    var queue := if Temporalized(r, j)
      then EnqueueAll(st.queue, Chaining(r.config, r.engine, chain), r.engine.priority)
      else st.queue;
    st.(memory := Believed(st.memory, j, r.engine, r.config.tableCapacity), chain := chain, queue := queue)
  }

  /** A table after put is empty exactly when its capacity is 0. */
  lemma StoredEmptyIff(es: seq<Entry>, s: Sentence, engine: Engine, cap: nat)
    requires Sorted(es)
    ensures Stored(es, s, engine, cap) == [] <==> cap == 0
  {
    StagedContents(es, s, engine);
    StagedSorted(es, s, engine);
    TrimmedDropsHighest(Staged(es, s, engine), cap);
  }

  /** A judgment throws exactly when the belief tables have capacity 0. */
  lemma JudgeFails(r: Rules, st: State, j: Sentence)
    requires MemoryValid(st.memory, r.config.tableCapacity)
    ensures !Judge(r, st, j).ok <==> r.config.tableCapacity == 0
  {
    ConceptOfValid(st.memory, r.config.tableCapacity, j.statement);
    StoredEmptyIff(ConceptOf(st.memory, j.statement).beliefs, j, r.engine, r.config.tableCapacity);
  }

  lemma PushedValid(chain: seq<Sentence>, s: Sentence, cap: nat)
    requires ChainSorted(chain) && |chain| <= cap
    requires forall x :: x in chain ==> x.IsEvent() && x.statement.Statement?
    requires s.IsEvent() && s.statement.Statement?
    ensures ChainSorted(Pushed(chain, s, cap)) && |Pushed(chain, s, cap)| <= cap
    ensures forall x :: x in Pushed(chain, s, cap) ==> x.IsEvent() && x.statement.Statement?
  {
    InsertedSorted(chain, s);
    var grown := Inserted(chain, s);
    if |grown| > cap {
      forall x | x in grown[1..] ensures x in grown { }
    }
  }

  /** A judgment keeps every table ordered and within capacity, the chain ordered and bounded, the queue ordered. */
  lemma JudgeValid(r: Rules, st: State, j: Sentence)
    requires StateValid(r, st)
    ensures StateValid(r, Judge(r, st, j).state)
  {
    if Temporalized(r, j) {
      PushedValid(st.chain, j, r.config.eventBufferCapacity);
      EnqueueAllSorted(st.queue, Chaining(r.config, r.engine, Pushed(st.chain, j, r.config.eventBufferCapacity)), r.engine.priority);
    }
  }

  /**
    A judgment that runs to its end confirms what was anticipated: afterwards
    no anticipation of its term is left, and every other anticipation is
    kept. One that throws cancels nothing.
  */
  lemma JudgeCancelsAnticipations(r: Rules, st: State, j: Sentence)
    requires MemoryValid(st.memory, r.config.tableCapacity)
    ensures Judge(r, st, j).ok ==>
      forall a :: a in Judge(r, st, j).state.anticipations <==> a in st.anticipations && a.term != j.statement
    ensures Judge(r, st, j).ok ==> Pending(Judge(r, st, j).state.anticipations, j.statement) == 0
    ensures !Judge(r, st, j).ok ==> Judge(r, st, j).state.anticipations == st.anticipations
  {
    WithoutMembers(st.anticipations, j.statement);
    WithoutPending(st.anticipations, j.statement, j.statement);
  }

  /** The belief table of the judgment's term is the put result, all desires and all other concepts are kept. */
  lemma JudgeStores(r: Rules, st: State, j: Sentence, t: Term)
    requires MemoryValid(st.memory, r.config.tableCapacity)
    ensures ConceptOf(Judge(r, st, j).state.memory, j.statement).beliefs
            == Stored(ConceptOf(st.memory, j.statement).beliefs, j, r.engine, r.config.tableCapacity)
    ensures ConceptOf(Judge(r, st, j).state.memory, t).desires == ConceptOf(st.memory, t).desires
    ensures t != j.statement ==> ConceptOf(Judge(r, st, j).state.memory, t) == ConceptOf(st.memory, t)
  {
    ConceptOfValid(st.memory, r.config.tableCapacity, j.statement);
  }

  /** Cancelling a term nothing anticipates leaves the list as it is. */
  lemma {:induction false} WithoutUnpending(anticipations: seq<Anticipation>, t: Term)
    requires Pending(anticipations, t) == 0
    ensures Without(anticipations, t) == anticipations
  {
    if anticipations != [] {
      WithoutUnpending(anticipations[1..], t);
      assert anticipations == [anticipations[0]] + anticipations[1..];
    }
  }

  // ---------------------------------------------------------------- goals

  /** The three unit draws one goal may consume: the explanation pick and the two babbling draws. */
  datatype GoalDraws = GoalDraws(explanation: real, babble: real, babbleIndex: real)
  {
    predicate Valid() { IsUnit(explanation) && IsUnit(babble) && IsUnit(babbleIndex) }
  }

  /** The value executed operations and babbled goals carry. */
  const FirmValue: EvidentialValue := MakeValue(1.0, 0.99)

  /**
    The shape process_goal_continued casts a sequential conjunction to: a
    first conjunct, and a second conjunct that is a statement whose
    subject is a compound of at least two terms. Anything else throws.
  */
  predicate ConjunctionShaped(t: Term)
  {
    t.Compound? && |t.subterms| >= 2
    && t.subterms[1].Statement? && t.subterms[1].subject.Compound?
    && |t.subterms[1].subject.subterms| >= 2
  }

  /** The way process_goal_continued handles a goal, decided before it changes anything. */
  datatype Route =
    | Declined             // the decision rule rejects the goal
    | Execute              // an operation: executed at once
    | Achieved             // the concept's top belief is already positive
    | Broken               // a cast or an index throws
    | Decompose(belief: Sentence)   // (A &/ B)! with A believed positive
    | SubGoal(first: Term)          // (A &/ B)! with A not believed: A! is derived
    | Babble               // no explanation links
    | Unexplained          // no explanation was drawn
    | Explain(belief: Sentence)     // an explanation (P =/> G) was drawn

  function RouteOf(r: Rules, memory: map<Term, Concept>, j: Sentence, d: GoalDraws): Route
  {
    var t := j.statement;
    var top := Top(ConceptOf(memory, t).beliefs);
    if !r.engine.decision(j) then Declined
    else if IsOp(t) then Execute
    else if top.Some? && r.engine.isPositive(top.value) then Achieved
    else if t.Compound? && t.connector == SequentialConjunction then
      if !ConjunctionShaped(t) then Broken
      else
        var b := FirstInteractable(ConceptOf(memory, t.subterms[0]).beliefs, j, r.engine);
        if b.Some? && r.engine.isPositive(b.value) then Decompose(b.value) else SubGoal(t.subterms[0])
    else if r.engine.explanationCount(t) == 0 then Babble
    else match r.engine.randomExplanation(j, d.explanation)
      case None => Unexplained
      case Some(b) => if b.statement.Statement? && b.statement.subject.Compound? then Explain(b) else Broken
  }

  /** A result of explanation inference that throws: a conjunction with fewer than two terms. */
  predicate Breaks(x: Sentence)
  {
    x.statement.Compound? && IsConjunction(x.statement.connector) && |x.statement.subterms| < 2
  }

  /** The position of the first result that throws; the length when none does. */
  function FirstBroken(xs: seq<Sentence>): (k: nat)
    ensures k <= |xs|
    ensures forall i :: 0 <= i < k ==> !Breaks(xs[i])
    ensures k < |xs| ==> Breaks(xs[k])
  {
    if xs == [] then 0 else if Breaks(xs[0]) then 0 else 1 + FirstBroken(xs[1..])
  }

  lemma NotYetBroken(xs: seq<Sentence>, i: nat)
    requires i <= FirstBroken(xs) && i < |xs| && !Breaks(xs[i])
    ensures i + 1 <= FirstBroken(xs)
  {
  }

  /**
    Whether a result makes the goal anticipated: in a learning mode, a
    conjunction whose first conjunct is believed positive and whose second
    conjunct is an operation.
  */
  predicate Expects(r: Rules, memory: map<Term, Concept>, j: Sentence, x: Sentence)
  {
    Genomes.UseLearning(r.mode)
    && x.statement.Compound? && IsConjunction(x.statement.connector) && |x.statement.subterms| >= 2
    && (var b := FirstInteractable(ConceptOf(memory, x.statement.subterms[0]).beliefs, j, r.engine);
        b.Some? && r.engine.isPositive(b.value))
    && IsOp(x.statement.subterms[1])
  }

  /** How many of the results make the goal anticipated. */
  function ExpectCount(r: Rules, memory: map<Term, Concept>, j: Sentence, xs: seq<Sentence>): (n: nat)
    ensures n <= |xs|
  {
    if xs == [] then 0
    else ExpectCount(r, memory, j, xs[..|xs| - 1]) + (if Expects(r, memory, j, xs[|xs| - 1]) then 1 else 0)
  }

  /** n copies of one anticipation. */
  function Copies(a: Anticipation, n: nat): (r: seq<Anticipation>)
    ensures |r| == n && forall x :: x in r ==> x == a
  {
    if n == 0 then [] else Copies(a, n - 1) + [a]
  }

  /**
    The explanation loop: every result up to the first that throws is
    queued, and each one that Expects adds an anticipation of the goal's
    term for the configured window.
  */
  function Explained(r: Rules, st: State, j: Sentence, results: seq<Sentence>): (o: Outcome)
    requires QueueSorted(st.queue)
    ensures o.ok <==> forall x :: x in results ==> !Breaks(x)
    ensures QueueSorted(o.state.queue) && |o.state.queue| <= |st.queue| + |results|
    ensures o.state.memory == st.memory && o.state.chain == st.chain && o.state.cycle == st.cycle
  {
    var k := FirstBroken(results);
    EnqueueAllSorted(st.queue, results[..k], r.engine.priority);
    var n := ExpectCount(r, st.memory, j, results[..k]);
    Outcome(st.(queue := EnqueueAll(st.queue, results[..k], r.engine.priority),
                anticipations := st.anticipations + Copies(Anticipation(j.statement, r.config.anticipationWindow), n)),
            k == |results|)
  }

  /** MotorBabble: with a draw of at least 0.98, one motor term is sent in as a goal at the current cycle. */
  function Babbled(r: Rules, st: State, d: GoalDraws): (o: Outcome)
    requires d.Valid() && QueueSorted(st.queue)
    ensures QueueSorted(o.state.queue)
    ensures o.state.memory == st.memory && o.state.chain == st.chain && o.state.anticipations == st.anticipations
    ensures o.state.cycle == st.cycle
    ensures d.babble < 0.98 ==> o == Outcome(st, true)
    ensures d.babble >= 0.98 && |r.motorTerms| > 0 ==>
      (o.ok && |o.state.queue| == |st.queue| + 1
       && exists i :: 0 <= i < |r.motorTerms|
            && o.state == Queue(r, st, [AsInput(Goal(r.motorTerms[i], FirmValue, Some(st.cycle)))]))
    ensures d.babble >= 0.98 && |r.motorTerms| == 0 ==> o == Outcome(st, false)
  {
    if d.babble < 0.98 then Outcome(st, true)
    else if |r.motorTerms| == 0 then Outcome(st, false)
    else
      var i := IndexFromDraw(d.babbleIndex, |r.motorTerms|);
      var g := AsInput(Goal(r.motorTerms[i], FirmValue, Some(st.cycle)));
      EnqueueAllSorted(st.queue, [g], r.engine.priority);
      Outcome(Queue(r, st, [g]), true)
  }

  /**
    process_goal_continued, for a goal and the memory it meets. It never
    touches a desire table, and it never takes from the queue.
  */
  function Continue(r: Rules, st: State, j: Sentence, d: GoalDraws): (o: Outcome)
    requires StateValid(r, st) && d.Valid()
    ensures StateValid(r, o.state)
    ensures o.state.cycle == st.cycle && |o.state.queue| >= |st.queue|
    ensures forall t :: ConceptOf(o.state.memory, t).desires == ConceptOf(st.memory, t).desires
    // the decision rule: a rejected goal produces nothing
    ensures !r.engine.decision(j) ==> o == Outcome(st, true)
    // an operation goal is executed as the judgment (1.0, 0.99) at the current cycle
    ensures r.engine.decision(j) && IsOp(j.statement) ==>
      o == Judge(r, st, Judgment(j.statement, FirmValue, Some(st.cycle)))
    // a sequential conjunction emits the two-premise results, or exactly one sub-goal
    ensures RouteOf(r, st.memory, j, d).Decompose? ==>
      o == Outcome(Queue(r, st, r.engine.twoPremise(j, RouteOf(r, st.memory, j, d).belief)), true)
    ensures RouteOf(r, st.memory, j, d).SubGoal? ==>
      o.ok && o.state == Queue(r, st, [r.engine.onePremiseGoal(j, RouteOf(r, st.memory, j, d).first)])
      && |o.state.queue| == |st.queue| + 1
    // a goal without explanation links derives nothing, and babbles only when learning
    ensures RouteOf(r, st.memory, j, d).Babble? ==>
      o.state.memory == st.memory && o.state.chain == st.chain && o.state.anticipations == st.anticipations
      && |o.state.queue| <= |st.queue| + 1
      && (!Genomes.UseLearning(r.mode) ==> o == Outcome(st, true))
  {
    match RouteOf(r, st.memory, j, d)
    case Declined => Outcome(st, true)
    case Execute =>
      var op := Judgment(j.statement, FirmValue, Some(st.cycle));
      JudgeValid(r, st, op);
      JudgeStores(r, st, op, j.statement);
      Judge(r, st, op)
    case Achieved => Outcome(st, true)
    case Broken => Outcome(st, false)
    case Decompose(b) =>
      EnqueueAllSorted(st.queue, r.engine.twoPremise(j, b), r.engine.priority);
      Outcome(Queue(r, st, r.engine.twoPremise(j, b)), true)
    case SubGoal(f) =>
      EnqueueAllSorted(st.queue, [r.engine.onePremiseGoal(j, f)], r.engine.priority);
      Outcome(Queue(r, st, [r.engine.onePremiseGoal(j, f)]), true)
    case Babble => if Genomes.UseLearning(r.mode) then Babbled(r, st, d) else Outcome(st, true)
    case Unexplained => Outcome(st, true)
    case Explain(b) => Explained(r, st, j, r.engine.twoPremise(j, b))
  }

  /**
    process_goal_initial: the goal is put into its concept's desire table,
    the top desire is taken and continued, then put back. An empty table
    after the put (take gives null) and a continuation that throws end it.
  */
  function Admit(r: Rules, st: State, g: Sentence, d: GoalDraws): (o: Outcome)
    requires StateValid(r, st) && d.Valid()
    ensures StateValid(r, o.state)
    ensures o.state.cycle == st.cycle && |o.state.queue| >= |st.queue|
    ensures o.ok ==>
      var staged := Stored(ConceptOf(st.memory, g.statement).desires, g, r.engine, r.config.tableCapacity);
      |staged| > 0
      && ConceptOf(o.state.memory, g.statement).desires
         == Stored(staged[1..], staged[0].sentence, r.engine, r.config.tableCapacity)
  {
    var cap := r.config.tableCapacity;
    var t := g.statement;
    ConceptOfValid(st.memory, cap, t);
    var staged := Stored(ConceptOf(st.memory, t).desires, g, r.engine, cap);
    DesiredValid(st.memory, t, staged, cap);
    var put := Desired(st.memory, t, staged);
    if |staged| == 0 then Outcome(st.(memory := put), false)
    else
      var current := staged[0].sentence;
      DropHeadSorted(staged);
      DesiredValid(put, t, staged[1..], cap);
      var o := Continue(r, st.(memory := Desired(put, t, staged[1..])), current, d);
      if !o.ok then o
      else
        ConceptOfValid(o.state.memory, cap, t);
        var back := Stored(ConceptOf(o.state.memory, t).desires, current, r.engine, cap);
        DesiredValid(o.state.memory, t, back, cap);
        Outcome(o.state.(memory := Desired(o.state.memory, t, back)), true)
  }

  /** process_sentence_initial: a sentence goes to the handler of its kind; a question leaves no trace. */
  function Process(r: Rules, st: State, s: Sentence, d: GoalDraws): (o: Outcome)
    requires StateValid(r, st) && d.Valid()
    ensures StateValid(r, o.state)
    ensures o.state.cycle == st.cycle && |o.state.queue| >= |st.queue|
  {
    match s.kind
    case JudgmentKind => JudgeValid(r, st, s); Judge(r, st, s)
    case QuestionKind => Outcome(st, true)
    case GoalKind => Admit(r, st, s, d)
  }

  /** A goal whose time-decayed confidence is below 0.1 is dropped unprocessed. */
  predicate Weak(r: Rules, s: Sentence)
  {
    s.kind == GoalKind && r.engine.decayedConfidence(s) < 0.1
  }

  /** One turn of the drain loop: take the head of the queue, then drop it or process it. */
  function Turn(r: Rules, st: State, d: GoalDraws): (o: Outcome)
    requires StateValid(r, st) && d.Valid()
    ensures StateValid(r, o.state)
    ensures o.state.cycle == st.cycle
    ensures st.queue == [] ==> o == Outcome(st, false)
    ensures st.queue != [] ==> |o.state.queue| >= |st.queue| - 1
    ensures st.queue != [] && Weak(r, st.queue[0].sentence) ==> o == Outcome(st.(queue := st.queue[1..]), true)
  {
    if st.queue == [] then Outcome(st, false)
    else
      var s := st.queue[0].sentence;
      var rest := st.(queue := st.queue[1..]);
      if Weak(r, s) then Outcome(rest, true) else Process(r, rest, s, d)
  }

  predicate AllValid(ds: seq<GoalDraws>)
  {
    forall k :: 0 <= k < |ds| ==> ds[k].Valid()
  }

  /**
    Turns i up to n of the drain loop, stopping at the first that throws.
    The queue never runs dry early: after these n - i turns at least as
    many fewer items are left, and no more.
  */
  function Drain(r: Rules, st: State, ds: seq<GoalDraws>, i: nat, n: nat): (o: Outcome)
    requires StateValid(r, st) && AllValid(ds) && i <= n <= |ds|
    ensures StateValid(r, o.state)
    ensures o.state.cycle == st.cycle
    ensures |o.state.queue| >= |st.queue| - (n - i)
    decreases n - i
  {
    if i == n then Outcome(st, true)
    else
      var o := Turn(r, st, ds[i]);
      if !o.ok then o else Drain(r, o.state, ds, i + 1, n)
  }

  /**
    When every sentence the turns take is a weak goal, nothing is derived:
    the n - i turns remove exactly the first n - i items and leave the rest
    of the queue in order.
  */
  lemma {:induction false} DrainWeak(r: Rules, st: State, ds: seq<GoalDraws>, i: nat, n: nat)
    requires StateValid(r, st) && AllValid(ds) && i <= n <= |ds| && n - i <= |st.queue|
    requires forall k :: 0 <= k < n - i ==> Weak(r, st.queue[k].sentence)
    ensures Drain(r, st, ds, i, n) == Outcome(st.(queue := st.queue[n - i..]), true)
    decreases n - i
  {
    if i < n {
      var rest := st.(queue := st.queue[1..]);
      assert Weak(r, st.queue[0].sentence);
      assert Turn(r, st, ds[i]) == Outcome(rest, true);
      forall k | 0 <= k < n - (i + 1) ensures Weak(r, rest.queue[k].sentence) {
        assert rest.queue[k] == st.queue[k + 1];
      }
      DrainWeak(r, rest, ds, i + 1, n);
      assert rest.queue[n - (i + 1)..] == st.queue[n - i..];
    }
  }

  /** Memory after every belief table forgets by the factor. */
  function ForgetMemory(memory: map<Term, Concept>, factor: real): map<Term, Concept>
  {
    map t | t in memory :: memory[t].(beliefs := Forgotten(memory[t].beliefs, factor))
  }

  /** Forgetting keeps every concept, its desires, and its belief table's size and order. */
  lemma ForgetMemoryValid(memory: map<Term, Concept>, factor: real, cap: nat)
    requires MemoryValid(memory, cap)
    ensures MemoryValid(ForgetMemory(memory, factor), cap)
    ensures ForgetMemory(memory, factor).Keys == memory.Keys
    ensures forall t :: t in memory ==>
      ForgetMemory(memory, factor)[t].desires == memory[t].desires
      && |ForgetMemory(memory, factor)[t].beliefs| == |memory[t].beliefs|
  {
    forall t | t in memory
      ensures Sorted(Forgotten(memory[t].beliefs, factor))
      ensures |Forgotten(memory[t].beliefs, factor)| == |memory[t].beliefs|
    {
      ForgottenContents(memory[t].beliefs, factor);
    }
  }

  /** Memory part way through the forgetting pass: the pending concepts still hold their old beliefs. */
  function PartlyForgotten(memory: map<Term, Concept>, pending: set<Term>, factor: real): map<Term, Concept>
  {
    map t | t in memory :: if t in pending then memory[t] else memory[t].(beliefs := Forgotten(memory[t].beliefs, factor))
  }

  lemma PartlyNone(memory: map<Term, Concept>, factor: real)
    ensures PartlyForgotten(memory, memory.Keys, factor) == memory
  {
  }

  lemma PartlyAll(memory: map<Term, Concept>, factor: real)
    ensures PartlyForgotten(memory, {}, factor) == ForgetMemory(memory, factor)
  {
  }

  lemma PartlyStep(memory: map<Term, Concept>, pending: set<Term>, factor: real, t: Term)
    requires t in pending && pending <= memory.Keys
    ensures t in PartlyForgotten(memory, pending, factor)
    ensures var m := PartlyForgotten(memory, pending, factor);
      m[t := m[t].(beliefs := Forgotten(m[t].beliefs, factor))] == PartlyForgotten(memory, pending - {t}, factor)
  {
  }

  /** UpdateAnticipations on the state: a cycle passes and the expired anticipations disappoint. */
  function Tick(r: Rules, st: State): (o: State)
    requires QueueSorted(st.queue)
    ensures QueueSorted(o.queue)
  {
    EnqueueAllSorted(st.queue, Disappointments(r.engine, st.anticipations), r.engine.priority);
    st.(anticipations := Ticked(st.anticipations),
        queue := EnqueueAll(st.queue, Disappointments(r.engine, st.anticipations), r.engine.priority))
  }

  /**
    do_working_cycle: the cycle number goes up by one, exactly as many
    turns are taken as the queue held at the start, and in a learning mode
    anticipations are updated and every belief table forgets.
  */
  function Cycle(r: Rules, st: State, ds: seq<GoalDraws>): (o: Outcome)
    requires StateValid(r, st) && AllValid(ds) && |ds| >= |st.queue|
    ensures StateValid(r, o.state)
    ensures o.state.cycle == st.cycle + 1
  {
    var started := st.(cycle := st.cycle + 1);
    var o := Drain(r, started, ds, 0, |started.queue|);
    if !o.ok then o else Outcome(Settled(r, o.state), true)
  }

  lemma CycleThrough(r: Rules, st: State, ds: seq<GoalDraws>, drained: State, ok: bool)
    requires StateValid(r, st) && AllValid(ds) && |ds| >= |st.queue|
    requires Outcome(drained, ok) == Drain(r, st.(cycle := st.cycle + 1), ds, 0, |st.queue|)
    ensures Cycle(r, st, ds) == if ok then Outcome(Settled(r, drained), true) else Outcome(drained, false)
  {
  }

  /** A cycle over a queue of weak goals takes exactly the items queued at its start and ends with the queue empty. */
  lemma CycleWeak(r: Rules, st: State, ds: seq<GoalDraws>)
    requires StateValid(r, st) && AllValid(ds) && |ds| >= |st.queue|
    requires forall k :: 0 <= k < |st.queue| ==> Weak(r, st.queue[k].sentence)
    ensures Cycle(r, st, ds) == Outcome(Settled(r, st.(cycle := st.cycle + 1, queue := [])), true)
  {
    var started := st.(cycle := st.cycle + 1);
    DrainWeak(r, started, ds, 0, |st.queue|);
    assert started.queue[|st.queue|..] == [];
    assert started.(queue := []) == st.(cycle := st.cycle + 1, queue := []);
  }

  /** The end of a working cycle: in a learning mode anticipations are updated and every belief table forgets. */
  function Settled(r: Rules, st: State): (o: State)
    requires StateValid(r, st)
    ensures StateValid(r, o)
    ensures o.cycle == st.cycle
    ensures !Genomes.UseLearning(r.mode) ==> o == st
  {
    if !Genomes.UseLearning(r.mode) then st
    else
      var ticked := Tick(r, st);
      ForgetMemoryValid(ticked.memory, r.engine.forgettingFactor(r.config.forgettingRate), r.config.tableCapacity);
      ticked.(memory := ForgetMemory(ticked.memory, r.engine.forgettingFactor(r.config.forgettingRate)))
  }

  // ---------------------------------------------------- without learning

  /** The temporal module is untouched from one state to the other, except that anticipations may be cancelled. */
  predicate Quiet(before: State, after: State)
  {
    after.chain == before.chain
    && (forall a :: a in after.anticipations ==> a in before.anticipations)
    && (before.anticipations == [] ==> after.anticipations == [])
  }

  lemma {:induction false} ExpectCountNoLearning(r: Rules, memory: map<Term, Concept>, j: Sentence, xs: seq<Sentence>)
    requires !Genomes.UseLearning(r.mode)
    ensures ExpectCount(r, memory, j, xs) == 0
  {
    if xs != [] {
      ExpectCountNoLearning(r, memory, j, xs[..|xs| - 1]);
    }
  }

  lemma JudgeNoLearning(r: Rules, st: State, j: Sentence)
    requires !Genomes.UseLearning(r.mode) && MemoryValid(st.memory, r.config.tableCapacity)
    ensures Quiet(st, Judge(r, st, j).state)
  {
    WithoutMembers(st.anticipations, j.statement);
  }

  lemma ContinueNoLearning(r: Rules, st: State, j: Sentence, d: GoalDraws)
    requires !Genomes.UseLearning(r.mode) && StateValid(r, st) && d.Valid()
    ensures Quiet(st, Continue(r, st, j, d).state)
  {
    match RouteOf(r, st.memory, j, d)
    case Execute => JudgeNoLearning(r, st, Judgment(j.statement, FirmValue, Some(st.cycle)));
    case Explain(b) =>
      var results := r.engine.twoPremise(j, b);
      ExpectCountNoLearning(r, st.memory, j, results[..FirstBroken(results)]);
      assert st.anticipations + [] == st.anticipations;
    case _ =>
  }

  lemma AdmitNoLearning(r: Rules, st: State, g: Sentence, d: GoalDraws)
    requires !Genomes.UseLearning(r.mode) && StateValid(r, st) && d.Valid()
    ensures Quiet(st, Admit(r, st, g, d).state)
  {
    var cap := r.config.tableCapacity;
    var t := g.statement;
    ConceptOfValid(st.memory, cap, t);
    var staged := Stored(ConceptOf(st.memory, t).desires, g, r.engine, cap);
    DesiredValid(st.memory, t, staged, cap);
    var put := Desired(st.memory, t, staged);
    if |staged| > 0 {
      DropHeadSorted(staged);
      DesiredValid(put, t, staged[1..], cap);
      ContinueNoLearning(r, st.(memory := Desired(put, t, staged[1..])), staged[0].sentence, d);
    }
  }

  lemma ProcessNoLearning(r: Rules, st: State, s: Sentence, d: GoalDraws)
    requires !Genomes.UseLearning(r.mode) && StateValid(r, st) && d.Valid()
    ensures Quiet(st, Process(r, st, s, d).state)
  {
    match s.kind
    case JudgmentKind => JudgeNoLearning(r, st, s);
    case QuestionKind =>
    case GoalKind => AdmitNoLearning(r, st, s, d);
  }

  lemma QuietThen(a: State, b: State, c: State)
    requires Quiet(a, b) && Quiet(b, c)
    ensures Quiet(a, c)
  {
  }

  /** A turn after a quiet stretch keeps the stretch quiet. */
  lemma TurnNoLearning(r: Rules, before: State, st: State, d: GoalDraws)
    requires !Genomes.UseLearning(r.mode) && StateValid(r, st) && d.Valid() && Quiet(before, st)
    ensures Quiet(before, Turn(r, st, d).state)
  {
    if st.queue != [] && !Weak(r, st.queue[0].sentence) {
      ProcessNoLearning(r, st.(queue := st.queue[1..]), st.queue[0].sentence, d);
    }
    QuietThen(before, st, Turn(r, st, d).state);
  }

  /** Without learning, turns i up to n of the drain are quiet. */
  lemma {:induction false} DrainNoLearning(r: Rules, st: State, ds: seq<GoalDraws>, i: nat, n: nat)
    requires !Genomes.UseLearning(r.mode) && StateValid(r, st) && AllValid(ds) && i <= n <= |ds|
    ensures Quiet(st, Drain(r, st, ds, i, n).state)
    decreases n - i, 1
  {
    if i < n {
      DrainQuietStep(r, st, ds, i, n);
    }
  }

  /** The first turn of a drain without learning is quiet, and so are the turns after it. */
  lemma {:induction false} DrainQuietStep(r: Rules, st: State, ds: seq<GoalDraws>, i: nat, n: nat)
    requires !Genomes.UseLearning(r.mode) && StateValid(r, st) && AllValid(ds) && i < n <= |ds|
    ensures Quiet(st, Drain(r, st, ds, i, n).state)
    decreases n - i, 0
  {
    var o := Turn(r, st, ds[i]);
    TurnNoLearning(r, st, st, ds[i]);
    if o.ok {
      DrainNoLearning(r, o.state, ds, i + 1, n);
      QuietThen(st, o.state, Drain(r, o.state, ds, i + 1, n).state);
    }
  }

  /**
    Without learning a working cycle never touches the temporal module:
    the chain is unchanged and no anticipation is ever added, so a reasoner
    that starts with none never has any.
  */
  lemma CycleNoLearning(r: Rules, st: State, ds: seq<GoalDraws>)
    requires !Genomes.UseLearning(r.mode) && StateValid(r, st) && AllValid(ds) && |ds| >= |st.queue|
    ensures Cycle(r, st, ds).state.chain == st.chain
    ensures forall a :: a in Cycle(r, st, ds).state.anticipations ==> a in st.anticipations
    ensures st.anticipations == [] ==> Cycle(r, st, ds).state.anticipations == []
  {
    var started := st.(cycle := st.cycle + 1);
    var o := Drain(r, started, ds, 0, |st.queue|);
    DrainNoLearning(r, started, ds, 0, |st.queue|);
    CycleThrough(r, st, ds, o.state, o.ok);
    assert Cycle(r, st, ds).state == o.state;
  }

  // ---------------------------------------------------- configuration

  /**
    An evolved integer capacity as a natural number. The genome's ranges keep
    both capacities positive, so an evolved capacity passes through unchanged
    (GenomeCapacities); a negative one, which no genome produces, reads as 0.
  */
  function Capacity(x: int): (c: nat)
    ensures x >= 0 ==> c == x
    ensures x < 0 ==> c == 0
  {
    if x < 0 then 0 else x
  }

  /** SetupUsingGenome: nine personality parameters overwrite the configuration's defaults. */
  function ConfigFromGenome(defaults: Config, p: Genomes.Personality): Config
  {
    defaults.(
      k := p.k,
      t := p.t,
      anticipationWindow := p.anticipationWindow,
      forgettingRate := p.forgettingRate,
      eventBufferCapacity := Capacity(p.eventBufferCapacity),
      tableCapacity := Capacity(p.tableCapacity),
      maxEvidentialBaseLength := p.evidentialBaseLength,
      projectionDecayEvent := p.timeProjectionEvent,
      projectionDecayDesire := p.timeProjectionGoal)
  }

  /**
    The evolved contingency confidence and strategy switches never reach
    the configuration: temporal chaining keeps running on the defaults.
  */
  lemma ConfigKeepsDefaults(defaults: Config, p: Genomes.Personality, q: Genomes.Personality)
    ensures ConfigFromGenome(defaults, p).compoundConfidence == defaults.compoundConfidence
    ensures StrategyFor(ConfigFromGenome(defaults, p)) == StrategyFor(defaults)
    ensures p.(compoundConfidence := q.compoundConfidence, runtimeCompounds1 := q.runtimeCompounds1,
               runtimeCompounds2 := q.runtimeCompounds2, runtimeCompounds3 := q.runtimeCompounds3) == q ==>
            ConfigFromGenome(defaults, p) == ConfigFromGenome(defaults, q)
  {
  }

  /**
    The capacity the temporal module is built with, as written: the
    constructor builds it from the default configuration before the
    genome's parameters are copied in.
  */
  function TemporalCapacityAsWritten(defaults: Config, p: Genomes.Personality): nat
  {
    defaults.eventBufferCapacity
  }

  /** As written, the module follows the genome only when the genome happens to agree with the default. */
  lemma AsWrittenIgnoresGenome(defaults: Config, p: Genomes.Personality)
    ensures TemporalCapacityAsWritten(defaults, p) == ConfigFromGenome(defaults, p).eventBufferCapacity
            <==> defaults.eventBufferCapacity == Capacity(p.eventBufferCapacity)
    ensures defaults.eventBufferCapacity == 10 && p.eventBufferCapacity == 20 ==>
            TemporalCapacityAsWritten(defaults, p) == 10 && ConfigFromGenome(defaults, p).eventBufferCapacity == 20
  {
  }

  /** The capacity the temporal module is built with here: the evolved Event_Buffer_Capacity. */
  function TemporalCapacity(defaults: Config, p: Genomes.Personality): (c: nat)
    ensures c == ConfigFromGenome(defaults, p).eventBufferCapacity
    ensures p.eventBufferCapacity >= 0 ==> c == p.eventBufferCapacity
  {
    Capacity(p.eventBufferCapacity)
  }

  /** A genome inside its mutation ranges sets both capacities to its own genes, each at least 1. */
  lemma GenomeCapacities(defaults: Config, p: Genomes.Personality)
    requires Genomes.InRanges(p)
    ensures ConfigFromGenome(defaults, p).tableCapacity == p.tableCapacity >= 1
    ensures ConfigFromGenome(defaults, p).eventBufferCapacity == p.eventBufferCapacity >= 3
    ensures TemporalCapacity(defaults, p) == p.eventBufferCapacity
  {
  }

  /** Under a configuration from a genome inside its ranges no judgment throws. */
  lemma GenomeJudgmentsSucceed(r: Rules, defaults: Config, p: Genomes.Personality, st: State, j: Sentence)
    requires Genomes.InRanges(p) && r.config == ConfigFromGenome(defaults, p)
    requires MemoryValid(st.memory, r.config.tableCapacity)
    ensures Judge(r, st, j).ok
  {
    GenomeCapacities(defaults, p);
    JudgeFails(r, st, j);
  }

  /** What the constructor casts each gene to: a statement whose subject is a compound. */
  predicate GeneShaped(t: Term)
  {
    t.Statement? && t.subject.Compound?
  }

  /** A gene as the eternal input judgment SetupUsingGenome sends. */
  function GeneInput(b: Genomes.EvolvableSentence): (s: Sentence)
    ensures s.kind == JudgmentKind && s.statement == b.statement && s.value == b.evidence
    ensures !s.IsEvent() && s.fromInput
  {
    AsInput(Judgment(b.statement, b.evidence, None))
  }

  function GeneInputs(bs: seq<Genomes.EvolvableSentence>): (ss: seq<Sentence>)
    ensures |ss| == |bs| && forall i :: 0 <= i < |bs| ==> ss[i] == GeneInput(bs[i])
  {
    if bs == [] then [] else GeneInputs(bs[..|bs| - 1]) + [GeneInput(bs[|bs| - 1])]
  }

  // ---------------------------------------------------- the reasoner

  class Nars {
    const config: Config
    const engine: Engine
    /** The evolution type the genome module is set to. */
    const mode: Genomes.EvolutionType
    /** MOTOR_TERM_SET, the operations motor babbling picks from. */
    const motorTerms: seq<Term>
    const buffer: Buffer
    const temporal: TemporalModule
    var cycle: int
    var memory: map<Term, Concept>
    var storedActivations: map<string, real>

    function Setting(): Rules
    {
      Rules(config, engine, mode, motorTerms)
    }

    ghost predicate Valid()
      reads this`memory, buffer, temporal
    {
      temporal.buffer == buffer && temporal.engine == engine && buffer.priority == engine.priority
      && temporal.capacity == config.eventBufferCapacity
      && temporal.Valid() && MemoryValid(memory, config.tableCapacity)
    }

    /** The reasoner's state as a value. */
    function Snapshot(): State
      reads this`cycle, this`memory, temporal, buffer
    {
      State(cycle, memory, temporal.chain, buffer.queue, temporal.anticipations)
    }

    lemma ValidState()
      requires Valid()
      ensures StateValid(Setting(), Snapshot())
    {
    }

    constructor(defaults: Config, engine: Engine, mode: Genomes.EvolutionType, motorTerms: seq<Term>,
                beliefs: seq<Genomes.EvolvableSentence>, personality: Genomes.Personality)
      requires forall i :: 0 <= i < |beliefs| ==> GeneShaped(beliefs[i].statement)
      ensures Valid()
      ensures config == ConfigFromGenome(defaults, personality)
      ensures this.engine == engine && this.mode == mode && this.motorTerms == motorTerms
      ensures buffer.capacity == defaults.globalBufferCapacity
      ensures temporal.capacity == TemporalCapacity(defaults, personality)
      ensures Snapshot() == State(0, map[], [], EnqueueAll([], GeneInputs(beliefs), engine.priority), [])
      ensures storedActivations == map[]
    {
      this.config := ConfigFromGenome(defaults, personality);
      this.engine := engine;
      this.mode := mode;
      this.motorTerms := motorTerms;
      var b := new Buffer(defaults.globalBufferCapacity, engine.priority);
      this.buffer := b;
      this.temporal := new TemporalModule(TemporalCapacity(defaults, personality), engine, b);
      cycle := 0;
      memory := map[];
      storedActivations := map[];
      new;
      SendGenes(beliefs);
    }

    /** SetupUsingGenome's loop: every gene is sent in as an eternal judgment. */
    method SendGenes(beliefs: seq<Genomes.EvolvableSentence>)
      requires Valid()
      requires forall i :: 0 <= i < |beliefs| ==> GeneShaped(beliefs[i].statement)
      modifies buffer
      ensures Valid()
      ensures buffer.queue == EnqueueAll(old(buffer.queue), GeneInputs(beliefs), engine.priority)
    {
      ghost var q0 := buffer.queue;
      var i := 0;
      while i < |beliefs|
        invariant 0 <= i <= |beliefs|
        invariant Valid()
        invariant buffer.queue == EnqueueAll(q0, GeneInputs(beliefs[..i]), engine.priority)
      {
        assert beliefs[..i + 1][..i] == beliefs[..i];
        EnqueueAllSnoc(q0, GeneInputs(beliefs[..i]), GeneInput(beliefs[i]), engine.priority);
        SendInput(Some(Judgment(beliefs[i].statement, beliefs[i].evidence, None)));
        i := i + 1;
      }
      assert beliefs[..i] == beliefs;
    }

    /** SendInput: nothing for a missing sentence; otherwise the sentence, marked as input, is queued once. */
    method SendInput(s: Option<Sentence>)
      requires Valid()
      modifies buffer
      ensures Valid()
      ensures s.None? ==> buffer.queue == old(buffer.queue)
      ensures s.Some? ==> buffer.queue == Enqueue(old(buffer.queue), Queued(AsInput(s.value), engine.priority(AsInput(s.value))))
    {
      if s.Some? {
        buffer.PutNew(AsInput(s.value));
      }
    }

    /** process_judgment_initial. */
    method ProcessJudgment(j: Sentence) returns (ok: bool)
      requires Valid()
      modifies this`memory, temporal, buffer
      ensures Valid()
      ensures Outcome(Snapshot(), ok) == Judge(Setting(), old(Snapshot()), j)
      ensures ok ==> j.statement !in temporal.counts
    {
      Receive(j);
      if ConceptOf(memory, j.statement).beliefs == [] {
        return false;
      }
      ok := true;
      if temporal.DoesAnticipate(j.statement) {
        temporal.RemoveAnticipations(j.statement);
      } else {
        WithoutUnpending(temporal.anticipations, j.statement);
      }
    }

    /** The part of process_judgment_initial before the peek: the temporal module, then the belief table. */
    method Receive(j: Sentence)
      requires Valid()
      modifies this`memory, temporal, buffer
      ensures Valid()
      ensures Snapshot() == Received(Setting(), old(Snapshot()), j)
    {
      if Genomes.UseLearning(mode) && j.IsEvent() {
        var popped := temporal.PutNew(j, config);
      }
      memory := Believed(memory, j, engine, config.tableCapacity);
    }

    /** execute_atomic_operation: the operation enters as the judgment (1.0, 0.99) at the current cycle. */
    method ExecuteOperation(j: Sentence) returns (ok: bool)
      requires Valid()
      modifies this`memory, temporal, buffer
      ensures Valid()
      ensures Outcome(Snapshot(), ok) == Judge(Setting(), old(Snapshot()), Judgment(j.statement, FirmValue, Some(old(cycle))))
    {
      ok := ProcessJudgment(Judgment(j.statement, FirmValue, Some(cycle)));
    }

    /** Queues a list of derived sentences in order. */
    method PutAll(ss: seq<Sentence>)
      requires Valid()
      modifies buffer
      ensures Valid()
      ensures buffer.queue == EnqueueAll(old(buffer.queue), ss, engine.priority)
    {
      ghost var q0 := buffer.queue;
      var i := 0;
      while i < |ss|
        invariant 0 <= i <= |ss|
        invariant Valid()
        invariant buffer.queue == EnqueueAll(q0, ss[..i], engine.priority)
      {
        assert ss[..i + 1] == ss[..i] + [ss[i]];
        EnqueueAllSnoc(q0, ss[..i], ss[i], engine.priority);
        buffer.PutNew(ss[i]);
        i := i + 1;
      }
      assert ss[..i] == ss;
    }

    /** MotorBabble. */
    method MotorBabble(d: GoalDraws) returns (ok: bool)
      requires Valid() && d.Valid()
      modifies buffer
      ensures Valid()
      ensures Outcome(Snapshot(), ok) == Babbled(Setting(), old(Snapshot()), d)
    {
      if d.babble < 0.98 {
        return true;
      }
      if |motorTerms| == 0 {
        return false;
      }
      var i := IndexFromDraw(d.babbleIndex, |motorTerms|);
      var g := Goal(motorTerms[i], FirmValue, Some(cycle));
      EnqueueOne(buffer.queue, AsInput(g), engine.priority);
      SendInput(Some(g));
      ok := true;
    }

    /**
      process_goal_continued: the decision rule, then an operation is
      executed, an achieved goal is dropped, a sequential conjunction is
      decomposed, a goal without explanations babbles, and otherwise a
      drawn explanation is used for inference.
    */
    method ContinueGoal(j: Sentence, d: GoalDraws) returns (ok: bool)
      requires Valid() && d.Valid()
      modifies this`memory, temporal, buffer
      ensures Valid()
      ensures Outcome(Snapshot(), ok) == Continue(Setting(), old(Snapshot()), j, d)
    {
      var t := j.statement;
      if !engine.decision(j) {
        return true;
      }
      if IsOp(t) {
        ok := ExecuteOperation(j);
        return;
      }
      var top := Top(ConceptOf(memory, t).beliefs);
      if top.Some? && engine.isPositive(top.value) {
        return true;
      }
      if t.Compound? && t.connector == SequentialConjunction {
        ok := Decompose(j, d);
        return;
      }
      ok := Elaborate(j, d);
    }

    /** The last branches of process_goal_continued: babble without explanation links, else explain. */
    method Elaborate(j: Sentence, d: GoalDraws) returns (ok: bool)
      requires Valid() && d.Valid()
      requires engine.decision(j) && !IsOp(j.statement)
      requires var top := Top(ConceptOf(memory, j.statement).beliefs); !(top.Some? && engine.isPositive(top.value))
      requires !(j.statement.Compound? && j.statement.connector == SequentialConjunction)
      modifies temporal, buffer
      ensures Valid()
      ensures Outcome(Snapshot(), ok) == Continue(Setting(), old(Snapshot()), j, d)
    {
      var t := j.statement;
      if engine.explanationCount(t) == 0 {
        if Genomes.UseLearning(mode) {
          ok := MotorBabble(d);
        } else {
          ok := true;
        }
        return;
      }
      ok := ExplainDrawn(j, d);
    }

    /** The explanation branch of process_goal_continued: a drawn explanation is used for inference. */
    method ExplainDrawn(j: Sentence, d: GoalDraws) returns (ok: bool)
      requires Valid() && d.Valid()
      requires engine.decision(j) && !IsOp(j.statement)
      requires var top := Top(ConceptOf(memory, j.statement).beliefs); !(top.Some? && engine.isPositive(top.value))
      requires !(j.statement.Compound? && j.statement.connector == SequentialConjunction)
      requires engine.explanationCount(j.statement) != 0
      modifies temporal, buffer
      ensures Valid()
      ensures Outcome(Snapshot(), ok) == Continue(Setting(), old(Snapshot()), j, d)
    {
      var e := engine.randomExplanation(j, d.explanation);
      if e.None? {
        return true;
      }
      if !(e.value.statement.Statement? && e.value.statement.subject.Compound?) {
        return false;
      }
      ok := Explain(j, e.value);
    }

    /** The sequential-conjunction branch of process_goal_continued. */
    method Decompose(j: Sentence, d: GoalDraws) returns (ok: bool)
      requires Valid() && d.Valid()
      requires j.statement.Compound? && j.statement.connector == SequentialConjunction
      requires RouteOf(Setting(), memory, j, d).Broken? || RouteOf(Setting(), memory, j, d).Decompose?
               || RouteOf(Setting(), memory, j, d).SubGoal?
      modifies buffer
      ensures Valid()
      ensures Outcome(Snapshot(), ok) == Continue(Setting(), old(Snapshot()), j, d)
    {
      var t := j.statement;
      if !ConjunctionShaped(t) {
        return false;
      }
      var first := t.subterms[0];
      var belief := FirstInteractable(ConceptOf(memory, first).beliefs, j, engine);
      if belief.Some? && engine.isPositive(belief.value) {
        PutAll(engine.twoPremise(j, belief.value));
      } else {
        var sub := engine.onePremiseGoal(j, first);
        EnqueueOne(buffer.queue, sub, engine.priority);
        buffer.PutNew(sub);
      }
      ok := true;
    }

    /**
      process_goal_initial: put the goal into its desire table, take the
      top desire, continue it, and put it back.
    */
    method ProcessGoal(g: Sentence, d: GoalDraws) returns (ok: bool)
      requires Valid() && d.Valid()
      modifies this`memory, temporal, buffer
      ensures Valid()
      ensures Outcome(Snapshot(), ok) == Admit(Setting(), old(Snapshot()), g, d)
    {
      var cap := config.tableCapacity;
      var t := g.statement;
      ConceptOfValid(memory, cap, t);
      var staged := Stored(ConceptOf(memory, t).desires, g, engine, cap);
      DesiredValid(memory, t, staged, cap);
      memory := Desired(memory, t, staged);
      if |staged| == 0 {
        // take gives null, and continuing it throws
        return false;
      }
      var current := staged[0].sentence;
      DropHeadSorted(staged);
      DesiredValid(memory, t, staged[1..], cap);
      memory := Desired(memory, t, staged[1..]);
      ok := ContinueGoal(current, d);
      if !ok {
        return;
      }
      ConceptOfValid(memory, cap, t);
      var back := Stored(ConceptOf(memory, t).desires, current, engine, cap);
      DesiredValid(memory, t, back, cap);
      memory := Desired(memory, t, back);
    }

    /** process_sentence_initial: dispatch by kind; a question has no effect the model keeps. */
    method ProcessSentence(s: Sentence, d: GoalDraws) returns (ok: bool)
      requires Valid() && d.Valid()
      modifies this`memory, temporal, buffer
      ensures Valid()
      ensures Outcome(Snapshot(), ok) == Process(Setting(), old(Snapshot()), s, d)
    {
      match s.kind
      case JudgmentKind =>
        ok := ProcessJudgment(s);
      case QuestionKind =>
        ok := true;
      case GoalKind =>
        ok := ProcessGoal(s, d);
    }

    /** One turn of the drain loop: take the top sentence, drop a weak goal, process anything else. */
    method TakeTurn(d: GoalDraws) returns (ok: bool)
      requires Valid() && d.Valid()
      modifies this`memory, temporal, buffer
      ensures Valid()
      ensures Outcome(Snapshot(), ok) == Turn(Setting(), old(Snapshot()), d)
    {
      var item := buffer.Take();
      if item.None? {
        // take gives null, and reading it throws
        return false;
      }
      var s := item.value;
      if s.kind == GoalKind && engine.decayedConfidence(s) < 0.1 {
        return true;
      }
      ok := ProcessSentence(s, d);
    }

    /**
      do_working_cycle: count the cycle, take exactly as many turns as the
      queue holds at the start, then, when learning, update anticipations
      and let every belief table forget.
    */
    method WorkingCycle(draws: seq<GoalDraws>) returns (ok: bool)
      requires Valid() && AllValid(draws) && |draws| >= |buffer.queue|
      modifies this`cycle, this`memory, temporal, buffer
      requires 0.0 < engine.forgettingFactor(config.forgettingRate) < 1.0
      ensures Valid()
      ensures Outcome(Snapshot(), ok) == Cycle(Setting(), old(Snapshot()), draws)
    {
      ghost var st := Snapshot();
      cycle := cycle + 1;
      ghost var started := Snapshot();
      assert started == st.(cycle := st.cycle + 1);
      var n := buffer.Count();
      ok := DrainQueue(draws, n);
      ghost var drained := Snapshot();
      if ok {
        Settle();
      }
      CycleThrough(Setting(), st, draws, drained, ok);
    }

    /** The drain loop of do_working_cycle: n turns, stopping at the first that throws. */
    method DrainQueue(draws: seq<GoalDraws>, n: nat) returns (ok: bool)
      requires Valid() && AllValid(draws) && n <= |draws|
      modifies this`memory, temporal, buffer
      ensures Valid()
      ensures Outcome(Snapshot(), ok) == Drain(Setting(), old(Snapshot()), draws, 0, n)
    {
      ghost var started := Snapshot();
      ok := true;
      var i := 0;
      while i < n
        invariant 0 <= i <= n
        invariant Valid()
        invariant Drain(Setting(), started, draws, 0, n) == Drain(Setting(), Snapshot(), draws, i, n)
      {
        ghost var before := Snapshot();
        ok := TakeTurn(draws[i]);
        assert Drain(Setting(), before, draws, i, n)
               == if ok then Drain(Setting(), Snapshot(), draws, i + 1, n) else Outcome(Snapshot(), false);
        if !ok {
          return;
        }
        i := i + 1;
      }
    }

    /** The end of do_working_cycle: when learning, update anticipations and forget. */
    method Settle()
      requires Valid()
      requires 0.0 < engine.forgettingFactor(config.forgettingRate) < 1.0
      modifies this`memory, temporal, buffer
      ensures Valid()
      ensures Snapshot() == Settled(Setting(), old(Snapshot()))
    {
      if Genomes.UseLearning(mode) {
        ValidState();
        temporal.UpdateAnticipations();
        ForgetBeliefs();
      }
    }

    /** The forgetting pass: every concept's belief table forgets, one concept at a time. */
    method ForgetBeliefs()
      requires Valid()
      requires 0.0 < engine.forgettingFactor(config.forgettingRate) < 1.0
      modifies this`memory
      ensures Valid()
      ensures memory == ForgetMemory(old(memory), engine.forgettingFactor(config.forgettingRate))
    {
      var factor := engine.forgettingFactor(config.forgettingRate);
      ghost var m0 := memory;
      ForgetMemoryValid(m0, factor, config.tableCapacity);
      PartlyNone(m0, factor);
      var pending := memory.Keys;
      while pending != {}
        invariant pending <= m0.Keys
        invariant memory == PartlyForgotten(m0, pending, factor)
        decreases pending
      {
        var t :| t in pending;
        PartlyStep(m0, pending, factor, t);
        memory := memory[t := memory[t].(beliefs := Forgotten(memory[t].beliefs, factor))];
        pending := pending - {t};
      }
      PartlyAll(m0, factor);
    }

    /** GetGoalActivation: zero for an empty desire table, else the motor activation of the top desire. */
    function GoalActivation(t: Term): (a: real)
      reads this`memory, buffer, temporal
      requires Valid()
      ensures ConceptOf(memory, t).desires == [] ==> a == 0.0
      ensures ConceptOf(memory, t).desires != [] ==>
        a == engine.motorActivation(ConceptOf(memory, t).desires[0].sentence)
        && forall e :: e in ConceptOf(memory, t).desires ==> e.key <= ConceptOf(memory, t).desires[0].key
    {
      ConceptOfValid(memory, config.tableCapacity, t);
      var top := Top(ConceptOf(memory, t).desires);
      if top.Some? then engine.motorActivation(top.value) else 0.0
    }

    /** GetStoredActivation: the activation stored under the term's string; None (the lookup throws) when absent. */
    function StoredActivation(t: Term): (r: Option<real>)
      reads this`storedActivations
      ensures r.Some? <==> engine.termString(t) in storedActivations
    {
      if engine.termString(t) in storedActivations then Some(storedActivations[engine.termString(t)]) else None
    }

    /** SetStoredActivation: the term's current goal activation is stored under its string. */
    method SetStoredActivation(t: Term)
      requires Valid()
      modifies this`storedActivations
      ensures storedActivations == old(storedActivations)[engine.termString(t) := GoalActivation(t)]
      ensures StoredActivation(t) == Some(GoalActivation(t))
    {
      storedActivations := storedActivations[engine.termString(t) := GoalActivation(t)];
    }

    /** The explanation branch: the loop over the results of two-premise inference. */
    method Explain(j: Sentence, b: Sentence) returns (ok: bool)
      requires Valid()
      modifies temporal, buffer
      ensures Valid()
      ensures Outcome(Snapshot(), ok) == Explained(Setting(), old(Snapshot()), j, engine.twoPremise(j, b))
    {
      ok := ExplainAll(temporal, buffer, Setting(), memory, j, engine.twoPremise(j, b));
    }
  }

  /**
    The loop of the explanation branch, over the results and the memory as
    values: each result up to the first that throws is queued, after an
    anticipation of the goal when it Expects.
  */
  method ExplainAll(temporal: TemporalModule, buffer: Buffer, r: Rules, memory: map<Term, Concept>,
                    j: Sentence, results: seq<Sentence>) returns (ok: bool)
    requires temporal.buffer == buffer && buffer.priority == r.engine.priority && temporal.Valid()
    modifies temporal, buffer
    ensures temporal.Valid()
    ensures temporal.chain == old(temporal.chain)
    ensures ok == (FirstBroken(results) == |results|)
    ensures buffer.queue == EnqueueAll(old(buffer.queue), results[..FirstBroken(results)], r.engine.priority)
    ensures temporal.anticipations == old(temporal.anticipations)
      + Copies(Anticipation(j.statement, r.config.anticipationWindow), ExpectCount(r, memory, j, results[..FirstBroken(results)]))
  {
    ghost var q0 := buffer.queue;
    ghost var a0 := temporal.anticipations;
    var a := Anticipation(j.statement, r.config.anticipationWindow);
    var i := 0;
    while i < |results|
      invariant 0 <= i <= FirstBroken(results)
      invariant temporal.buffer == buffer && temporal.Valid()
      invariant buffer.queue == EnqueueAll(q0, results[..i], r.engine.priority)
      invariant temporal.anticipations == a0 + Copies(a, ExpectCount(r, memory, j, results[..i]))
      invariant temporal.chain == old(temporal.chain)
    {
      var x := results[i];
      if Breaks(x) {
        return false;
      }
      NotYetBroken(results, i);
      var expects := Expects(r, memory, j, x);
      ExpectStep(r, memory, j, results, i, a0, a);
      EnqueueAllStep(q0, results, i, r.engine.priority);
      ExplainOne(temporal, buffer, expects, a, x, r.engine.priority);
      i := i + 1;
    }
    assert results[..i] == results;
    ok := true;
  }

  /** One turn of the explanation loop: maybe anticipate, then queue the result. */
  method ExplainOne(temporal: TemporalModule, buffer: Buffer, expects: bool, a: Anticipation, x: Sentence,
                    priority: Sentence -> real)
    requires temporal.buffer == buffer && buffer.priority == priority && temporal.Valid()
    modifies temporal, buffer
    ensures temporal.Valid() && temporal.chain == old(temporal.chain)
    ensures buffer.queue == Enqueue(old(buffer.queue), Queued(x, priority(x)))
    ensures temporal.anticipations == old(temporal.anticipations) + (if expects then [a] else [])
  {
    if expects {
      temporal.Anticipate(a.term, a.timeRemaining);
    }
    buffer.PutNew(x);
  }

  lemma ExpectStep(r: Rules, memory: map<Term, Concept>, j: Sentence, xs: seq<Sentence>, i: nat,
                   a0: seq<Anticipation>, a: Anticipation)
    requires i < |xs|
    ensures a0 + Copies(a, ExpectCount(r, memory, j, xs[..i + 1]))
            == a0 + Copies(a, ExpectCount(r, memory, j, xs[..i])) + (if Expects(r, memory, j, xs[i]) then [a] else [])
  {
    assert xs[..i + 1][..i] == xs[..i];
  }

  lemma EnqueueAllStep(q: seq<Queued>, xs: seq<Sentence>, i: nat, priority: Sentence -> real)
    requires i < |xs|
    ensures EnqueueAll(q, xs[..i + 1], priority) == Enqueue(EnqueueAll(q, xs[..i], priority), Queued(xs[i], priority(xs[i])))
  {
    assert xs[..i + 1] == xs[..i] + [xs[i]];
    EnqueueAllSnoc(q, xs[..i], xs[i], priority);
  }
}
