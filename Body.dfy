/*
  The agent's body in the blocks world: it senses the world's facts into
  the reasoner as input judgments, acts out the most desired motor
  operation, and counts the distinct world states reached in an episode.
*/
module Body {
  import opened Wrappers
  import opened Terms
  import opened Buffers
  import Blocks
  import Genomes
  import opened Reasoner

  // ---------------------------------------------------- sensing

  /** One sensation: the input judgment of a term, (1.0, 0.99) at the given cycle. */
  function Sensation(t: Term, cycle: int): Sentence
  {
    AsInput(Judgment(t, FirmValue, Some(cycle)))
  }

  /** The pair sensations of t with each of the later terms, in order. */
  function PairSensations(e: Engine, t: Term, later: seq<Term>, cycle: int): (ss: seq<Sentence>)
    ensures |ss| == |later|
  {
    if later == [] then []
    else PairSensations(e, t, later[..|later| - 1], cycle)
         + [Sensation(e.parallelPair(t, later[|later| - 1]), cycle)]
  }

  /** Everything Sense sends for the current facts ts: each fact, followed by its pairs with the facts after it. */
  function Sensations(e: Engine, ts: seq<Term>, cycle: int): seq<Sentence>
  {
    if ts == [] then []
    else [Sensation(ts[0], cycle)] + PairSensations(e, ts[0], ts[1..], cycle) + Sensations(e, ts[1..], cycle)
  }

  /** n facts give n single sensations and n(n-1)/2 pair sensations. */
  lemma {:induction false} SensationsCount(e: Engine, ts: seq<Term>, cycle: int)
    ensures |Sensations(e, ts, cycle)| == |ts| + |ts| * (|ts| - 1) / 2
  {
    if ts != [] {
      SensationsCount(e, ts[1..], cycle);
      var n := |ts|;
      assert |Sensations(e, ts, cycle)| == 1 + (n - 1) + (n - 1) + (n - 1) * (n - 2) / 2;
      assert (n - 1) * (n - 2) + 2 * (n - 1) == n * (n - 1);
    }
  }

  /** Every pair sensation is an input judgment with the sensation value at the cycle. */
  lemma {:induction false} PairSensationsUniform(e: Engine, t: Term, later: seq<Term>, cycle: int)
    ensures forall s :: s in PairSensations(e, t, later, cycle) ==>
      s.kind == JudgmentKind && s.fromInput && s.value == FirmValue && s.occurrence == Some(cycle)
  {
    if later != [] {
      PairSensationsUniform(e, t, later[..|later| - 1], cycle);
    }
  }

  /** Every sensation is an input judgment with the sensation value (1.0, 0.99) at the cycle. */
  lemma {:induction false} SensationsUniform(e: Engine, ts: seq<Term>, cycle: int)
    ensures forall s :: s in Sensations(e, ts, cycle) ==>
      s.kind == JudgmentKind && s.fromInput && s.value == FirmValue && s.occurrence == Some(cycle)
  {
    if ts != [] {
      PairSensationsUniform(e, ts[0], ts[1..], cycle);
      SensationsUniform(e, ts[1..], cycle);
    }
  }

  lemma {:induction false} PairSensationsCover(e: Engine, t: Term, later: seq<Term>, cycle: int, k: nat)
    requires k < |later|
    ensures Sensation(e.parallelPair(t, later[k]), cycle) in PairSensations(e, t, later, cycle)
  {
    if k < |later| - 1 {
      PairSensationsCover(e, t, later[..|later| - 1], cycle, k);
    }
  }

  /** Each fact is sensed on its own, and so is each pair of a fact with a later one. */
  lemma SensationsCover(e: Engine, ts: seq<Term>, cycle: int, i: nat, j: nat)
    requires i < j < |ts|
    ensures Sensation(ts[i], cycle) in Sensations(e, ts, cycle)
    ensures Sensation(ts[j], cycle) in Sensations(e, ts, cycle)
    ensures Sensation(e.parallelPair(ts[i], ts[j]), cycle) in Sensations(e, ts, cycle)
  {
    FactSensed(e, ts, cycle, i);
    FactSensed(e, ts, cycle, j);
    PairSensed(e, ts, cycle, i, j);
  }

  lemma {:induction false} FactSensed(e: Engine, ts: seq<Term>, cycle: int, i: nat)
    requires i < |ts|
    ensures Sensation(ts[i], cycle) in Sensations(e, ts, cycle)
  {
    if i > 0 {
      FactSensed(e, ts[1..], cycle, i - 1);
      assert ts[1..][i - 1] == ts[i];
    }
  }

  lemma {:induction false} PairSensed(e: Engine, ts: seq<Term>, cycle: int, i: nat, j: nat)
    requires i < j < |ts|
    ensures Sensation(e.parallelPair(ts[i], ts[j]), cycle) in Sensations(e, ts, cycle)
  {
    assert ts[1..][j - 1] == ts[j];
    if i == 0 {
      PairSensationsCover(e, ts[0], ts[1..], cycle, j - 1);
    } else {
      PairSensed(e, ts[1..], cycle, i - 1, j - 1);
      assert ts[1..][i - 1] == ts[i];
    }
  }

  // ---------------------------------------------------- motor selection

  /** The goal activations of the motor terms, in order. */
  function ActivationsOf(nars: Nars, ts: seq<Term>): (acts: seq<real>)
    reads nars`memory, nars.buffer, nars.temporal
    requires nars.Valid()
    ensures |acts| == |ts|
    ensures forall k :: 0 <= k < |ts| ==> acts[k] == nars.GoalActivation(ts[k])
  {
    if ts == [] then [] else ActivationsOf(nars, ts[..|ts| - 1]) + [nars.GoalActivation(ts[|ts| - 1])]
  }

  /** The running maximum of the selection loop: zero before anything is chosen. */
  function Peak(acts: seq<real>, best: Option<nat>): real
  {
    if best.Some? && best.value < |acts| then acts[best.value] else 0.0
  }

  /**
    The selection loop of MotorAct: an activation below the threshold is
    skipped, and one strictly above the running maximum (starting at zero)
    becomes the choice.
  */
  function FirstMax(acts: seq<real>, threshold: real): (best: Option<nat>)
    ensures best.Some? ==> best.value < |acts|
  {
    if acts == [] then None
    else
      var b := FirstMax(acts[..|acts| - 1], threshold);
      var a := acts[|acts| - 1];
      if a < threshold || !(a > Peak(acts[..|acts| - 1], b)) then b else Some(|acts| - 1)
  }

  /**
    The choice is the first activation that reaches the threshold, is
    positive and is not exceeded by any later one that reaches the
    threshold; there is none exactly when no activation both reaches the
    threshold and exceeds zero.
  */
  lemma {:induction false} FirstMaxChoice(acts: seq<real>, threshold: real)
    ensures FirstMax(acts, threshold).None? <==>
            forall k :: 0 <= k < |acts| ==> acts[k] < threshold || acts[k] <= 0.0
    ensures FirstMax(acts, threshold).Some? ==>
            var i := FirstMax(acts, threshold).value;
            acts[i] >= threshold && acts[i] > 0.0
            && (forall k :: 0 <= k < |acts| && acts[k] >= threshold ==> acts[k] <= acts[i])
            && (forall k :: 0 <= k < i && acts[k] >= threshold ==> acts[k] < acts[i])
  {
    if acts != [] {
      var init := acts[..|acts| - 1];
      FirstMaxChoice(init, threshold);
      assert forall k :: 0 <= k < |init| ==> init[k] == acts[k];
    }
  }

  /** The selection loop, over the motor terms in order. */
  method Select(nars: Nars, ts: seq<Term>) returns (best: Option<nat>)
    requires nars.Valid()
    ensures best == FirstMax(ActivationsOf(nars, ts), nars.config.t)
  {
    ghost var acts := ActivationsOf(nars, ts);
    best := None;
    var max := 0.0;
    var i := 0;
    while i < |ts|
      invariant 0 <= i <= |ts|
      invariant best == FirstMax(acts[..i], nars.config.t)
      invariant max == Peak(acts[..i], best)
    {
      var activation := nars.GoalActivation(ts[i]);
      assert acts[..i + 1][..i] == acts[..i];
      if activation >= nars.config.t && activation > max {
        best := Some(i);
        max := activation;
      }
      i := i + 1;
    }
    assert acts[..|ts|] == acts;
  }

  /** The operation MotorAct acts out: the selection's choice among the reasoner's motor terms, read as a command. */
  function Decision(nars: Nars): Decoded
    reads nars`memory, nars.buffer, nars.temporal
    requires nars.Valid()
  {
    Chosen(nars.engine, nars.motorTerms, FirstMax(ActivationsOf(nars, nars.motorTerms), nars.config.t))
  }

  method Choose(nars: Nars) returns (d: Decoded)
    requires nars.Valid()
    ensures d == Decision(nars)
  {
    var best := Select(nars, nars.motorTerms);
    d := Chosen(nars.engine, nars.motorTerms, best);
  }

  /** A world action: stack one block on another, or put one on the table. */
  datatype Command = StackCommand(top: string, bottom: string) | UnstackCommand(block: string)

  /** Reading a motor term: it throws, names no action, or names a command. */
  datatype Decoded = Thrown | Idle | Act(command: Command)

  /**
    How MotorAct reads the chosen operation: the subject must be a compound
    of at least two terms; STACK uses the terms at 1 and 2, UNSTACK the term
    at 1, and any other operation does nothing.
  */
  function CommandOf(e: Engine, t: Term): (d: Decoded)
    ensures d.Act? ==> t.Statement? && t.subject.Compound? && |t.subject.subterms| >= 2
    ensures d.Act? && d.command.StackCommand? ==> e.termString(t.predicateTerm) == "STACK"
    ensures d.Act? && d.command.UnstackCommand? ==> e.termString(t.predicateTerm) == "UNSTACK"
  {
    if !t.Statement? || !t.subject.Compound? || |t.subject.subterms| < 2 then Thrown
    else
      var args := t.subject.subterms;
      var name := e.termString(t.predicateTerm);
      if name == "STACK" then
        if |args| < 3 then Thrown else Act(StackCommand(e.termString(args[1]), e.termString(args[2])))
      else if name == "UNSTACK" then Act(UnstackCommand(e.termString(args[1])))
      else Idle
  }

  /** The block a command moves and where it goes. */
  function Mover(c: Command): string
  {
    match c
    case StackCommand(top, _) => top
    case UnstackCommand(b) => b
  }

  function Target(c: Command): string
  {
    match c
    case StackCommand(_, bottom) => bottom
    case UnstackCommand(_) => Blocks.TableName
  }

  predicate CanRun(w: Blocks.World, c: Command)
    reads w
  {
    match c
    case StackCommand(top, bottom) => w.CanStack(top, bottom)
    case UnstackCommand(b) => w.CanUnstack(b)
  }

  /** Whether an atom's term string is its name, as the term class forms it. */
  ghost predicate AtomStrings(e: Engine)
  {
    forall x :: e.termString(Atom(x)) == x
  }

  /** The built motor terms read back as the commands they were built from. */
  lemma MotorTermsRead(e: Engine, top: string, bottom: string)
    requires AtomStrings(e)
    ensures CommandOf(e, Genomes.StackTerm(top, bottom)) == Act(StackCommand(top, bottom))
    ensures CommandOf(e, Genomes.UnstackTerm(top)) == Act(UnstackCommand(top))
  {
    assert e.termString(Atom("STACK")) == "STACK";
    assert e.termString(Atom("UNSTACK")) == "UNSTACK";
    assert e.termString(Atom(top)) == top;
    assert e.termString(Atom(bottom)) == bottom;
  }

  lemma {:induction false} MotorRowActs(e: Engine, i: nat, j: nat)
    requires AtomStrings(e) && i <= Blocks.MaxBlockIndex && j <= i
    ensures forall k :: 0 <= k < |Genomes.MotorRow(i, j)| ==> CommandOf(e, Genomes.MotorRow(i, j)[k]).Act?
  {
    if j > 0 {
      MotorRowActs(e, i, j - 1);
      MotorTermsRead(e, Blocks.BlockName(i), Blocks.BlockName(j - 1));
      MotorTermsRead(e, Blocks.BlockName(j - 1), Blocks.BlockName(i));
    }
  }

  /** Every operation of MOTOR_TERM_SET names a command: none throws and none is idle. */
  lemma {:induction false} MotorTermsAct(e: Engine, n: nat)
    requires AtomStrings(e) && n <= Blocks.MaxBlockIndex + 1
    ensures forall k :: 0 <= k < |Genomes.MotorTerms(n)| ==> CommandOf(e, Genomes.MotorTerms(n)[k]).Act?
  {
    if n > 0 {
      MotorTermsAct(e, n - 1);
      MotorTermsRead(e, Blocks.BlockName(n - 1), Blocks.BlockName(n - 1));
      MotorRowActs(e, n - 1, n - 1);
      var before := Genomes.MotorTerms(n - 1) + [Genomes.UnstackTerm(Blocks.BlockName(n - 1))];
      assert Genomes.MotorTerms(n) == before + Genomes.MotorRow(n - 1, n - 1);
      forall k | 0 <= k < |Genomes.MotorTerms(n)|
        ensures CommandOf(e, Genomes.MotorTerms(n)[k]).Act?
      {
        if k < |Genomes.MotorTerms(n - 1)| {
          assert Genomes.MotorTerms(n)[k] == Genomes.MotorTerms(n - 1)[k];
        } else if k >= |before| {
          assert Genomes.MotorTerms(n)[k] == Genomes.MotorRow(n - 1, n - 1)[k - |before|];
        }
      }
    }
  }

  /** What MotorAct does given the choice: nothing without one, else the chosen term's reading. */
  function Chosen(e: Engine, ts: seq<Term>, best: Option<nat>): Decoded
  {
    if best.None? || best.value >= |ts| then Idle else CommandOf(e, ts[best.value])
  }

  /** Acting out a reading in the world: a command runs as Stack or Unstack, a throw or no action leaves it be. */
  method Perform(world: Blocks.World, d: Decoded) returns (ok: bool, moved: bool)
    requires world.Valid()
    modifies world`on, world`clear, world`height, world`goalReached
    ensures world.Valid()
    ensures ok <==> !d.Thrown?
    ensures moved <==> d.Act? && old(CanRun(world, d.command))
    ensures moved ==> world.on == old(world.on)[Mover(d.command) := Target(d.command)]
                      && world.clear == Blocks.ClearOf(world.on)
                      && world.goalReached == Blocks.AllMatch(world.names, world.on, world.goalOn)
    ensures !moved ==> world.on == old(world.on) && world.clear == old(world.clear)
                       && world.goalReached == old(world.goalReached)
  {
    ok, moved := true, false;
    match d {
      case Thrown =>
        ok := false;
      case Idle =>
      case Act(StackCommand(top, bottom)) =>
        moved := world.Stack(top, bottom);
      case Act(UnstackCommand(b)) =>
        moved := world.Unstack(b);
    }
  }

  /** What fact i of the list sends: the fact itself, then its pairs with the later facts. */
  function FactSensations(e: Engine, ts: seq<Term>, i: nat, cycle: int): seq<Sentence>
    requires i < |ts|
  {
    [Sensation(ts[i], cycle)] + PairSensations(e, ts[i], ts[i + 1..], cycle)
  }

  /** One turn of Sense's outer loop: fact i and its pairs come next. */
  lemma SensationsStep(e: Engine, ts: seq<Term>, cycle: int, i: nat, sent: seq<Sentence>)
    requires i < |ts|
    requires sent + Sensations(e, ts[i..], cycle) == Sensations(e, ts, cycle)
    ensures (sent + FactSensations(e, ts, i, cycle)) + Sensations(e, ts[i + 1..], cycle) == Sensations(e, ts, cycle)
  {
    assert ts[i..][1..] == ts[i + 1..];
    var single := [Sensation(ts[i], cycle)];
    var pairs := PairSensations(e, ts[i], ts[i + 1..], cycle);
    assert Sensations(e, ts[i..], cycle) == single + pairs + Sensations(e, ts[i + 1..], cycle);
    assert (sent + (single + pairs)) + Sensations(e, ts[i + 1..], cycle)
        == sent + (single + pairs + Sensations(e, ts[i + 1..], cycle));
  }

  lemma PairSensationsSnoc(e: Engine, t: Term, ts: seq<Term>, cycle: int, lo: nat, j: nat)
    requires lo <= j < |ts|
    ensures PairSensations(e, t, ts[lo..j + 1], cycle)
            == PairSensations(e, t, ts[lo..j], cycle) + [Sensation(e.parallelPair(t, ts[j]), cycle)]
  {
    assert ts[lo..j + 1][..j - lo] == ts[lo..j];
  }

  /** The outer loop of Sense: each fact, then its pairs with the later facts, sent as input. */
  method SendSensations(nars: Nars, states: seq<Term>)
    requires nars.Valid()
    modifies nars.buffer
    ensures nars.Valid()
    ensures nars.buffer.queue == EnqueueAll(old(nars.buffer.queue), Sensations(nars.engine, states, nars.cycle), nars.engine.priority)
  {
    var e := nars.engine;
    var c := nars.cycle;
    ghost var q0 := nars.buffer.queue;
    ghost var sent: seq<Sentence> := [];
    var i := 0;
    while i < |states|
      invariant 0 <= i <= |states|
      invariant nars.Valid()
      invariant sent + Sensations(e, states[i..], c) == Sensations(e, states, c)
      invariant nars.buffer.queue == EnqueueAll(q0, sent, e.priority)
    {
      SensationsStep(e, states, c, i, sent);
      SendFact(nars, states, i);
      EnqueueAllAppend(q0, sent, FactSensations(e, states, i, c), e.priority);
      sent := sent + FactSensations(e, states, i, c);
      i := i + 1;
    }
    assert states[i..] == [];
    assert sent + [] == sent;
  }

  /** One turn of the outer loop of Sense: fact i as input, then its pairs. */
  method SendFact(nars: Nars, states: seq<Term>, i: nat)
    requires nars.Valid() && i < |states|
    modifies nars.buffer
    ensures nars.Valid()
    ensures nars.buffer.queue
            == EnqueueAll(old(nars.buffer.queue), FactSensations(nars.engine, states, i, nars.cycle), nars.engine.priority)
  {
    ghost var q := nars.buffer.queue;
    var single := Sensation(states[i], nars.cycle);
    nars.SendInput(Some(Judgment(states[i], FirmValue, Some(nars.cycle))));
    EnqueueOne(q, single, nars.engine.priority);
    SendPairs(nars, states, i);
    EnqueueAllAppend(q, [single], PairSensations(nars.engine, states[i], states[i + 1..], nars.cycle), nars.engine.priority);
  }

  /** The inner loop of Sense: the pairs of fact i with each later fact, sent as input. */
  method SendPairs(nars: Nars, states: seq<Term>, i: nat)
    requires nars.Valid() && i < |states|
    modifies nars.buffer
    ensures nars.Valid()
    ensures nars.buffer.queue
            == EnqueueAll(old(nars.buffer.queue), PairSensations(nars.engine, states[i], states[i + 1..], nars.cycle),
                          nars.engine.priority)
  {
    var e := nars.engine;
    var c := nars.cycle;
    ghost var q0 := nars.buffer.queue;
    var j := i + 1;
    while j < |states|
      invariant i + 1 <= j <= |states|
      invariant nars.Valid()
      invariant nars.buffer.queue == EnqueueAll(q0, PairSensations(e, states[i], states[i + 1..j], c), e.priority)
    {
      PairSensationsSnoc(e, states[i], states, c, i + 1, j);
      var pair := e.parallelPair(states[i], states[j]);
      nars.SendInput(Some(Judgment(pair, FirmValue, Some(c))));
      EnqueueAllSnoc(q0, PairSensations(e, states[i], states[i + 1..j], c), Sensation(pair, c), e.priority);
      j := j + 1;
    }
    assert states[i + 1..j] == states[i + 1..];
  }

  // ---------------------------------------------------- the body

  class NarsBody {
    var nars: Nars
    var successfulMoves: nat
    var uniqueStates: set<string>
    /** The states added since the last reset, in order. */
    ghost var reached: seq<string>

    ghost predicate Valid()
      reads this
    {
      uniqueStates == (set s | s in reached)
    }

    constructor(nars: Nars)
      ensures Valid()
      ensures this.nars == nars && successfulMoves == 0 && uniqueStates == {} && reached == []
    {
      this.nars := nars;
      successfulMoves := 0;
      uniqueStates := {};
      reached := [];
    }

    /**
      Sense: every current fact of the world, then each pair of it with a
      later fact, goes to the reasoner as an input judgment.
    */
    method Sense(world: Blocks.World)
      requires nars.Valid()
      modifies nars.buffer
      ensures nars.Valid()
      ensures nars.buffer.queue
              == EnqueueAll(old(nars.buffer.queue),
                            Sensations(nars.engine, Blocks.OnTerms(world.names, world.on)
                                                    + Blocks.ClearTerms(world.names, world.clear), nars.cycle),
                            nars.engine.priority)
    {
      var states := world.GetCurrentState();
      SendSensations(nars, states);
    }

    /**
      MotorAct: the most activated motor operation over the threshold T is
      acted out in the world; a successful move is counted. `ok` is false
      when reading the chosen operation throws.
    */
    method MotorAct(world: Blocks.World) returns (ok: bool, moved: bool)
      requires nars.Valid() && world.Valid()
      modifies world`on, world`clear, world`height, world`goalReached, this`successfulMoves
      ensures world.Valid()
      ensures ok <==> !old(Decision(nars)).Thrown?
      ensures moved <==> old(Decision(nars)).Act? && old(CanRun(world, Decision(nars).command))
      ensures moved ==> world.on == old(world.on)[Mover(old(Decision(nars)).command) := Target(old(Decision(nars)).command)]
                        && world.clear == Blocks.ClearOf(world.on)
                        && world.goalReached == Blocks.AllMatch(world.names, world.on, world.goalOn)
      ensures !moved ==> world.on == old(world.on) && world.clear == old(world.clear)
                         && world.goalReached == old(world.goalReached)
      ensures successfulMoves == old(successfulMoves) + (if moved then 1 else 0)
    {
      var d := Choose(nars);
      ok, moved := Perform(world, d);
      Tally(moved);
    }

    /** successful_moves counts the moves the world reports as done. */
    method Tally(moved: bool)
      modifies this`successfulMoves
      ensures successfulMoves == old(successfulMoves) + (if moved then 1 else 0)
    {
      if moved {
        successfulMoves := successfulMoves + 1;
      }
    }

    /** AddUniqueStateReached: the state string joins the set of states reached. */
    method AddUniqueStateReached(state: string)
      requires Valid()
      modifies this`uniqueStates, this`reached
      ensures Valid()
      ensures uniqueStates == old(uniqueStates) + {state} && reached == old(reached) + [state]
    {
      uniqueStates := uniqueStates + {state};
      reached := reached + [state];
    }

    /** ResetForEpisode: a new reasoner and no states reached. */
    method ResetForEpisode(nars: Nars)
      modifies this`nars, this`uniqueStates, this`reached
      ensures Valid()
      ensures this.nars == nars && uniqueStates == {} && reached == []
    {
      this.nars := nars;
      uniqueStates := {};
      reached := [];
    }

    /** GetEpisodeFitness: the number of distinct states added since the last reset. */
    method GetEpisodeFitness() returns (fitness: real)
      requires Valid()
      ensures fitness == |set s | s in reached| as real
    {
      fitness := |uniqueStates| as real;
    }
  }
}
