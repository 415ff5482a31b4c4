/*
  Option, the Narsese term and sentence data model, and the record of
  collaborators whose code is not part of this model (inference rules,
  time projection, term construction, parsing, explanation links).
*/
module Wrappers {

  datatype Option<T> = None | Some(value: T)

  datatype Result<T, E> = Success(value: T) | Failure(error: E)
}

module Terms {
  import opened Wrappers
  import opened Values

  datatype Copula = Inheritance | Implication | PredictiveImplication

  datatype Connector =
    | ExtensionalSet
    | Product
    | Negation
    | Conjunction
    | ParallelConjunction
    | SequentialConjunction

  /** Atoms, compounds (a connector over sub-terms) and statements. */
  datatype Term =
    | Atom(name: string)
    | Compound(connector: Connector, subterms: seq<Term>)
    | Statement(subject: Term, copula: Copula, predicateTerm: Term)

  /** The term {SELF}. */
  const SelfTerm: Term := Compound(ExtensionalSet, [Atom("SELF")])

  /**
    An operation: a statement whose subject is a product led by {SELF}, as
    every motor term ((*,{SELF},...) --> OP) is built.
  */
  predicate IsOp(t: Term)
  {
    t.Statement? && t.subject.Compound? && t.subject.connector == Product
    && |t.subject.subterms| >= 1 && t.subject.subterms[0] == SelfTerm
  }

  predicate IsConjunction(c: Connector)
  {
    c == Conjunction || c == ParallelConjunction || c == SequentialConjunction
  }

  datatype Kind = JudgmentKind | QuestionKind | GoalKind

  /**
    A sentence: punctuation, statement, evidential value, occurrence time
    (None for an eternal sentence) and whether it arrived as input.
  */
  datatype Sentence = Sentence(
    kind: Kind,
    statement: Term,
    value: EvidentialValue,
    occurrence: Option<int>,
    fromInput: bool)
  {
    predicate IsEvent() { occurrence.Some? }
  }

  function Judgment(t: Term, v: EvidentialValue, occurrence: Option<int>): (s: Sentence)
    ensures s.kind == JudgmentKind && s.statement == t && s.value == v
    ensures s.IsEvent() <==> occurrence.Some?
  {
    Sentence(JudgmentKind, t, v, occurrence, false)
  }

  function Goal(t: Term, v: EvidentialValue, occurrence: Option<int>): (s: Sentence)
    ensures s.kind == GoalKind && s.statement == t && s.value == v
    ensures s.IsEvent() <==> occurrence.Some?
  {
    Sentence(GoalKind, t, v, occurrence, false)
  }

  /**
    Collaborators this model does not define; each is an arbitrary function
    and every property proved holds for all choices of them.
  */
  datatype Engine = Engine(
    /** may_interact: the stamps of two sentences do not overlap. */
    mayInteract: (Sentence, Sentence) -> bool,
    /** The revision rule of two interacting sentences. */
    revision: (Sentence, Sentence) -> Sentence,
    /** Confidence of a sentence's time-projected value. */
    decayedConfidence: Sentence -> real,
    /** Compound-term construction (including any normalisation). */
    compound: (Connector, seq<Term>) -> Term,
    /** Temporal intersection and temporal induction rules. */
    temporalIntersection: (Sentence, Sentence) -> Sentence,
    temporalInduction: (Sentence, Sentence) -> Sentence,
    /** Evidence of one unit of negative evidence. */
    unitConfidence: real,
    /** The budget priority an item container gives a sentence. */
    priority: Sentence -> real,
    /** The decision rule on a goal. */
    decision: Sentence -> bool,
    /** Whether a sentence's value counts as positive. */
    isPositive: Sentence -> bool,
    /** Motor activation of a desire. */
    motorActivation: Sentence -> real,
    /** Two-premise semantic inference between a goal and a belief. */
    twoPremise: (Sentence, Sentence) -> seq<Sentence>,
    /** The sub-goal derived from a goal and one component term. */
    onePremiseGoal: (Sentence, Term) -> Sentence,
    /** Number of explanation links of a term's concept. */
    explanationCount: Term -> nat,
    /** A belief drawn from a goal's explanation links by a draw in [0, 1). */
    randomExplanation: (Sentence, real) -> Option<Sentence>,
    /** The term string of a term. */
    termString: Term -> string,
    /** The parallel conjunction of two terms, as the compound-term builder forms it. */
    parallelPair: (Term, Term) -> Term,
    /** Parsing a statement string into a term. */
    parse: string -> Term,
    /** The forgetting factor 2^(-1 / rate) for a forgetting rate; the forgetting methods require it in (0, 1). */
    forgettingFactor: real -> real)
}

/*
  Random draws. Every draw of a random-number generator is an explicit
  parameter: a unit draw u in [0, 1). The .NET and Unity integer draws in
  [a, b) are a + floor(u * (b - a)).
*/
module Draws {

  predicate IsUnit(u: real) { 0.0 <= u < 1.0 }

  /** An index in [0, n) from a unit draw. */
  function IndexFromDraw(u: real, n: nat): (i: nat)
    requires IsUnit(u) && n > 0
    ensures i < n
  {
    var x := u * n as real;
    assert x.Floor as real <= x < n as real;
    x.Floor
  }

  /** An integer in [a, b) from a unit draw, as Range(a, b) on integers. */
  function IntRange(a: int, b: int, u: real): (r: int)
    requires IsUnit(u) && a < b
    ensures a <= r < b
  {
    a + IndexFromDraw(u, b - a)
  }
}

/*
  The configuration values the core reads. NARSConfig itself is not part
  of this model; its defaults are parameters of the constructors that use
  them.
*/
module Configs {

  datatype Config = Config(
    globalBufferCapacity: nat,
    eventBufferCapacity: nat,
    tableCapacity: nat,
    anticipationWindow: int,
    forgettingRate: real,
    maxEvidentialBaseLength: int,
    projectionDecayEvent: real,
    projectionDecayDesire: real,
    k: real,
    t: real,
    /** Confidence given to every contingency the temporal module forms. */
    compoundConfidence: real,
    /** Which contingency strategy temporal chaining runs, checked in this order. */
    runtimeCompounds1: bool,
    runtimeCompounds2: bool,
    runtimeCompounds3: bool)
}
