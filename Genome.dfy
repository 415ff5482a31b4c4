/*
  The genome of one evolved reasoner: its evolution mode, its personality
  parameters, its evolved beliefs (contingency statements with evidential
  values) kept without repeated statement strings, and the genetic
  operators on them.
*/
module Genomes {
  import opened Wrappers
  import opened Values
  import opened Terms
  import Draws
  import Blocks

  // ---------------------------------------------------------------------
  // Evolution modes

  datatype EvolutionType =
    | NoContingencyFixedPersonalityLearning
    | NoContingencyRandomPersonalityLearning
    | EvolveContingenciesFixedPersonalityNoLearning
    | EvolveContingenciesRandomPersonalityNoLearning
    | EvolveContingenciesFixedPersonalityLearning
    | EvolveContingenciesRandomPersonalityLearning
    | EvolvePersonalityLearning
    | EvolvePersonalityAndContingenciesLearning
    | EvolvePersonalityAndContingenciesNoLearning

  /** The evolution type the static setting starts with; operations that test it take the mode as a parameter. */
  const Mode: EvolutionType := EvolvePersonalityAndContingenciesNoLearning

  predicate RandomPersonality(t: EvolutionType)
  {
    t == NoContingencyRandomPersonalityLearning
    || t == EvolveContingenciesRandomPersonalityNoLearning
    || t == EvolveContingenciesRandomPersonalityLearning
  }

  predicate UseLearning(t: EvolutionType)
  {
    t == NoContingencyFixedPersonalityLearning
    || t == NoContingencyRandomPersonalityLearning
    || t == EvolveContingenciesFixedPersonalityLearning
    || t == EvolveContingenciesRandomPersonalityLearning
    || t == EvolvePersonalityLearning
    || t == EvolvePersonalityAndContingenciesLearning
  }

  predicate EvolvePersonality(t: EvolutionType)
  {
    t == EvolvePersonalityLearning
    || t == EvolvePersonalityAndContingenciesLearning
    || t == EvolvePersonalityAndContingenciesNoLearning
  }

  predicate UseAndEvolveContingencies(t: EvolutionType)
  {
    t == EvolveContingenciesFixedPersonalityNoLearning
    || t == EvolveContingenciesRandomPersonalityNoLearning
    || t == EvolveContingenciesFixedPersonalityLearning
    || t == EvolveContingenciesRandomPersonalityLearning
    || t == EvolvePersonalityAndContingenciesLearning
    || t == EvolvePersonalityAndContingenciesNoLearning
  }

  /** Under the initial mode the personality and the contingencies evolve and nothing is learnt at run time. */
  lemma DefaultMode()
    ensures EvolvePersonality(Mode) && UseAndEvolveContingencies(Mode)
    ensures !UseLearning(Mode) && !RandomPersonality(Mode)
  {
  }

  /**
    How the modes relate: a random personality is never evolved, and a mode
    without learning always evolves contingencies, so every mode adapts in
    at least one way.
  */
  lemma ModesRelate(t: EvolutionType)
    ensures RandomPersonality(t) ==> !EvolvePersonality(t)
    ensures !UseLearning(t) ==> UseAndEvolveContingencies(t)
    ensures UseLearning(t) || UseAndEvolveContingencies(t) || EvolvePersonality(t)
  {
  }

  // ---------------------------------------------------------------------
  // Personality parameters

  /** The C# (int) cast of a float: truncation toward zero. */
  function Truncate(v: real): (r: int)
    ensures v >= 0.0 ==> 0 <= r && r as real <= v < r as real + 1.0
    ensures v < 0.0 ==> r <= 0 && r as real - 1.0 < v <= r as real
  {
    if v >= 0.0 then v.Floor else -((-v).Floor)
  }

  lemma TruncateInt(n: int)
    ensures Truncate(n as real) == n
  {
  }

  datatype Personality = Personality(
    k: real,
    t: real,
    anticipationWindow: int,
    forgettingRate: real,
    eventBufferCapacity: int,
    tableCapacity: int,
    evidentialBaseLength: int,
    timeProjectionEvent: real,
    timeProjectionGoal: real,
    compoundConfidence: real,
    runtimeCompounds1: int,
    runtimeCompounds2: int,
    runtimeCompounds3: int)
  {
    /** Parameter i as a float; -1 for an index that names no parameter. */
    function Get(i: int): real
    {
      if i == 0 then k
      else if i == 1 then t
      else if i == 2 then anticipationWindow as real
      else if i == 3 then forgettingRate
      else if i == 4 then eventBufferCapacity as real
      else if i == 5 then tableCapacity as real
      else if i == 6 then evidentialBaseLength as real
      else if i == 7 then timeProjectionEvent
      else if i == 8 then timeProjectionGoal
      else if i == 9 then compoundConfidence
      else if i == 10 then runtimeCompounds1 as real
      else if i == 11 then runtimeCompounds2 as real
      else if i == 12 then runtimeCompounds3 as real
      else -1.0
    }

    /** Sets parameter i; integer parameters take the value truncated toward zero; other indices change nothing. */
    function Set(i: int, v: real): Personality
    {
      if i == 0 then this.(k := v)
      else if i == 1 then this.(t := v)
      else if i == 2 then this.(anticipationWindow := Truncate(v))
      else if i == 3 then this.(forgettingRate := v)
      else if i == 4 then this.(eventBufferCapacity := Truncate(v))
      else if i == 5 then this.(tableCapacity := Truncate(v))
      else if i == 6 then this.(evidentialBaseLength := Truncate(v))
      else if i == 7 then this.(timeProjectionEvent := v)
      else if i == 8 then this.(timeProjectionGoal := v)
      else if i == 9 then this.(compoundConfidence := v)
      else if i == 10 then this.(runtimeCompounds1 := Truncate(v))
      else if i == 11 then this.(runtimeCompounds2 := Truncate(v))
      else if i == 12 then this.(runtimeCompounds3 := Truncate(v))
      else this
    }
  }

  /** The number of personality parameters. */
  const ParameterCount: nat := 13

  /** The parameters stored as integers. */
  predicate IsIntParameter(i: int)
  {
    i == 2 || i == 4 || i == 5 || i == 6 || i == 10 || i == 11 || i == 12
  }

  function GetName(i: int): (name: string)
    ensures 0 <= i < ParameterCount <==> name != ""
  {
    if i == 0 then "k"
    else if i == 1 then "T"
    else if i == 2 then "Anticipation_Window"
    else if i == 3 then "Forgetting_Rate"
    else if i == 4 then "Event_Buffer_Capacity"
    else if i == 5 then "Table_Capacity"
    else if i == 6 then "Evidential_Base_Length"
    else if i == 7 then "Time_Projection_Event"
    else if i == 8 then "Time_Projection_Goal"
    else if i == 9 then "Compound_Confidence"
    else if i == 10 then "RuntimeCompounds1"
    else if i == 11 then "RuntimeCompounds2"
    else if i == 12 then "RuntimeCompounds3"
    else ""
  }

  /** Setting parameter i changes parameter i, to v or its truncation, and no other parameter. */
  lemma SetChangesOnly(p: Personality, i: int, v: real)
    requires 0 <= i < ParameterCount
    ensures p.Set(i, v).Get(i) == if IsIntParameter(i) then Truncate(v) as real else v
    ensures forall j :: j != i ==> p.Set(i, v).Get(j) == p.Get(j)
  {
  }

  /** Writing back what was read changes nothing. */
  lemma SetGetIdentity(p: Personality, i: int)
    requires 0 <= i < ParameterCount
    ensures p.Set(i, p.Get(i)) == p
  {
    if IsIntParameter(i) {
      var n := if i == 2 then p.anticipationWindow else if i == 4 then p.eventBufferCapacity
        else if i == 5 then p.tableCapacity else if i == 6 then p.evidentialBaseLength
        else if i == 10 then p.runtimeCompounds1 else if i == 11 then p.runtimeCompounds2 else p.runtimeCompounds3;
      assert p.Get(i) == n as real;
      TruncateInt(n);
    }
  }

  /** Reading parameter i of another personality and writing it makes parameter i agree with it. */
  lemma SetFromGet(p: Personality, q: Personality, i: int)
    requires 0 <= i < ParameterCount
    ensures p.Set(i, q.Get(i)).Get(i) == q.Get(i)
    ensures forall j :: j != i ==> p.Set(i, q.Get(i)).Get(j) == p.Get(j)
  {
    SetChangesOnly(p, i, q.Get(i));
    if IsIntParameter(i) {
      var n := if i == 2 then q.anticipationWindow else if i == 4 then q.eventBufferCapacity
        else if i == 5 then q.tableCapacity else if i == 6 then q.evidentialBaseLength
        else if i == 10 then q.runtimeCompounds1 else if i == 11 then q.runtimeCompounds2 else q.runtimeCompounds3;
      assert q.Get(i) == n as real;
      TruncateInt(n);
    }
  }

  /** The parameters a genome starts from when nothing is evolved or randomised. */
  function DefaultParameters(): (p: Personality)
    ensures p.runtimeCompounds1 == 0 && p.runtimeCompounds2 == 0 && p.runtimeCompounds3 == 0
  {
    Personality(1.0, 0.51, 5, 10.0, 10, 5, 20, 10.0, 1.0, 0.99, 0, 0, 0)
  }

  datatype RealBounds = RealBounds(lo: real, hi: real)
  datatype IntBounds = IntBounds(lo: int, hi: int)

  const KRange: RealBounds := RealBounds(1.0, 10.0)
  const TRange: RealBounds := RealBounds(0.51, 1.0)
  const TimeProjectionEventRange: RealBounds := RealBounds(0.0000001, 10.0)
  const TimeProjectionGoalRange: RealBounds := RealBounds(0.0000001, 10.0)
  const CompoundConfidenceRange: RealBounds := RealBounds(0.0000001, 0.99999)
  const ForgettingRateRange: RealBounds := RealBounds(1.0, 250.0)
  const AnticipationWindowRange: IntBounds := IntBounds(1, 30)
  const EventBufferCapacityRange: IntBounds := IntBounds(3, 30)
  const TableCapacityRange: IntBounds := IntBounds(1, 20)
  const EvidentialBaseLengthRange: IntBounds := IntBounds(1, 50)
  const RuntimeCompoundRange: IntBounds := IntBounds(0, 1)

  predicate InReal(v: real, b: RealBounds) { b.lo <= v <= b.hi }
  predicate InInt(v: int, b: IntBounds) { b.lo <= v <= b.hi }

  /** Every parameter lies inside the range its mutation clamps it to. */
  predicate InRanges(p: Personality)
  {
    InReal(p.k, KRange) && InReal(p.t, TRange)
    && InInt(p.anticipationWindow, AnticipationWindowRange)
    && InReal(p.forgettingRate, ForgettingRateRange)
    && InInt(p.eventBufferCapacity, EventBufferCapacityRange)
    && InInt(p.tableCapacity, TableCapacityRange)
    && InInt(p.evidentialBaseLength, EvidentialBaseLengthRange)
    && InReal(p.timeProjectionEvent, TimeProjectionEventRange)
    && InReal(p.timeProjectionGoal, TimeProjectionGoalRange)
    && InReal(p.compoundConfidence, CompoundConfidenceRange)
    && InInt(p.runtimeCompounds1, RuntimeCompoundRange)
    && InInt(p.runtimeCompounds2, RuntimeCompoundRange)
    && InInt(p.runtimeCompounds3, RuntimeCompoundRange)
  }

  lemma DefaultInRanges()
    ensures InRanges(DefaultParameters())
  {
  }

  /** math.clamp on integers: the larger of lo and the smaller of hi and v. */
  function Clamp(v: int, lo: int, hi: int): (r: int)
    requires lo <= hi
    ensures lo <= r <= hi
    ensures lo <= v <= hi ==> r == v
    ensures v > hi ==> r == hi
    ensures v < lo ==> r == lo
  {
    if hi < v then hi else if v < lo then lo else v
  }

  /**
    One mutation of an integer parameter. Draw u1 decides whether it mutates
    at all, u2 whether it is replaced by a fresh value (drawn by u3 in the
    closed range) or moved by the truncated perturbation; the result is then
    clamped into the range.
  */
  function MutateInt(field: int, range: IntBounds, replaceChance: real, mutateChance: real,
                     u1: real, u2: real, u3: real, perturbation: real): (r: int)
    requires Draws.IsUnit(u1) && Draws.IsUnit(u2) && Draws.IsUnit(u3) && range.lo <= range.hi
    ensures u1 < 1.0 - mutateChance ==> r == field
    ensures u1 >= 1.0 - mutateChance ==> InInt(r, range)
    ensures u1 >= 1.0 - mutateChance && u2 < replaceChance ==> r == Draws.IntRange(range.lo, range.hi + 1, u3)
    ensures u1 >= 1.0 - mutateChance && u2 >= replaceChance && InInt(field + Truncate(perturbation), range) ==>
              r == field + Truncate(perturbation)
    ensures u1 >= 1.0 - mutateChance && u2 >= replaceChance && field + Truncate(perturbation) > range.hi ==>
              r == range.hi
    ensures u1 >= 1.0 - mutateChance && u2 >= replaceChance && field + Truncate(perturbation) < range.lo ==>
              r == range.lo
    ensures InInt(field, range) ==> InInt(r, range)
  {
    if u1 < 1.0 - mutateChance then field
    else
      var moved := if u2 < replaceChance then Draws.IntRange(range.lo, range.hi + 1, u3)
                   else field + Truncate(perturbation);
      Clamp(moved, range.lo, range.hi)
  }

  // ---------------------------------------------------------------------
  // Sensory and motor term sets

  function UnstackTerm(b: string): Term
  {
    Statement(Compound(Product, [SelfTerm, Atom(b)]), Inheritance, Atom("UNSTACK"))
  }

  function StackTerm(top: string, bottom: string): Term
  {
    Statement(Compound(Product, [SelfTerm, Atom(top), Atom(bottom)]), Inheritance, Atom("STACK"))
  }

  /** The motor terms added for block i: unstack i, then stack i on j and j on i for each j below i. */
  function MotorRow(i: nat, j: nat): (ts: seq<Term>)
    requires i <= Blocks.MaxBlockIndex && j <= i
    ensures |ts| == 2 * j
    decreases j
  {
    if j == 0 then []
    else MotorRow(i, j - 1) + [StackTerm(Blocks.BlockName(i), Blocks.BlockName(j - 1)),
                               StackTerm(Blocks.BlockName(j - 1), Blocks.BlockName(i))]
  }

  /** The sensory terms added for block i and each j below it: i on j, then j on i. */
  function SensoryRow(i: nat, j: nat): (ts: seq<Term>)
    requires i <= Blocks.MaxBlockIndex && j <= i
    ensures |ts| == 2 * j
    decreases j
  {
    if j == 0 then []
    else SensoryRow(i, j - 1) + [Blocks.OnTerm(Blocks.BlockName(i), Blocks.BlockName(j - 1)),
                                 Blocks.OnTerm(Blocks.BlockName(j - 1), Blocks.BlockName(i))]
  }

  /** MOTOR_TERM_SET for n blocks, in the order the genome builds it. */
  function MotorTerms(n: nat): seq<Term>
    requires n <= Blocks.MaxBlockIndex + 1
  {
    if n == 0 then []
    else MotorTerms(n - 1) + [UnstackTerm(Blocks.BlockName(n - 1))] + MotorRow(n - 1, n - 1)
  }

  /** SENSORY_TERM_SET for n blocks, in the order the genome builds it. */
  function SensoryTerms(n: nat): seq<Term>
    requires n <= Blocks.MaxBlockIndex + 1
  {
    if n == 0 then []
    else SensoryTerms(n - 1)
         + [Blocks.ClearTerm(Blocks.BlockName(n - 1)), Blocks.OnTableTerm(Blocks.BlockName(n - 1))]
         + SensoryRow(n - 1, n - 1)
  }

  /** n blocks give n unstack and n(n-1) stack operations, n * n in all. */
  lemma {:induction false} MotorTermsCount(n: nat)
    requires n <= Blocks.MaxBlockIndex + 1
    ensures |MotorTerms(n)| == n * n
  {
    if n > 0 {
      MotorTermsCount(n - 1);
      assert |MotorTerms(n)| == (n - 1) * (n - 1) + 1 + 2 * (n - 1);
    }
  }

  /** n blocks give 2n single-block facts and n(n-1) On facts. */
  lemma {:induction false} SensoryTermsCount(n: nat)
    requires n <= Blocks.MaxBlockIndex + 1
    ensures |SensoryTerms(n)| == n * n + n
  {
    if n > 0 {
      SensoryTermsCount(n - 1);
      assert |SensoryTerms(n)| == (n - 1) * (n - 1) + (n - 1) + 2 + 2 * (n - 1);
    }
  }

  /**
    A motor term is an operation: STACK of two block atoms or UNSTACK of one,
    the product's first element being {SELF}.
  */
  predicate MotorShaped(t: Term)
  {
    IsOp(t) && t.predicateTerm.Atom?
    && ((t.predicateTerm.name == "STACK" && |t.subject.subterms| == 3
         && t.subject.subterms[1].Atom? && t.subject.subterms[2].Atom?)
        || (t.predicateTerm.name == "UNSTACK" && |t.subject.subterms| == 2 && t.subject.subterms[1].Atom?))
  }

  lemma {:induction false} MotorRowShaped(i: nat, j: nat)
    requires i <= Blocks.MaxBlockIndex && j <= i
    ensures forall k :: 0 <= k < |MotorRow(i, j)| ==> MotorShaped(MotorRow(i, j)[k])
    decreases j
  {
    if j > 0 {
      MotorRowShaped(i, j - 1);
    }
  }

  /** Every motor term is a well-shaped STACK or UNSTACK operation. */
  lemma {:induction false} MotorTermsShaped(n: nat)
    requires n <= Blocks.MaxBlockIndex + 1
    ensures forall k :: 0 <= k < |MotorTerms(n)| ==> MotorShaped(MotorTerms(n)[k])
  {
    if n > 0 {
      MotorTermsShaped(n - 1);
      MotorRowShaped(n - 1, n - 1);
    }
  }

  // ---------------------------------------------------------------------
  // Random index choices

  /** The indices in [0, n) outside banned, in increasing order. */
  function Allowed(n: nat, banned: set<int>): (s: seq<int>)
    ensures |s| <= n
    ensures forall k :: 0 <= k < |s| ==> 0 <= s[k] < n && s[k] !in banned
  {
    if n == 0 then [] else Allowed(n - 1, banned) + (if n - 1 in banned then [] else [n - 1])
  }

  /** The banned indices inside [0, n). */
  function BannedBelow(banned: set<int>, n: nat): set<int>
  {
    set x | x in banned && 0 <= x < n
  }

  /** A set of indices already inside [0, n) is its own part below n. */
  lemma BannedBelowInside(banned: set<int>, n: nat)
    requires forall x :: x in banned ==> 0 <= x < n
    ensures BannedBelow(banned, n) == banned
  {
  }

  /** Every index in [0, n) is either allowed or banned, never both. */
  lemma {:induction false} AllowedCount(n: nat, banned: set<int>)
    ensures |Allowed(n, banned)| + |BannedBelow(banned, n)| == n
  {
    if n > 0 {
      AllowedCount(n - 1, banned);
      if n - 1 in banned {
        assert BannedBelow(banned, n) == BannedBelow(banned, n - 1) + {n - 1};
      } else {
        assert BannedBelow(banned, n) == BannedBelow(banned, n - 1);
      }
    }
  }

  /** The allowed indices below m are a prefix of those below n. */
  lemma {:induction false} AllowedPrefix(m: nat, n: nat, banned: set<int>)
    requires m <= n
    ensures |Allowed(m, banned)| <= |Allowed(n, banned)|
    ensures Allowed(n, banned)[..|Allowed(m, banned)|] == Allowed(m, banned)
    decreases n - m
  {
    if m < n {
      AllowedPrefix(m, n - 1, banned);
    }
  }

  /** The skip indices that name a position of a collection of count elements. */
  method BannedIndices(count: nat, skips: seq<int>) returns (banned: set<int>)
    ensures banned == BannedBelow((set x | x in skips), count)
  {
    banned := {};
    var i := 0;
    while i < |skips|
      invariant 0 <= i <= |skips|
      invariant banned == BannedBelow((set x | x in skips[..i]), count)
    {
      assert skips[..i + 1] == skips[..i] + [skips[i]];
      if 0 <= skips[i] < count {
        banned := banned + {skips[i]};
      }
      i := i + 1;
    }
    assert skips[..i] == skips;
  }

  /**
    A random index of a collection of count elements avoiding the listed
    indices (null and empty alike mean none): None where the source throws,
    on an empty collection or when every index is skipped; otherwise the
    draw picks a position among the allowed indices and the walk returns the
    allowed index at that position.
  */
  method GetRandomIndexSkippingAll(count: int, skips: seq<int>, u: real) returns (r: Option<int>)
    requires Draws.IsUnit(u)
    ensures count <= 0 ==> r == None
    ensures count > 0 && skips == [] ==> r == Some(Draws.IndexFromDraw(u, count))
    ensures count > 0 && skips != [] ==>
      var banned := BannedBelow((set x | x in skips), count);
      if |banned| >= count then r == None
      else |Allowed(count, banned)| == count - |banned|
           && r == Some(Allowed(count, banned)[Draws.IndexFromDraw(u, count - |banned|)])
    ensures r.Some? ==> 0 <= r.value < count && r.value !in skips
  {
    if count <= 0 {
      return None;
    }
    if skips == [] {
      return Some(Draws.IndexFromDraw(u, count));
    }
    var banned := BannedIndices(count, skips);
    if |banned| >= count {
      return None;
    }
    AllowedCount(count, banned);
    BannedBelowInside(banned, count);
    var allowed := Allowed(count, banned);
    assert |allowed| == count - |banned|;
    var target := Draws.IndexFromDraw(u, count - |banned|);
    var pos := target;
    var i := 0;
    while i < count && (i in banned || pos != 0)
      invariant 0 <= i <= count && 0 <= pos
      invariant pos + |Allowed(i, banned)| == target
      decreases count - i
    {
      if i !in banned {
        pos := pos - 1;
      }
      i := i + 1;
    }
    AllowedPrefix(i, count, banned);
    assert i < count;
    AllowedPrefix(i + 1, count, banned);
    assert Allowed(i + 1, banned) == Allowed(i, banned) + [i];
    assert allowed[target] == Allowed(i + 1, banned)[target];
    r := Some(i);
    assert r.value !in skips by {
      assert i !in banned;
    }
  }

  /**
    A random index of a collection of count elements avoiding one index:
    None on an empty collection; a plain draw when skip names no element or
    the collection has one element; otherwise a draw among count - 1
    positions shifted up past skip.
  */
  function GetRandomIndexSkipping(count: int, skip: int, u: real): (r: Option<int>)
    requires Draws.IsUnit(u)
    ensures count <= 0 <==> r == None
    ensures r.Some? ==> 0 <= r.value < count
    ensures r.Some? && 0 <= skip < count && count > 1 ==> r.value != skip
  {
    if count <= 0 then None
    else if skip < 0 || skip >= count || count == 1 then Some(Draws.IndexFromDraw(u, count))
    else
      Some(ShiftPast(Draws.IndexFromDraw(u, count - 1), skip))
  }

  /** The index a position among count - 1 stands for once skip is left out. */
  function ShiftPast(p: int, skip: int): int
  {
    if p >= skip then p + 1 else p
  }

  // ---------------------------------------------------------------------
  // Beliefs

  /** An evolved belief: a statement and its evidential value. */
  datatype EvolvableSentence = EvolvableSentence(statement: Term, evidence: EvidentialValue)

  /** A belief built from a statement and a (frequency, confidence) pair. */
  function MakeEvolvable(statement: Term, f: real, c: real): (b: EvolvableSentence)
    ensures b.statement == statement && b.evidence == MakeValue(f, c)
  {
    EvolvableSentence(statement, MakeValue(f, c))
  }

  /** The statement strings of a list of beliefs. */
  function KeySet(show: Term -> string, bs: seq<EvolvableSentence>): set<string>
  {
    set b | b in bs :: show(b.statement)
  }

  /** No two beliefs share a statement string. */
  predicate UniqueKeys(show: Term -> string, bs: seq<EvolvableSentence>)
  {
    forall i, j :: 0 <= i < j < |bs| ==> show(bs[i].statement) != show(bs[j].statement)
  }

  lemma KeySetSnoc(show: Term -> string, bs: seq<EvolvableSentence>, b: EvolvableSentence)
    ensures KeySet(show, bs + [b]) == KeySet(show, bs) + {show(b.statement)}
  {
    assert forall x :: x in bs + [b] <==> x in bs || x == b;
  }

  /** Adding a belief whose string is new keeps the strings unique. */
  lemma UniqueSnoc(show: Term -> string, bs: seq<EvolvableSentence>, b: EvolvableSentence)
    requires UniqueKeys(show, bs) && show(b.statement) !in KeySet(show, bs)
    ensures UniqueKeys(show, bs + [b])
  {
    forall i, j | 0 <= i < j < |bs + [b]| ensures show((bs + [b])[i].statement) != show((bs + [b])[j].statement) {
      assert (bs + [b])[i] == bs[i];
      if j < |bs| {
        assert (bs + [b])[j] == bs[j];
      } else {
        assert bs[i] in bs;
      }
    }
  }

  /** Removing the belief at i removes exactly its string, since no other belief has it. */
  lemma RemoveAtKeys(show: Term -> string, bs: seq<EvolvableSentence>, i: nat)
    requires UniqueKeys(show, bs) && i < |bs|
    ensures KeySet(show, bs[..i] + bs[i + 1..]) == KeySet(show, bs) - {show(bs[i].statement)}
    ensures UniqueKeys(show, bs[..i] + bs[i + 1..])
  {
    var rest := bs[..i] + bs[i + 1..];
    RemoveAtElements(bs, i, rest);
    RemoveAtUnique(show, bs, i);
    forall x | x in KeySet(show, bs) - {show(bs[i].statement)} ensures x in KeySet(show, rest) {
      var b :| b in bs && show(b.statement) == x;
      var k :| 0 <= k < |bs| && bs[k] == b;
      assert rest[if k < i then k else k - 1] == b;
    }
    forall x | x in KeySet(show, rest) ensures x in KeySet(show, bs) - {show(bs[i].statement)} {
      var b :| b in rest && show(b.statement) == x;
      var k :| 0 <= k < |rest| && rest[k] == b;
      assert b == bs[if k < i then k else k + 1];
    }
  }

  /** Where each remaining belief sits once the belief at i is removed. */
  lemma RemoveAtElements<T>(bs: seq<T>, i: nat, rest: seq<T>)
    requires i < |bs| && rest == bs[..i] + bs[i + 1..]
    ensures |rest| == |bs| - 1
    ensures forall k :: 0 <= k < |rest| ==> rest[k] == bs[if k < i then k else k + 1]
  {
  }

  lemma RemoveAtUnique(show: Term -> string, bs: seq<EvolvableSentence>, i: nat)
    requires UniqueKeys(show, bs) && i < |bs|
    ensures UniqueKeys(show, bs[..i] + bs[i + 1..])
  {
    RemoveAtElements(bs, i, bs[..i] + bs[i + 1..]);
  }

  /** With unique strings the last belief's string is not among those before it. */
  lemma LastKeyNew(show: Term -> string, bs: seq<EvolvableSentence>)
    requires UniqueKeys(show, bs) && bs != []
    ensures show(bs[|bs| - 1].statement) !in KeySet(show, bs[..|bs| - 1])
  {
    var init := bs[..|bs| - 1];
    forall b | b in init ensures show(b.statement) != show(bs[|bs| - 1].statement) {
      var k :| 0 <= k < |init| && init[k] == b;
      assert bs[k] == b;
    }
  }

  /** With unique strings there are as many strings as beliefs. */
  lemma {:induction false} KeyCount(show: Term -> string, bs: seq<EvolvableSentence>)
    requires UniqueKeys(show, bs)
    ensures |KeySet(show, bs)| == |bs|
  {
    if bs != [] {
      var init := bs[..|bs| - 1];
      var last := bs[|bs| - 1];
      assert bs == init + [last];
      assert UniqueKeys(show, init);
      KeyCount(show, init);
      KeySetSnoc(show, init, last);
      LastKeyNew(show, bs);
    }
  }

  /** The number of beliefs whose string is not among keys. */
  function Missing(show: Term -> string, bs: seq<EvolvableSentence>, keys: set<string>): (n: nat)
    ensures n <= |bs|
  {
    if bs == [] then 0
    else Missing(show, bs[..|bs| - 1], keys) + (if show(bs[|bs| - 1].statement) in keys then 0 else 1)
  }

  /** For beliefs with unique strings, the missing count is the number of their strings outside keys. */
  lemma {:induction false} MissingIsDifference(show: Term -> string, bs: seq<EvolvableSentence>, keys: set<string>)
    requires UniqueKeys(show, bs)
    ensures Missing(show, bs, keys) == |KeySet(show, bs) - keys|
  {
    if bs != [] {
      var init := bs[..|bs| - 1];
      var last := bs[|bs| - 1];
      assert bs == init + [last];
      UniqueInit(show, bs);
      MissingIsDifference(show, init, keys);
      KeySetSnoc(show, init, last);
      LastKeyNew(show, bs);
      DifferenceAdd(KeySet(show, init), show(last.statement), keys);
    }
  }

  lemma UniqueInit(show: Term -> string, bs: seq<EvolvableSentence>)
    requires UniqueKeys(show, bs) && bs != []
    ensures UniqueKeys(show, bs[..|bs| - 1])
  {
  }

  lemma DifferenceAdd(a: set<string>, x: string, keys: set<string>)
    requires x !in a
    ensures |(a + {x}) - keys| == |a - keys| + (if x in keys then 0 else 1)
  {
    if x in keys {
      assert (a + {x}) - keys == a - keys;
    } else {
      assert (a + {x}) - keys == (a - keys) + {x};
    }
  }

  /** The distance between two belief lists with unique strings and their key sets. */
  function Distance(show: Term -> string, a: seq<EvolvableSentence>, aKeys: set<string>,
                    b: seq<EvolvableSentence>, bKeys: set<string>): nat
  {
    Missing(show, a, bKeys) + Missing(show, b, aKeys)
  }

  /**
    For consistent genomes the Hamming distance is the size of the
    symmetric difference of their statement-string sets: symmetric, and
    zero exactly when both hold the same strings.
  */
  lemma DistanceIsSymmetricDifference(show: Term -> string, a: seq<EvolvableSentence>, b: seq<EvolvableSentence>)
    requires UniqueKeys(show, a) && UniqueKeys(show, b)
    ensures Distance(show, a, KeySet(show, a), b, KeySet(show, b))
            == |KeySet(show, a) - KeySet(show, b)| + |KeySet(show, b) - KeySet(show, a)|
    ensures Distance(show, a, KeySet(show, a), b, KeySet(show, b)) == Distance(show, b, KeySet(show, b), a, KeySet(show, a))
    ensures Distance(show, a, KeySet(show, a), b, KeySet(show, b)) == 0 <==> KeySet(show, a) == KeySet(show, b)
  {
    MissingIsDifference(show, a, KeySet(show, b));
    MissingIsDifference(show, b, KeySet(show, a));
    if KeySet(show, a) != KeySet(show, b) {
      if x :| x in KeySet(show, a) && x !in KeySet(show, b) {
        assert x in KeySet(show, a) - KeySet(show, b);
      } else {
        var y :| y in KeySet(show, b) && y !in KeySet(show, a);
        assert y in KeySet(show, b) - KeySet(show, a);
      }
    }
  }

  /** The beliefs after AddNewBelief: unchanged when the string is already present, else extended. */
  function Admit(show: Term -> string, bs: seq<EvolvableSentence>, b: EvolvableSentence): seq<EvolvableSentence>
  {
    if show(b.statement) in KeySet(show, bs) then bs else bs + [b]
  }

  /** The beliefs after offering each of a list in turn, from no beliefs. */
  function AdmitAll(show: Term -> string, offered: seq<EvolvableSentence>): seq<EvolvableSentence>
  {
    if offered == [] then []
    else Admit(show, AdmitAll(show, offered[..|offered| - 1]), offered[|offered| - 1])
  }

  /** Offering beliefs one by one keeps unique strings, and exactly the offered strings are kept. */
  lemma {:induction false} AdmitAllKeys(show: Term -> string, offered: seq<EvolvableSentence>)
    ensures UniqueKeys(show, AdmitAll(show, offered))
    ensures KeySet(show, AdmitAll(show, offered)) == KeySet(show, offered)
  {
    if offered != [] {
      var init := offered[..|offered| - 1];
      var last := offered[|offered| - 1];
      assert offered == init + [last];
      AdmitAllKeys(show, init);
      KeySetSnoc(show, init, last);
      var kept := AdmitAll(show, init);
      if show(last.statement) !in KeySet(show, kept) {
        UniqueSnoc(show, kept, last);
        KeySetSnoc(show, kept, last);
      }
    }
  }

  /** Whether draw u sends the first parent's belief (or parameter) to the first offspring (first) or to the second. */
  function FromFirstParent(u: real, first: bool): bool
    requires Draws.IsUnit(u)
  {
    (Draws.IntRange(0, 2, u) == 0) == first
  }

  /** The parent that gives to one offspring under draw u. */
  function Donor<T>(p1: T, p2: T, u: real, first: bool): T
    requires Draws.IsUnit(u)
  {
    if FromFirstParent(u, first) then p1 else p2
  }

  /** The element step j adds to a prefix, if s has one there. */
  function At<T>(s: seq<T>, j: nat): seq<T>
  {
    if j < |s| then [s[j]] else []
  }

  /**
    The beliefs offered to one offspring in the first n crossover steps:
    step j offers belief j of the parent the draw sends to this offspring,
    when that parent has a belief j.
  */
  function Offered(p1: seq<EvolvableSentence>, p2: seq<EvolvableSentence>, picks: seq<real>, n: nat, first: bool): seq<EvolvableSentence>
    requires n <= |picks| && forall k :: 0 <= k < |picks| ==> Draws.IsUnit(picks[k])
  {
    if n == 0 then []
    else Offered(p1, p2, picks, n - 1, first) + At(Donor(p1, p2, picks[n - 1], first), n - 1)
  }

  /** The first n elements of s, or all of s when it is shorter. */
  function Upto<T>(s: seq<T>, n: nat): seq<T>
  {
    if n < |s| then s[..n] else s
  }

  lemma UptoStep<T>(s: seq<T>, n: nat)
    requires n > 0
    ensures Upto(s, n) == Upto(s, n - 1) + At(s, n - 1)
  {
    if n - 1 < |s| {
      assert s[..n] == s[..n - 1] + [s[n - 1]];
    }
  }

  lemma Regroup<T>(a: seq<T>, b: seq<T>, x: seq<T>, y: seq<T>, u: seq<T>, v: seq<T>, p: seq<T>, q: seq<T>)
    requires multiset(a) + multiset(b) == multiset(u) + multiset(v)
    requires multiset(x) + multiset(y) == multiset(p) + multiset(q)
    ensures multiset(a + x) + multiset(b + y) == multiset(u + p) + multiset(v + q)
  {
    calc {
      multiset(a + x) + multiset(b + y);
    ==
      (multiset(a) + multiset(b)) + (multiset(x) + multiset(y));
    ==
      (multiset(u) + multiset(v)) + (multiset(p) + multiset(q));
    ==
      multiset(u + p) + multiset(v + q);
    }
  }

  /** Under any draw the two offspring's donors are the two parents. */
  lemma DonorsPair<T>(p1: seq<T>, p2: seq<T>, u: real, j: nat)
    requires Draws.IsUnit(u)
    ensures multiset(At(Donor(p1, p2, u, true), j)) + multiset(At(Donor(p1, p2, u, false), j))
            == multiset(At(p1, j)) + multiset(At(p2, j))
  {
  }

  /** Between them the two offspring are offered every belief of both parents, each exactly once. */
  lemma {:induction false} OfferedPartition(p1: seq<EvolvableSentence>, p2: seq<EvolvableSentence>, picks: seq<real>, n: nat)
    requires n <= |picks| && forall k :: 0 <= k < |picks| ==> Draws.IsUnit(picks[k])
    ensures multiset(Offered(p1, p2, picks, n, true)) + multiset(Offered(p1, p2, picks, n, false))
            == multiset(Upto(p1, n)) + multiset(Upto(p2, n))
  {
    if n > 0 {
      OfferedPartition(p1, p2, picks, n - 1);
      UptoStep(p1, n);
      UptoStep(p2, n);
      var a, b := Offered(p1, p2, picks, n - 1, true), Offered(p1, p2, picks, n - 1, false);
      var x, y := At(Donor(p1, p2, picks[n - 1], true), n - 1), At(Donor(p1, p2, picks[n - 1], false), n - 1);
      DonorsPair(p1, p2, picks[n - 1], n - 1);
      Regroup(a, b, x, y, Upto(p1, n - 1), Upto(p2, n - 1), At(p1, n - 1), At(p2, n - 1));
    }
  }

  /**
    An offspring's personality after the first n crossover steps: step i
    copies parameter i from the parent the draw sends to this offspring.
  */
  function Crossed(base: Personality, p1: Personality, p2: Personality, picks: seq<real>, n: nat, first: bool): Personality
    requires n <= |picks| && forall k :: 0 <= k < |picks| ==> Draws.IsUnit(picks[k])
  {
    if n == 0 then base
    else
      var i := n - 1;
      Crossed(base, p1, p2, picks, i, first).Set(i, Donor(p1, p2, picks[i], first).Get(i))
  }

  /**
    After n crossover steps, each parameter below n comes from the parent
    the draw chose for this offspring, and the others are the base's.
  */
  lemma {:induction false} CrossedParameters(base: Personality, p1: Personality, p2: Personality, picks: seq<real>, n: nat, first: bool)
    requires n <= ParameterCount && n <= |picks| && forall k :: 0 <= k < |picks| ==> Draws.IsUnit(picks[k])
    ensures forall i :: 0 <= i < n ==>
      Crossed(base, p1, p2, picks, n, first).Get(i) == Donor(p1, p2, picks[i], first).Get(i)
    ensures forall i :: n <= i < ParameterCount ==> Crossed(base, p1, p2, picks, n, first).Get(i) == base.Get(i)
  {
    if n > 0 {
      var i := n - 1;
      CrossedParameters(base, p1, p2, picks, i, first);
      SetFromGet(Crossed(base, p1, p2, picks, i, first), Donor(p1, p2, picks[i], first), i);
    }
  }

  /** A full crossover gives the two offspring complementary parents' values for every parameter. */
  lemma CrossoverComplementary(base1: Personality, base2: Personality, p1: Personality, p2: Personality, picks: seq<real>)
    requires ParameterCount <= |picks| && forall k :: 0 <= k < |picks| ==> Draws.IsUnit(picks[k])
    ensures forall i :: 0 <= i < ParameterCount ==>
      var o1 := Crossed(base1, p1, p2, picks, ParameterCount, true).Get(i);
      var o2 := Crossed(base2, p1, p2, picks, ParameterCount, false).Get(i);
      (o1 == p1.Get(i) && o2 == p2.Get(i)) || (o1 == p2.Get(i) && o2 == p1.Get(i))
  {
    CrossedParameters(base1, p1, p2, picks, ParameterCount, true);
    CrossedParameters(base2, p1, p2, picks, ParameterCount, false);
  }

  class Genome {
    /** The statement string of a term, its ToString. */
    const show: Term -> string
    var beliefs: seq<EvolvableSentence>
    var keys: set<string>
    var personality: Personality

    /** The key set holds exactly the beliefs' strings, and no string is repeated. */
    predicate Valid()
      reads this`beliefs, this`keys
    {
      UniqueKeys(show, beliefs) && keys == KeySet(show, beliefs)
    }

    /** A genome with no beliefs, as a new genome is after its lists are cleared. */
    constructor(show: Term -> string, personality: Personality)
      ensures Valid() && this.show == show && beliefs == [] && keys == {} && this.personality == personality
    {
      this.show := show;
      beliefs := [];
      keys := {};
      this.personality := personality;
    }

    /** Adds a belief only when its statement string is new; the source's unused frequency draw is not modelled. */
    method AddNewBelief(b: EvolvableSentence)
      requires Valid()
      modifies this`beliefs, this`keys
      ensures Valid()
      ensures beliefs == Admit(show, old(beliefs), b)
      ensures show(b.statement) in old(keys) ==> beliefs == old(beliefs) && keys == old(keys)
      ensures show(b.statement) !in old(keys) ==>
                beliefs == old(beliefs) + [b] && keys == old(keys) + {show(b.statement)}
    {
      var key := show(b.statement);
      if key !in keys {
        UniqueSnoc(show, beliefs, b);
        KeySetSnoc(show, beliefs, b);
        beliefs := beliefs + [b];
        keys := keys + {key};
      }
    }

    /** Removes the belief at a drawn index and its string; nothing happens without beliefs. */
    method RemoveRandomBelief(u: real)
      requires Valid() && Draws.IsUnit(u)
      modifies this`beliefs, this`keys
      ensures Valid()
      ensures old(beliefs) == [] ==> beliefs == [] && keys == old(keys)
      ensures old(beliefs) != [] ==>
        var i := Draws.IndexFromDraw(u, |old(beliefs)|);
        beliefs == old(beliefs)[..i] + old(beliefs)[i + 1..]
        && keys == old(keys) - {show(old(beliefs)[i].statement)}
        && |beliefs| == |old(beliefs)| - 1 && |keys| == |old(keys)| - 1
    {
      if |beliefs| == 0 {
        return;
      }
      var i := Draws.IndexFromDraw(u, |beliefs|);
      var belief := beliefs[i];
      RemoveAtKeys(show, beliefs, i);
      KeyCount(show, beliefs);
      KeyCount(show, beliefs[..i] + beliefs[i + 1..]);
      beliefs := beliefs[..i] + beliefs[i + 1..];
      keys := keys - {show(belief.statement)};
    }

    /** Counts the beliefs of each genome whose string the other genome lacks. */
    method CalculateHammingDistance(other: Genome) returns (distance: real)
      ensures distance == Distance(show, beliefs, keys, other.beliefs, other.keys) as real
      ensures Valid() && other.Valid() && other.show == show ==>
        distance == (|keys - other.keys| + |other.keys - keys|) as real
    {
      var mine, theirs := beliefs, other.beliefs;
      var myKeys, theirKeys := keys, other.keys;
      var count := 0;
      var i := 0;
      while i < |mine|
        invariant 0 <= i <= |mine|
        invariant count == Missing(show, mine[..i], theirKeys)
      {
        assert mine[..i + 1][..i] == mine[..i];
        if show(mine[i].statement) !in theirKeys {
          count := count + 1;
        }
        i := i + 1;
      }
      assert mine[..i] == mine;
      var j := 0;
      while j < |theirs|
        invariant 0 <= j <= |theirs|
        invariant count == Missing(show, mine, theirKeys) + Missing(show, theirs[..j], myKeys)
      {
        assert theirs[..j + 1][..j] == theirs[..j];
        if show(theirs[j].statement) !in myKeys {
          count := count + 1;
        }
        j := j + 1;
      }
      assert theirs[..j] == theirs;
      distance := count as real;
      if Valid() && other.Valid() && other.show == show {
        DistanceIsSymmetricDifference(show, mine, theirs);
      }
    }

    /**
      Two offspring from this genome and a second parent. Under a mode (the
      static evolution type, a parameter here) that
      evolves contingencies, step i offers belief i of one parent to the
      first offspring and of the other to the second, as draw picks[i]
      decides; under a mode that evolves the personality, parameter i is
      crossed the same way by draw traitPicks[i]. The offspring start from
      the personalities a fresh genome gets.
    */
    method Reproduce(parent2: Genome, mode: EvolutionType, picks: seq<real>, traitPicks: seq<real>, fresh1: Personality, fresh2: Personality)
      returns (offspring1: Genome, offspring2: Genome)
      requires Valid() && parent2.Valid() && parent2.show == show
      requires |picks| >= |beliefs| && |picks| >= |parent2.beliefs|
      requires forall k :: 0 <= k < |picks| ==> Draws.IsUnit(picks[k])
      requires |traitPicks| >= ParameterCount && forall k :: 0 <= k < |traitPicks| ==> Draws.IsUnit(traitPicks[k])
      ensures fresh(offspring1) && fresh(offspring2) && offspring1 != offspring2
      ensures offspring1.Valid() && offspring2.Valid() && offspring1.show == show && offspring2.show == show
      ensures var n := if |beliefs| < |parent2.beliefs| then |parent2.beliefs| else |beliefs|;
        if UseAndEvolveContingencies(mode) then
          offspring1.beliefs == AdmitAll(show, Offered(beliefs, parent2.beliefs, picks, n, true))
          && offspring2.beliefs == AdmitAll(show, Offered(beliefs, parent2.beliefs, picks, n, false))
        else offspring1.beliefs == [] && offspring2.beliefs == []
      ensures if EvolvePersonality(mode) then
          offspring1.personality == Crossed(fresh1, personality, parent2.personality, traitPicks, ParameterCount, true)
          && offspring2.personality == Crossed(fresh2, personality, parent2.personality, traitPicks, ParameterCount, false)
        else offspring1.personality == fresh1 && offspring2.personality == fresh2
    {
      var b1, b2 := beliefs, parent2.beliefs;
      var q1, q2 := personality, parent2.personality;
      var n := if |b1| < |b2| then |b2| else |b1|;
      offspring1 := new Genome(show, fresh1);
      offspring2 := new Genome(show, fresh2);
      if UseAndEvolveContingencies(mode) {
        CrossBeliefs(offspring1, offspring2, b1, b2, picks, n);
      }
      if EvolvePersonality(mode) {
        CrossPersonalities(offspring1, offspring2, q1, q2, traitPicks);
      }
    }
  }

  /** The belief crossover loop of Reproduce, over two distinct empty offspring. */
  method CrossBeliefs(o1: Genome, o2: Genome, b1: seq<EvolvableSentence>, b2: seq<EvolvableSentence>, picks: seq<real>, n: nat)
    requires o1 != o2 && o1.Valid() && o2.Valid() && o1.show == o2.show && o1.beliefs == [] && o2.beliefs == []
    requires n <= |picks| && forall k :: 0 <= k < |picks| ==> Draws.IsUnit(picks[k])
    modifies o1`beliefs, o1`keys, o2`beliefs, o2`keys
    ensures o1.Valid() && o2.Valid()
    ensures o1.beliefs == AdmitAll(o1.show, Offered(b1, b2, picks, n, true))
    ensures o2.beliefs == AdmitAll(o2.show, Offered(b1, b2, picks, n, false))
  {
    var i := 0;
    while i < n
      invariant 0 <= i <= n
      invariant CrossedSoFar(o1, b1, b2, picks, i, true) && CrossedSoFar(o2, b1, b2, picks, i, false)
    {
      CrossStep(o1, o2, b1, b2, picks, i);
      i := i + 1;
    }
    assert i == n;
  }

  /** An offspring after i crossover steps: valid, holding the admitted offers of steps below i. */
  ghost predicate CrossedSoFar(o: Genome, b1: seq<EvolvableSentence>, b2: seq<EvolvableSentence>, picks: seq<real>, i: nat, first: bool)
    requires i <= |picks| && forall k :: 0 <= k < |picks| ==> Draws.IsUnit(picks[k])
    reads o`beliefs, o`keys
  {
    o.Valid() && o.beliefs == AdmitAll(o.show, Offered(b1, b2, picks, i, first))
  }

  /** Step i of the belief crossover: draw picks[i] decides which parent donates to which offspring. */
  method CrossStep(o1: Genome, o2: Genome, b1: seq<EvolvableSentence>, b2: seq<EvolvableSentence>, picks: seq<real>, i: nat)
    requires o1 != o2 && i < |picks| && forall k :: 0 <= k < |picks| ==> Draws.IsUnit(picks[k])
    requires CrossedSoFar(o1, b1, b2, picks, i, true) && CrossedSoFar(o2, b1, b2, picks, i, false)
    modifies o1`beliefs, o1`keys, o2`beliefs, o2`keys
    ensures CrossedSoFar(o1, b1, b2, picks, i + 1, true) && CrossedSoFar(o2, b1, b2, picks, i + 1, false)
  {
    var rnd := Draws.IntRange(0, 2, picks[i]);
    if rnd == 0 {
      Offer(o1, b1, b2, picks, i, true, b1);
      Offer(o2, b1, b2, picks, i, false, b2);
    } else {
      Offer(o1, b1, b2, picks, i, true, b2);
      Offer(o2, b1, b2, picks, i, false, b1);
    }
  }

  /** One offspring's half of crossover step i: belief i of its donor, when the donor has one, goes to AddNewBelief. */
  method Offer(o: Genome, b1: seq<EvolvableSentence>, b2: seq<EvolvableSentence>, picks: seq<real>, i: nat, first: bool,
               from: seq<EvolvableSentence>)
    requires i < |picks| && forall k :: 0 <= k < |picks| ==> Draws.IsUnit(picks[k])
    requires from == Donor(b1, b2, picks[i], first)
    requires o.Valid() && o.beliefs == AdmitAll(o.show, Offered(b1, b2, picks, i, first))
    modifies o`beliefs, o`keys
    ensures o.Valid() && o.beliefs == AdmitAll(o.show, Offered(b1, b2, picks, i + 1, first))
  {
    OfferedStep(o.show, b1, b2, picks, i, first);
    if i < |from| {
      o.AddNewBelief(from[i]);
    }
  }

  /** The personality crossover loop of Reproduce. */
  method CrossPersonalities(o1: Genome, o2: Genome, q1: Personality, q2: Personality, traitPicks: seq<real>)
    requires o1 != o2
    requires ParameterCount <= |traitPicks| && forall k :: 0 <= k < |traitPicks| ==> Draws.IsUnit(traitPicks[k])
    modifies o1`personality, o2`personality
    ensures o1.personality == Crossed(old(o1.personality), q1, q2, traitPicks, ParameterCount, true)
    ensures o2.personality == Crossed(old(o2.personality), q1, q2, traitPicks, ParameterCount, false)
  {
    var base1, base2 := o1.personality, o2.personality;
    var i := 0;
    while i < ParameterCount
      invariant 0 <= i <= ParameterCount
      invariant o1.personality == Crossed(base1, q1, q2, traitPicks, i, true)
      invariant o2.personality == Crossed(base2, q1, q2, traitPicks, i, false)
    {
      var rnd := Draws.IntRange(0, 2, traitPicks[i]);
      if rnd == 0 {
        o1.personality := o1.personality.Set(i, q1.Get(i));
        o2.personality := o2.personality.Set(i, q2.Get(i));
      } else {
        o1.personality := o1.personality.Set(i, q2.Get(i));
        o2.personality := o2.personality.Set(i, q1.Get(i));
      }
      i := i + 1;
    }
  }

  /** One crossover step in terms of Admit: the offspring's beliefs grow by the offered belief, if any. */
  lemma OfferedStep(show: Term -> string, p1: seq<EvolvableSentence>, p2: seq<EvolvableSentence>, picks: seq<real>, i: nat, first: bool)
    requires i < |picks| && forall k :: 0 <= k < |picks| ==> Draws.IsUnit(picks[k])
    ensures var from := Donor(p1, p2, picks[i], first);
      AdmitAll(show, Offered(p1, p2, picks, i + 1, first))
      == if i < |from| then Admit(show, AdmitAll(show, Offered(p1, p2, picks, i, first)), from[i])
         else AdmitAll(show, Offered(p1, p2, picks, i, first))
  {
    var from := Donor(p1, p2, picks[i], first);
    var o := Offered(p1, p2, picks, i, first);
    if i < |from| {
      assert Offered(p1, p2, picks, i + 1, first) == o + [from[i]];
      assert (o + [from[i]])[..|o + [from[i]]| - 1] == o;
    } else {
      assert Offered(p1, p2, picks, i + 1, first) == o;
    }
  }
}
