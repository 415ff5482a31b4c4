/*
  Evidential values <frequency, confidence> of the NARS grammar.
  Single-precision floats are modelled as reals; the clamping constants
  are the decimal literals the constructor writes.
*/
module Values {

  /** Largest confidence the constructor stores. */
  const MaxConfidence: real := 0.9999
  /** Smallest confidence the constructor stores. */
  const MinConfidence: real := 0.0001

  datatype EvidentialValue = EvidentialValue(frequency: real, confidence: real)

  /** A confidence the constructor keeps as given: strictly inside (0, 1). */
  predicate ConfidenceInRange(c: real)
  {
    0.0 < c < 1.0
  }

  /**
    The struct constructor: a confidence of 1 or more becomes 0.9999, one of
    0 or less becomes 0.0001, anything else and the frequency are kept.
  */
  function MakeValue(frequency: real, confidence: real): (v: EvidentialValue)
    ensures v.frequency == frequency
    ensures ConfidenceInRange(v.confidence)
    ensures ConfidenceInRange(confidence) ==> v.confidence == confidence
  {
    var c1 := if confidence >= 1.0 then MaxConfidence else confidence;
    var c2 := if c1 <= 0.0 then MinConfidence else c1;
    EvidentialValue(frequency, c2)
  }

  /** The three cases of the constructor, stated for every input. */
  lemma MakeValueCases(f: real, c: real)
    ensures c >= 1.0 ==> MakeValue(f, c).confidence == MaxConfidence
    ensures c <= 0.0 ==> MakeValue(f, c).confidence == MinConfidence
    ensures 0.0 < c < 1.0 ==> MakeValue(f, c).confidence == c
  {
  }

  /** Building a value from a constructed value's own fields changes nothing. */
  lemma MakeValueIdempotent(f: real, c: real)
    ensures MakeValue(MakeValue(f, c).frequency, MakeValue(f, c).confidence) == MakeValue(f, c)
  {
  }

  /** The parameterless struct value: both fields zero, no clamping. */
  function DefaultValue(): (v: EvidentialValue)
    ensures v.frequency == 0.0 && v.confidence == 0.0
    ensures !ConfidenceInRange(v.confidence)
  {
    EvidentialValue(0.0, 0.0)
  }
}
