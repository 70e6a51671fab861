/**
 * The six jars of the budget and their fixed metadata
 * (`JAR_PERCENTAGES` and `JAR_INFO` in frontend/src/context/FinanceContext.js).
 */
module Jars {

  /** The six jar keys of the balance map. */
  datatype Jar = NEC | LF | ALP | EDU | PLAY | DAR

  /** The jars in the key order of `JAR_PERCENTAGES`, the order `Object.keys` visits them. */
  const AllJars: seq<Jar> := [NEC, LF, ALP, EDU, PLAY, DAR]

  /** Where a jar stands in `AllJars`. */
  function Position(j: Jar): (r: nat)
    ensures r < |AllJars| && AllJars[r] == j
  {
    match j
    case NEC => 0
    case LF => 1
    case ALP => 2
    case EDU => 3
    case PLAY => 4
    case DAR => 5
  }

  /** `Position` inverts indexing into `AllJars`, so no jar is listed twice. */
  lemma PositionOfIndex(i: nat)
    requires i < |AllJars|
    ensures Position(AllJars[i]) == i
  {
  }

  /** Share of every distributed income that goes to a jar. */
  function Weight(j: Jar): real
  {
    match j
    case NEC => 0.55
    case LF => 0.10
    case ALP => 0.10
    case EDU => 0.10
    case PLAY => 0.10
    case DAR => 0.05
  }

  /** Display name of a jar (`JAR_INFO[key].name`). */
  function Name(j: Jar): string
  {
    match j
    case NEC => "Necesidades"
    case LF => "Libertad Financiera"
    case ALP => "Ahorro Largo Plazo"
    case EDU => "Educación"
    case PLAY => "Ocio"
    case DAR => "Dar"
  }

  /** Integer percentage shown for a jar (`JAR_INFO[key].percentage`). */
  function InfoPercentage(j: Jar): nat
  {
    match j
    case NEC => 55
    case LF => 10
    case ALP => 10
    case EDU => 10
    case PLAY => 10
    case DAR => 5
  }

  /** Sum of the weights of a list of jars. */
  function WeightSum(js: seq<Jar>): real
  {
    if js == [] then 0.0 else Weight(js[0]) + WeightSum(js[1..])
  }

  /** Every jar occurs in `AllJars`. */
  lemma InAllJars(j: Jar)
    ensures j in AllJars
  {
    assert AllJars[Position(j)] == j;
  }

  /** The six weights add up to exactly one, so a distributed income is shared out completely. */
  lemma {:induction false} WeightsSumToOne()
    ensures WeightSum(AllJars) == 1.0
  {
    assert AllJars[1..] == [LF, ALP, EDU, PLAY, DAR];
    assert AllJars[2..] == [ALP, EDU, PLAY, DAR];
    assert AllJars[3..] == [EDU, PLAY, DAR];
    assert AllJars[4..] == [PLAY, DAR];
    assert AllJars[5..] == [DAR];
    assert AllJars[6..] == [];
  }

  /** Every weight is positive and the displayed percentage is the weight times one hundred. */
  lemma WeightsAgreeWithInfo(j: Jar)
    ensures 0.0 < Weight(j) < 1.0
    ensures Weight(j) * 100.0 == InfoPercentage(j) as real
  {
  }
}
