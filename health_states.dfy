/** The health states of the HIV model and the transition matrix indexed by them.
    The enumeration itself belongs to the configuration layer (InputData); this module
    gives it as a datatype with an explicit dense index table. */
module HealthStates {

  datatype HealthState = CD4_200to500 | CD4_200 | AIDS | HIV_DEATH

  /** Number of health states: the transition matrix is K x K. */
  const K: nat := 4

  /** The enumeration's `value`: the row and column of the state in the transition matrix. */
  function Value(s: HealthState): (i: nat)
    ensures i < K
  {
    match s
    case CD4_200to500 => 0
    case CD4_200 => 1
    case AIDS => 2
    case HIV_DEATH => 3
  }

  /** `HealthState(i)`: the state whose value is i. */
  function FromValue(i: nat): (s: HealthState)
    requires i < K
  {
    if i == 0 then CD4_200to500
    else if i == 1 then CD4_200
    else if i == 2 then AIDS
    else HIV_DEATH
  }

  lemma ValueRoundTrip(s: HealthState)
    ensures FromValue(Value(s)) == s
  {
  }

  lemma FromValueRoundTrip(i: nat)
    requires i < K
    ensures Value(FromValue(i)) == i
  {
  }

  /** Row i is the distribution of the next state given current state FromValue(i). */
  type Matrix = seq<seq<real>>

  /** A K x K matrix: every state has a row, every row has an entry per state. */
  predicate WellFormedMatrix(matrix: Matrix)
  {
    |matrix| == K && forall i :: 0 <= i < |matrix| ==> |matrix[i]| == K
  }
}
