/** Two limiting transition matrices: everybody dies in the first step, or nobody ever moves. */
module Scenarios {
  import opened HealthStates
  import opened Monitors
  import opened Patients
  import opened Outcomes

  /** Every row sends every state to HIV_DEATH with probability 1. */
  ghost predicate AllDieMatrix(matrix: Matrix)
  {
    WellFormedMatrix(matrix) &&
    forall i, j :: 0 <= i < |matrix| && 0 <= j < |matrix[i]| ==>
      matrix[i][j] == if j == Value(HIV_DEATH) then 1.0 else 0.0
  }

  /** Every row keeps its own state with probability 1. */
  ghost predicate IdentityMatrix(matrix: Matrix)
  {
    WellFormedMatrix(matrix) &&
    forall i, j :: 0 <= i < |matrix| && 0 <= j < |matrix[i]| ==>
      matrix[i][j] == if j == i then 1.0 else 0.0
  }

  /** The sampler only draws states that the row gives a positive probability. */
  ghost predicate RespectsSupport(sample: Sampler, matrix: Matrix)
  {
    forall seed: int, draw: nat, i: int ::
      0 <= i < |matrix| && sample(seed, draw, matrix[i]) < |matrix[i]| ==>
        matrix[i][sample(seed, draw, matrix[i])] > 0.0
  }

  /** With the all-death matrix a patient dies in step 0: survival time 0.5, no AIDS, one call. */
  lemma ImmediateDeath(n: int, base: nat, seed: int, matrix: Matrix, sample: Sampler)
    requires AllDieMatrix(matrix) && ValidSampler(sample) && RespectsSupport(sample, matrix)
    requires n > 0
    ensures Drive(Initial, 0, n, base, seed, matrix, sample) ==
              Trajectory(MonitorState(HIV_DEATH, Some(0.5), None, false), [Call(0, HIV_DEATH)])
  {
    var row := matrix[Value(Initial.currentState)];
    var j := sample(seed, base, row);
    assert row[j] > 0.0;
    assert NextState(Initial, base, seed, matrix, sample) == HIV_DEATH;
    var dead := Updated(Initial, 0, HIV_DEATH);
    assert dead == MonitorState(HIV_DEATH, Some(0.5), None, false);
    assert Drive(dead, 1, n, base, seed, matrix, sample) == Trajectory(dead, []);
  }

  /** A cohort in which every patient died in step 0: the survival list holds 0.5 once per
      patient and its mean is 0.5, but no patient developed AIDS, so the mean time to AIDS
      divides by zero and no curve is built. The curve the survival list describes keeps the
      whole population before 0.5 and nobody from 0.5 on. */
  lemma AllDieCohort(ms: seq<MonitorState>, t: real)
    requires |ms| > 0
    requires forall i :: 0 <= i < |ms| ==> ms[i] == MonitorState(HIV_DEATH, Some(0.5), None, false)
    ensures Extracted(NoOutcomes, ms) ==
              Extraction(OutcomesState(seq(|ms|, _ => 0.5), [], Some(0.5), None, None), ZeroDivisionError)
    ensures var c := LivingPatientsCurve(|ms|, Collect(ms, SurvivalTimeOf));
            SizeAt(c, t) == if t < 0.5 then |ms| else 0
  {
    AllDeadCollect(ms);
    AllDeadAIDS(ms);
    var xs := seq(|ms|, _ => 0.5);
    assert [] + xs == xs;
    ConstantMean(xs, 0.5);
    CurveCountsLiving(ms, t);
    AllDeadCount(ms, t);
  }

  lemma {:induction false} AllDeadCollect(ms: seq<MonitorState>)
    requires forall i :: 0 <= i < |ms| ==> ms[i].survivalTime == Some(0.5)
    ensures Collect(ms, SurvivalTimeOf) == seq(|ms|, _ => 0.5)
  {
    if ms != [] {
      AllDeadCollect(ms[..|ms| - 1]);
    }
  }

  lemma {:induction false} AllDeadAIDS(ms: seq<MonitorState>)
    requires forall i :: 0 <= i < |ms| ==> !ms[i].ifDevelopedAIDS
    ensures Collect(ms, AIDSTimeOf) == []
  {
    if ms != [] {
      AllDeadAIDS(ms[..|ms| - 1]);
    }
  }

  lemma {:induction false} AllDeadCount(ms: seq<MonitorState>, t: real)
    requires forall i :: 0 <= i < |ms| ==> ms[i].survivalTime == Some(0.5)
    ensures CountAliveAt(ms, t) == if t < 0.5 then |ms| else 0
  {
    if ms != [] {
      AllDeadCount(ms[..|ms| - 1], t);
    }
  }

  lemma {:induction false} ConstantSum(xs: seq<real>, c: real)
    requires forall i :: 0 <= i < |xs| ==> xs[i] == c
    ensures Sum(xs) == c * (|xs| as real)
  {
    if xs != [] {
      ConstantSum(xs[..|xs| - 1], c);
    }
  }

  lemma ConstantMean(xs: seq<real>, c: real)
    requires |xs| > 0
    requires forall i :: 0 <= i < |xs| ==> xs[i] == c
    ensures Mean(xs) == c
  {
    ConstantSum(xs, c);
  }

  /** With the identity matrix a patient never leaves its starting state. */
  lemma {:induction false} NeverMoves(k: nat, n: int, base: nat, seed: int, matrix: Matrix, sample: Sampler)
    requires IdentityMatrix(matrix) && ValidSampler(sample) && RespectsSupport(sample, matrix)
    decreases n - k
    ensures Drive(Initial, k, n, base, seed, matrix, sample).final == Initial
  {
    if k < n {
      var row := matrix[Value(Initial.currentState)];
      var j := sample(seed, base + k, row);
      assert row[j] > 0.0;
      assert NextState(Initial, base + k, seed, matrix, sample) == CD4_200to500;
      assert Updated(Initial, k, CD4_200to500) == Initial;
      NeverMoves(k + 1, n, base, seed, matrix, sample);
    }
  }

  /** A cohort in which nobody moved: both lists are empty and extraction stops at the first
      mean with a division by zero, leaving every field as it was. */
  lemma NobodyMovesCohort(ms: seq<MonitorState>)
    requires forall i :: 0 <= i < |ms| ==> ms[i] == Initial
    ensures Extracted(NoOutcomes, ms) == Extraction(NoOutcomes, ZeroDivisionError)
  {
    CollectEmpty(ms, SurvivalTimeOf);
    CollectEmpty(ms, AIDSTimeOf);
  }

  /** A stream whose first draw picks state index 0 and whose later draws pick index 1 (when
      the row has one). */
  function FirstStaysThenMoves(seed: int, draw: nat, row: seq<real>): nat
  {
    if draw == 0 || |row| < 2 then 0 else 1
  }

  /** Two `simulate(1)` calls on a new patient: the first uses draw 0 and keeps the patient in
      CD4_200to500; the second continues the stream at draw 1 and moves it to CD4_200. */
  lemma SecondRunContinuesStream(seed: int, matrix: Matrix)
    requires WellFormedMatrix(matrix)
    ensures ValidSampler(FirstStaysThenMoves)
    ensures var first := Run(PatientView(Initial, [], 0), 1, seed, matrix, FirstStaysThenMoves);
            var second := Run(first, 1, seed, matrix, FirstStaysThenMoves);
            && first.monitor == Initial && first.draws == 1
            && second.monitor.currentState == CD4_200 && second.draws == 2
            && second.history == [Call(0, CD4_200to500), Call(0, CD4_200)]
  {
    var sample := FirstStaysThenMoves;
    var t1 := Drive(Initial, 0, 1, 0, seed, matrix, sample);
    assert NextState(Initial, 0, seed, matrix, sample) == CD4_200to500;
    assert Updated(Initial, 0, CD4_200to500) == Initial;
    assert Drive(Initial, 1, 1, 0, seed, matrix, sample) == Trajectory(Initial, []);
    assert t1 == Trajectory(Initial, [Call(0, CD4_200to500)]);
    var m2 := Updated(Initial, 0, CD4_200);
    assert NextState(Initial, 1, seed, matrix, sample) == CD4_200;
    assert Drive(m2, 1, 1, 1, seed, matrix, sample) == Trajectory(m2, []);
  }

  /** A stream that stays on draw 0, enters AIDS (index 2) on draw 1 and dies (index 3) on
      every later draw, for rows long enough to have those indices. */
  function StaysThenAIDSThenDies(seed: int, draw: nat, row: seq<real>): nat
  {
    if draw == 0 then 0
    else if draw == 1 then (if |row| > 2 then 2 else 0)
    else if |row| > 3 then 3 else 0
  }

  /** A second `simulate` call restarts the time step at 0, so it can stamp a death at 0.5
      after the first call stamped AIDS at 1.5: the monitor then holds a time to AIDS later
      than its survival time, and times beyond the second call's horizon. */
  lemma SecondRunBreaksConsistency(seed: int, matrix: Matrix)
    requires WellFormedMatrix(matrix)
    ensures ValidSampler(StaysThenAIDSThenDies)
    ensures var first := Run(PatientView(Initial, [], 0), 2, seed, matrix, StaysThenAIDSThenDies);
            var second := Run(first, 1, seed, matrix, StaysThenAIDSThenDies);
            && Consistent(first.monitor, 2)
            && second.monitor.timeToAIDS == Some(1.5) && second.monitor.survivalTime == Some(0.5)
            && !Consistent(second.monitor, 1)
  {
    var aids := MonitorState(AIDS, None, Some(1.5), true);
    FirstRunEntersAIDS(seed, matrix);
    SecondRunDies(aids, seed, matrix);
    assert (1.5 - 0.5).Floor == 1;
  }

  /** The first call, `simulate(2)` from a new patient: step 0 stays, step 1 enters AIDS. */
  lemma FirstRunEntersAIDS(seed: int, matrix: Matrix)
    requires WellFormedMatrix(matrix)
    ensures ValidSampler(StaysThenAIDSThenDies)
    ensures Run(PatientView(Initial, [], 0), 2, seed, matrix, StaysThenAIDSThenDies) ==
              PatientView(MonitorState(AIDS, None, Some(1.5), true), [Call(0, CD4_200to500), Call(1, AIDS)], 2)
  {
    var sample := StaysThenAIDSThenDies;
    var aids := Updated(Initial, 1, AIDS);
    assert aids == MonitorState(AIDS, None, Some(1.5), true);
    assert NextState(Initial, 1, seed, matrix, sample) == AIDS;
    assert Drive(aids, 2, 2, 0, seed, matrix, sample) == Trajectory(aids, []);
    assert Drive(Initial, 1, 2, 0, seed, matrix, sample) == Trajectory(aids, [Call(1, AIDS)]);
    assert NextState(Initial, 0, seed, matrix, sample) == CD4_200to500;
    assert Updated(Initial, 0, CD4_200to500) == Initial;
  }

  /** The second call, `simulate(1)`: step 0 makes draw 2 and dies, stamping 0.5. */
  lemma SecondRunDies(aids: MonitorState, seed: int, matrix: Matrix)
    requires WellFormedMatrix(matrix)
    requires aids == MonitorState(AIDS, None, Some(1.5), true)
    ensures ValidSampler(StaysThenAIDSThenDies)
    ensures Run(PatientView(aids, [Call(0, CD4_200to500), Call(1, AIDS)], 2), 1, seed, matrix, StaysThenAIDSThenDies).monitor ==
              MonitorState(HIV_DEATH, Some(0.5), Some(1.5), true)
  {
    var sample := StaysThenAIDSThenDies;
    var dead := Updated(aids, 0, HIV_DEATH);
    assert dead == MonitorState(HIV_DEATH, Some(0.5), Some(1.5), true);
    assert NextState(aids, 2, seed, matrix, sample) == HIV_DEATH;
    assert Drive(dead, 1, 1, 2, seed, matrix, sample) == Trajectory(dead, []);
  }
}
