/** Cohort: a population of patients with a shared transition matrix, simulated one after
    another, whose outcomes are then extracted once. */
module Cohorts {
  import opened HealthStates
  import opened Monitors
  import opened Patients
  import opened Outcomes

  /** The id of the i-th patient of cohort `cohortId` with `popSize` patients. */
  function PatientId(cohortId: int, popSize: int, i: int): int
  {
    cohortId * popSize + i
  }

  lemma MulAtLeast(x: int, n: int)
    requires x >= 1 && n > 0
    ensures x * n >= n
  {
    assert x * n == (x - 1) * n + n;
  }

  /** Euclidean division has one quotient and one remainder. */
  lemma DivModUnique(a: int, n: int, q: int, r: int)
    requires n > 0 && a == q * n + r && 0 <= r < n
    ensures a / n == q && a % n == r
  {
    var q0, r0 := a / n, a % n;
    assert a == q0 * n + r0 && 0 <= r0 < n;
    if q > q0 {
      MulAtLeast(q - q0, n);
    } else if q < q0 {
      MulAtLeast(q0 - q, n);
    }
  }

  /** A patient id determines its cohort and its place in the cohort: the id scheme is
      inverted by Euclidean division by the population size. */
  lemma PatientIdDecodes(cohortId: int, popSize: int, i: int)
    requires 0 <= i < popSize
    ensures PatientId(cohortId, popSize, i) / popSize == cohortId
    ensures PatientId(cohortId, popSize, i) % popSize == i
  {
    DivModUnique(PatientId(cohortId, popSize, i), popSize, cohortId, i);
  }

  /** Ids are pairwise distinct within a cohort, and across cohorts of the same size. */
  lemma PatientIdsDistinct(cohortId: int, cohortId': int, popSize: int, i: int, j: int)
    requires 0 <= i < popSize && 0 <= j < popSize
    requires cohortId != cohortId' || i != j
    ensures PatientId(cohortId, popSize, i) != PatientId(cohortId', popSize, j)
  {
    PatientIdDecodes(cohortId, popSize, i);
    PatientIdDecodes(cohortId', popSize, j);
  }

  /** The number of patients `range(pop_size)` creates. */
  function PopulationOf(popSize: int): nat
  {
    if popSize < 0 then 0 else popSize
  }

  class Cohort {
    const id: int
    const patients: seq<Patient>
    const cohortOutcomes: CohortOutcomes

    /** The patients and their monitors, the objects a simulation changes. */
    ghost const members: set<Patient>
    ghost const monitors: set<PatientStateMonitor>

    /** Each patient owns its monitor alone, and every monitor is well formed. */
    ghost predicate Valid()
      reads this, monitors
    {
      && (forall i :: 0 <= i < |patients| ==> patients[i] in members && patients[i].stateMonitor in monitors)
      && (forall i, j :: 0 <= i < j < |patients| ==> patients[i].stateMonitor != patients[j].stateMonitor)
      && (forall i :: 0 <= i < |patients| ==> WellFormed(patients[i].stateMonitor.Snapshot()))
    }

    /** `Cohort(id, pop_size, transition_matrix)`: patient i gets id `id * pop_size + i`. */
    constructor (id: int, popSize: int, transitionMatrix: Matrix)
      ensures this.id == id && |patients| == PopulationOf(popSize)
      ensures forall i :: 0 <= i < |patients| ==>
                && patients[i].id == PatientId(id, popSize, i)
                && patients[i].tranProbMatrix == transitionMatrix
                && patients[i].stateMonitor.Snapshot() == Initial
                && patients[i].stateMonitor.history == []
                && patients[i].draws == 0
      ensures fresh(cohortOutcomes) && cohortOutcomes.State() == NoOutcomes
      ensures fresh(members) && fresh(monitors)
      ensures Valid()
    {
      this.id := id;
      var outcomes := new CohortOutcomes();
      var population: seq<Patient> := [];
      var i := 0;
      while i < popSize
        invariant 0 <= i == |population| <= PopulationOf(popSize)
        invariant forall j :: 0 <= j < i ==>
                    && population[j].id == PatientId(id, popSize, j)
                    && population[j].tranProbMatrix == transitionMatrix
                    && fresh(population[j].stateMonitor)
                    && fresh(population[j]) && population[j].draws == 0
                    && population[j].stateMonitor.Snapshot() == Initial
                    && population[j].stateMonitor.history == []
        invariant forall j, l :: 0 <= j < l < i ==> population[j].stateMonitor != population[l].stateMonitor
        invariant outcomes.State() == NoOutcomes
      {
        var patient := new Patient(id * popSize + i, transitionMatrix);
        population := population + [patient];
        i := i + 1;
      }
      patients := population;
      cohortOutcomes := outcomes;
      members := set j | 0 <= j < |population| :: population[j];
      monitors := set j | 0 <= j < |population| :: population[j].stateMonitor;
      assert WellFormed(Initial);
    }

    /** Simulate every patient in turn over nTimeSteps steps, then extract the outcomes. */
    method Simulate(nTimeSteps: int, sample: Sampler) returns (status: Status)
      requires Valid() && ValidSampler(sample)
      requires forall i :: 0 <= i < |patients| ==> WellFormedMatrix(patients[i].tranProbMatrix)
      modifies members, monitors, cohortOutcomes
      ensures Valid()
      ensures forall i :: 0 <= i < |patients| ==>
                SimulatedFrom(patients[i], old(patients[i].View()), nTimeSteps, sample)
      ensures Extraction(cohortOutcomes.State(), status) == Extracted(old(cohortOutcomes.State()), Snapshots(patients))
    {
      SimulatePatients(nTimeSteps, sample);
      status := cohortOutcomes.ExtractOutcomes(patients);
    }

    /** The loop of `Cohort.simulate`: run each patient's simulation, in order. */
    method SimulatePatients(nTimeSteps: int, sample: Sampler)
      requires Valid() && ValidSampler(sample)
      requires forall i :: 0 <= i < |patients| ==> WellFormedMatrix(patients[i].tranProbMatrix)
      modifies members, monitors
      ensures Valid()
      ensures forall i :: 0 <= i < |patients| ==>
                SimulatedFrom(patients[i], old(patients[i].View()), nTimeSteps, sample)
    {
      ghost var before := Views(patients);
      ghost var after := seq(|patients|, j requires 0 <= j < |patients| =>
                               Run(before[j], nTimeSteps, patients[j].id, patients[j].tranProbMatrix, sample));
      for i := 0 to |patients|
        invariant forall j :: 0 <= j < i ==> patients[j].View() == after[j]
        invariant forall j :: i <= j < |patients| ==> patients[j].View() == before[j]
        invariant forall j :: 0 <= j < |patients| ==> WellFormed(patients[j].stateMonitor.Snapshot())
      {
        var p := patients[i];
        DrivePreservesWellFormed(p.stateMonitor.Snapshot(), 0, nTimeSteps, p.draws, p.id, p.tranProbMatrix, sample);
        assert forall j :: 0 <= j < |patients| && j != i ==> patients[j].stateMonitor != p.stateMonitor;
        p.Simulate(nTimeSteps, sample);
        assert p.View() == after[i];
      }
    }
  }

  /** The patients' views, in order. */
  ghost function Views(ps: seq<Patient>): (vs: seq<PatientView>)
    reads set i | 0 <= i < |ps| :: ps[i], set i | 0 <= i < |ps| :: ps[i].stateMonitor
    ensures |vs| == |ps|
    ensures forall i :: 0 <= i < |ps| ==> vs[i] == ps[i].View()
  {
    if ps == [] then [] else Views(ps[..|ps| - 1]) + [ps[|ps| - 1].View()]
  }

  /** Patient p, from view `before`, ended where one `simulate(n)` call takes it. */
  ghost predicate SimulatedFrom(p: Patient, before: PatientView, n: int, sample: Sampler)
    reads p, p.stateMonitor
  {
    WellFormedMatrix(p.tranProbMatrix) && ValidSampler(sample) &&
    p.View() == Run(before, n, p.id, p.tranProbMatrix, sample)
  }
}
