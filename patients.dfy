/** Patient: one individual simulated as a discrete-time Markov chain over the health states. */
module Patients {
  import opened HealthStates
  import opened Monitors

  /** The random draw from the empirical distribution of a matrix row.
      sample(seed, draw, row) is the state index that the random stream seeded with `seed`
      yields at its `draw`-th draw when sampling from the probabilities `row`. */
  type Sampler = (int, nat, seq<real>) -> nat

  /** The sampler returns an index of the row it samples from. */
  ghost predicate ValidSampler(sample: Sampler)
  {
    forall seed: int, draw: nat, row: seq<real> :: |row| > 0 ==> sample(seed, draw, row) < |row|
  }

  /** The state the stream's `draw`-th draw gives: sampled from the matrix row of the current state. */
  function NextState(m: MonitorState, draw: nat, seed: int, matrix: Matrix, sample: Sampler): HealthState
    requires WellFormedMatrix(matrix) && ValidSampler(sample)
  {
    FromValue(sample(seed, draw, matrix[Value(m.currentState)]))
  }

  /** The monitor at the end of the loop, and the update calls the loop made. */
  datatype Trajectory = Trajectory(final: MonitorState, calls: seq<Call>)

  function Max(a: int, b: int): int
  {
    if a < b then b else a
  }

  /** The driver loop of `Patient.simulate` from step k on, with horizon n, for a stream that
      had made `base` draws when the loop started at step 0: step k makes draw `base + k`. */
  function Drive(m: MonitorState, k: nat, n: int, base: nat, seed: int, matrix: Matrix, sample: Sampler): Trajectory
    requires WellFormedMatrix(matrix) && ValidSampler(sample)
    decreases n - k
  {
    if Alive(m) && k < n then
      var s := NextState(m, base + k, seed, matrix, sample);
      var rest := Drive(Updated(m, k, s), k + 1, n, base, seed, matrix, sample);
      Trajectory(rest.final, [Call(k, s)] + rest.calls)
    else
      Trajectory(m, [])
  }

  /** The shape of the loop: one call per step k, k+1, ..., no more calls than the horizon
      leaves, none for a dead patient and none after the one that kills the patient; the loop
      stops early only because the patient died. */
  lemma {:induction false} DriveShape(m: MonitorState, k: nat, n: int, base: nat, seed: int, matrix: Matrix, sample: Sampler)
    requires WellFormedMatrix(matrix) && ValidSampler(sample)
    decreases n - k
    ensures var t := Drive(m, k, n, base, seed, matrix, sample);
      && k + |t.calls| <= Max(k, n)
      && (forall j :: 0 <= j < |t.calls| ==> t.calls[j].timeStep == k + j)
      && (!Alive(m) ==> t == Trajectory(m, []))
      && (forall j :: 0 <= j < |t.calls| - 1 ==> t.calls[j].newState != HIV_DEATH)
      && (Alive(t.final) ==> k + |t.calls| >= n)
      && (Alive(m) && !Alive(t.final) ==> |t.calls| > 0 && t.calls[|t.calls| - 1].newState == HIV_DEATH)
  {
    if Alive(m) && k < n {
      var s := NextState(m, base + k, seed, matrix, sample);
      DriveShape(Updated(m, k, s), k + 1, n, base, seed, matrix, sample);
    }
  }

  /** One turn of the loop for a live patient before the horizon. */
  lemma DriveStep(m: MonitorState, k: nat, n: int, base: nat, seed: int, matrix: Matrix, sample: Sampler)
    requires WellFormedMatrix(matrix) && ValidSampler(sample)
    requires Alive(m) && k < n
    ensures var s := NextState(m, base + k, seed, matrix, sample);
            var rest := Drive(Updated(m, k, s), k + 1, n, base, seed, matrix, sample);
            Drive(m, k, n, base, seed, matrix, sample) == Trajectory(rest.final, [Call(k, s)] + rest.calls)
  {
  }

  /** One turn of the loop seen from a monitor whose call history was `h` before it. */
  lemma DriveStepAfter(h: seq<Call>, m: MonitorState, k: nat, n: int, base: nat, seed: int, matrix: Matrix, sample: Sampler)
    requires WellFormedMatrix(matrix) && ValidSampler(sample)
    requires Alive(m) && k < n
    ensures var s := NextState(m, base + k, seed, matrix, sample);
            var t := Drive(m, k, n, base, seed, matrix, sample);
            var rest := Drive(Updated(m, k, s), k + 1, n, base, seed, matrix, sample);
            && t.final == rest.final
            && h + t.calls == (h + [Call(k, s)]) + rest.calls
            && |t.calls| == 1 + |rest.calls|
  {
    var s := NextState(m, base + k, seed, matrix, sample);
    var rest := Drive(Updated(m, k, s), k + 1, n, base, seed, matrix, sample);
    DriveStep(m, k, n, base, seed, matrix, sample);
    assert h + ([Call(k, s)] + rest.calls) == (h + [Call(k, s)]) + rest.calls;
  }

  /** The final monitor is what the recorded calls produce when replayed in order. */
  lemma {:induction false} DriveReplays(m: MonitorState, k: nat, n: int, base: nat, seed: int, matrix: Matrix, sample: Sampler)
    requires WellFormedMatrix(matrix) && ValidSampler(sample)
    decreases n - k
    ensures Drive(m, k, n, base, seed, matrix, sample).final == Replay(m, Drive(m, k, n, base, seed, matrix, sample).calls)
  {
    if Alive(m) && k < n {
      var s := NextState(m, base + k, seed, matrix, sample);
      var t := Drive(m, k, n, base, seed, matrix, sample);
      DriveReplays(Updated(m, k, s), k + 1, n, base, seed, matrix, sample);
      assert t.calls[1..] == Drive(Updated(m, k, s), k + 1, n, base, seed, matrix, sample).calls;
    }
  }

  /** Driving preserves well-formedness. */
  lemma {:induction false} DrivePreservesWellFormed(m: MonitorState, k: nat, n: int, base: nat, seed: int, matrix: Matrix, sample: Sampler)
    requires WellFormedMatrix(matrix) && ValidSampler(sample)
    requires WellFormed(m)
    decreases n - k
    ensures WellFormed(Drive(m, k, n, base, seed, matrix, sample).final)
  {
    if Alive(m) && k < n {
      var s := NextState(m, base + k, seed, matrix, sample);
      UpdatePreservesWellFormed(m, k, s);
      DrivePreservesWellFormed(Updated(m, k, s), k + 1, n, base, seed, matrix, sample);
    }
  }

  /** A monitor consistent with steps 0 .. k-1 ends consistent with the horizon. */
  lemma {:induction false} DriveKeepsConsistent(m: MonitorState, k: nat, n: int, base: nat, seed: int, matrix: Matrix, sample: Sampler)
    requires WellFormedMatrix(matrix) && ValidSampler(sample)
    requires Consistent(m, k)
    decreases n - k
    ensures Consistent(Drive(m, k, n, base, seed, matrix, sample).final, Max(k, n))
  {
    if Alive(m) && k < n {
      var s := NextState(m, base + k, seed, matrix, sample);
      UpdateKeepsConsistent(m, k, s);
      DriveKeepsConsistent(Updated(m, k, s), k + 1, n, base, seed, matrix, sample);
    } else {
      ConsistentLater(m, k, Max(k, n));
    }
  }

  /** The outcomes of one simulated patient: any survival time and time to AIDS is one of
      0.5, 1.5, ..., n - 0.5, AIDS (when recorded) came strictly before death, a survival time
      is recorded exactly for a patient who died, and a time to AIDS exactly when the flag is set. */
  lemma SimulatedPatientOutcomes(n: int, base: nat, seed: int, matrix: Matrix, sample: Sampler)
    requires WellFormedMatrix(matrix) && ValidSampler(sample)
    ensures var r := Drive(Initial, 0, n, base, seed, matrix, sample).final;
      && (r.survivalTime.Some? ==> IsMidpointBefore(r.survivalTime.value, n))
      && (r.timeToAIDS.Some? ==> IsMidpointBefore(r.timeToAIDS.value, n))
      && (r.survivalTime.Some? && r.timeToAIDS.Some? ==> r.timeToAIDS.value < r.survivalTime.value)
      && (r.survivalTime.Some? <==> !Alive(r))
      && (r.ifDevelopedAIDS <==> r.timeToAIDS.Some?)
  {
    InitialConsistent();
    DriveKeepsConsistent(Initial, 0, n, base, seed, matrix, sample);
  }

  /** What a patient's simulation changes: its monitor, the calls the monitor received and the
      position of its random stream. */
  datatype PatientView = PatientView(monitor: MonitorState, history: seq<Call>, draws: nat)

  /** One `simulate(n)` call from view v: the monitor ends where the driver loop takes it,
      receives the loop's calls, and the stream moves on by one draw per call. */
  function Run(v: PatientView, n: int, seed: int, matrix: Matrix, sample: Sampler): PatientView
    requires WellFormedMatrix(matrix) && ValidSampler(sample)
  {
    var t := Drive(v.monitor, 0, n, v.draws, seed, matrix, sample);
    PatientView(t.final, v.history + t.calls, v.draws + |t.calls|)
  }

  class Patient {
    const id: int
    const tranProbMatrix: Matrix
    const stateMonitor: PatientStateMonitor
    /** How many draws the patient's random stream has made: its position in the stream. */
    var draws: nat

    ghost function View(): PatientView
      reads this, stateMonitor
    {
      PatientView(stateMonitor.Snapshot(), stateMonitor.history, draws)
    }

    /** The patient's random stream is seeded with its id and has made no draw yet; here the
        seed is passed to the sampler. */
    constructor (id: int, transitionMatrix: Matrix)
      ensures this.id == id && tranProbMatrix == transitionMatrix
      ensures fresh(stateMonitor)
      ensures View() == PatientView(Initial, [], 0)
    {
      this.id := id;
      tranProbMatrix := transitionMatrix;
      stateMonitor := new PatientStateMonitor();
      draws := 0;
    }

    /** Simulate the patient over nTimeSteps steps or until death, drawing from the stream
        where the previous call left it. */
    method Simulate(nTimeSteps: int, sample: Sampler)
      requires WellFormedMatrix(tranProbMatrix) && ValidSampler(sample)
      modifies stateMonitor, this`draws
      ensures View() == Run(old(View()), nTimeSteps, id, tranProbMatrix, sample)
    {
      ghost var base := draws;
      ghost var whole := Drive(stateMonitor.Snapshot(), 0, nTimeSteps, base, id, tranProbMatrix, sample);
      ghost var t := whole;
      var k := 0;
      while stateMonitor.GetIfAlive() && k < nTimeSteps
        invariant 0 <= k && draws == base + k
        invariant t == Drive(stateMonitor.Snapshot(), k, nTimeSteps, base, id, tranProbMatrix, sample)
        invariant t.final == whole.final
        invariant stateMonitor.history + t.calls == old(stateMonitor.history) + whole.calls
        invariant k + |t.calls| == |whole.calls|
        decreases nTimeSteps - k
      {
        ghost var m := stateMonitor.Snapshot();
        ghost var before := stateMonitor.history;
        var transProbs := tranProbMatrix[Value(stateMonitor.currentState)];
        var newStateIndex := sample(id, draws, transProbs);
        draws := draws + 1;
        var newState := FromValue(newStateIndex);
        assert newState == NextState(m, base + k, id, tranProbMatrix, sample);
        DriveStepAfter(before, m, k, nTimeSteps, base, id, tranProbMatrix, sample);
        stateMonitor.Update(k, newState);
        t := Drive(Updated(m, k, newState), k + 1, nTimeSteps, base, id, tranProbMatrix, sample);
        k := k + 1;
      }
      assert t == Trajectory(stateMonitor.Snapshot(), []);
    }
  }
}
