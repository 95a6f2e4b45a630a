/** PatientStateMonitor: the per-patient record of current health state, survival time
    and time to AIDS, updated once per simulated time step. */
module Monitors {
  import opened HealthStates

  /** Python's `None` / a value. */
  datatype Option<T> = None | Some(value: T)

  /** The fields of a PatientStateMonitor, as a value. */
  datatype MonitorState = MonitorState(
    currentState: HealthState,
    survivalTime: Option<real>,
    timeToAIDS: Option<real>,
    ifDevelopedAIDS: bool)

  /** One call `update(time_step, new_state)`. */
  datatype Call = Call(timeStep: int, newState: HealthState)

  /** What `PatientStateMonitor.__init__` sets up. */
  const Initial: MonitorState := MonitorState(CD4_200to500, None, None, false)

  predicate Alive(m: MonitorState)
  {
    m.currentState != HIV_DEATH
  }

  /** The half-cycle correction: a change during step k is dated at its midpoint. */
  function HalfCycle(timeStep: int): real
  {
    timeStep as real + 0.5
  }

  /** The effect of `update(timeStep, newState)` on the monitor's fields. */
  function Updated(m: MonitorState, timeStep: int, newState: HealthState): MonitorState
  {
    if m.currentState == HIV_DEATH then m
    else
      var entersAIDS := m.currentState != AIDS && newState == AIDS;
      MonitorState(
        newState,
        if newState == HIV_DEATH then Some(HalfCycle(timeStep)) else m.survivalTime,
        if entersAIDS then Some(HalfCycle(timeStep)) else m.timeToAIDS,
        if entersAIDS then true else m.ifDevelopedAIDS)
  }

  /** The effect of a sequence of update calls, in order. */
  function Replay(m: MonitorState, calls: seq<Call>): MonitorState
    decreases |calls|
  {
    if calls == [] then m
    else Replay(Updated(m, calls[0].timeStep, calls[0].newState), calls[1..])
  }

  /** A death time is recorded exactly when the patient is dead, and a time to AIDS
      exactly when the AIDS flag is set. */
  predicate WellFormed(m: MonitorState)
  {
    && (m.survivalTime.Some? <==> m.currentState == HIV_DEATH)
    && (m.ifDevelopedAIDS <==> m.timeToAIDS.Some?)
  }

  /** t is one of 0.5, 1.5, ..., k - 0.5: the midpoint of one of the steps 0 .. k-1. */
  predicate IsMidpointBefore(t: real, k: int)
  {
    0.5 <= t <= k as real - 0.5 && (t - 0.5).Floor as real == t - 0.5
  }

  /** What holds of a monitor after the update calls for steps 0 .. k-1 have been made in order. */
  predicate Consistent(m: MonitorState, k: int)
  {
    && WellFormed(m)
    && (m.survivalTime.Some? ==> IsMidpointBefore(m.survivalTime.value, k))
    && (m.timeToAIDS.Some? ==> IsMidpointBefore(m.timeToAIDS.value, k))
    && (m.survivalTime.Some? && m.timeToAIDS.Some? ==> m.timeToAIDS.value < m.survivalTime.value)
  }

  lemma InitialConsistent()
    ensures Consistent(Initial, 0) && Alive(Initial)
  {
  }

  /** Frozen after death: an update of a dead patient changes no field. */
  lemma UpdateFrozenAfterDeath(m: MonitorState, timeStep: int, newState: HealthState)
    requires !Alive(m)
    ensures Updated(m, timeStep, newState) == m
  {
  }

  /** On the live path the state is overwritten, and a death time k + 0.5 is recorded
      exactly when the new state is HIV_DEATH. */
  lemma UpdateRecordsDeath(m: MonitorState, timeStep: int, newState: HealthState)
    requires Alive(m)
    ensures Updated(m, timeStep, newState).currentState == newState
    ensures Alive(Updated(m, timeStep, newState)) <==> newState != HIV_DEATH
    ensures newState == HIV_DEATH ==> Updated(m, timeStep, newState).survivalTime == Some(timeStep as real + 0.5)
    ensures newState != HIV_DEATH ==> Updated(m, timeStep, newState).survivalTime == m.survivalTime
  {
  }

  /** The AIDS flag and time change only on a transition from a non-AIDS state into AIDS,
      and then the time is k + 0.5 whatever it was before. */
  lemma UpdateRecordsAIDSEntry(m: MonitorState, timeStep: int, newState: HealthState)
    requires Alive(m)
    ensures m.currentState != AIDS && newState == AIDS ==>
              Updated(m, timeStep, newState).ifDevelopedAIDS &&
              Updated(m, timeStep, newState).timeToAIDS == Some(timeStep as real + 0.5)
    ensures !(m.currentState != AIDS && newState == AIDS) ==>
              Updated(m, timeStep, newState).ifDevelopedAIDS == m.ifDevelopedAIDS &&
              Updated(m, timeStep, newState).timeToAIDS == m.timeToAIDS
  {
  }

  /** Every update keeps the monitor well formed. */
  lemma UpdatePreservesWellFormed(m: MonitorState, timeStep: int, newState: HealthState)
    requires WellFormed(m)
    ensures WellFormed(Updated(m, timeStep, newState))
  {
  }

  /** In a well-formed monitor the patient is alive exactly when no survival time is recorded,
      and a recorded survival time is never changed again. */
  lemma SurvivalTimeSetOnce(m: MonitorState, timeStep: int, newState: HealthState)
    requires WellFormed(m)
    ensures Alive(m) <==> m.survivalTime.None?
    ensures m.survivalTime.Some? ==> Updated(m, timeStep, newState).survivalTime == m.survivalTime
  {
  }

  /** The update for step k of a live patient, made after those for steps 0 .. k-1,
      leaves a monitor consistent with steps 0 .. k. */
  lemma UpdateKeepsConsistent(m: MonitorState, k: int, newState: HealthState)
    requires Consistent(m, k) && Alive(m) && k >= 0
    ensures Consistent(Updated(m, k, newState), k + 1)
  {
    assert (HalfCycle(k) - 0.5).Floor == k;
  }

  /** Consistency with a horizon carries over to any later horizon. */
  lemma ConsistentLater(m: MonitorState, k: int, k': int)
    requires Consistent(m, k) && k <= k'
    ensures Consistent(m, k')
  {
  }

  /** The monitor object; `history` records every `update` call it has received. */
  class PatientStateMonitor {
    var currentState: HealthState
    var survivalTime: Option<real>
    var timeToAIDS: Option<real>
    var ifDevelopedAIDS: bool
    ghost var history: seq<Call>

    function Snapshot(): MonitorState
      reads this
    {
      MonitorState(currentState, survivalTime, timeToAIDS, ifDevelopedAIDS)
    }

    constructor ()
      ensures Snapshot() == Initial && history == []
    {
      currentState := CD4_200to500;
      survivalTime := None;
      timeToAIDS := None;
      ifDevelopedAIDS := false;
      history := [];
    }

    method Update(timeStep: int, newState: HealthState)
      modifies this
      ensures Snapshot() == Updated(old(Snapshot()), timeStep, newState)
      ensures history == old(history) + [Call(timeStep, newState)]
    {
      history := history + [Call(timeStep, newState)];
      if currentState == HIV_DEATH {
        return;
      }
      if newState == HIV_DEATH {
        survivalTime := Some(timeStep as real + 0.5);
      }
      if currentState != AIDS && newState == AIDS {
        ifDevelopedAIDS := true;
        timeToAIDS := Some(timeStep as real + 0.5);
      }
      currentState := newState;
    }

    function GetIfAlive(): (alive: bool)
      reads this
      ensures alive <==> currentState != HIV_DEATH
    {
      if currentState != HIV_DEATH then true else false
    }
  }
}
