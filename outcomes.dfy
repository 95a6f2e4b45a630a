/** CohortOutcomes: the survival times and times to AIDS of a simulated cohort, their means
    and the survival curve's inputs. */
module Outcomes {
  import opened HealthStates
  import opened Monitors
  import opened Patients

  /** The two outcome lists a cohort collects. */
  datatype Field = SurvivalTimeOf | AIDSTimeOf

  /** What a patient contributes to a list: its survival time when it has one, its time to
      AIDS when it developed AIDS, and otherwise nothing. */
  function Pick(m: MonitorState, field: Field): Option<real>
  {
    match field
    case SurvivalTimeOf => m.survivalTime
    case AIDSTimeOf => if m.ifDevelopedAIDS then m.timeToAIDS else None
  }

  /** The values `field` yields for the monitors, in the monitors' order. */
  function Collect(ms: seq<MonitorState>, field: Field): (r: seq<real>)
    ensures |r| <= |ms|
  {
    if ms == [] then []
    else
      var last := Pick(ms[|ms| - 1], field);
      Collect(ms[..|ms| - 1], field) + (if last.Some? then [last.value] else [])
  }

  /** Collecting one more monitor appends its value, if any. */
  lemma CollectSnoc(ms: seq<MonitorState>, m: MonitorState, field: Field)
    ensures Collect(ms + [m], field) == Collect(ms, field) + (if Pick(m, field).Some? then [Pick(m, field).value] else [])
  {
    assert (ms + [m])[..|ms|] == ms;
  }

  /** One step of a left-to-right pass over `ms` that appends to the list `acc`. */
  lemma RecordStep(acc: seq<real>, ms: seq<MonitorState>, i: nat, field: Field)
    requires i < |ms|
    ensures acc + Collect(ms[..i + 1], field) == (acc + Collect(ms[..i], field)) + (if Pick(ms[i], field).Some? then [Pick(ms[i], field).value] else [])
  {
    assert ms[..i + 1] == ms[..i] + [ms[i]];
    CollectSnoc(ms[..i], ms[i], field);
  }

  /** Collecting respects concatenation: the values keep the patients' order. */
  lemma {:induction false} CollectConcat(a: seq<MonitorState>, b: seq<MonitorState>, field: Field)
    ensures Collect(a + b, field) == Collect(a, field) + Collect(b, field)
    decreases |b|
  {
    if b == [] {
      assert a + b == a;
    } else {
      var b' := b[..|b| - 1];
      assert (a + b)[..|a + b| - 1] == a + b';
      CollectConcat(a, b', field);
    }
  }

  /** A value is collected exactly when some monitor yields it. */
  lemma {:induction false} CollectMembership(ms: seq<MonitorState>, field: Field, t: real)
    ensures t in Collect(ms, field) <==> exists i :: 0 <= i < |ms| && Pick(ms[i], field) == Some(t)
  {
    if ms != [] {
      var ms' := ms[..|ms| - 1];
      CollectMembership(ms', field, t);
      if exists i :: 0 <= i < |ms| && Pick(ms[i], field) == Some(t) {
        var i :| 0 <= i < |ms| && Pick(ms[i], field) == Some(t);
        if i < |ms'| {
          assert ms'[i] == ms[i];
        }
      }
    }
  }

  /** Nothing is collected exactly when no monitor yields a value. */
  lemma CollectEmpty(ms: seq<MonitorState>, field: Field)
    ensures |Collect(ms, field)| == 0 <==> forall i :: 0 <= i < |ms| ==> Pick(ms[i], field).None?
  {
    if |Collect(ms, field)| != 0 {
      var t := Collect(ms, field)[0];
      CollectMembership(ms, field, t);
    } else if exists i :: 0 <= i < |ms| && Pick(ms[i], field).Some? {
      var i :| 0 <= i < |ms| && Pick(ms[i], field).Some?;
      CollectMembership(ms, field, Pick(ms[i], field).value);
    }
  }

  function Sum(xs: seq<real>): real
  {
    if xs == [] then 0.0 else Sum(xs[..|xs| - 1]) + xs[|xs| - 1]
  }

  /** `sum(xs) / len(xs)`, in exact arithmetic; Python raises on an empty list. */
  function Mean(xs: seq<real>): (r: real)
    requires |xs| > 0
    ensures r * (|xs| as real) == Sum(xs)
  {
    Sum(xs) / (|xs| as real)
  }

  lemma {:induction false} SumBounds(xs: seq<real>, lo: real, hi: real)
    requires forall i :: 0 <= i < |xs| ==> lo <= xs[i] <= hi
    ensures lo * (|xs| as real) <= Sum(xs) <= hi * (|xs| as real)
  {
    if xs != [] {
      var xs' := xs[..|xs| - 1];
      assert forall i :: 0 <= i < |xs'| ==> xs'[i] == xs[i];
      SumBounds(xs', lo, hi);
      assert lo * (|xs| as real) == lo * (|xs'| as real) + lo;
      assert hi * (|xs| as real) == hi * (|xs'| as real) + hi;
    }
  }

  /** The mean lies between any lower and upper bound of the values. */
  lemma MeanBounds(xs: seq<real>, lo: real, hi: real)
    requires |xs| > 0
    requires forall i :: 0 <= i < |xs| ==> lo <= xs[i] <= hi
    ensures lo <= Mean(xs) <= hi
  {
    SumBounds(xs, lo, hi);
    ScaleBound(lo, Mean(xs), |xs| as real);
    ScaleBound(Mean(xs), hi, |xs| as real);
  }

  lemma ScaleBound(a: real, b: real, n: real)
    requires n > 0.0 && a * n <= b * n
    ensures a <= b
  {
    assert (b - a) * n >= 0.0;
  }

  /** For monitors consistent with an n-step simulation, every collected time is one of
      0.5, 1.5, ..., n - 0.5, and so is bounded by them, as is the mean of the list. */
  lemma CollectedTimesBounded(ms: seq<MonitorState>, n: int, field: Field)
    requires forall i :: 0 <= i < |ms| ==> Consistent(ms[i], n)
    ensures forall j :: 0 <= j < |Collect(ms, field)| ==> IsMidpointBefore(Collect(ms, field)[j], n)
    ensures |Collect(ms, field)| > 0 ==> 0.5 <= Mean(Collect(ms, field)) <= n as real - 0.5
  {
    var xs := Collect(ms, field);
    forall j | 0 <= j < |xs|
      ensures IsMidpointBefore(xs[j], n)
    {
      CollectMembership(ms, field, xs[j]);
    }
    if |xs| > 0 {
      MeanBounds(xs, 0.5, n as real - 0.5);
    }
  }

  /** The inputs of the survival-curve sample path: the starting population and one
      change per time, each of -1. */
  datatype SurvivalCurve = SurvivalCurve(initialSize: int, timesOfChanges: seq<real>, increments: seq<int>)

  function LivingPatientsCurve(initialSize: int, times: seq<real>): (c: SurvivalCurve)
    ensures c.initialSize == initialSize && c.timesOfChanges == times
    ensures |c.increments| == |times| && forall j :: 0 <= j < |times| ==> c.increments[j] == -1
  {
    SurvivalCurve(initialSize, times, seq(|times|, _ => -1))
  }

  /** The total change up to and including time t. */
  function ChangesUpTo(times: seq<real>, increments: seq<int>, t: real): int
    requires |times| == |increments|
  {
    if times == [] then 0
    else
      var n := |times| - 1;
      ChangesUpTo(times[..n], increments[..n], t) + (if times[n] <= t then increments[n] else 0)
  }

  /** The population the curve gives at time t. */
  function SizeAt(c: SurvivalCurve, t: real): int
    requires |c.timesOfChanges| == |c.increments|
  {
    c.initialSize + ChangesUpTo(c.timesOfChanges, c.increments, t)
  }

  /** The number of patients still alive at time t: no survival time, or a later one. */
  function CountAliveAt(ms: seq<MonitorState>, t: real): (r: nat)
    ensures r <= |ms|
  {
    if ms == [] then 0
    else
      var m := ms[|ms| - 1];
      CountAliveAt(ms[..|ms| - 1], t) + (if m.survivalTime.None? || m.survivalTime.value > t then 1 else 0)
  }

  lemma {:induction false} ChangesCountDeaths(ms: seq<MonitorState>, t: real)
    ensures var times := Collect(ms, SurvivalTimeOf);
            ChangesUpTo(times, seq(|times|, _ => -1), t) == CountAliveAt(ms, t) - |ms|
  {
    if ms != [] {
      var ms' := ms[..|ms| - 1];
      var m := ms[|ms| - 1];
      ChangesCountDeaths(ms', t);
      var times' := Collect(ms', SurvivalTimeOf);
      var times := Collect(ms, SurvivalTimeOf);
      if m.survivalTime.Some? {
        assert times == times' + [m.survivalTime.value];
        assert times[..|times| - 1] == times';
        assert seq(|times|, _ => -1)[..|times| - 1] == seq(|times'|, _ => -1);
      } else {
        assert times == times';
      }
    }
  }

  /** The survival curve built from a cohort's survival times counts, at every time t,
      exactly the patients alive at t. */
  lemma CurveCountsLiving(ms: seq<MonitorState>, t: real)
    ensures var c := LivingPatientsCurve(|ms|, Collect(ms, SurvivalTimeOf));
            SizeAt(c, t) == CountAliveAt(ms, t)
  {
    ChangesCountDeaths(ms, t);
  }

  /** The fields of a CohortOutcomes object, as a value. */
  datatype OutcomesState = OutcomesState(
    survivalTimes: seq<real>,
    timesToAIDS: seq<real>,
    meanSurvivalTime: Option<real>,
    meanTimeToAIDS: Option<real>,
    nLivingPatients: Option<SurvivalCurve>)

  /** What `CohortOutcomes.__init__` sets up. */
  const NoOutcomes: OutcomesState := OutcomesState([], [], None, None, None)

  /** How `extract_outcomes` ends: normally, or by the division by zero of an empty mean. */
  datatype Status = Completed | ZeroDivisionError

  datatype Extraction = Extraction(outcomes: OutcomesState, status: Status)

  /** The second half of `extract_outcomes`: the means of the lists, then the curve over a
      population of the given size; a mean of an empty list raises, leaving the fields
      assigned so far. */
  function Summarized(o: OutcomesState, populationSize: int): Extraction
  {
    if |o.survivalTimes| == 0 then
      Extraction(o, ZeroDivisionError)
    else if |o.timesToAIDS| == 0 then
      Extraction(o.(meanSurvivalTime := Some(Mean(o.survivalTimes))), ZeroDivisionError)
    else
      Extraction(o.(meanSurvivalTime := Some(Mean(o.survivalTimes)),
                    meanTimeToAIDS := Some(Mean(o.timesToAIDS)),
                    nLivingPatients := Some(LivingPatientsCurve(populationSize, o.survivalTimes))),
                 Completed)
  }

  /** The effect of `extract_outcomes` on the outcome fields: the patients' times are appended
      to the lists, then the lists are summarized. */
  function Extracted(o: OutcomesState, ms: seq<MonitorState>): Extraction
  {
    Summarized(o.(survivalTimes := o.survivalTimes + Collect(ms, SurvivalTimeOf),
                  timesToAIDS := o.timesToAIDS + Collect(ms, AIDSTimeOf)),
               |ms|)
  }

  /** Extracting the outcomes of a cohort into fresh CohortOutcomes: the lists are the
      patients' recorded times in patient order; the extraction completes exactly when some
      patient died and some patient developed AIDS; then the means are those of the lists and
      the curve counts the living patients at every time. */
  lemma ExtractionFromScratch(ms: seq<MonitorState>)
    requires forall i :: 0 <= i < |ms| ==> WellFormed(ms[i])
    ensures var e := Extracted(NoOutcomes, ms);
      && e.outcomes.survivalTimes == Collect(ms, SurvivalTimeOf)
      && e.outcomes.timesToAIDS == Collect(ms, AIDSTimeOf)
      && (e.status == Completed <==>
            (exists i :: 0 <= i < |ms| && !Alive(ms[i])) && (exists i :: 0 <= i < |ms| && ms[i].ifDevelopedAIDS))
      && (e.outcomes.meanSurvivalTime.Some? <==> exists i :: 0 <= i < |ms| && !Alive(ms[i]))
      && (e.status == Completed ==>
            && e.outcomes.meanSurvivalTime == Some(Mean(e.outcomes.survivalTimes))
            && e.outcomes.meanTimeToAIDS == Some(Mean(e.outcomes.timesToAIDS))
            && e.outcomes.nLivingPatients.Some?
            && |e.outcomes.nLivingPatients.value.timesOfChanges| == |e.outcomes.nLivingPatients.value.increments|
            && forall t :: SizeAt(e.outcomes.nLivingPatients.value, t) == CountAliveAt(ms, t))
  {
    CollectEmpty(ms, SurvivalTimeOf);
    CollectEmpty(ms, AIDSTimeOf);
    assert [] + Collect(ms, SurvivalTimeOf) == Collect(ms, SurvivalTimeOf);
    assert [] + Collect(ms, AIDSTimeOf) == Collect(ms, AIDSTimeOf);
    forall t {
      CurveCountsLiving(ms, t);
    }
  }

  /** The monitors of the patients, in order. */
  function Snapshots(ps: seq<Patient>): (ms: seq<MonitorState>)
    reads set i | 0 <= i < |ps| :: ps[i].stateMonitor
    ensures |ms| == |ps|
    ensures forall i :: 0 <= i < |ps| ==> ms[i] == ps[i].stateMonitor.Snapshot()
  {
    if ps == [] then [] else Snapshots(ps[..|ps| - 1]) + [ps[|ps| - 1].stateMonitor.Snapshot()]
  }

  class CohortOutcomes {
    var survivalTimes: seq<real>
    var timesToAIDS: seq<real>
    var meanSurvivalTime: Option<real>
    var meanTimeToAIDS: Option<real>
    var nLivingPatients: Option<SurvivalCurve>

    function State(): OutcomesState
      reads this
    {
      OutcomesState(survivalTimes, timesToAIDS, meanSurvivalTime, meanTimeToAIDS, nLivingPatients)
    }

    constructor ()
      ensures State() == NoOutcomes
    {
      survivalTimes := [];
      timesToAIDS := [];
      meanSurvivalTime := None;
      meanTimeToAIDS := None;
      nLivingPatients := None;
    }

    /** Record the survival time and time to AIDS of each patient, then the means and the curve. */
    method ExtractOutcomes(simulatedPatients: seq<Patient>) returns (status: Status)
      requires forall i :: 0 <= i < |simulatedPatients| ==> WellFormed(simulatedPatients[i].stateMonitor.Snapshot())
      modifies this
      ensures Extraction(State(), status) == Extracted(old(State()), Snapshots(simulatedPatients))
    {
      ghost var o := State();
      ghost var ms := Snapshots(simulatedPatients);
      RecordTimes(simulatedPatients);
      assert State() == o.(survivalTimes := o.survivalTimes + Collect(ms, SurvivalTimeOf),
                           timesToAIDS := o.timesToAIDS + Collect(ms, AIDSTimeOf));
      status := Summarize(|simulatedPatients|);
      assert Snapshots(simulatedPatients) == ms;
    }

    /** The loop of `extract_outcomes`: append each patient's survival time, if any, and its
        time to AIDS, if it developed AIDS, in patient order. */
    method RecordTimes(simulatedPatients: seq<Patient>)
      requires forall i :: 0 <= i < |simulatedPatients| ==> WellFormed(simulatedPatients[i].stateMonitor.Snapshot())
      modifies this`survivalTimes, this`timesToAIDS
      ensures survivalTimes == old(survivalTimes) + Collect(old(Snapshots(simulatedPatients)), SurvivalTimeOf)
      ensures timesToAIDS == old(timesToAIDS) + Collect(old(Snapshots(simulatedPatients)), AIDSTimeOf)
      ensures meanSurvivalTime == old(meanSurvivalTime) && meanTimeToAIDS == old(meanTimeToAIDS)
      ensures nLivingPatients == old(nLivingPatients)
    {
      ghost var ms := Snapshots(simulatedPatients);
      ghost var survivalTimes0, timesToAIDS0 := survivalTimes, timesToAIDS;
      for i := 0 to |simulatedPatients|
        invariant survivalTimes == survivalTimes0 + Collect(ms[..i], SurvivalTimeOf)
        invariant timesToAIDS == timesToAIDS0 + Collect(ms[..i], AIDSTimeOf)
      {
        var monitor := simulatedPatients[i].stateMonitor;
        var survivalTime, ifDevelopedAIDS, timeToAIDS := monitor.survivalTime, monitor.ifDevelopedAIDS, monitor.timeToAIDS;
        assert Pick(ms[i], SurvivalTimeOf) == survivalTime by { assert monitor.Snapshot() == ms[i]; }
        assert Pick(ms[i], AIDSTimeOf) == (if ifDevelopedAIDS then timeToAIDS else None) by { assert monitor.Snapshot() == ms[i]; }
        RecordStep(survivalTimes0, ms, i, SurvivalTimeOf);
        RecordStep(timesToAIDS0, ms, i, AIDSTimeOf);
        if survivalTime.Some? {
          survivalTimes := survivalTimes + [survivalTime.value];
        }
        if ifDevelopedAIDS {
          timesToAIDS := timesToAIDS + [timeToAIDS.value];
        }
      }
      assert ms[..|simulatedPatients|] == ms;
    }

    /** The means of the two lists and the survival curve, as `extract_outcomes` computes them
        after its loop; `sum(l) / len(l)` raises on an empty list. */
    method Summarize(populationSize: int) returns (status: Status)
      modifies this
      ensures Extraction(State(), status) == Summarized(old(State()), populationSize)
    {
      if |survivalTimes| == 0 {
        return ZeroDivisionError;
      }
      meanSurvivalTime := Some(Mean(survivalTimes));
      if |timesToAIDS| == 0 {
        return ZeroDivisionError;
      }
      meanTimeToAIDS := Some(Mean(timesToAIDS));
      nLivingPatients := Some(LivingPatientsCurve(populationSize, survivalTimes));
      status := Completed;
    }
  }
}
