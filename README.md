# Markov-chain cohort simulation of HIV progression, modelled in Dafny

The model covers `MarkovModelClasses.py`: the simulation core of a discrete-time Markov model of
HIV. Each patient is an independent Markov chain over health states (CD4 200–500, CD4 < 200,
AIDS, HIV death). The patient's `PatientStateMonitor` records the current state, the survival time
and the time to AIDS, both with a half-cycle correction (`k + 0.5`). `Patient.simulate` steps the chain
until the patient dies or the horizon is reached. `Cohort` creates patients with ids
`id * pop_size + i`, simulates them one after another, and hands them to
`CohortOutcomes.extract_outcomes`. That method collects the survival times and times to AIDS
in patient order, takes their means, and builds the inputs of the survival curve.

Files, one module each:

- `health_states.dfy` (`HealthStates`): the health-state enumeration with its dense index (`Value`, `FromValue`) and the K×K transition matrix.
- `monitors.dfy` (`Monitors`): the monitor's fields as a value (`MonitorState`), the effect of one `update` (`Updated`), the invariants `WellFormed` and `Consistent`, and the class `PatientStateMonitor`. The class has a ghost `history` that records every `update` call it receives.
- `patients.dfy` (`Patients`): the sampler oracle and the driver loop as a function (`Drive`, giving the final monitor and the list of `update` calls). `Run` is one `simulate` call on a patient's view: its monitor, the calls it received and the position of its random stream. The class `Patient` keeps that position in a field `draws` and has a `Simulate` loop proved against `Run`.
- `outcomes.dfy` (`Outcomes`): in-order collection (`Collect`), `Sum`/`Mean`, the survival-curve inputs and their population count, the effect of `extract_outcomes` (`Extracted`), and the class `CohortOutcomes`.
- `cohorts.dfy` (`Cohorts`): the id scheme with its inverse, and the class `Cohort`.
- `scenarios.dfy` (`Scenarios`): two limiting matrices (everybody dies at once; nobody ever moves) and what the code does with them, and a stream that shows a second `simulate` call continuing the first one's draws.

The random sampler is a parameter `sample(seed, draw, row)`. It returns the state index that the
random stream seeded with `seed` yields at its `draw`-th draw from the probabilities `row`. The
patient's seed is its id. The stream is created once per patient, in `Patient.__init__`, and every
loop turn of every `simulate` call samples from it once. So the patient keeps its position in the
stream (`Patient.draws`, 0 for a new patient), and step k of a `simulate` call that starts at
position d makes draw d + k. Any deterministic per-patient stream fits this form, because what a
sample returns is fixed by the seed and the number of samples taken before it.

## Model

| member | source | states |
|---|---|---|
| `HealthStates.Value` | MarkovModelClasses.py:26 | the value of a state is an index below K, a row of the K×K matrix |
| `HealthStates.ValueRoundTrip` | MarkovModelClasses.py:36 | `HealthState(s.value)` is s: the index table is a bijection, one direction |
| `HealthStates.FromValueRoundTrip` | MarkovModelClasses.py:36 | every index below K names the state whose value it is: the other direction |
| `HealthStates.FromValue` | MarkovModelClasses.py:36 | `HealthState(i)` for an index below K; inverse of `Value` (see the two round-trip lemmas) |
| `Monitors.PatientStateMonitor.constructor` | MarkovModelClasses.py:44-49 | a new monitor is in CD4_200to500 with no survival time, no time to AIDS, the AIDS flag false and no calls received |
| `Monitors.PatientStateMonitor.Update` | MarkovModelClasses.py:51-72 | the new fields are `Updated` of the old ones, and the call is appended to the history |
| `Monitors.PatientStateMonitor.GetIfAlive` | MarkovModelClasses.py:74-79 | true exactly when the current state is not HIV_DEATH |
| `Monitors.Updated` | MarkovModelClasses.py:58-72 | the effect of one `update` call on the four fields, branch by branch; its properties are the lemmas below |
| `Monitors.UpdateFrozenAfterDeath` | MarkovModelClasses.py:58-60 | an update of a dead patient changes no field (state, survival time, time to AIDS, flag) |
| `Monitors.UpdateRecordsDeath` | MarkovModelClasses.py:62-72 | on a live patient the state becomes the new state; the survival time becomes k + 0.5 exactly when the new state is HIV_DEATH and is otherwise kept |
| `Monitors.UpdateRecordsAIDSEntry` | MarkovModelClasses.py:66-69 | flag and time to AIDS (k + 0.5, overwriting any earlier time) are set exactly on a move from a non-AIDS state into AIDS; otherwise both are kept |
| `Monitors.UpdatePreservesWellFormed` | MarkovModelClasses.py:58-72 | every update keeps "survival time recorded iff dead" and "AIDS flag iff time to AIDS recorded" |
| `Monitors.SurvivalTimeSetOnce` | MarkovModelClasses.py:58-64 | in a well-formed monitor, alive iff no survival time; a recorded survival time is never changed again |
| `Monitors.InitialConsistent` | MarkovModelClasses.py:44-49 | the initial monitor is alive and consistent with zero steps |
| `Monitors.UpdateKeepsConsistent` | MarkovModelClasses.py:58-72 | the update for step k after steps 0..k-1 keeps all times in {0.5, ..., k + 0.5} and AIDS strictly before death |
| `Patients.NextState` | MarkovModelClasses.py:26-36 | the state the stream's draw gives from the matrix row of the current state |
| `Patients.Drive` | MarkovModelClasses.py:20-39 | the driver loop from step k, as the final monitor and the `update` calls made; its properties are the lemmas below |
| `Patients.Run` | MarkovModelClasses.py:17-39 | one `simulate(n)` call on a patient's view: the monitor ends as `Drive` takes it, the calls are appended to its history, and the stream moves on by one draw per call |
| `Patients.DriveShape` | MarkovModelClasses.py:20-39 | the loop calls update with steps k, k+1, ... and makes at most n - k calls; a dead patient gets no call; no call follows a death; it stops early only because the last call killed the patient |
| `Patients.DriveReplays` | MarkovModelClasses.py:20-39 | the final monitor is the effect of replaying the recorded calls in order |
| `Patients.DrivePreservesWellFormed` | MarkovModelClasses.py:20-39 | simulating keeps the monitor well formed |
| `Patients.DriveKeepsConsistent` | MarkovModelClasses.py:20-39 | a monitor consistent with steps 0..k-1 ends consistent with the horizon |
| `Patients.SimulatedPatientOutcomes` | MarkovModelClasses.py:17-39 | for a fresh monitor, at any stream position, any survival time and time to AIDS lies in {0.5, ..., n - 0.5}; AIDS, when recorded, comes strictly before death; survival time recorded iff dead |
| `Patients.Patient.constructor` | MarkovModelClasses.py:7-15 | the patient keeps its id and matrix, owns a fresh initial monitor with no calls, and its stream (seeded with the id) has made no draw |
| `Patients.Patient.Simulate` | MarkovModelClasses.py:17-39 | the patient's new view is `Run` of its old one: the monitor ends as `Drive` from its old state and stream position, it received exactly `Drive`'s calls, and the stream advanced by one draw per call |
| `Outcomes.Collect` | MarkovModelClasses.py:127-131 | a collected list is no longer than the patient list |
| `Outcomes.CollectSnoc` | MarkovModelClasses.py:127-131 | one more patient appends its value, if it has one |
| `Outcomes.CollectConcat` | MarkovModelClasses.py:127-131 | collecting keeps patient order: the list for a + b is the list for a followed by the list for b |
| `Outcomes.CollectMembership` | MarkovModelClasses.py:127-131 | a time is in the list iff some patient contributes it |
| `Outcomes.CollectEmpty` | MarkovModelClasses.py:127-131 | the list is empty iff no patient contributes a value |
| `Outcomes.Sum` | MarkovModelClasses.py:134 | Python's `sum` of a list of times, left to right; bounded by `SumBounds` |
| `Outcomes.Mean` | MarkovModelClasses.py:134 | for a non-empty list, mean × length = sum |
| `Outcomes.MeanBounds` | MarkovModelClasses.py:134 | the mean lies between any bounds of the values |
| `Outcomes.CollectedTimesBounded` | MarkovModelClasses.py:127-136 | for simulated patients every collected time, and the mean of a non-empty list, lies in [0.5, n - 0.5] |
| `Outcomes.LivingPatientsCurve` | MarkovModelClasses.py:139-144 | the curve starts at the population size and has one -1 change at each survival time |
| `Outcomes.CountAliveAt` | MarkovModelClasses.py:139-144 | at most the number of patients are alive at any time |
| `Outcomes.CurveCountsLiving` | MarkovModelClasses.py:139-144 | at every time t the curve's population equals the number of patients alive at t |
| `Outcomes.Summarized` | MarkovModelClasses.py:133-144 | the means and the curve assigned in source order, stopping with ZeroDivisionError at the first empty list |
| `Outcomes.Extracted` | MarkovModelClasses.py:126-144 | the loop's appends followed by `Summarized` with the number of patients |
| `Outcomes.ExtractionFromScratch` | MarkovModelClasses.py:122-144 | from empty outcomes: the lists are the patients' times in order; extraction completes iff some patient died and some developed AIDS; then the means are the lists' means and the curve counts the living |
| `Outcomes.Snapshots` | MarkovModelClasses.py:127-131 | the monitor states read from the patients, one per patient, in order |
| `Outcomes.CohortOutcomes.constructor` | MarkovModelClasses.py:114-120 | new outcomes hold empty lists, no means and no curve |
| `Outcomes.CohortOutcomes.ExtractOutcomes` | MarkovModelClasses.py:122-144 | the new fields and the status are `Extracted` of the old fields and the patients' monitors |
| `Outcomes.CohortOutcomes.RecordTimes` | MarkovModelClasses.py:126-131 | the lists grow by the patients' survival times and times to AIDS, in order; nothing else changes |
| `Outcomes.CohortOutcomes.Summarize` | MarkovModelClasses.py:133-144 | the means and the curve are assigned in source order, stopping with ZeroDivisionError at the first empty list |
| `Cohorts.PatientId` | MarkovModelClasses.py:96 | the id `id * pop_size + i` of patient i; see the two lemmas below |
| `Cohorts.PopulationOf` | MarkovModelClasses.py:94 | the number of iterations of `range(pop_size)`: pop_size, or 0 when it is negative |
| `Cohorts.PatientIdDecodes` | MarkovModelClasses.py:95-96 | the id `id * pop_size + i` gives back the cohort id (quotient) and the index i (remainder) |
| `Cohorts.PatientIdsDistinct` | MarkovModelClasses.py:95-96 | ids are pairwise distinct within a cohort and across cohorts of the same size |
| `Cohorts.Cohort.constructor` | MarkovModelClasses.py:83-98 | max(pop_size, 0) patients in creation order; patient i has id `id * pop_size + i`, the shared matrix, its own fresh initial monitor and a stream that has made no draw; outcomes are empty |
| `Cohorts.Cohort.Simulate` | MarkovModelClasses.py:100-110 | every patient's view becomes `Run` of its old view (its monitor, its calls and its stream position, so a second cohort run continues each stream); then the outcomes are `Extracted` from all of them once, and the status is returned |
| `Cohorts.Cohort.SimulatePatients` | MarkovModelClasses.py:104-107 | each patient is simulated in turn from its own old view and stream position; no patient's run touches another's monitor or stream |
| `Scenarios.ImmediateDeath` | MarkovModelClasses.py:20-39 | with the all-death matrix a patient dies in step 0: survival time 0.5, no AIDS, a single update call |
| `Scenarios.AllDieCohort` | MarkovModelClasses.py:127-144 | if every patient died in step 0 the survival list is all 0.5 with mean 0.5, but the mean time to AIDS divides by zero; the survival curve drops from N to 0 at 0.5 |
| `Scenarios.NeverMoves` | MarkovModelClasses.py:20-39 | with the identity matrix a patient stays in its initial state for the whole horizon |
| `Scenarios.SecondRunContinuesStream` | MarkovModelClasses.py:13-39 | two `simulate(1)` calls on a new patient use draws 0 and 1 of its stream: with a stream that stays on draw 0 and moves on draw 1, the first call keeps the patient in CD4_200to500 and the second moves it to CD4_200 |
| `Scenarios.SecondRunBreaksConsistency` | MarkovModelClasses.py:20-39 | with a stream that stays, then enters AIDS, then dies, `simulate(2)` followed by `simulate(1)` leaves time to AIDS 1.5 and survival time 0.5: the monitor is consistent after the first call and not after the second, because `k` restarts at 0 |
| `Scenarios.NobodyMovesCohort` | MarkovModelClasses.py:133-134 | if nobody moved, both lists are empty and extraction stops at the first mean with ZeroDivisionError, changing nothing |

## Notes on the source's behaviour

- `timeToAIDS` is written on every move into AIDS. With a matrix that lets a patient leave AIDS and come back, the later entry overwrites the earlier time. It is not set at most once.
- An empty survival list or AIDS list makes `sum(l) / len(l)` raise ZeroDivisionError. The code has no other policy for an empty cohort outcome. The model returns the status `ZeroDivisionError` and keeps the fields that were already assigned when the error was raised.
- So a cohort in which everybody dies before developing AIDS raises at `meanTimeToAIDS`, after `meanSurvivalTime` has been set, and gets no survival curve (`Scenarios.AllDieCohort`).
- The survival times are handed to the curve in patient order, unsorted. Any ordering is up to the sample-path class. The population count at a time does not depend on that order.
- A second call of `Cohort.simulate` simulates the patients again from where they stopped, with the time step starting again at 0 and each random stream continuing where it stopped. It also appends their times to the lists a second time. The model keeps this: every method is specified relative to the old state, including the stream position (`Scenarios.SecondRunContinuesStream`).
- Because the time step starts again at 0, a second `simulate` call stamps its times from 0.5 again. It can record a death earlier than the time to AIDS the first call recorded, and the monitor can hold times beyond the second call's horizon (`Scenarios.SecondRunBreaksConsistency`). The time bounds and "AIDS before death" hold for one call on a fresh monitor, not across calls.

## Left out

- Random numbers: `RNG(seed=id)` and `Empirical(...).sample` are foreign code. They are replaced by the sampler parameter, which must return an index of the row it samples from (`ValidSampler`). The random stream, its seeding and the inverse-CDF sampling are not modelled.
- Row validation (negative entries, row sums, tolerance) happens inside the foreign sampler and is not modelled. The matrix is any K×K matrix of reals.
- `PrevalencePathBatchUpdate` is foreign sample-path code. Only its inputs are modelled: the initial size, the times of change and the increments. The name string and any plotting are left out.
- Floating point: times and means are exact reals. In Python `k + 0.5` is exact only while |k| < 2^52 (`2**52 + 0.5 == 2**52`), and `sum / len` is rounded; the model does neither rounding.
- InputData is not part of this model. Its enumeration is taken to be the four states CD4_200to500, CD4_200, AIDS and HIV_DEATH with values 0 to 3. The monitor, loop and outcome properties depend only on CD4_200to500, AIDS and HIV_DEATH being distinct states. The stream scenarios in `Scenarios` (`SecondRunContinuesStream`, `SecondRunBreaksConsistency`) also use the values 0 to 3 of the states. The matrix contents are a parameter.
- `HealthState(i)` raising ValueError for an index outside the enumeration cannot happen, because the sampler returns an index of a K-entry row, so it is not modelled.
- Outcomes.CohortOutcomes.ExtractOutcomes: requires every monitor to be well formed (AIDS flag iff a time to AIDS). Every monitor built and updated by the code is well formed, so the path where Python would append `None` to `timesToAIDS` is not modelled.
- Consistency of times (all midpoints below the horizon, AIDS before death) is proved for a fresh monitor driven by one `simulate` call, at any stream position (`SimulatedPatientOutcomes`); a second call can break it, as the notes above say. Direct calls of `update` with arbitrary, out-of-order time steps are modelled by `Update` but not covered by those lemmas.
- `extract_outcomes` and `Cohort.simulate` are each modelled as a method that calls two helper methods, one per phase of the source (the loop, then the summary). This keeps each proof small. The helpers are `RecordTimes` and `Summarize`, and `SimulatePatients`.
- Exceptions other than the division by zero (a malformed matrix row, a sampler error) are excluded by the preconditions `WellFormedMatrix` and `ValidSampler`.
