# SIFT signalling game — a Dafny model

The Simple Instruction Following Test (SIFT) is a signalling game between two
agents. A speaker observes a random state and sends a signal. A listener receives
the signal and picks an action. The round is correct when the action is the one
the default mapping gives for that signal. After the game, the history is
analysed: the number of rounds and of correct rounds, the accuracy, whether each
listed state was observed and always named by the same signal (an unobserved
state is reported false), and whether any signal was used for two different
states.

The model follows `demo.py`.

- `types.dfy`, module `Types`, holds the round record, the error kinds and a
  `Result` type.
- `tables.dfy`, module `Tables`, holds the tables a run builds before play:
  - the signal names `signal_0 … signal_{n-1}`, with `str(i)` written out as `Decimal`;
  - `dict(zip(…))` as `ZipMap`, where a later duplicate key overwrites and the
    shorter list decides the length;
  - `state_signal_mapping` and `signal_action_mapping`;
  - the default speaker.
- `simulation.dfy`, module `Simulation`, holds the rounds:
  - the default listener;
  - a pure round-by-round specification, `Step`, `Rounds` and `Simulate`;
  - the imperative `CreateSiftSimulation`, whose loop is proved against that
    specification;
  - lemmas about what every record of a run says.
- `analysis.dfy`, module `ResultsAnalysis`, holds `analyze_results`. Its loops
  are proved against `Describes`, a predicate that says what each field of the
  analysis means. `DescribesUnique` shows that `Describes` determines the whole
  analysis.
- `sift.dfy`, module `Sift`, holds `run_and_analyze_sift` and the facts that
  connect the two halves. Under the default speaker every observed state is
  reported consistent and no signal is reported ambiguous, even when the state
  list repeats a state.

Randomness is a parameter `rng: nat -> nat`. The k-th call of `random.choice(xs)`
in a run, counting from 0, returns `xs[rng(k) % |xs|]`. Every random source has
this form, so the proofs hold for every sequence of choices. The state of a round
is always drawn. The default listener draws only for a signal it has not seen
before.

`random.choice` of an empty list raises in the source. The model returns
`Err(EmptyStateSpace)` for an empty state list with at least one round to play.
It returns `Err(EmptyActionSpace)` when the default listener meets a new signal
and the action list is empty. `run_and_analyze_sift` passes that error on.

A caller's speaker or listener is a Dafny function. The speaker takes (state,
round number). The listener takes (signal, listener memory, round number).

## Model

| member | source | states |
|---|---|---|
| Tables.Decimal | demo.py:23 | `str(i)` is a non-empty string of decimal digits; it has one digit exactly when i < 10 |
| Tables.DecimalRoundTrip | demo.py:23 | reading the decimal rendering back gives the number |
| Tables.SignalNameInjective | demo.py:21-23 | `signal_i` and `signal_j` are equal exactly when i = j |
| Tables.SignalName | demo.py:23 | definition of the f-string `f"signal_{i}"`; its property is in `SignalNameInjective` |
| Tables.Signals | demo.py:22-23 | one generated signal per state, the i-th being `signal_i` |
| Tables.SignalsDistinct | demo.py:21-23 | the generated signals are unique |
| Tables.ZipMap | demo.py:26-27 | definition of `dict(zip(ks, vs))`; its properties are in `ZipMapKeys` and `ZipMapAt` |
| Tables.ZipMapKeys | demo.py:26-27 | `dict(zip(ks, vs))` has exactly the keys at positions below both lengths |
| Tables.ZipMapAt | demo.py:26-27 | a key's value is the one zipped with its last occurrence |
| Tables.StateSignalMapping | demo.py:26 | definition of `state_signal_mapping`; its properties are in `DefaultSpeakLast` and `DefaultSpeakSeparates` |
| Tables.SignalActionMapping | demo.py:27 | definition of `signal_action_mapping`; its properties are in `SignalActionMappingKeys` and `SignalActionMappingAt` |
| Tables.SignalActionMappingKeys | demo.py:27 | only signals `signal_i` with i below both list lengths have a correct action |
| Tables.SignalActionMappingAt | demo.py:27 | `signal_i` is mapped exactly when i is below both lengths, and then to the i-th action |
| Tables.DefaultSpeak | demo.py:33-37 | definition of `default_speaker_strategy`; its properties are in `DefaultSpeakLast`, `DefaultSpeakSeparates` and `DefaultSpeakerInjective` |
| Tables.LastIndex | demo.py:26 | the last position of a listed state, which is the position whose signal `dict(zip(...))` keeps |
| Tables.DefaultSpeakLast | demo.py:26-37 | the default speaker names a state by the signal of its last position in the state list |
| Tables.DefaultSpeakerInjective | demo.py:26-37 | over distinct states the i-th state gets `signal_i` in every round, and different states get different signals |
| Tables.DefaultSpeakSeparates | demo.py:26-37 | for any state list, duplicates included, two listed states get the same default signal exactly when they are the same state |
| Simulation.Choice | demo.py:66 | the random choice is an element of the list |
| Simulation.Speak | demo.py:56-69 | definition of the speaker call, with the default strategy used when none is given; its properties are in `RoundRecord` and `DefaultSpeakSeparates` |
| Simulation.Listen | demo.py:56-72 | definition of the listener call, with the default strategy used when none is given; its properties are in `RoundRecord`, `DefaultListenerPicksActions` and `DefaultListenerRepeats` |
| Simulation.DefaultListen | demo.py:39-54 | a known signal gets the remembered action; a new one gets one of the actions; it fails exactly for a new signal with no actions |
| Simulation.IsCorrect | demo.py:75-76 | definition of the verdict `action == signal_action_mapping.get(signal)`; its properties are in `RoundRecord` and `CorrectRoundUsesGeneratedSignal` |
| Simulation.Step | demo.py:65-88 | definition of one round; its properties are in `StepAppends`, `RoundUpdatesMemory` and `RoundRecord` |
| Simulation.Rounds | demo.py:63-64 | definition of the rounds 1..k in order, stopping at the first failure; its properties are in `RoundsFailIff`, `RoundsShape`, `RoundsMemory` and `RoundsPrefix` |
| Simulation.Simulate | demo.py:62-89 | definition of the history a whole run returns; its properties are in `SimulateOutcome` |
| Simulation.MemoryAfter | demo.py:72-79 | the memory's keys are exactly the signals used so far, and each value is the action of a round with that signal |
| Simulation.MemoryAfterLastWrite | demo.py:79 | the memory holds, for each signal, the action of the last round that used it |
| Simulation.RoundCount | demo.py:64 | definition of the length of `range(1, num_rounds + 1)`; its property is in `CreateSiftSimulation` |
| Simulation.CreateSiftSimulation | demo.py:62-89 | the result is the specified run; it fails exactly when a round is due and either no state exists or the default listener has no action; otherwise it has `max(num_rounds, 0)` records numbered 1, 2, … |
| Simulation.SimulateOutcome | demo.py:50-89 | the failure condition of a run, its length and its round numbering |
| Simulation.RoundsErrPersists | demo.py:64-66 | once a round fails, the whole call fails with that error |
| Simulation.RoundsFailIff | demo.py:50-66 | a run of k rounds fails exactly when k > 0 and the state list is empty, or the default listener has an empty action list |
| Simulation.RoundsShape | demo.py:64-88 | after k rounds the history has k records numbered 1..k |
| Simulation.RoundsMemory | demo.py:72-79 | after k rounds the listener memory is what the recorded rounds wrote, in order |
| Simulation.StepAppends | demo.py:82-88 | a round appends one record and keeps the earlier ones |
| Simulation.RoundsPrefix | demo.py:63-89 | the first j records of a run are the run of j rounds |
| Simulation.RoundUpdatesMemory | demo.py:79 | round k writes its action under its signal and leaves every other memory entry unchanged |
| Simulation.RoundRecord | demo.py:65-88 | each record holds a listed state, the speaker's signal for it, the listener's answer to the memory left by earlier rounds, and a verdict that is true exactly when the action is the mapped one |
| Simulation.CorrectRoundUsesGeneratedSignal | demo.py:75-76 | a correct round used some `signal_j` with j below both lengths, and its action is the j-th action |
| Simulation.DefaultListenerPicksActions | demo.py:39-54 | under the default listener every recorded action is one of the actions |
| Simulation.DefaultListenerRepeats | demo.py:45-46 | under the default listener a repeated signal gets the same action, and so the same verdict, as before |
| Simulation.DefaultSpeakerOneToOne | demo.py:66-69 | under the default speaker, for any state list, two rounds share a signal exactly when they observed the same state |
| ResultsAnalysis.Consistent | demo.py:118-125 | definition of a consistent state: observed, and always named by one signal; tied to the source's test by `ConsistentBySignals` |
| ResultsAnalysis.Ambiguous | demo.py:127-132 | definition of an ambiguous signal: sent for two different states; tied to the source's test by `AmbiguousByStates` |
| ResultsAnalysis.Describes | demo.py:103-142 | definition of what each field of the analysis means; `AnalyzeResults` meets it and `DescribesUnique` shows it determines the analysis |
| ResultsAnalysis.CountCorrect | demo.py:104 | the correct count is at most the round count; it equals it exactly when every round is correct, and is 0 exactly when none is |
| ResultsAnalysis.Accuracy | demo.py:105 | accuracy is 0 without rounds; otherwise it times the round count gives the correct count, it lies in [0, 1], and it is 1 exactly when all rounds are correct |
| ResultsAnalysis.SignalsFor | demo.py:112-116 | the signals grouped under a state are exactly the signals of the rounds that observed it |
| ResultsAnalysis.StatesFor | demo.py:128-131 | the states collected for a signal are exactly the states of the rounds that sent it |
| ResultsAnalysis.UsedSignals | demo.py:127 | definition of `set(round_data["signal"] for round_data in history)`; its property is in `Describes` and `AmbiguityVerdicts` |
| ResultsAnalysis.SeveralStates | demo.py:132 | definition of `len(set(states_for_signal)) > 1`; its property is in `AmbiguousByStates` |
| ResultsAnalysis.MoreThanOne | demo.py:132 | a set has more than one element exactly when it holds two different ones |
| ResultsAnalysis.ConsistentBySignals | demo.py:118-125 | "non-empty and all equal to the first" holds exactly when the state was observed and always named by one signal |
| ResultsAnalysis.AmbiguousByStates | demo.py:127-132 | "more than one distinct state" holds exactly when the signal was sent for two different states |
| ResultsAnalysis.SumCorrect | demo.py:104 | the loop sums the correct rounds |
| ResultsAnalysis.GroupSignals | demo.py:108-116 | there is one list per listed state, holding in round order the signals of the rounds that observed it |
| ResultsAnalysis.ConsistencyVerdicts | demo.py:118-125 | each listed state is true exactly when it was observed and always named by one signal |
| ResultsAnalysis.CollectStates | demo.py:128-131 | the inner loop collects, in round order, the states of the rounds that sent the signal |
| ResultsAnalysis.AmbiguityVerdicts | demo.py:127-132 | every used signal, and no other, gets a verdict, which is true exactly when it was sent for two different states |
| ResultsAnalysis.AnalyzeResults | demo.py:91-142 | the analysis has the round count, the correct count and accuracy, and the consistency and ambiguity verdicts with the meanings above |
| ResultsAnalysis.DescribesUnique | demo.py:135-142 | these meanings determine the analysis completely |
| Sift.RunAndAnalyzeSift | demo.py:144-160 | the history is the simulation's and the analysis describes it; a failing simulation makes the call fail with the same error |
| Sift.RoundIndependentSpeakerIsConsistent | demo.py:118-125 | a speaker that names each state the same way in every round makes every listed state consistent exactly when it was observed |
| Sift.DefaultSpeakerIsConsistent | demo.py:118-125 | under the default speaker every listed state is consistent exactly when it was observed |
| Sift.DefaultSpeakerIsUnambiguous | demo.py:127-132 | under the default speaker no signal is ambiguous, for any state list |

## Left out

- `models.py` is not part of this model. It wraps calls to a remote language-model service.
- The `__main__` block of `demo.py` is left out. It prints results and runs example strategies.
- Python's Mersenne-Twister generator is left out. It is replaced by the `rng` parameter, and every choice it could make is covered.
- Caller strategies are modelled as deterministic total functions. Any randomness or state hidden inside them is left out. A strategy that raises an exception is also left out.
- `accuracy` is an exact real. Python computes a float, and an `int` 0 for an empty history.
- `analyze_results` overwrites the per-state signal lists in `signal_consistency` with booleans in place. The model builds two maps instead: `GroupSignals` builds the map of signal lists and `ConsistencyVerdicts` builds the map of verdicts from it. The final map is the same.
- A caller's listener receives the live `listener_memory` dictionary. It could change it, keep a reference to it or read its key order. The model passes the memory as an immutable map, so none of that is captured.
- The docstring of `create_sift_simulation` says the default speaker uses a random signal from a predefined set. The code looks the state up in `state_signal_mapping` and draws nothing, and the model follows the code.
- The key order of the returned dictionaries is left out. Dafny maps are unordered.
- The `action_space` argument of `analyze_results` is accepted but not used, as in the source.
- The untyped inputs the source would accept are left out: non-string states, non-boolean `is_correct` fields, and a non-integer `num_rounds`. States, signals and actions are strings.
- The fallback `random.choice(action_space)` of the default listener is reached only with an empty action list. That call always raises, so it is modelled as the `EmptyActionSpace` error.
