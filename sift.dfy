/** A complete test: play the game, then analyse the recorded rounds. */
module Sift {
  import opened Types
  import opened Tables
  import opened Simulation
  import opened ResultsAnalysis

  /** run_and_analyze_sift: the history of the simulation together with its
      analysis over the same state and action lists; a simulation that fails
      makes the whole call fail with the same error. */
  method RunAndAnalyzeSift(numRounds: int, states: seq<State>, actions: seq<Action>,
                           speaker: Speaker, listener: Listener, rng: Rng)
    returns (r: Result<(seq<Round>, Analysis)>)
    ensures var sim := Simulate(Config(states, actions, speaker, listener), rng, numRounds);
            && (r.Ok? <==> sim.Ok?)
            && (r.Err? ==> r.error == sim.error)
            && (r.Ok? ==> r.value.0 == sim.value && Describes(r.value.1, r.value.0, states))
  {
    var history := CreateSiftSimulation(numRounds, states, actions, speaker, listener, rng);
    if history.Err? {
      return Err(history.error);
    }
    var analysis := AnalyzeResults(history.value, states, actions);
    r := Ok((history.value, analysis));
  }

  /** When the speaker names each state the same way in every round, the
      analysis reports every listed state as consistent exactly when it was
      observed at least once. */
  lemma RoundIndependentSpeakerIsConsistent(cfg: Config, rng: Rng, numRounds: int, a: Analysis)
    requires forall s, r1, r2 :: s in cfg.states ==> Speak(cfg, s, r1) == Speak(cfg, s, r2)
    requires Simulate(cfg, rng, numRounds).Ok?
    requires Describes(a, Simulate(cfg, rng, numRounds).value, cfg.states)
    ensures var h := Simulate(cfg, rng, numRounds).value;
            forall s :: s in a.signalConsistency ==>
              (a.signalConsistency[s] <==> exists i :: 0 <= i < |h| && h[i].state == s)
  {
    var k := RoundCount(numRounds);
    var h := Simulate(cfg, rng, numRounds).value;
    RoundsShape(cfg, rng, k);
    forall i, j | 0 <= i < |h| && 0 <= j < |h| && h[i].state == h[j].state
      ensures h[i].signal == h[j].signal
    {
      RoundRecord(cfg, rng, k, i);
      RoundRecord(cfg, rng, k, j);
    }
  }

  /** Under the built-in speaker every listed state is reported consistent
      exactly when it was observed, whatever the state list holds. */
  lemma DefaultSpeakerIsConsistent(cfg: Config, rng: Rng, numRounds: int, a: Analysis)
    requires cfg.speaker.DefaultSpeaker?
    requires Simulate(cfg, rng, numRounds).Ok?
    requires Describes(a, Simulate(cfg, rng, numRounds).value, cfg.states)
    ensures var h := Simulate(cfg, rng, numRounds).value;
            forall s :: s in a.signalConsistency ==>
              (a.signalConsistency[s] <==> exists i :: 0 <= i < |h| && h[i].state == s)
  {
    RoundIndependentSpeakerIsConsistent(cfg, rng, numRounds, a);
  }

  /** Under the built-in speaker no signal is ever reported as ambiguous,
      whatever the state list holds. */
  lemma DefaultSpeakerIsUnambiguous(cfg: Config, rng: Rng, numRounds: int, a: Analysis)
    requires cfg.speaker.DefaultSpeaker?
    requires Simulate(cfg, rng, numRounds).Ok?
    requires Describes(a, Simulate(cfg, rng, numRounds).value, cfg.states)
    ensures forall sig :: sig in a.signalAmbiguity ==> !a.signalAmbiguity[sig]
  {
    var k := RoundCount(numRounds);
    var h := Simulate(cfg, rng, numRounds).value;
    RoundsShape(cfg, rng, k);
    forall i, j | 0 <= i < |h| && 0 <= j < |h| && h[i].signal == h[j].signal
      ensures h[i].state == h[j].state
    {
      DefaultSpeakerOneToOne(cfg, rng, k, i, j);
    }
  }
}
