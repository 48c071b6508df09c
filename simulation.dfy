/** The signalling game itself: a speaker names an observed state with a signal,
    a listener answers with an action, and each round is judged and recorded. */
module Simulation {
  import opened Types
  import opened Tables

  /** The speaker: the built-in strategy, or a caller's function of (state, round number). */
  datatype Speaker = DefaultSpeaker | CustomSpeaker(speak: (State, int) -> Signal)

  /** The listener: the built-in strategy, or a caller's function of
      (signal, listener memory, round number). */
  datatype Listener = DefaultListener | CustomListener(listen: (Signal, map<Signal, Action>, int) -> Action)

  datatype Config = Config(states: seq<State>, actions: seq<Action>, speaker: Speaker, listener: Listener)

  /** The pseudo-random source of a run: the k-th call of `random.choice(xs)`
      (counting from 0) picks `xs[rng(k) % |xs|]`; any source is allowed. */
  type Rng = nat -> nat

  /** What a run has built after some rounds: the listener's memory (signal to
      last action), the history, and how many random draws were made. */
  datatype Run = Run(memory: map<Signal, Action>, history: seq<Round>, draws: nat)

  /** `random.choice(xs)` made with the given draw. */
  function Choice<T>(xs: seq<T>, rng: Rng, draw: nat): (x: T)
    requires |xs| > 0
    ensures x in xs
  {
    xs[rng(draw) % |xs|]
  }

  /** The signal the configured speaker sends for an observed state. */
  function Speak(cfg: Config, state: State, roundNumber: int): Signal
    requires state in cfg.states
  {
    match cfg.speaker
    case DefaultSpeaker => DefaultSpeak(cfg.states, state, roundNumber)
    case CustomSpeaker(speak) => speak(state, roundNumber)
  }

  /** default_listener_strategy: repeat the remembered action for a known signal;
      for a new one pick an action at random, which fails on an empty action list. */
  function DefaultListen(actions: seq<Action>, signal: Signal, memory: map<Signal, Action>,
                         roundNumber: int, rng: Rng, draw: nat): (r: Result<Action>)
    ensures r.Err? <==> signal !in memory && actions == []
    ensures signal in memory ==> r == Ok(memory[signal])
    ensures r.Ok? && signal !in memory ==> r.value in actions
  {
    if signal in memory then Ok(memory[signal])
    else if |actions| > 0 then Ok(Choice(actions, rng, draw))
    else Err(EmptyActionSpace)
  }

  /** The action the configured listener picks, given the memory as it stands. */
  function Listen(cfg: Config, signal: Signal, memory: map<Signal, Action>,
                  roundNumber: int, rng: Rng, draw: nat): Result<Action>
  {
    match cfg.listener
    case DefaultListener => DefaultListen(cfg.actions, signal, memory, roundNumber, rng, draw)
    case CustomListener(listen) => Ok(listen(signal, memory, roundNumber))
  }

  /** The number of random draws the listener makes in a round. */
  function ListenerDraws(cfg: Config, signal: Signal, memory: map<Signal, Action>): nat {
    if cfg.listener.DefaultListener? && signal !in memory then 1 else 0
  }

  /** `is_correct`: the action equals `signal_action_mapping.get(signal)`; a signal
      missing from the mapping has no correct action. */
  predicate IsCorrect(mapping: map<Signal, Action>, signal: Signal, action: Action) {
    signal in mapping && mapping[signal] == action
  }

  /** One round: observe a random state, speak, listen, judge, remember, record. */
  function Step(cfg: Config, rng: Rng, run: Run, roundNumber: int): Result<Run> {
    if cfg.states == [] then Err(EmptyStateSpace)
    else
      var state := Choice(cfg.states, rng, run.draws);
      var signal := Speak(cfg, state, roundNumber);
      var listened := Listen(cfg, signal, run.memory, roundNumber, rng, run.draws + 1);
      if listened.Err? then Err(listened.error)
      else
        var action := listened.value;
        var correct := IsCorrect(SignalActionMapping(cfg.states, cfg.actions), signal, action);
        var record := Round(roundNumber, state, signal, action, correct);
        Ok(Run(run.memory[signal := action], run.history + [record],
               run.draws + 1 + ListenerDraws(cfg, signal, run.memory)))
  }

  /** The run after rounds 1..k, or the error of the first round that failed. */
  function Rounds(cfg: Config, rng: Rng, k: nat): Result<Run> {
    if k == 0 then Ok(Run(map[], [], 0))
    else
      match Rounds(cfg, rng, k - 1)
      case Err(e) => Err(e)
      case Ok(run) => Step(cfg, rng, run, k)
  }

  /** `range(1, num_rounds + 1)` has this many elements. */
  function RoundCount(numRounds: int): nat {
    if numRounds > 0 then numRounds else 0
  }

  /** The history a whole run returns. */
  function Simulate(cfg: Config, rng: Rng, numRounds: int): Result<seq<Round>> {
    match Rounds(cfg, rng, RoundCount(numRounds))
    case Err(e) => Err(e)
    case Ok(run) => Ok(run.history)
  }

  /** The listener's memory after the rounds of `h`: every round wrote its action
      under its signal. */
  function MemoryAfter(h: seq<Round>): (m: map<Signal, Action>)
    ensures forall s :: s in m <==> exists i :: 0 <= i < |h| && h[i].signal == s
    ensures forall s :: s in m ==> exists i :: 0 <= i < |h| && h[i].signal == s && m[s] == h[i].action
  {
    if h == [] then map[]
    else
      var p := h[..|h| - 1];
      var m := MemoryAfter(p);
      assert forall i :: 0 <= i < |p| ==> p[i] == h[i];
      m[h[|h| - 1].signal := h[|h| - 1].action]
  }

  /** The memory holds, for each signal, the action of the last round that used it. */
  lemma {:induction false} MemoryAfterLastWrite(h: seq<Round>, i: nat)
    requires i < |h|
    requires forall j :: i < j < |h| ==> h[j].signal != h[i].signal
    ensures h[i].signal in MemoryAfter(h) && MemoryAfter(h)[h[i].signal] == h[i].action
  {
    if i < |h| - 1 {
      var p := h[..|h| - 1];
      assert p[i] == h[i];
      MemoryAfterLastWrite(p, i);
    }
  }

  // ---------------------------------------------------------------------------
  // The simulation loop

  /** create_sift_simulation: plays the rounds 1..numRounds in order, stopping at
      the first failure. */
  method CreateSiftSimulation(numRounds: int, states: seq<State>, actions: seq<Action>,
                              speaker: Speaker, listener: Listener, rng: Rng)
    returns (r: Result<seq<Round>>)
    ensures r == Simulate(Config(states, actions, speaker, listener), rng, numRounds)
    ensures r.Err? <==> numRounds > 0 && (states == [] || (listener.DefaultListener? && actions == []))
    ensures r.Ok? ==> |r.value| == RoundCount(numRounds)
    ensures r.Ok? ==> forall i :: 0 <= i < |r.value| ==> r.value[i].round == i + 1
  {
    var cfg := Config(states, actions, speaker, listener);
    var signalActionMapping := SignalActionMapping(cfg.states, cfg.actions);
    var listenerMemory: map<Signal, Action> := map[];
    var history: seq<Round> := [];
    var draws: nat := 0;
    var roundNumber := 1;
    while roundNumber <= numRounds
      invariant 1 <= roundNumber <= RoundCount(numRounds) + 1
      invariant Rounds(cfg, rng, roundNumber - 1) == Ok(Run(listenerMemory, history, draws))
    {
      if states == [] {
        assert Rounds(cfg, rng, roundNumber) == Err(EmptyStateSpace) by {
          RoundsNext(cfg, rng, roundNumber);
        }
        RoundsErrPersists(cfg, rng, roundNumber, RoundCount(numRounds), EmptyStateSpace);
        SimulateOutcome(cfg, rng, numRounds);
        return Err(EmptyStateSpace);
      }
      // a. the speaker observes a random state; b. it signals
      var state := Choice(cfg.states, rng, draws);
      var signal := Speak(cfg, state, roundNumber);
      // c. the listener answers from its memory
      var listened := Listen(cfg, signal, listenerMemory, roundNumber, rng, draws + 1);
      if listened.Err? {
        assert Rounds(cfg, rng, roundNumber) == Err(listened.error) by {
          RoundsNext(cfg, rng, roundNumber);
        }
        RoundsErrPersists(cfg, rng, roundNumber, RoundCount(numRounds), listened.error);
        SimulateOutcome(cfg, rng, numRounds);
        return Err(listened.error);
      }
      var action := listened.value;
      // d. the verdict
      var isCorrect := IsCorrect(signalActionMapping, signal, action);
      // e. remember; f. record
      RoundsPlays(cfg, signalActionMapping, rng, roundNumber, Run(listenerMemory, history, draws), state, signal, action);
      draws := draws + 1 + ListenerDraws(cfg, signal, listenerMemory);
      listenerMemory := listenerMemory[signal := action];
      history := history + [Round(roundNumber, state, signal, action, isCorrect)];
      roundNumber := roundNumber + 1;
    }
    r := Ok(history);
    SimulateOutcome(cfg, rng, numRounds);
  }

  // ---------------------------------------------------------------------------
  // Properties of a run

  /** A run fails exactly when it has a round to play and either there is no
      state to observe or the default listener has no action for the first
      signal; otherwise its history has one record per round, numbered 1, 2, ... */
  lemma SimulateOutcome(cfg: Config, rng: Rng, numRounds: int)
    ensures Simulate(cfg, rng, numRounds).Err? <==>
            numRounds > 0 && (cfg.states == [] || (cfg.listener.DefaultListener? && cfg.actions == []))
    ensures Simulate(cfg, rng, numRounds).Ok? ==>
            |Simulate(cfg, rng, numRounds).value| == RoundCount(numRounds)
    ensures Simulate(cfg, rng, numRounds).Ok? ==>
            forall i :: 0 <= i < |Simulate(cfg, rng, numRounds).value| ==> Simulate(cfg, rng, numRounds).value[i].round == i + 1
  {
    RoundsFailIff(cfg, rng, RoundCount(numRounds));
    if Rounds(cfg, rng, RoundCount(numRounds)).Ok? {
      RoundsShape(cfg, rng, RoundCount(numRounds));
    }
  }

  /** Once a round fails, the run reports that failure. */
  lemma {:induction false} RoundsErrPersists(cfg: Config, rng: Rng, k: nat, n: nat, e: Error)
    requires k <= n && Rounds(cfg, rng, k) == Err(e)
    ensures Rounds(cfg, rng, n) == Err(e)
    decreases n - k
  {
    if k < n {
      RoundsErrPersists(cfg, rng, k + 1, n, e);
    }
  }

  /** A run of k rounds fails exactly when it has a round to play and either
      there is no state to observe, or the default listener has no action to
      pick for the (necessarily new) signal of round 1. */
  lemma {:induction false} RoundsFailIff(cfg: Config, rng: Rng, k: nat)
    ensures Rounds(cfg, rng, k).Err? <==>
            k > 0 && (cfg.states == [] || (cfg.listener.DefaultListener? && cfg.actions == []))
  {
    if k > 0 {
      RoundsFailIff(cfg, rng, k - 1);
    }
  }

  /** After k rounds the history has k records, numbered 1..k. */
  lemma {:induction false} RoundsShape(cfg: Config, rng: Rng, k: nat)
    requires Rounds(cfg, rng, k).Ok?
    ensures |Rounds(cfg, rng, k).value.history| == k
    ensures forall i :: 0 <= i < k ==> Rounds(cfg, rng, k).value.history[i].round == i + 1
  {
    if k > 0 {
      RoundsUnfold(cfg, rng, k);
      RoundsShape(cfg, rng, k - 1);
      StepAppends(cfg, rng, Rounds(cfg, rng, k - 1).value, k);
    }
  }

  /** After k rounds the memory is what the recorded rounds wrote, in order. */
  lemma {:induction false} RoundsMemory(cfg: Config, rng: Rng, k: nat)
    requires Rounds(cfg, rng, k).Ok?
    ensures Rounds(cfg, rng, k).value.memory == MemoryAfter(Rounds(cfg, rng, k).value.history)
  {
    if k > 0 {
      RoundsUnfold(cfg, rng, k);
      RoundsMemory(cfg, rng, k - 1);
      StepAppends(cfg, rng, Rounds(cfg, rng, k - 1).value, k);
    }
  }

  /** Round k extends the run of k - 1 rounds by one step. */
  lemma RoundsUnfold(cfg: Config, rng: Rng, k: nat)
    requires k > 0 && Rounds(cfg, rng, k).Ok?
    ensures Rounds(cfg, rng, k - 1).Ok?
    ensures Rounds(cfg, rng, k) == Step(cfg, rng, Rounds(cfg, rng, k - 1).value, k)
  {
  }

  /** An unfolding helper for the proof of the loop of CreateSiftSimulation: it
      restates `Step` for round k with the round's state, signal and action
      named, so that the loop's proof does not unfold `Step` itself. */
  lemma RoundsPlays(cfg: Config, mapping: map<Signal, Action>, rng: Rng, k: nat, run: Run,
                    state: State, signal: Signal, action: Action)
    requires mapping == SignalActionMapping(cfg.states, cfg.actions)
    requires k > 0 && Rounds(cfg, rng, k - 1) == Ok(run)
    requires cfg.states != [] && state == Choice(cfg.states, rng, run.draws)
    requires signal == Speak(cfg, state, k)
    requires Listen(cfg, signal, run.memory, k, rng, run.draws + 1) == Ok(action)
    ensures Rounds(cfg, rng, k) ==
              Ok(Run(run.memory[signal := action],
                     run.history + [Round(k, state, signal, action, IsCorrect(mapping, signal, action))],
                     run.draws + 1 + ListenerDraws(cfg, signal, run.memory)))
  {
    RoundsNext(cfg, rng, k);
  }

  /** A run that survived k - 1 rounds plays round k. */
  lemma RoundsNext(cfg: Config, rng: Rng, k: nat)
    requires k > 0 && Rounds(cfg, rng, k - 1).Ok?
    ensures Rounds(cfg, rng, k) == Step(cfg, rng, Rounds(cfg, rng, k - 1).value, k)
  {
  }

  /** A step appends exactly one record to the history. */
  lemma StepAppends(cfg: Config, rng: Rng, run: Run, roundNumber: int)
    requires Step(cfg, rng, run, roundNumber).Ok?
    ensures var h := Step(cfg, rng, run, roundNumber).value.history;
            |h| == |run.history| + 1 && h[..|run.history|] == run.history
  {
  }

  /** The first j rounds of a run are the run of j rounds. */
  lemma {:induction false} RoundsPrefix(cfg: Config, rng: Rng, k: nat, j: nat)
    requires j <= k && Rounds(cfg, rng, k).Ok?
    ensures Rounds(cfg, rng, j).Ok? && |Rounds(cfg, rng, k).value.history| == k
    ensures Rounds(cfg, rng, j).value.history == Rounds(cfg, rng, k).value.history[..j]
  {
    RoundsShape(cfg, rng, k);
    if j < k {
      RoundsUnfold(cfg, rng, k);
      StepAppends(cfg, rng, Rounds(cfg, rng, k - 1).value, k);
      RoundsPrefix(cfg, rng, k - 1, j);
      var h, h' := Rounds(cfg, rng, k).value.history, Rounds(cfg, rng, k - 1).value.history;
      assert h[..j] == h'[..j];
    }
  }

  /** Round k writes its action under its signal and leaves every other entry of
      the memory as round k - 1 left it. */
  lemma RoundUpdatesMemory(cfg: Config, rng: Rng, k: nat)
    requires k > 0 && Rounds(cfg, rng, k).Ok?
    ensures Rounds(cfg, rng, k - 1).Ok? && |Rounds(cfg, rng, k).value.history| == k
    ensures var before, after := Rounds(cfg, rng, k - 1).value.memory, Rounds(cfg, rng, k).value.memory;
            var rec := Rounds(cfg, rng, k).value.history[k - 1];
            && rec.signal in after && after[rec.signal] == rec.action
            && forall s :: s != rec.signal ==>
                 (s in after <==> s in before) && (s in before ==> after[s] == before[s])
  {
    RoundsUnfold(cfg, rng, k);
    RoundsShape(cfg, rng, k);
    StepAppends(cfg, rng, Rounds(cfg, rng, k - 1).value, k);
  }

  /** What the record of round i + 1 says: its state is one of the states, its
      signal is the speaker's answer for that state, its action is the listener's
      answer given the memory left by the rounds before it, and it is correct
      exactly when the action is the mapped action of its signal. */
  lemma RoundRecord(cfg: Config, rng: Rng, k: nat, i: nat)
    requires i < k && Rounds(cfg, rng, k).Ok?
    ensures |Rounds(cfg, rng, k).value.history| == k
    ensures var h := Rounds(cfg, rng, k).value.history;
            var rec, seen := h[i], MemoryAfter(h[..i]);
            && rec.round == i + 1
            && rec.state in cfg.states
            && rec.signal == Speak(cfg, rec.state, i + 1)
            && (cfg.listener.CustomListener? ==> rec.action == cfg.listener.listen(rec.signal, seen, i + 1))
            && (cfg.listener.DefaultListener? && rec.signal in seen ==> rec.action == seen[rec.signal])
            && (cfg.listener.DefaultListener? && rec.signal !in seen ==> rec.action in cfg.actions)
            && (rec.isCorrect <==> IsCorrect(SignalActionMapping(cfg.states, cfg.actions), rec.signal, rec.action))
  {
    RoundsShape(cfg, rng, k);
    RoundsPrefix(cfg, rng, k, i + 1);
    RoundsPrefix(cfg, rng, k, i);
    RoundsMemory(cfg, rng, i);
    RoundsUnfold(cfg, rng, i + 1);
    var h := Rounds(cfg, rng, k).value.history;
    assert h[..i + 1][i] == h[i];
  }

  /** A correct round used a generated signal `signal_j` with j below both list
      lengths, and its action is the j-th action. */
  lemma CorrectRoundUsesGeneratedSignal(cfg: Config, rng: Rng, k: nat, i: nat)
    requires i < k && Rounds(cfg, rng, k).Ok?
    requires |Rounds(cfg, rng, k).value.history| == k
    requires Rounds(cfg, rng, k).value.history[i].isCorrect
    ensures var rec := Rounds(cfg, rng, k).value.history[i];
            exists j :: 0 <= j < |cfg.states| && j < |cfg.actions|
                     && rec.signal == SignalName(j) && rec.action == cfg.actions[j]
  {
    RoundRecord(cfg, rng, k, i);
    var rec := Rounds(cfg, rng, k).value.history[i];
    SignalActionMappingKeys(cfg.states, cfg.actions, rec.signal);
    var j :| 0 <= j < |cfg.states| && j < |cfg.actions| && rec.signal == SignalName(j);
    SignalActionMappingAt(cfg.states, cfg.actions, j);
  }

  /** Under the default listener every recorded action is one of the actions. */
  lemma {:induction false} DefaultListenerPicksActions(cfg: Config, rng: Rng, k: nat, i: nat)
    requires cfg.listener.DefaultListener? && i < k && Rounds(cfg, rng, k).Ok?
    ensures |Rounds(cfg, rng, k).value.history| == k
    ensures Rounds(cfg, rng, k).value.history[i].action in cfg.actions
    decreases i
  {
    RoundRecord(cfg, rng, k, i);
    var h := Rounds(cfg, rng, k).value.history;
    var p := h[..i];
    if h[i].signal in MemoryAfter(p) {
      var i' :| 0 <= i' < |p| && p[i'].signal == h[i].signal && MemoryAfter(p)[h[i].signal] == p[i'].action;
      assert p[i'] == h[i'];
      DefaultListenerPicksActions(cfg, rng, k, i');
    }
  }

  /** Under the default listener, a signal that has appeared before gets the same
      action as on its earlier appearance, and so the same verdict. */
  lemma {:induction false} DefaultListenerRepeats(cfg: Config, rng: Rng, k: nat, i: nat, j: nat)
    requires cfg.listener.DefaultListener? && i < j < k && Rounds(cfg, rng, k).Ok?
    ensures |Rounds(cfg, rng, k).value.history| == k
    ensures var h := Rounds(cfg, rng, k).value.history;
            h[i].signal == h[j].signal ==> h[j].action == h[i].action && h[j].isCorrect == h[i].isCorrect
    decreases j
  {
    RoundRecord(cfg, rng, k, i);
    RoundRecord(cfg, rng, k, j);
    var h := Rounds(cfg, rng, k).value.history;
    if h[i].signal == h[j].signal {
      var p := h[..j];
      assert p[i] == h[i];
      var i' :| 0 <= i' < |p| && p[i'].signal == h[i].signal && MemoryAfter(p)[h[i].signal] == p[i'].action;
      assert p[i'] == h[i'];
      if i' < i {
        DefaultListenerRepeats(cfg, rng, k, i', i);
      } else if i < i' {
        DefaultListenerRepeats(cfg, rng, k, i, i');
      }
    }
  }

  /** Under the default speaker, for any state list, two rounds share a signal
      exactly when they observed the same state. */
  lemma DefaultSpeakerOneToOne(cfg: Config, rng: Rng, k: nat, i: nat, j: nat)
    requires cfg.speaker.DefaultSpeaker?
    requires i < k && j < k && Rounds(cfg, rng, k).Ok?
    ensures |Rounds(cfg, rng, k).value.history| == k
    ensures var h := Rounds(cfg, rng, k).value.history;
            h[i].signal == h[j].signal <==> h[i].state == h[j].state
  {
    RoundRecord(cfg, rng, k, i);
    RoundRecord(cfg, rng, k, j);
    var h := Rounds(cfg, rng, k).value.history;
    DefaultSpeakSeparates(cfg.states, h[i].state, h[j].state, i + 1, j + 1);
  }
}
