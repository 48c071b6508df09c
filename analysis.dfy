/** The summary of a finished run: how many rounds, how many were correct, the
    accuracy, whether each listed state was observed and always named by one
    signal, and whether each signal was used for more than one state. */
module ResultsAnalysis {
  import opened Types

  datatype Analysis = Analysis(numRounds: nat, correctCount: nat, accuracy: real,
                               signalConsistency: map<State, bool>,
                               signalAmbiguity: map<Signal, bool>)

  /** The number of records whose `is_correct` is true. */
  function CountCorrect(h: seq<Round>): (n: nat)
    ensures n <= |h|
    ensures n == |h| <==> forall i :: 0 <= i < |h| ==> h[i].isCorrect
    ensures n == 0 <==> forall i :: 0 <= i < |h| ==> !h[i].isCorrect
  {
    if h == [] then 0
    else
      var p := h[..|h| - 1];
      assert forall i :: 0 <= i < |p| ==> p[i] == h[i];
      CountCorrect(p) + (if h[|h| - 1].isCorrect then 1 else 0)
  }

  /** `correct / n`, or 0 for a run without rounds. */
  function Accuracy(correct: nat, n: nat): (a: real)
    ensures n == 0 ==> a == 0.0
    ensures n > 0 ==> a * (n as real) == correct as real
    ensures correct <= n ==> 0.0 <= a <= 1.0
    ensures n > 0 ==> (a == 1.0 <==> correct == n)
  {
    if n > 0 then (correct as real) / (n as real) else 0.0
  }

  /** The signals recorded for state `s`, in round order. */
  function SignalsFor(h: seq<Round>, s: State): (sigs: seq<Signal>)
    ensures forall sig :: sig in sigs <==> exists i :: 0 <= i < |h| && h[i].state == s && h[i].signal == sig
  {
    if h == [] then []
    else
      var p := h[..|h| - 1];
      assert forall i :: 0 <= i < |p| ==> p[i] == h[i];
      SignalsFor(p, s) + (if h[|h| - 1].state == s then [h[|h| - 1].signal] else [])
  }

  /** The states recorded with signal `sig`, in round order. */
  function StatesFor(h: seq<Round>, sig: Signal): (ss: seq<State>)
    ensures forall s :: s in ss <==> exists i :: 0 <= i < |h| && h[i].signal == sig && h[i].state == s
  {
    if h == [] then []
    else
      var p := h[..|h| - 1];
      assert forall i :: 0 <= i < |p| ==> p[i] == h[i];
      StatesFor(p, sig) + (if h[|h| - 1].signal == sig then [h[|h| - 1].state] else [])
  }

  /** State `s` was observed, and every round that observed it sent the same signal. */
  ghost predicate Consistent(h: seq<Round>, s: State) {
    && (exists i :: 0 <= i < |h| && h[i].state == s)
    && forall i, j :: 0 <= i < |h| && 0 <= j < |h| && h[i].state == s && h[j].state == s ==>
         h[i].signal == h[j].signal
  }

  /** Signal `sig` was sent for two different states. */
  ghost predicate Ambiguous(h: seq<Round>, sig: Signal) {
    exists i, j :: 0 <= i < |h| && 0 <= j < |h| && h[i].signal == sig && h[j].signal == sig &&
                   h[i].state != h[j].state
  }

  /** The signals that occur in the history. */
  function UsedSignals(h: seq<Round>): set<Signal> {
    set i | 0 <= i < |h| :: h[i].signal
  }

  /** What analyze_results reports about history `h` over the state list `states`:
      the counts and accuracy, a consistency verdict for every listed state, and
      an ambiguity verdict for every signal that was used. */
  ghost predicate Describes(a: Analysis, h: seq<Round>, states: seq<State>) {
    && a.numRounds == |h|
    && a.correctCount == CountCorrect(h)
    && a.accuracy == Accuracy(CountCorrect(h), |h|)
    && a.signalConsistency.Keys == (set s | s in states)
    && (forall s :: s in a.signalConsistency ==> (a.signalConsistency[s] <==> Consistent(h, s)))
    && a.signalAmbiguity.Keys == UsedSignals(h)
    && (forall sig :: sig in a.signalAmbiguity ==> (a.signalAmbiguity[sig] <==> Ambiguous(h, sig)))
  }

  /** A set has more than one element exactly when it holds two different ones. */
  lemma MoreThanOne<T>(s: set<T>)
    ensures |s| > 1 <==> exists x, y :: x in s && y in s && x != y
  {
    if |s| > 1 {
      var x :| x in s;
      assert |s - {x}| == |s| - 1;
      var y :| y in s - {x};
      assert x in s && y in s && x != y;
    }
    if exists x, y :: x in s && y in s && x != y {
      var x, y :| x in s && y in s && x != y;
      assert {x, y} <= s;
      assert |{x, y}| == 2;
      SubsetSize({x, y}, s);
    }
  }

  lemma {:induction false} SubsetSize<T>(a: set<T>, b: set<T>)
    requires a <= b
    ensures |a| <= |b|
    decreases |a|
  {
    if a != {} {
      var x :| x in a;
      SubsetSize(a - {x}, b - {x});
    }
  }

  /** A state is consistent exactly when its signal list is non-empty and every
      entry equals the first one. */
  lemma ConsistentBySignals(h: seq<Round>, s: State)
    ensures var sigs := SignalsFor(h, s);
            Consistent(h, s) <==> |sigs| > 0 && forall k :: 0 <= k < |sigs| ==> sigs[k] == sigs[0]
  {
    var sigs := SignalsFor(h, s);
    if |sigs| > 0 && forall k :: 0 <= k < |sigs| ==> sigs[k] == sigs[0] {
      assert sigs[0] in sigs;
      forall i, j | 0 <= i < |h| && 0 <= j < |h| && h[i].state == s && h[j].state == s
        ensures h[i].signal == h[j].signal
      {
        assert h[i].signal in sigs && h[j].signal in sigs;
      }
    }
    if Consistent(h, s) {
      var i0 :| 0 <= i0 < |h| && h[i0].state == s;
      assert h[i0].signal in sigs;
      forall k | 0 <= k < |sigs| ensures sigs[k] == sigs[0] {
        assert sigs[k] in sigs && sigs[0] in sigs;
      }
    }
  }

  /** `len(set(states_for_signal)) > 1`. */
  predicate SeveralStates(h: seq<Round>, sig: Signal) {
    |set x | x in StatesFor(h, sig)| > 1
  }

  /** A signal is ambiguous exactly when its recorded states form a set of more
      than one element. */
  lemma AmbiguousByStates(h: seq<Round>, sig: Signal)
    ensures Ambiguous(h, sig) <==> SeveralStates(h, sig)
  {
    var ss := StatesFor(h, sig);
    var xs := set x | x in ss;
    MoreThanOne(xs);
    if Ambiguous(h, sig) {
      var i, j :| 0 <= i < |h| && 0 <= j < |h| && h[i].signal == sig && h[j].signal == sig &&
                  h[i].state != h[j].state;
      assert h[i].state in xs && h[j].state in xs;
    }
  }

  /** `sum(round_data["is_correct"] for round_data in history)`. */
  method SumCorrect(history: seq<Round>) returns (correctCount: nat)
    ensures correctCount == CountCorrect(history)
  {
    correctCount := 0;
    for k := 0 to |history|
      invariant correctCount == CountCorrect(history[..k])
    {
      assert history[..k + 1][..k] == history[..k];
      correctCount := correctCount + (if history[k].isCorrect then 1 else 0);
    }
    assert history[..|history|] == history;
  }

  /** The first phase of the consistency check: a list per listed state, holding
      the signals of the rounds that observed it; rounds of unlisted states are
      skipped. */
  method GroupSignals(history: seq<Round>, states: seq<State>) returns (signalsFor: map<State, seq<Signal>>)
    ensures signalsFor.Keys == (set s | s in states)
    ensures forall s :: s in signalsFor ==> signalsFor[s] == SignalsFor(history, s)
  {
    signalsFor := map[];
    for k := 0 to |states|
      invariant signalsFor.Keys == (set s | s in states[..k])
      invariant forall s :: s in signalsFor ==> signalsFor[s] == []
    {
      assert states[..k + 1] == states[..k] + [states[k]];
      signalsFor := signalsFor[states[k] := []];
    }
    assert states[..|states|] == states;
    for k := 0 to |history|
      invariant signalsFor.Keys == (set s | s in states)
      invariant forall s :: s in signalsFor ==> signalsFor[s] == SignalsFor(history[..k], s)
    {
      assert history[..k + 1][..k] == history[..k];
      var state, signal := history[k].state, history[k].signal;
      if state in signalsFor {
        signalsFor := signalsFor[state := signalsFor[state] + [signal]];
      }
    }
    assert history[..|history|] == history;
  }

  /** The second phase: each state's list becomes true when it is non-empty and
      all its signals equal the first, and false otherwise. */
  method ConsistencyVerdicts(history: seq<Round>, signalsFor: map<State, seq<Signal>>)
    returns (signalConsistency: map<State, bool>)
    requires forall s :: s in signalsFor ==> signalsFor[s] == SignalsFor(history, s)
    ensures signalConsistency.Keys == signalsFor.Keys
    ensures forall s :: s in signalConsistency ==> (signalConsistency[s] <==> Consistent(history, s))
  {
    signalConsistency := map[];
    var pending := signalsFor.Keys;
    while pending != {}
      invariant pending <= signalsFor.Keys
      invariant signalConsistency.Keys == signalsFor.Keys - pending
      invariant forall s :: s in signalConsistency ==> (signalConsistency[s] <==> Consistent(history, s))
      decreases |pending|
    {
      var state :| state in pending;
      var signalsForState := signalsFor[state];
      var verdict := false;
      if |signalsForState| > 0 {
        var firstSignal := signalsForState[0];
        verdict := forall k :: 0 <= k < |signalsForState| ==> signalsForState[k] == firstSignal;
      }
      ConsistentBySignals(history, state);
      signalConsistency := signalConsistency[state := verdict];
      pending := pending - {state};
    }
  }

  /** The states of the rounds that sent `signal`, in round order. */
  method CollectStates(history: seq<Round>, signal: Signal) returns (statesForSignal: seq<State>)
    ensures statesForSignal == StatesFor(history, signal)
  {
    statesForSignal := [];
    for k := 0 to |history|
      invariant statesForSignal == StatesFor(history[..k], signal)
    {
      assert history[..k + 1][..k] == history[..k];
      if history[k].signal == signal {
        statesForSignal := statesForSignal + [history[k].state];
      }
    }
    assert history[..|history|] == history;
  }

  /** Each signal that was used is flagged when its rounds observed more than one
      distinct state. */
  method AmbiguityVerdicts(history: seq<Round>) returns (signalAmbiguity: map<Signal, bool>)
    ensures signalAmbiguity.Keys == UsedSignals(history)
    ensures forall sig :: sig in signalAmbiguity ==> (signalAmbiguity[sig] <==> Ambiguous(history, sig))
  {
    signalAmbiguity := map[];
    var unvisited := UsedSignals(history);
    while unvisited != {}
      invariant unvisited <= UsedSignals(history)
      invariant signalAmbiguity.Keys == UsedSignals(history) - unvisited
      invariant forall sig :: sig in signalAmbiguity ==> signalAmbiguity[sig] == SeveralStates(history, sig)
      decreases |unvisited|
    {
      var signal :| signal in unvisited;
      var statesForSignal := CollectStates(history, signal);
      signalAmbiguity := signalAmbiguity[signal := |set x | x in statesForSignal| > 1];
      unvisited := unvisited - {signal};
    }
    forall sig | sig in signalAmbiguity
      ensures signalAmbiguity[sig] <==> Ambiguous(history, sig)
    {
      AmbiguousByStates(history, sig);
    }
  }

  /** analyze_results: the round count, the correct count and accuracy, the
      consistency verdict of every listed state and the ambiguity verdict of
      every used signal. The action list is not consulted. */
  method AnalyzeResults(history: seq<Round>, states: seq<State>, actions: seq<Action>)
    returns (a: Analysis)
    ensures Describes(a, history, states)
  {
    var numRounds := |history|;
    var correctCount := SumCorrect(history);
    var accuracy := Accuracy(correctCount, numRounds);
    var signalsFor := GroupSignals(history, states);
    var signalConsistency := ConsistencyVerdicts(history, signalsFor);
    var signalAmbiguity := AmbiguityVerdicts(history);
    a := Analysis(numRounds, correctCount, accuracy, signalConsistency, signalAmbiguity);
  }

  /** The analysis of a history is determined by the history and the state list. */
  lemma DescribesUnique(a: Analysis, b: Analysis, h: seq<Round>, states: seq<State>)
    requires Describes(a, h, states) && Describes(b, h, states)
    ensures a == b
  {
  }
}
