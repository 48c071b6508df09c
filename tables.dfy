/** The fixed tables a run builds before its first round: the generated signal
    names and the two default mappings built with `dict(zip(...))`. */
module Tables {
  import opened Types

  predicate IsDigits(s: string) {
    forall k :: 0 <= k < |s| ==> '0' <= s[k] <= '9'
  }

  function DigitChar(d: nat): char
    requires d < 10
  {
    (48 + d) as char
  }

  /** The decimal rendering `str(n)` of a non-negative integer. */
  function Decimal(n: nat): (s: string)
    ensures 1 <= |s| && IsDigits(s)
    ensures n < 10 <==> |s| == 1
  {
    if n < 10 then [DigitChar(n)] else Decimal(n / 10) + [DigitChar(n % 10)]
  }

  /** Reads a string of decimal digits as a number. */
  function DecimalValue(s: string): nat
    requires IsDigits(s)
  {
    if s == [] then 0 else DecimalValue(s[..|s| - 1]) * 10 + (s[|s| - 1] as int - 48)
  }

  /** Reading a rendering back gives the number: so no two numbers share a rendering. */
  lemma {:induction false} DecimalRoundTrip(n: nat)
    ensures DecimalValue(Decimal(n)) == n
  {
    if n >= 10 {
      var s := Decimal(n);
      assert s[..|s| - 1] == Decimal(n / 10);
      DecimalRoundTrip(n / 10);
    }
  }

  const SignalPrefix: string := "signal_"

  /** The i-th generated signal, `f"signal_{i}"`. */
  function SignalName(i: nat): Signal {
    SignalPrefix + Decimal(i)
  }

  lemma SignalNameInjective(i: nat, j: nat)
    ensures SignalName(i) == SignalName(j) <==> i == j
  {
    if SignalName(i) == SignalName(j) {
      assert Decimal(i) == SignalName(i)[|SignalPrefix|..];
      assert Decimal(j) == SignalName(j)[|SignalPrefix|..];
      DecimalRoundTrip(i);
      DecimalRoundTrip(j);
    }
  }

  /** The generated signal list, one name per state. */
  function Signals(n: nat): (ss: seq<Signal>)
    ensures |ss| == n
    ensures forall i :: 0 <= i < n ==> ss[i] == SignalName(i)
  {
    seq(n, i requires 0 <= i < n => SignalName(i))
  }

  /** The generated signals are pairwise different. */
  lemma SignalsDistinct(n: nat)
    ensures Distinct(Signals(n))
  {
    forall i, j | 0 <= i < j < n
      ensures Signals(n)[i] != Signals(n)[j]
    {
      SignalNameInjective(i, j);
    }
  }

  /** `dict(zip(ks, vs))`: pairs up to the shorter of the two lists, and a later
      occurrence of a key overwrites an earlier one. */
  function ZipMap<K, V>(ks: seq<K>, vs: seq<V>): map<K, V> {
    if ks == [] || vs == [] then map[] else map[ks[0] := vs[0]] + ZipMap(ks[1..], vs[1..])
  }

  /** The keys of the zipped map are the keys that have a partner value. */
  lemma {:induction false} ZipMapKeys<K, V>(ks: seq<K>, vs: seq<V>, k: K)
    ensures k in ZipMap(ks, vs) <==> exists i :: 0 <= i < |ks| && i < |vs| && ks[i] == k
  {
    if ks != [] && vs != [] {
      ZipMapKeys(ks[1..], vs[1..], k);
      if k in ZipMap(ks[1..], vs[1..]) {
        var i :| 0 <= i < |ks[1..]| && i < |vs[1..]| && ks[1..][i] == k;
        assert ks[i + 1] == k;
      }
      if exists i :: 1 <= i < |ks| && i < |vs| && ks[i] == k {
        var i :| 1 <= i < |ks| && i < |vs| && ks[i] == k;
        assert ks[1..][i - 1] == k;
      }
    }
  }

  /** The value zipped with the last occurrence of a key is the one the map keeps. */
  lemma {:induction false} ZipMapAt<K, V>(ks: seq<K>, vs: seq<V>, i: nat)
    requires i < |ks| && i < |vs|
    requires forall j :: i < j < |ks| && j < |vs| ==> ks[j] != ks[i]
    ensures ks[i] in ZipMap(ks, vs) && ZipMap(ks, vs)[ks[i]] == vs[i]
  {
    if i == 0 {
      ZipMapKeys(ks[1..], vs[1..], ks[0]);
    } else {
      ZipMapAt(ks[1..], vs[1..], i - 1);
    }
  }

  /** `state_signal_mapping`: each state to the signal generated at its position. */
  function StateSignalMapping(states: seq<State>): map<State, Signal> {
    ZipMap(states, Signals(|states|))
  }

  /** `signal_action_mapping`: the i-th generated signal to the i-th action, for as
      many pairs as both lists provide. */
  function SignalActionMapping(states: seq<State>, actions: seq<Action>): map<Signal, Action> {
    ZipMap(Signals(|states|), actions)
  }

  /** Only generated signals `signal_i` with i below both list lengths are mapped. */
  lemma SignalActionMappingKeys(states: seq<State>, actions: seq<Action>, s: Signal)
    ensures s in SignalActionMapping(states, actions) <==>
            exists i :: 0 <= i < |states| && i < |actions| && s == SignalName(i)
  {
    ZipMapKeys(Signals(|states|), actions, s);
  }

  /** Which generated signal has a correct action and what it is: `signal_i` has
      one exactly when i is below both list lengths, and it is the i-th action. */
  lemma SignalActionMappingAt(states: seq<State>, actions: seq<Action>, i: nat)
    ensures SignalName(i) in SignalActionMapping(states, actions) <==> i < |states| && i < |actions|
    ensures i < |states| && i < |actions| ==> SignalActionMapping(states, actions)[SignalName(i)] == actions[i]
  {
    var m := SignalActionMapping(states, actions);
    SignalActionMappingKeys(states, actions, SignalName(i));
    if SignalName(i) in m {
      var j :| 0 <= j < |states| && j < |actions| && SignalName(i) == SignalName(j);
      SignalNameInjective(i, j);
    }
    if i < |states| && i < |actions| {
      SignalsDistinct(|states|);
      ZipMapAt(Signals(|states|), actions, i);
    }
  }

  /** default_speaker_strategy: look the observed state up in `state_signal_mapping`. */
  function DefaultSpeak(states: seq<State>, state: State, roundNumber: int): Signal
    requires state in states
  {
    ZipMapKeys(states, Signals(|states|), state);
    StateSignalMapping(states)[state]
  }

  /** With repeated states, a state gets the signal of its last position. */
  lemma DefaultSpeakLast(states: seq<State>, i: nat, roundNumber: int)
    requires i < |states|
    requires forall j :: i < j < |states| ==> states[j] != states[i]
    ensures DefaultSpeak(states, states[i], roundNumber) == SignalName(i)
  {
    ZipMapAt(states, Signals(|states|), i);
  }

  /** The last position of a listed state. */
  function LastIndex(states: seq<State>, s: State): (i: nat)
    requires s in states
    ensures i < |states| && states[i] == s
    ensures forall j :: i < j < |states| ==> states[j] != s
  {
    if states[|states| - 1] == s then |states| - 1
    else
      var p := states[..|states| - 1];
      assert s in p by {
        var k :| 0 <= k < |states| && states[k] == s;
        assert p[k] == s;
      }
      LastIndex(p, s)
  }

  /** For any state list, duplicates included, the default speaker gives two
      listed states the same signal exactly when they are the same state. */
  lemma DefaultSpeakSeparates(states: seq<State>, s: State, t: State, r1: int, r2: int)
    requires s in states && t in states
    ensures DefaultSpeak(states, s, r1) == DefaultSpeak(states, t, r2) <==> s == t
  {
    var i, j := LastIndex(states, s), LastIndex(states, t);
    DefaultSpeakLast(states, i, r1);
    DefaultSpeakLast(states, j, r2);
    SignalNameInjective(i, j);
  }

  /** Over distinct states the default speaker maps the i-th state to `signal_i`
      whatever the round, and different states to different signals. */
  lemma DefaultSpeakerInjective(states: seq<State>, i: nat, j: nat, r1: int, r2: int)
    requires Distinct(states) && i < |states| && j < |states|
    ensures DefaultSpeak(states, states[i], r1) == SignalName(i)
    ensures DefaultSpeak(states, states[i], r1) == DefaultSpeak(states, states[j], r2) <==> i == j
  {
    DefaultSpeakLast(states, i, r1);
    DefaultSpeakLast(states, j, r2);
    SignalNameInjective(i, j);
  }
}
