/** Value types shared by the signalling-game simulator and its analysis. */
module Types {

  type State = string
  type Signal = string
  type Action = string

  /** One entry of the communication history: the dictionary appended once per round. */
  datatype Round = Round(round: int, state: State, signal: Signal, action: Action, isCorrect: bool)

  /** The only runtime failures of a run: `random.choice` on an empty list. */
  datatype Error =
    | EmptyStateSpace   // the speaker cannot observe a state
    | EmptyActionSpace  // the default listener cannot pick an action for a new signal

  datatype Result<T> = Ok(value: T) | Err(error: Error)

  /** No two entries of `s` are equal. */
  predicate Distinct<T(==)>(s: seq<T>) {
    forall i, j :: 0 <= i < j < |s| ==> s[i] != s[j]
  }
}
