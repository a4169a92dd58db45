/**
 * The record a check run leaves behind (State), the listener notifications
 * (Event) and the small wrapper types the rest of the model uses.
 */
module Types {

  datatype Option<T> = None | Some(value: T)

  datatype Result<T, E> = Success(value: T) | Failure(error: E)

  /** The opaque payload a probe returns beside its verdict. The model only carries it. */
  datatype Details = NoDetails | Payload(value: string)

  /**
   * The status of a State. Its text, as the source stores and serialises it,
   * is "ok" or "failed"; NoStatus is the empty text of a State never stored.
   */
  datatype Status = NoStatus | StatusOk | StatusFailed {
    function Text(): string {
      match this
      case NoStatus => ""
      case StatusOk => "ok"
      case StatusFailed => "failed"
    }
  }

  /**
   * The result of the latest run of one check. Times are readings of an
   * abstract integer clock; 0 stands for Go's zero time.Time.
   */
  datatype State = State(
    name: string,
    status: Status,
    err: string,
    details: Details,
    checkTime: int,
    contiguousFailures: nat,
    timeOfFirstFailure: int)
  {
    predicate IsFailure() {
      status == StatusFailed
    }
  }

  /** The value a Go map read yields for a missing key: every field zero. */
  const ZeroState: State := State("", NoStatus, "", NoDetails, 0, 0, 0)

  /**
   * What a state stored by the monitor looks like: its status is "ok" or
   * "failed", an error text only accompanies a failure, and the failure
   * count is positive exactly while the check is failing.
   */
  predicate Recorded(s: State) {
    && (s.status == StatusOk || s.status == StatusFailed)
    && (s.err != "" ==> s.IsFailure())
    && (s.contiguousFailures > 0 <==> s.IsFailure())
  }

  /** A state is failing exactly when its status text is "failed"; the zero state is not failing. */
  lemma IsFailureText(s: State)
    ensures s.IsFailure() <==> s.status.Text() == "failed"
  {
  }

  /** The state an absent entry reads as is not failing, has no failures and was never stored. */
  lemma ZeroStateSettled()
    ensures !ZeroState.IsFailure() && ZeroState.contiguousFailures == 0 && !Recorded(ZeroState)
  {
  }

  /** The three notifications a status listener receives. */
  datatype Event =
    | CheckFailed(entry: State)
    | StillFailing(entry: State, recordedFailures: nat)
    | CheckRecovered(entry: State, recordedFailures: nat, failureDuration: int)
}
