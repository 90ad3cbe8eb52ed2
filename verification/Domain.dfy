/** The vocabulary of the Box: results, errors, and the state alphabets of its records. */
module Domain {

  datatype Option<+T> = None | Some(value: T)

  datatype Error =
    | StaleAttempt
    | LeaseInactive
    | PolicyDenied
    | InvalidPurpose
    | IntentConflict
    | BudgetExceeded
    | OutcomeUnknown
    | Malformed
    | Exceeds
    | NotFound
    | WrongState
    | Conflict
    | ApprovalExpired
    | HardCapUnavailable
    | Busy

  /** What a transaction callback returns: a new value to commit, or an error that rolls everything back. */
  datatype Result<+T> = Ok(value: T) | Err(error: Error) {
    predicate IsFailure() { Err? }

    function PropagateFailure<U>(): Result<U>
      requires Err?
    {
      Err(error)
    }

    function Extract(): T
      requires Ok?
    {
      value
    }
  }

  datatype Enforcement = Enforced | Partial | Unenforced | Unrecognised(text: string) {
    function Rank(): nat {
      match this
      case Enforced => 3
      case Partial => 2
      case Unenforced => 1
      case Unrecognised(_) => 0
    }
  }

  /** The enforcement offered is at least the one asked for. An unrecognised level offers nothing and asks for nothing. */
  predicate AtLeast(offered: Enforcement, asked: Enforcement) {
    match asked
    case Enforced => offered == Enforced
    case Partial => offered == Enforced || offered == Partial
    case Unenforced => offered == Enforced || offered == Partial || offered == Unenforced
    case Unrecognised(_) => true
  }

  lemma RankOrder(asked: Enforcement, offered: Enforcement)
    ensures asked.Rank() <= offered.Rank() <==> AtLeast(offered, asked)
  {
  }

  datatype TaskState =
    | Created | Eligible | Executing | AwaitingVerification | Succeeded
    | Failed | Blocked | Cancelled | Challenged | Expired

  datatype AttemptState = Leased | Running | Completed | AttemptFailed | AttemptCancelled | AttemptExpired

  datatype LeaseState = Active | Revoked | Lapsed

  datatype OperationState =
    | Prepared | Dispatched | OutcomeUncertain | ConfirmedEffect | ConfirmedNoEffect | OperationCancelled

  datatype ReservationState = Held | Unresolved | Settled | Released

  datatype ApprovalState = Pending | Approved | Rejected | ApprovalLapsed | Consumed

  /** The digest of an intent, as the material it is computed from: equal digests mean equal material. */
  datatype Fingerprint = Fingerprint(provider: string, descriptor: string, intent: string, adapter: Option<string>)
}
