/** Statuses, error codes and the two transition tables shared by every component. */
module Domain {

  datatype Option<+T> = None | Some(value: T)

  /** The stable error classification; retry behaviour depends on nothing else. */
  datatype Code =
    | Validation | NotFound | Conflict | Forbidden | Consent | Quota
    | Unsupported | Transient | KillSwitch | Internal

  /** What a handler or a store call returns: nil, or an error carrying a code. */
  datatype Outcome = Nil | Err(code: Code)

  predicate Retryable(o: Outcome) {
    o == Err(Transient)
  }

  datatype UserStatus = UserPending | UserActive | UserSuspended | UserDeleting | UserDeleted

  datatype ReceiptStatus =
    | Received | Queued | Downloading | Stored | Extracting | ReviewRequired
    | Confirmed | Deleted | FailedTransient | FailedPermanent

  /** The receipt state machine. */
  predicate ReceiptCanMove(from: ReceiptStatus, to: ReceiptStatus) {
    match from
    case Received => to in {Queued, Deleted, FailedPermanent}
    case Queued => to in {Downloading, Deleted}
    case Downloading => to in {Stored, FailedTransient, FailedPermanent}
    case Stored => to in {Extracting, Deleted, FailedTransient, FailedPermanent}
    case Extracting => to in {ReviewRequired, FailedTransient, FailedPermanent}
    case ReviewRequired => to in {Confirmed, Deleted}
    case Confirmed => to == Deleted
    case FailedTransient => to in {Queued, FailedPermanent, Deleted}
    case FailedPermanent => to == Deleted
    case Deleted => false
  }

  /** Statuses after which the worker may acknowledge the receipt's job. */
  predicate ReceiptTerminal(s: ReceiptStatus) {
    s in {ReviewRequired, Confirmed, Deleted, FailedPermanent}
  }

  /** The receipt machine seen from where a move leads: the pipeline has one way in per status, a retry starts over at
      the queue, and what ended for the worker never comes back to it. */
  lemma ReceiptMoves(from: ReceiptStatus, to: ReceiptStatus)
    ensures ReceiptCanMove(from, to) <==>
            match to
            case Received => false
            case Queued => from == Received || from == FailedTransient
            case Downloading => from == Queued
            case Stored => from == Downloading
            case Extracting => from == Stored
            case ReviewRequired => from == Extracting
            case Confirmed => from == ReviewRequired
            case FailedTransient => from in {Downloading, Stored, Extracting}
            case FailedPermanent => from in {Received, Downloading, Stored, Extracting, FailedTransient}
            case Deleted => from !in {Downloading, Extracting, Deleted}
    ensures ReceiptTerminal(from) && ReceiptCanMove(from, to) ==> ReceiptTerminal(to)
    ensures !ReceiptTerminal(from) <==> from in {Received, Queued, Downloading, Stored, Extracting, FailedTransient}
  {
  }

  /** Statuses a receipt can have once a draft has been reviewed or offered for review. */
  predicate PostReview(s: ReceiptStatus) {
    s in {ReviewRequired, Confirmed, Deleted}
  }

  datatype TxStatus = TxDraft | TxAwaiting | TxConfirmed | TxAmended | TxDeleted

  /** The transaction state machine. */
  predicate TxCanMove(from: TxStatus, to: TxStatus) {
    match from
    case TxDraft => to in {TxAwaiting, TxDeleted}
    case TxAwaiting => to in {TxConfirmed, TxDeleted}
    case TxConfirmed => to in {TxAmended, TxDeleted}
    case TxAmended => to == TxDeleted
    case TxDeleted => false
  }

  /** The transaction machine seen from where a move leads. */
  lemma TxMoves(from: TxStatus, to: TxStatus)
    ensures TxCanMove(from, to) <==>
            match to
            case TxDraft => false
            case TxAwaiting => from == TxDraft
            case TxConfirmed => from == TxAwaiting
            case TxAmended => from == TxConfirmed
            case TxDeleted => from != TxDeleted
  {
  }

  predicate Recorded(s: TxStatus) {
    s == TxConfirmed || s == TxAmended
  }
}
