/** Order statuses, their conflict-resolution ranks and the terminal set. */
module OrderStatus {

  datatype Status =
    | PendingNew | DryRun
    | Submitted | SubmittedUnconfirmed | New | Accepted
    | PendingCancel | PendingReplace | Calculated | Stopped | Suspended | PartiallyFilled
    | Canceled | Expired | Failed | Rejected | Replaced | DoneForDay
    | BlockedKillSwitch | BlockedCircuitBreaker
    | Filled
    | Scheduled
    | Other(name: string)

  /** Rank of a status; a status outside the table ranks 0. */
  function StatusRankFor(status: Status): nat {
    match status
    case PendingNew | DryRun => 1
    case Submitted | SubmittedUnconfirmed | New | Accepted => 2
    case PendingCancel | PendingReplace | Calculated | Stopped | Suspended | PartiallyFilled => 3
    case Canceled | Expired | Failed | Rejected | Replaced | DoneForDay => 4
    case BlockedKillSwitch | BlockedCircuitBreaker => 4
    case Filled => 5
    case Scheduled | Other(_) => 0
  }

  predicate IsTerminalStatus(status: Status) {
    status in {Filled, Canceled, Expired, Failed, Rejected, Replaced, DoneForDay,
               BlockedKillSwitch, BlockedCircuitBreaker}
  }

  /** The rank table follows an order's life: waiting, at the broker, in progress, ended without a full fill,
      filled; and it agrees with the terminal set, which was written separately. */
  lemma RanksMatchTerminalSet(status: Status)
    ensures StatusRankFor(status) == 1 <==> status in {PendingNew, DryRun}
    ensures StatusRankFor(status) == 2 <==> status in {Submitted, SubmittedUnconfirmed, New, Accepted}
    ensures StatusRankFor(status) == 3 <==>
            status in {PendingCancel, PendingReplace, Calculated, Stopped, Suspended, PartiallyFilled}
    ensures StatusRankFor(status) == 0 <==> status == Scheduled || status.Other?
    ensures IsTerminalStatus(status) <==> StatusRankFor(status) >= 4
    ensures status == Filled <==> StatusRankFor(status) == 5
  {
  }

  /** A terminal status other than filled: no later write may replace it. */
  predicate Locks(status: Status) {
    IsTerminalStatus(status) && status != Filled
  }
}
