/** What a recovery pass makes of each pending slice, read off the tables, the clock and the breaker. */
module RecoveryOutcomes {
  import opened Base
  import opened OrderStatus
  import opened OrderStore
  import opened ZombieRecovery

  // ---------------------------------------------------------------------------
  // What the pass finds
  // ---------------------------------------------------------------------------

  predicate Pending(p: Pass, id: string) {
    id in p.rows && p.rows[id].parentOrderId.Some? && p.rows[id].status == PendingNew
  }

  function Parent(p: Pass, id: string): string
    requires Pending(p, id)
  {
    p.rows[id].parentOrderId.value
  }

  predicate Orphan(p: Pass, id: string)
    requires Pending(p, id)
  {
    Parent(p, id) == "" || Parent(p, id) !in p.rows
  }

  predicate ParentEnded(p: Pass, id: string)
    requires Pending(p, id)
  {
    !Orphan(p, id) && p.rows[Parent(p, id)].status in {Canceled, Expired, Failed}
  }

  predicate Recoverable(p: Pass, id: string)
    requires Pending(p, id)
  {
    !Orphan(p, id) && p.rows[Parent(p, id)].status in {Accepted, Submitted, SubmittedUnconfirmed}
  }

  predicate TooLate(p: Pass, id: string)
    requires Pending(p, id)
  {
    p.expirySeconds > 0 && p.rows[id].scheduledTime.Some? &&
    p.now - p.rows[id].scheduledTime.value > p.expirySeconds
  }

  predicate IsStale(p: Pass, id: string)
    requires Pending(p, id)
  {
    Recoverable(p, id) && TooLate(p, id)
  }

  predicate IsBlocked(p: Pass, id: string)
    requires Pending(p, id)
  {
    Recoverable(p, id) && !TooLate(p, id) && p.env(id).tripped
  }

  predicate Unhindered(p: Pass, id: string)
    requires Pending(p, id)
  {
    Recoverable(p, id) && !TooLate(p, id) && !p.env(id).tripped
  }

  predicate Complete(row: OrderRow) {
    row.scheduledTime.Some? && row.sliceNum.Some?
  }

  predicate Overdue(p: Pass, row: OrderRow) {
    row.scheduledTime.Some? && row.scheduledTime.value < p.now
  }

  predicate NoOpening(p: Pass, id: string)
    requires Pending(p, id)
  {
    Overdue(p, p.rows[id]) && !p.env(id).clock.isOpen && p.env(id).clock.nextOpen.None?
  }

  /** Nothing stands in the way: the slice can be given a time to run. */
  predicate IsReady(p: Pass, id: string)
    requires Pending(p, id)
  {
    Unhindered(p, id) && Complete(p.rows[id]) && !NoOpening(p, id)
  }

  /** Its own time, or now, or the next opening. */
  function TimeToRun(p: Pass, id: string): int
    requires Pending(p, id) && IsReady(p, id)
  {
    if !Overdue(p, p.rows[id]) then p.rows[id].scheduledTime.value
    else if p.env(id).clock.isOpen then p.now
    else p.env(id).clock.nextOpen.value
  }

  predicate IsFailed(p: Pass, id: string)
    requires Pending(p, id)
  {
    Orphan(p, id) || (Unhindered(p, id) && (!Complete(p.rows[id]) || NoOpening(p, id)))
  }

  /** Why a failed slice failed. */
  function FailureReason(p: Pass, id: string): Reason
    requires Pending(p, id) && IsFailed(p, id)
  {
    var row := p.rows[id];
    if Parent(p, id) == "" then NoParentId
    else if Parent(p, id) !in p.rows then ParentMissing
    else if row.scheduledTime.None? then NoScheduledTime
    else if row.sliceNum.None? then NoSliceNum
    else if p.now - row.scheduledTime.value <= p.graceSeconds then NoNextOpen
    else MissedGraceNoNextOpen
  }

  /** The job store's key of a numbered slice. */
  function JobOf(p: Pass, id: string): JobKey
    requires Pending(p, id) && p.rows[id].sliceNum.Some?
  {
    (Parent(p, id), p.rows[id].sliceNum.value)
  }

  // ---------------------------------------------------------------------------
  // What becomes of the row and the job
  // ---------------------------------------------------------------------------

  /** The row takes a write of rank 4 made now: it is not terminal and shows nothing newer. */
  predicate Takes(row: OrderRow, now: int) {
    && !row.isTerminal
    && (|| row.lastUpdatedAt.None? || row.lastUpdatedAt.value < now
        || (row.lastUpdatedAt.value == now && row.statusRank.Some? &&
            (row.statusRank.value < 4 ||
             (row.statusRank.value == 4 && row.filledQty == 0.0 && row.sourcePriority > 1))))
  }

  /** Marked for good by the gateway itself, everything else as it was; or, if the write is refused, untouched. */
  predicate Marked(before: OrderRow, after: OrderRow, now: int, status: Status, text: string) {
    after == if Takes(before, now)
             then before.(status := status, isTerminal := true, errorMessage := Some(text), lastUpdatedAt := Some(now),
                          statusRank := Some(4), sourcePriority := 1)
             else before
  }

  lemma MarkIs(row: OrderRow, now: int, status: Status, reason: Reason)
    requires row.status == PendingNew && row.filledQty >= 0.0
    requires status in {Failed, Expired, BlockedCircuitBreaker}
    ensures Marked(row, Cas(row, Update(status, now, reason)), now, status, ErrorMessage(reason))
  {
    hide ErrorMessage, CasAccepts, Takes;
    TakesIffAccepts(row, now, status, reason);
  }

  lemma TakesIffAccepts(row: OrderRow, now: int, status: Status, reason: Reason)
    requires row.status == PendingNew && row.filledQty >= 0.0
    requires status in {Failed, Expired, BlockedCircuitBreaker}
    ensures CasAccepts(row, Update(status, now, reason)) <==> Takes(row, now)
  {
    hide ErrorMessage;
  }

  /** The row of every pending slice after the pass, by what the pass finds. Filled quantities are not
      negative, which a CHECK on the column sees to. */
  lemma RowOfEachSlice(p: Pass, id: string)
    requires p.WellFormed() && Pending(p, id) && p.rows[id].filledQty >= 0.0
    ensures id in p.AfterPass()
    ensures IsFailed(p, id) ==>
              Marked(p.rows[id], p.AfterPass()[id], p.now, Failed, ErrorMessage(FailureReason(p, id)))
    ensures IsStale(p, id) ==> Marked(p.rows[id], p.AfterPass()[id], p.now, Expired, ErrorMessage(TooOld))
    ensures IsBlocked(p, id) ==>
              Marked(p.rows[id], p.AfterPass()[id], p.now, BlockedCircuitBreaker,
                     ErrorMessage(BreakerTripped(p.env(id).tripReason)))
    ensures ParentEnded(p, id) ==> p.AfterPass()[id] == p.rows[id].(status := Canceled)
    ensures IsReady(p, id) ==> p.AfterPass()[id] == p.rows[id].(scheduledTime := Some(TimeToRun(p, id)))
    ensures !Orphan(p, id) && !ParentEnded(p, id) && !Recoverable(p, id) ==> p.AfterPass()[id] == p.rows[id]
  {
    hide Cas, Update, ErrorMessage, Marked, Pass.AfterPass, Pass.VerdictOf, Orphan, ParentEnded, Recoverable, TooLate;
    hide IsFailed, IsStale, IsBlocked, IsReady;
    LiveChildrenAfterPass(p, "");
    ChildAfterPass(p, id);
    VerdictFound(p, id);
    match p.VerdictOf(id) {
      case Mark(status, reason) =>
        MarkIs(p.rows[id], p.now, status, reason);
      case _ =>
    }
  }

  /** The loop body's verdict, by what the pass finds. */
  lemma VerdictFound(p: Pass, id: string)
    requires Pending(p, id)
    ensures IsFailed(p, id) ==> p.VerdictOf(id) == Mark(Failed, FailureReason(p, id))
    ensures ParentEnded(p, id) ==> p.VerdictOf(id) == Cascade
    ensures IsStale(p, id) ==> p.VerdictOf(id) == Mark(Expired, TooOld)
    ensures IsBlocked(p, id) ==> p.VerdictOf(id) == Mark(BlockedCircuitBreaker, BreakerTripped(p.env(id).tripReason))
    ensures IsReady(p, id) ==> p.VerdictOf(id) == RunAt(TimeToRun(p, id))
    ensures !Orphan(p, id) && !ParentEnded(p, id) && !Recoverable(p, id) ==> p.VerdictOf(id) == Skip
    ensures IsFailed(p, id) || ParentEnded(p, id) || IsStale(p, id) || IsBlocked(p, id) || IsReady(p, id) ||
            (!Orphan(p, id) && !ParentEnded(p, id) && !Recoverable(p, id))
  {
  }

  /** What the rows say about it. */
  lemma ReasonTexts(trip: string)
    ensures ErrorMessage(NoParentId) == "Pending slice missing parent_order_id"
    ensures ErrorMessage(ParentMissing) == "Parent order missing for pending slice recovery"
    ensures ErrorMessage(TooOld) == "Slice expired"
    ensures ErrorMessage(BreakerTripped(trip)) == "Circuit breaker is tripped - reason: " + trip
    ensures ErrorMessage(NoScheduledTime) == "Pending slice missing scheduled_time"
    ensures ErrorMessage(NoSliceNum) == "Pending slice missing slice_num"
    ensures ErrorMessage(NoNextOpen) == "Market closed and next open unavailable during recovery"
    ensures ErrorMessage(MissedGraceNoNextOpen) == "Slice missed grace period and next open unavailable"
  {
  }

  /** Exactly when a pending slice ends in each status, and when it is left to run. */
  lemma StatusOfEachSliceIff(p: Pass, id: string)
    requires p.WellFormed() && Pending(p, id) && p.rows[id].filledQty >= 0.0
    ensures id in p.AfterPass()
    ensures var before, status := p.rows[id], p.AfterPass()[id].status;
      && (status == Failed <==> IsFailed(p, id) && Takes(before, p.now))
      && (status == Canceled <==> ParentEnded(p, id))
      && (status == Expired <==> IsStale(p, id) && Takes(before, p.now))
      && (status == BlockedCircuitBreaker <==> IsBlocked(p, id) && Takes(before, p.now))
      && (status == PendingNew <==>
            || IsReady(p, id)
            || (!Orphan(p, id) && !ParentEnded(p, id) && !Recoverable(p, id))
            || (!ParentEnded(p, id) && !IsReady(p, id) && !Takes(before, p.now)))
  {
    hide Pass.AfterPass, Takes, TimeToRun;
    RowOfEachSlice(p, id);
  }

  /** Exactly when a numbered slice has a job after the pass: it had one, or it is ready, and then the
      new job runs it at its time to run. */
  lemma JobOfEachSliceIff(p: Pass, pending: seq<string>, after: map<JobKey, JobEntry>, id: string)
    requires p.WellFormed() && p.ListsPending(pending) && p.JobsAdded(pending, after)
    requires Pending(p, id) && p.rows[id].sliceNum.Some?
    ensures JobOf(p, id) in after <==> JobOf(p, id) in p.jobs || IsReady(p, id)
    ensures JobOf(p, id) in p.jobs ==> after[JobOf(p, id)] == p.jobs[JobOf(p, id)]
    ensures IsReady(p, id) && JobOf(p, id) !in p.jobs ==> after[JobOf(p, id)] == JobEntry(TimeToRun(p, id), id)
  {
    var k := JobOf(p, id);
    assert p.IsPending(id) && p.KeyOf(id) == k;
    if k in after && k !in p.jobs {
      var other := after[k].clientOrderId;
      assert p.IsScheduled(other) && p.KeyOf(other) == k;
      p.IsScheduledKey(other);
      if other != id {
        p.KeysDiffer(other, id);
      }
    }
  }

  // ---------------------------------------------------------------------------
  // The counters
  // ---------------------------------------------------------------------------

  function AllPending(p: Pass): set<string> {
    set id | id in p.rows && Pending(p, id)
  }

  /** Each counter is the number of slices found in its state. */
  lemma CountersOfEachSlice(p: Pass, pending: seq<string>, counts: Counts)
    requires p.WellFormed() && p.ListsPending(pending) && p.Tallies(pending, counts)
    ensures counts.pending == |AllPending(p)|
    ensures counts.scheduled ==
            |set id | id in AllPending(p) && IsNew(p, id)|
    ensures counts.blocked == |set id | id in AllPending(p) && IsBlocked(p, id)|
    ensures counts.failed == |set id | id in AllPending(p) && IsFailed(p, id)|
    ensures counts.canceled == |set id | id in AllPending(p) && ParentEnded(p, id)|
    ensures counts.expired == |set id | id in AllPending(p) && IsStale(p, id)|
  {
    hide Pass.CategoryOf, IsStale, IsBlocked, IsReady, IsFailed, ParentEnded, IsNew, Pass.WellFormed, Pass.ListsPending;
    ListLength(p, pending);
    forall id | id in AllPending(p)
      ensures p.IsPending(id)
      ensures p.CategoryOf(id) == WasScheduled <==> IsNew(p, id)
      ensures p.CategoryOf(id) == WasBlocked <==> IsBlocked(p, id)
      ensures p.CategoryOf(id) == WasFailed <==> IsFailed(p, id)
      ensures p.CategoryOf(id) == WasCanceled <==> ParentEnded(p, id)
      ensures p.CategoryOf(id) == WasExpired <==> IsStale(p, id)
    {
      CategoryOfSlice(p, id);
    }
    ListedArePending(p, pending);
    InCategoryIs(p, pending, WasScheduled, set id | id in AllPending(p) && IsNew(p, id));
    InCategoryIs(p, pending, WasBlocked, set id | id in AllPending(p) && IsBlocked(p, id));
    InCategoryIs(p, pending, WasFailed, set id | id in AllPending(p) && IsFailed(p, id));
    InCategoryIs(p, pending, WasCanceled, set id | id in AllPending(p) && ParentEnded(p, id));
    InCategoryIs(p, pending, WasExpired, set id | id in AllPending(p) && IsStale(p, id));
  }

  lemma InCategoryIs(p: Pass, pending: seq<string>, c: Category, found: set<string>)
    requires p.ListsPending(pending) && (forall id :: id in pending ==> id in AllPending(p)) && found <= AllPending(p)
    requires forall id :: id in AllPending(p) ==> p.IsPending(id) && (p.CategoryOf(id) == c <==> id in found)
    ensures p.InCategory(pending, c) == found
  {
    hide Pass.CategoryOf;
  }

  lemma ListedArePending(p: Pass, pending: seq<string>)
    requires p.ListsPending(pending)
    ensures forall id :: id in pending ==> id in AllPending(p)
  {
  }

  /** Ready, and without a job so far. */
  predicate IsNew(p: Pass, id: string)
    requires Pending(p, id)
  {
    IsReady(p, id) && JobOf(p, id) !in p.jobs
  }

  lemma CategoryOfSlice(p: Pass, id: string)
    requires Pending(p, id)
    ensures p.IsPending(id)
    ensures p.CategoryOf(id) == WasScheduled <==> IsNew(p, id)
    ensures p.CategoryOf(id) == WasBlocked <==> IsBlocked(p, id)
    ensures p.CategoryOf(id) == WasFailed <==> IsFailed(p, id)
    ensures p.CategoryOf(id) == WasCanceled <==> ParentEnded(p, id)
    ensures p.CategoryOf(id) == WasExpired <==> IsStale(p, id)
  {
  }

  lemma ListLength(p: Pass, pending: seq<string>)
    requires p.ListsPending(pending)
    ensures |pending| == |AllPending(p)|
  {
    DistinctLength(pending);
    assert AllPending(p) == set id | id in pending;
  }

  lemma {:induction false} DistinctLength(ids: seq<string>)
    requires forall i, j :: 0 <= i < j < |ids| ==> ids[i] != ids[j]
    ensures |set id | id in ids| == |ids|
    decreases |ids|
  {
    if ids != [] {
      var n := |ids| - 1;
      DistinctLength(ids[..n]);
      assert (set id | id in ids) == (set id | id in ids[..n]) + {ids[n]};
    }
  }

  /** The number of parents expired: those with a stale slice found in this pass and no child left with
      is_terminal FALSE. */
  lemma ParentsCounted(p: Pass, pending: seq<string>, counts: Counts)
    requires p.WellFormed() && p.ListsPending(pending) && p.Tallies(pending, counts)
    ensures counts.parentsExpired ==
            |set id | id in AllPending(p) && IsStale(p, id) && NoChildLeft(p, Parent(p, id)) :: Parent(p, id)|
  {
    hide Pass.AfterPass, Pass.AfterSlices, Pass.CategoryOf, IsStale, NoChildLeft, LiveChildren, Pass.Tallies;
    hide Pass.WellFormed, Pass.ListsPending;
    forall id | id in p.rows && Pending(p, id)
      ensures p.IsPending(id) && (p.CategoryOf(id) == WasExpired <==> IsStale(p, id))
    {
      CategoryOfSlice(p, id);
    }
    forall parent ensures LiveChildren(p.AfterSlices(), parent) == {} <==> NoChildLeft(p, parent) {
      NoChildLeftIff(p, parent);
    }
    assert p.ExpiredAmong(p.ExpiredParents()) ==
           set id | id in AllPending(p) && IsStale(p, id) && NoChildLeft(p, Parent(p, id)) :: Parent(p, id);
    TalliedParents(p, pending, counts);
  }

  lemma TalliedParents(p: Pass, pending: seq<string>, counts: Counts)
    requires p.ListsPending(pending) && p.Tallies(pending, counts)
    ensures counts.parentsExpired == |p.ExpiredAmong(p.ExpiredParents())|
  {
  }

  lemma NoChildLeftIff(p: Pass, parent: string)
    requires p.WellFormed()
    ensures LiveChildren(p.AfterSlices(), parent) == {} <==> NoChildLeft(p, parent)
  {
    hide Pass.AfterPass, Pass.AfterSlices, LiveChildren, Pass.WellFormed;
    LiveChildrenAfterPass(p, parent);
  }

  /** A parent's row either stays, or is expired for good with nothing else changed. */
  lemma RowOfEachParent(p: Pass, parent: string)
    requires p.WellFormed() && parent in p.rows && p.rows[parent].parentOrderId.None?
    requires p.rows[parent].filledQty >= 0.0
    ensures parent in p.AfterPass()
    ensures p.AfterPass()[parent] != p.rows[parent] ==>
              p.AfterPass()[parent] ==
              p.rows[parent].(status := Expired, isTerminal := true, lastUpdatedAt := Some(p.now),
                              statusRank := Some(4), sourcePriority := 1,
                              errorMessage := Some("Parent expired: all child slices are in terminal state"))
  {
    hide Pass.AfterPass, Pass.ExpiresParent, CasAccepts;
    LiveChildrenAfterPass(p, parent);
    ParentAfterPass(p, parent);
  }

  ghost predicate NoChildLeft(p: Pass, parent: string) {
    forall id :: id in p.rows && p.rows[id].parentOrderId == Some(parent) ==>
      id in p.AfterPass() && p.AfterPass()[id].isTerminal
  }
}
