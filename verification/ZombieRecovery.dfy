/** Recovery of pending slices after a restart. */
module ZombieRecovery {
  import opened Base
  import opened OrderStatus
  import opened OrderStore

  datatype MarketClock = MarketClock(isOpen: bool, nextOpen: Option<int>)

  /** What the breaker and the market clock answer while one slice is handled. */
  datatype Surroundings = Surroundings(tripped: bool, tripReason: string, clock: MarketClock)

  /** Job ids are parent and slice number. */
  type JobKey = (string, nat)
  datatype JobEntry = JobEntry(runTime: int, clientOrderId: string)

  datatype Counts = Counts(pending: nat, scheduled: nat, blocked: nat, failed: nat, canceled: nat, expired: nat,
                           parentsExpired: nat)

  /** Why a row was marked. */
  datatype Reason =
    | NoParentId | ParentMissing | TooOld | BreakerTripped(reason: string) | NoScheduledTime | NoSliceNum
    | NoNextOpen | MissedGraceNoNextOpen | ChildrenEnded

  function ErrorMessage(reason: Reason): string {
    match reason
    case NoParentId => "Pending slice missing parent_order_id"
    case ParentMissing => "Parent order missing for pending slice recovery"
    case TooOld => "Slice expired"
    case BreakerTripped(text) => "Circuit breaker is tripped - reason: " + text
    case NoScheduledTime => "Pending slice missing scheduled_time"
    case NoSliceNum => "Pending slice missing slice_num"
    case NoNextOpen => "Market closed and next open unavailable during recovery"
    case MissedGraceNoNextOpen => "Slice missed grace period and next open unavailable"
    case ChildrenEnded => "Parent expired: all child slices are in terminal state"
  }

  datatype Verdict = Mark(status: Status, reason: Reason) | Cascade | Skip | RunAt(time: int)

  datatype Category = WasScheduled | WasBlocked | WasFailed | WasCanceled | WasExpired | WasSkipped

  function Update(status: Status, now: int, reason: Reason): CasUpdate {
    CasUpdate(status, now, StatusRankFor(status), SOURCE_PRIORITY_MANUAL, None, None, None, None, None,
              Some(ErrorMessage(reason)))
  }

  predicate IsPendingChild(row: OrderRow) {
    row.parentOrderId.Some? && row.status == PendingNew
  }

  predicate Allowed(status: Status) {
    status in {Accepted, Submitted, SubmittedUnconfirmed}
  }

  predicate Ended(status: Status) {
    status in {Canceled, Expired, Failed}
  }

  /** A non-positive expiry disables the check; a slice scheduled in the future is not stale. */
  predicate IsSliceStale(scheduledTime: Option<int>, now: int, expirySeconds: int) {
    expirySeconds > 0 && scheduledTime.Some? && now - scheduledTime.value >= 0 &&
      now - scheduledTime.value > expirySeconds
  }

  /** One recovery pass: what it starts from and what it sees of its surroundings. */
  datatype Pass = Pass(rows: Rows, jobs: map<JobKey, JobEntry>, now: int, env: string -> Surroundings,
                       graceSeconds: int, expirySeconds: int)
  {
    predicate IsPending(id: string) {
      id in rows && IsPendingChild(rows[id])
    }

    function ParentOf(id: string): string
      requires IsPending(id)
    {
      rows[id].parentOrderId.value
    }

    /** When an overdue slice runs, if it can. */
    function CatchUp(row: OrderRow, s: Surroundings): Verdict
      requires row.scheduledTime.Some?
    {
      if s.clock.isOpen then RunAt(now)
      else if s.clock.nextOpen.Some? then RunAt(s.clock.nextOpen.value)
      else Mark(Failed, if now - row.scheduledTime.value <= graceSeconds then NoNextOpen else MissedGraceNoNextOpen)
    }

    function VerdictOf(id: string): Verdict
      requires IsPending(id)
    {
      var row, s, parent := rows[id], env(id), ParentOf(id);
      if parent == "" then Mark(Failed, NoParentId)
      else if parent !in rows then Mark(Failed, ParentMissing)
      else if Ended(rows[parent].status) then Cascade
      else if !Allowed(rows[parent].status) then Skip
      else if IsSliceStale(row.scheduledTime, now, expirySeconds) then Mark(Expired, TooOld)
      else if s.tripped then Mark(BlockedCircuitBreaker, BreakerTripped(s.tripReason))
      else if row.scheduledTime.None? then Mark(Failed, NoScheduledTime)
      else if row.sliceNum.None? then Mark(Failed, NoSliceNum)
      else if row.scheduledTime.value < now then CatchUp(row, s)
      else RunAt(row.scheduledTime.value)
    }

    lemma RunsNumberedSlices(id: string)
      requires IsPending(id) && VerdictOf(id).RunAt?
      ensures rows[id].sliceNum.Some? && ParentOf(id) in rows && Allowed(rows[ParentOf(id)].status)
    {
    }

    function KeyOf(id: string): JobKey
      requires IsPending(id) && rows[id].sliceNum.Some?
    {
      (ParentOf(id), rows[id].sliceNum.value)
    }

    function CategoryOf(id: string): Category
      requires IsPending(id)
    {
      match VerdictOf(id)
      case Mark(status, _) =>
        if status == Failed then WasFailed else if status == Expired then WasExpired else WasBlocked
      case Cascade => WasCanceled
      case Skip => WasSkipped
      case RunAt(_) => if KeyOf(id) in jobs then WasSkipped else WasScheduled
    }

    /** The row of a pending slice after the pass; a refused write leaves it pending. */
    function RowAfter(id: string): OrderRow
      requires IsPending(id)
    {
      match VerdictOf(id)
      case Mark(status, reason) => Cas(rows[id], Update(status, now, reason))
      case Cascade => rows[id].(status := Canceled)
      case Skip => rows[id]
      case RunAt(t) => rows[id].(scheduledTime := Some(t))
    }

    function AfterSlices(): (after: Rows)
      ensures after.Keys == rows.Keys
    {
      map id | id in rows :: if IsPending(id) then RowAfter(id) else rows[id]
    }

    /** Parents of the slices found stale in this pass. */
    function ExpiredParents(): set<string> {
      set id | id in rows && IsPending(id) && CategoryOf(id) == WasExpired :: ParentOf(id)
    }

    predicate ExpiresParent(id: string) {
      id in ExpiredParents() && LiveChildren(AfterSlices(), id) == {}
    }

    function AfterPass(): Rows {
      map id | id in rows :: if ExpiresParent(id) then Cas(AfterSlices()[id], ParentExpired(now)) else AfterSlices()[id]
    }

    predicate IsScheduled(id: string) {
      IsPending(id) && CategoryOf(id) == WasScheduled
    }

    function EntryOf(id: string): JobEntry
      requires IsScheduled(id)
    {
      JobEntry(VerdictOf(id).time, id)
    }

    /** Old jobs stay as they were; exactly the scheduled slices among `ids` are added. */
    ghost predicate JobsAdded(ids: seq<string>, after: map<JobKey, JobEntry>) {
      && (forall k :: k in jobs ==> k in after && after[k] == jobs[k])
      && (forall id :: id in ids && IsScheduled(id) ==> KeyOf(id) in after && after[KeyOf(id)] == EntryOf(id))
      && (forall k :: k in after && k !in jobs ==>
            var id := after[k].clientOrderId; id in ids && IsScheduled(id) && KeyOf(id) == k)
    }

    /** Each pending slice is counted once, under what happened to it. */
    ghost predicate Tallies(pending: seq<string>, counts: Counts)
      requires forall id :: id in pending ==> IsPending(id)
    {
      && counts.pending == |pending|
      && counts.canceled == |InCategory(pending, WasCanceled)|
      && TalliesOfOthers(pending, counts)
      && counts.parentsExpired == |ExpiredAmong(ExpiredParents())|
    }

    ghost predicate TalliesOfOthers(ids: seq<string>, counts: Counts)
      requires forall id :: id in ids ==> IsPending(id)
    {
      && counts.scheduled == |InCategory(ids, WasScheduled)|
      && counts.blocked == |InCategory(ids, WasBlocked)|
      && counts.failed == |InCategory(ids, WasFailed)|
      && counts.expired == |InCategory(ids, WasExpired)|
    }

    function InCategory(ids: seq<string>, c: Category): set<string>
      requires forall id :: id in ids ==> IsPending(id)
    {
      set id | id in ids && CategoryOf(id) == c
    }

    /** The query's result: every pending child once, in any order. */
    ghost predicate ListsPending(pending: seq<string>) {
      && (forall id :: id in pending <==> IsPending(id))
      && (forall i, j :: 0 <= i < j < |pending| ==> pending[i] != pending[j])
    }

    /** Parents are not themselves slices, and (parent, slice number) is unique. */
    ghost predicate WellFormed() {
      && (forall id :: id in rows && rows[id].parentOrderId.Some? && rows[id].parentOrderId.value in rows ==>
            rows[rows[id].parentOrderId.value].parentOrderId.None?)
      && (forall a, b :: IsPending(a) && IsPending(b) && rows[a].sliceNum.Some? && rows[b].sliceNum.Some? &&
            KeyOf(a) == KeyOf(b)
            ==> a == b)
    }

    // -------------------------------------------------------------------------
    // Part of the way through
    // -------------------------------------------------------------------------

    /** Handled directly, or canceled along with a sibling. */
    predicate Handled(id: string, done: seq<string>, canceledParents: set<string>) {
      IsPending(id) && (id in done || (VerdictOf(id) == Cascade && ParentOf(id) in canceledParents))
    }

    function RowsSoFar(done: seq<string>, canceledParents: set<string>): Rows {
      map id | id in rows :: if Handled(id, done, canceledParents) then RowAfter(id) else rows[id]
    }

    function CanceledUnder(canceledParents: set<string>): set<string> {
      set id | id in rows && IsPending(id) && VerdictOf(id) == Cascade && ParentOf(id) in canceledParents
    }

    lemma ParentIsUntouched(id: string, done: seq<string>, canceledParents: set<string>)
      requires WellFormed() && IsPending(id) && ParentOf(id) in rows
      ensures RowsSoFar(done, canceledParents)[ParentOf(id)] == rows[ParentOf(id)]
    {
      hide VerdictOf, RowAfter;
    }

    lemma RecoverStep(id: string, done: seq<string>, canceledParents: set<string>)
      requires IsPending(id)
      ensures RowsSoFar(done, canceledParents)[id := RowAfter(id)] == RowsSoFar(done + [id], canceledParents)
    {
      hide VerdictOf, RowAfter;
    }

    /** A slice's parent decides whether it is canceled. */
    lemma CascadeIsByParent(id: string, sibling: string)
      requires IsPending(id) && VerdictOf(id) == Cascade
      requires IsPending(sibling) && ParentOf(sibling) == ParentOf(id)
      ensures VerdictOf(sibling) == Cascade
    {
    }

    lemma RowAfterKeepsParent(id: string)
      requires IsPending(id)
      ensures RowAfter(id).parentOrderId == rows[id].parentOrderId
    {
      hide VerdictOf;
    }

    lemma CascadeStep(id: string, done: seq<string>, canceledParents: set<string>)
      requires IsPending(id) && VerdictOf(id) == Cascade && ParentOf(id) !in canceledParents
      requires forall other :: other in done && IsPending(other) && VerdictOf(other) == Cascade ==>
               ParentOf(other) in canceledParents
      ensures CancelPending(RowsSoFar(done, canceledParents), ParentOf(id)) ==
              RowsSoFar(done + [id], canceledParents + {ParentOf(id)})
      ensures PendingSlicesOf(RowsSoFar(done, canceledParents), ParentOf(id)) == CanceledUnder({ParentOf(id)})
    {
      hide VerdictOf, RowAfter;
      var parent, before := ParentOf(id), RowsSoFar(done, canceledParents);
      forall x | x in rows
        ensures IsPendingSliceOf(before[x], parent) <==> x in CanceledUnder({parent})
        ensures x in CanceledUnder({parent}) ==>
                  !Handled(x, done, canceledParents) && RowAfter(x) == rows[x].(status := Canceled)
        ensures Handled(x, done + [id], canceledParents + {parent}) <==>
          Handled(x, done, canceledParents) || x in CanceledUnder({parent})
      {
        if IsPending(x) {
          RowAfterKeepsParent(x);
          if ParentOf(x) == parent {
            CascadeIsByParent(id, x);
          }
          if VerdictOf(x) == Cascade {
            CascadeRow(x);
          }
        }
      }
    }

    lemma InCategoryGrows(ids: seq<string>, id: string, c: Category)
      requires (forall x :: x in ids ==> IsPending(x)) && IsPending(id) && id !in ids
      ensures |InCategory(ids + [id], c)| == |InCategory(ids, c)| + if CategoryOf(id) == c then 1 else 0
    {
      hide CategoryOf, InCategory;
      OneMoreInCategory(ids, id, c);
    }

    lemma OneMoreInCategory(ids: seq<string>, id: string, c: Category)
      requires (forall x :: x in ids ==> IsPending(x)) && IsPending(id) && id !in ids
      ensures id !in InCategory(ids, c)
      ensures InCategory(ids + [id], c) == if CategoryOf(id) == c then InCategory(ids, c) + {id} else InCategory(ids, c)
    {
      hide CategoryOf;
    }

    lemma TallyStep(ids: seq<string>, id: string, counts: Counts)
      requires (forall x :: x in ids ==> IsPending(x)) && IsPending(id) && id !in ids
      requires TalliesOfOthers(ids, counts)
      ensures TalliesOfOthers(ids + [id], Counted(counts, CategoryOf(id)))
      ensures Counted(counts, CategoryOf(id)).canceled == counts.canceled
    {
      hide CategoryOf, InCategory;
      InCategoryGrows(ids, id, WasScheduled);
      InCategoryGrows(ids, id, WasBlocked);
      InCategoryGrows(ids, id, WasFailed);
      InCategoryGrows(ids, id, WasExpired);
    }

    lemma OtherCounts(ids: seq<string>, counts: Counts, canceled: nat, parentsExpired: nat)
      requires (forall x :: x in ids ==> IsPending(x)) && TalliesOfOthers(ids, counts)
      ensures TalliesOfOthers(ids, counts.(canceled := canceled)) &&
              TalliesOfOthers(ids, counts.(parentsExpired := parentsExpired))
    {
    }

    /** The parents to look at after the loop. */
    function ExpiredParentsOf(ids: seq<string>): set<string>
      requires forall id :: id in ids ==> IsPending(id)
    {
      set id | id in ids && CategoryOf(id) == WasExpired :: ParentOf(id)
    }

    lemma ExpiredParentsGrow(ids: seq<string>, id: string)
      requires (forall x :: x in ids ==> IsPending(x)) && IsPending(id)
      ensures ExpiredParentsOf(ids + [id]) ==
              ExpiredParentsOf(ids) + if CategoryOf(id) == WasExpired then {ParentOf(id)} else {}
    {
    }

    lemma JobsStep(ids: seq<string>, id: string, before: map<JobKey, JobEntry>)
      requires IsPending(id) && !IsScheduled(id) && JobsAdded(ids, before)
      ensures JobsAdded(ids + [id], before)
    {
      hide VerdictOf, CategoryOf;
    }

    lemma NewJobStep(ids: seq<string>, id: string, before: map<JobKey, JobEntry>)
      requires WellFormed() && IsScheduled(id) && id !in ids && JobsAdded(ids, before)
      ensures rows[id].sliceNum.Some? && JobsAdded(ids + [id], before[KeyOf(id) := EntryOf(id)])
    {
      hide VerdictOf, CategoryOf, KeyOf;
      IsScheduledKey(id);
      forall other | other in ids && IsScheduled(other)
        ensures rows[other].sliceNum.Some? && KeyOf(other) != KeyOf(id)
      {
        IsScheduledKey(other);
        KeysDiffer(id, other);
      }
    }

    lemma KeysDiffer(a: string, b: string)
      requires WellFormed() && IsPending(a) && IsPending(b) && rows[a].sliceNum.Some? && rows[b].sliceNum.Some? &&
               a != b
      ensures KeyOf(a) != KeyOf(b)
    {
    }

    lemma IsScheduledKey(id: string)
      requires IsScheduled(id)
      ensures VerdictOf(id).RunAt? && rows[id].sliceNum.Some? && KeyOf(id) !in jobs
    {
      hide VerdictOf;
      RunsNumberedSlices(id);
    }

    /** Before its turn, a slice's job key is taken only if it was taken at the start. */
    lemma KeyIsFree(ids: seq<string>, id: string, now: map<JobKey, JobEntry>)
      requires WellFormed() && JobsAdded(ids, now) && IsPending(id) && id !in ids && rows[id].sliceNum.Some?
      ensures KeyOf(id) in now <==> KeyOf(id) in jobs
    {
    }

    // -------------------------------------------------------------------------
    // The end of the loop
    // -------------------------------------------------------------------------

    /** Where the loop stands after the slices in `done`. */
    ghost predicate Reached(done: seq<string>, rowsNow: Rows, jobsNow: map<JobKey, JobEntry>,
                            canceledParents: set<string>, expiredParents: set<string>, counts: Counts) {
      && (forall id :: id in done ==> IsPending(id))
      && rowsNow == RowsSoFar(done, canceledParents)
      && (forall id :: id in done && VerdictOf(id) == Cascade ==> ParentOf(id) in canceledParents)
      && (forall parent :: parent in canceledParents ==> parent in rows && Ended(rows[parent].status))
      && expiredParents == ExpiredParentsOf(done)
      && JobsAdded(done, jobsNow)
      && TalliesOfOthers(done, counts)
      && counts.canceled == |CanceledUnder(canceledParents)|
      && counts.parentsExpired == 0
    }

    lemma LoopBegins(pending: nat)
      ensures Reached([], rows, jobs, {}, {}, Counts(pending, 0, 0, 0, 0, 0, 0))
    {
      hide VerdictOf, CategoryOf;
      assert RowsSoFar([], {}) == rows && CanceledUnder({}) == {};
    }

    lemma LoopIsDone(pending: seq<string>, rowsNow: Rows, jobsNow: map<JobKey, JobEntry>, canceledParents: set<string>,
                     expiredParents: set<string>, counts: Counts, parents: nat)
      requires ListsPending(pending) && counts.pending == |pending|
      requires Reached(pending, rowsNow, jobsNow, canceledParents, expiredParents, counts)
      ensures rowsNow == AfterSlices() && expiredParents == ExpiredParents() && JobsAdded(pending, jobsNow)
      ensures forall parent :: parent in canceledParents ==> parent in rows && Ended(rows[parent].status)
      ensures parents == |ExpiredAmong(ExpiredParents())| ==> Tallies(pending, counts.(parentsExpired := parents))
    {
      hide VerdictOf, RowAfter, CategoryOf, JobsAdded, ExpiresParent, TalliesOfOthers;
      forall id | IsPending(id)
        ensures VerdictOf(id) == Cascade <==> CategoryOf(id) == WasCanceled
      {
        CategoryOfCascade(id);
      }
      assert forall id :: id in pending ==> id in rows;
      assert CanceledUnder(canceledParents) == InCategory(pending, WasCanceled);
      OtherCounts(pending, counts, counts.canceled, parents);
    }

    lemma CategoryOfCascade(id: string)
      requires IsPending(id)
      ensures VerdictOf(id) == Cascade <==> CategoryOf(id) == WasCanceled
      ensures CategoryOf(id) == WasExpired ==> ParentOf(id) in rows && Allowed(rows[ParentOf(id)].status)
    {
    }

    function ParentsSoFar(done: set<string>): Rows {
      map id | id in rows ::
        if id in done && ExpiresParent(id) then Cas(AfterSlices()[id], ParentExpired(now)) else AfterSlices()[id]
    }

    lemma ExpiredParentsAreParents(parent: string)
      requires WellFormed() && parent in ExpiredParents()
      ensures parent in rows && Allowed(rows[parent].status) && rows[parent].parentOrderId.None?
    {
    }

    lemma ChildrenAreUntouched(done: set<string>, parent: string)
      requires WellFormed()
      ensures LiveChildren(ParentsSoFar(done), parent) == LiveChildren(AfterSlices(), parent)
    {
    }

    function ExpiredAmong(done: set<string>): set<string> {
      set id | id in done && ExpiresParent(id)
    }

    lemma ParentsBeginAndEnd()
      ensures ParentsSoFar({}) == AfterSlices() && ParentsSoFar(ExpiredParents()) == AfterPass()
      ensures ExpiredAmong({}) == {}
    {
      hide ExpiredParents, AfterSlices, LiveChildren, Cas;
    }

    lemma ExpiredGrow(done: set<string>, parent: string)
      requires parent !in done
      ensures |ExpiredAmong(done + {parent})| == |ExpiredAmong(done)| + if ExpiresParent(parent) then 1 else 0
    {
      hide ExpiresParent;
      assert ExpiredAmong(done + {parent}) == ExpiredAmong(done) + if ExpiresParent(parent) then {parent} else {};
    }

    lemma ParentStep(done: set<string>, parent: string)
      requires WellFormed() && parent in ExpiredParents() && parent !in done
      ensures ExpiresParent(parent) <==> LiveChildren(AfterSlices(), parent) == {}
      ensures |ExpiredAmong(done + {parent})| == |ExpiredAmong(done)| + if ExpiresParent(parent) then 1 else 0
      ensures parent in ParentsSoFar(done) && ParentsSoFar(done)[parent] == AfterSlices()[parent]
      ensures ParentsSoFar(done + {parent}) ==
        if ExpiresParent(parent) then ParentsSoFar(done)[parent := Cas(AfterSlices()[parent], ParentExpired(now))]
        else ParentsSoFar(done)
    {
      hide ExpiredParents, AfterSlices, VerdictOf, CategoryOf, Cas, LiveChildren;
      ExpiredParentsAreParents(parent);
      ExpiredGrow(done, parent);
    }

    // -------------------------------------------------------------------------
    // One turn of the loop
    // -------------------------------------------------------------------------

    /** Before its turn a slice and its parent are as they were, unless a sibling canceled it. */
    lemma TurnOf(id: string, done: seq<string>, rowsNow: Rows, jobsNow: map<JobKey, JobEntry>,
                 canceledParents: set<string>, expiredParents: set<string>, counts: Counts)
      requires WellFormed() && IsPending(id) && id !in done
      requires Reached(done, rowsNow, jobsNow, canceledParents, expiredParents, counts)
      ensures rowsNow.Keys == rows.Keys
      ensures ParentOf(id) in rows ==> rowsNow[ParentOf(id)] == rows[ParentOf(id)]
      ensures VerdictOf(id) == Cascade <==>
              ParentOf(id) != "" && ParentOf(id) in rows && Ended(rows[ParentOf(id)].status)
      ensures VerdictOf(id) != Cascade ==> rowsNow[id] == rows[id]
    {
      hide RowAfter, TalliesOfOthers, JobsAdded, ExpiredParentsOf, CanceledUnder;
      if ParentOf(id) in rows {
        ParentIsUntouched(id, done, canceledParents);
      }
    }

    lemma CanceledGrow(canceledParents: set<string>, parent: string)
      requires parent !in canceledParents
      ensures |CanceledUnder(canceledParents + {parent})| ==
              |CanceledUnder(canceledParents)| + |CanceledUnder({parent})|
    {
      hide VerdictOf;
      var earlier, added := CanceledUnder(canceledParents), CanceledUnder({parent});
      assert CanceledUnder(canceledParents + {parent}) == earlier + added && earlier !! added;
    }

    lemma FirstCascade(id: string, done: seq<string>, rowsNow: Rows, jobsNow: map<JobKey, JobEntry>,
                       canceledParents: set<string>, expiredParents: set<string>, counts: Counts)
      requires IsPending(id) && VerdictOf(id) == Cascade && ParentOf(id) !in canceledParents && id !in done
      requires Reached(done, rowsNow, jobsNow, canceledParents, expiredParents, counts)
      ensures Reached(done + [id], CancelPending(rowsNow, ParentOf(id)), jobsNow, canceledParents + {ParentOf(id)},
                      expiredParents, counts.(canceled := counts.canceled + |PendingSlicesOf(rowsNow, ParentOf(id))|))
    {
      hide VerdictOf, RowAfter, CategoryOf, RowsSoFar, JobsAdded, ExpiredParentsOf, TalliesOfOthers, PendingSlicesOf,
           CancelPending, CanceledUnder, IsScheduled;
      CascadeRow(id);
      CascadeIsNotScheduled(id);
      ExpiredParentsGrow(done, id);
      TallyStep(done, id, counts);
      JobsStep(done, id, jobsNow);
      CascadeStep(id, done, canceledParents);
      CanceledGrow(canceledParents, ParentOf(id));
      OtherCounts(done + [id], counts, counts.canceled + |CanceledUnder({ParentOf(id)})|, 0);
      EndedParent(id);
    }

    lemma LaterCascade(id: string, done: seq<string>, rowsNow: Rows, jobsNow: map<JobKey, JobEntry>,
                       canceledParents: set<string>, expiredParents: set<string>, counts: Counts)
      requires IsPending(id) && VerdictOf(id) == Cascade && ParentOf(id) in canceledParents && id !in done
      requires Reached(done, rowsNow, jobsNow, canceledParents, expiredParents, counts)
      ensures Reached(done + [id], rowsNow, jobsNow, canceledParents, expiredParents, counts)
    {
      hide VerdictOf, RowAfter, CategoryOf, JobsAdded, ExpiredParentsOf, TalliesOfOthers;
      CascadeRow(id);
      CascadeIsNotScheduled(id);
      ExpiredParentsGrow(done, id);
      TallyStep(done, id, counts);
      JobsStep(done, id, jobsNow);
    }

    lemma CascadeIsNotScheduled(id: string)
      requires IsPending(id) && VerdictOf(id) == Cascade
      ensures !IsScheduled(id)
    {
      hide VerdictOf;
    }

    lemma EndedParent(id: string)
      requires IsPending(id) && VerdictOf(id) == Cascade
      ensures ParentOf(id) in rows && Ended(rows[ParentOf(id)].status)
    {
    }

    function JobsAfterTurn(id: string, jobsNow: map<JobKey, JobEntry>): map<JobKey, JobEntry>
      requires IsPending(id)
    {
      if IsScheduled(id) then (RunsNumberedSlices(id); jobsNow[KeyOf(id) := EntryOf(id)]) else jobsNow
    }

    lemma RecoverTurn(id: string, done: seq<string>, rowsNow: Rows, jobsNow: map<JobKey, JobEntry>,
                      canceledParents: set<string>, expiredParents: set<string>, counts: Counts)
      requires WellFormed() && IsPending(id) && VerdictOf(id) != Cascade && id !in done
      requires Reached(done, rowsNow, jobsNow, canceledParents, expiredParents, counts)
      ensures VerdictOf(id).RunAt? ==> rows[id].sliceNum.Some? && (KeyOf(id) in jobsNow <==> KeyOf(id) in jobs)
      ensures Reached(done + [id], rowsNow[id := RowAfter(id)], JobsAfterTurn(id, jobsNow), canceledParents,
                      expiredParents + (if CategoryOf(id) == WasExpired then {ParentOf(id)} else {}),
                      Counted(counts, CategoryOf(id)))
    {
      hide VerdictOf, RowAfter, CategoryOf, JobsAdded, ExpiredParentsOf, RowsSoFar, TalliesOfOthers, KeyOf, WellFormed;
      RecoverStep(id, done, canceledParents);
      ExpiredParentsGrow(done, id);
      TallyStep(done, id, counts);
      if VerdictOf(id).RunAt? {
        RunsNumberedSlices(id);
        KeyIsFree(done, id, jobsNow);
      }
      if IsScheduled(id) {
        NewJobStep(done, id, jobsNow);
      } else {
        JobsStep(done, id, jobsNow);
      }
    }

    lemma ParentRowAfter(id: string)
      requires id in rows && rows[id].parentOrderId.None?
      ensures AfterSlices()[id] == rows[id]
    {
      hide VerdictOf, RowAfter;
    }

    lemma CascadeRow(id: string)
      requires IsPending(id) && VerdictOf(id) == Cascade
      ensures RowAfter(id) == rows[id].(status := Canceled) && CategoryOf(id) == WasCanceled
    {
      hide VerdictOf;
    }
  }

  function Counted(counts: Counts, c: Category): Counts {
    match c
    case WasScheduled => counts.(scheduled := counts.scheduled + 1)
    case WasBlocked => counts.(blocked := counts.blocked + 1)
    case WasFailed => counts.(failed := counts.failed + 1)
    case WasExpired => counts.(expired := counts.expired + 1)
    case _ => counts
  }

  function ParentExpired(now: int): CasUpdate {
    Update(Expired, now, ChildrenEnded)
  }

  function JobsOf(jobs: map<JobKey, JobEntry>, parentOrderId: string): set<JobKey> {
    set k | k in jobs && k.0 == parentOrderId
  }

  class SliceScheduler {
    const db: OrdersTable
    const graceSeconds: int
    const expirySeconds: int
    var jobs: map<JobKey, JobEntry>

    constructor (db: OrdersTable, graceSeconds: int, expirySeconds: int)
      ensures this.db == db && this.graceSeconds == graceSeconds && this.expirySeconds == expirySeconds && jobs == map[]
    {
      this.db := db;
      this.graceSeconds := graceSeconds;
      this.expirySeconds := expirySeconds;
      jobs := map[];
    }

    /** The database first, then the jobs. */
    method CancelRemainingSlices(parentOrderId: string) returns (jobsCanceled: nat, dbCanceled: nat)
      modifies this, db
      ensures db.rows == CancelPending(old(db.rows), parentOrderId)
      ensures jobs == old(jobs) - JobsOf(old(jobs), parentOrderId)
      ensures forall k :: k in jobs <==> k in old(jobs) && k.0 != parentOrderId
      ensures jobsCanceled == |JobsOf(old(jobs), parentOrderId)|
      ensures dbCanceled == |PendingSlicesOf(old(db.rows), parentOrderId)|
      ensures PendingSlicesOf(db.rows, parentOrderId) == {} && JobsOf(jobs, parentOrderId) == {}
    {
      dbCanceled := db.CancelPendingSlices(parentOrderId);
      jobsCanceled := 0;
      ghost var removed: set<JobKey> := {};
      var todo := jobs.Keys;
      while todo != {}
        invariant removed == set k | k in old(jobs) && k !in todo && k.0 == parentOrderId
        invariant db.rows == CancelPending(old(db.rows), parentOrderId)
        invariant todo <= old(jobs).Keys && jobs == old(jobs) - removed
        invariant jobsCanceled == |removed|
      {
        var k :| k in todo;
        todo := todo - {k};
        if k.0 == parentOrderId {
          jobs := jobs - {k};
          jobsCanceled := jobsCanceled + 1;
          removed := removed + {k};
        }
      }
      assert removed == JobsOf(old(jobs), parentOrderId);
    }

    /** One slice of the loop, unless its parent has ended. */
    method RecoverSlice(id: string, p: Pass) returns (category: Category)
      requires p.IsPending(id) && p.VerdictOf(id) != Cascade
      requires p.graceSeconds == graceSeconds && p.expirySeconds == expirySeconds
      requires id in db.rows && db.rows[id] == p.rows[id]
      requires p.ParentOf(id) in db.rows <==> p.ParentOf(id) in p.rows
      requires p.ParentOf(id) in p.rows ==> db.rows[p.ParentOf(id)].status == p.rows[p.ParentOf(id)].status
      requires p.VerdictOf(id).RunAt? ==> (p.KeyOf(id) in jobs <==> p.KeyOf(id) in p.jobs)
      modifies this, db
      ensures db.rows == old(db.rows)[id := p.RowAfter(id)]
      ensures category == p.CategoryOf(id)
      ensures jobs == if category == WasScheduled then old(jobs)[p.KeyOf(id) := JobEntry(p.VerdictOf(id).time, id)]
                      else old(jobs)
    {
      hide Cas, Update;
      var slice, s, now := p.rows[id], p.env(id), p.now;
      var parentOrderId := slice.parentOrderId.value;
      if parentOrderId == "" {
        var _ := db.UpdateOrderStatusCas(id, Update(Failed, now, NoParentId));
        return WasFailed;
      }
      if parentOrderId !in db.rows {
        var _ := db.UpdateOrderStatusCas(id, Update(Failed, now, ParentMissing));
        return WasFailed;
      }
      if !Allowed(db.rows[parentOrderId].status) {
        return WasSkipped;
      }
      if IsSliceStale(slice.scheduledTime, now, expirySeconds) {
        var _ := db.UpdateOrderStatusCas(id, Update(Expired, now, TooOld));
        return WasExpired;
      }
      if s.tripped {
        var _ := db.UpdateOrderStatusCas(id, Update(BlockedCircuitBreaker, now, BreakerTripped(s.tripReason)));
        return WasBlocked;
      }
      if slice.scheduledTime.None? {
        var _ := db.UpdateOrderStatusCas(id, Update(Failed, now, NoScheduledTime));
        return WasFailed;
      }
      if slice.sliceNum.None? {
        var _ := db.UpdateOrderStatusCas(id, Update(Failed, now, NoSliceNum));
        return WasFailed;
      }
      var scheduledTime := slice.scheduledTime.value;
      var runTime := scheduledTime;
      if scheduledTime < now {
        if s.clock.isOpen {
          runTime := now;
        } else if s.clock.nextOpen.None? {
          var reason := if now - scheduledTime <= graceSeconds then NoNextOpen else MissedGraceNoNextOpen;
          var _ := db.UpdateOrderStatusCas(id, Update(Failed, now, reason));
          return WasFailed;
        } else {
          runTime := s.clock.nextOpen.value;
        }
      }
      if runTime != scheduledTime {
        db.UpdateOrderScheduledTime(id, runTime);
      }
      var key := (parentOrderId, slice.sliceNum.value);
      if key in jobs {
        return WasSkipped;
      }
      jobs := jobs[key := JobEntry(runTime, id)];
      return WasScheduled;
    }

    function Start(now: int, env: string -> Surroundings): Pass
      reads this, db
    {
      Pass(db.rows, jobs, now, env, graceSeconds, expirySeconds)
    }

    /** `pending` is what the query for pending children returned, `env` what the breaker and the
        clock answer for each slice. */
    method RecoverZombieSlices(now: int, pending: seq<string>, env: string -> Surroundings) returns (counts: Counts)
      requires Start(now, env).WellFormed() && Start(now, env).ListsPending(pending)
      modifies this, db
      ensures db.rows == old(Start(now, env)).AfterPass()
      ensures old(Start(now, env)).JobsAdded(pending, jobs)
      ensures old(Start(now, env)).Tallies(pending, counts)
    {
      var p := Start(now, env);
      hide Pass.VerdictOf, Pass.RowAfter, Pass.CategoryOf, Pass.Reached, Pass.RowsSoFar, Pass.WellFormed, Pass.KeyOf,
        Pass.Tallies, Pass.ExpiredParents, Pass.AfterSlices, Pass.ExpiredAmong, Pass.JobsAdded, CancelPending,
        PendingSlicesOf;
      p.LoopBegins(|pending|);
      counts := Counts(|pending|, 0, 0, 0, 0, 0, 0);
      var canceledParents: set<string>, expiredParents: set<string> := {}, {};
      for i := 0 to |pending|
        invariant counts.pending == |pending|
        invariant p.Reached(pending[..i], db.rows, jobs, canceledParents, expiredParents, counts)
      {
        var id := pending[i];
        ghost var done := pending[..i];
        assert id in pending && p.IsPending(id) && id !in done && pending[..i + 1] == done + [id];
        var parentOrderId := p.rows[id].parentOrderId.value;
        p.TurnOf(id, done, db.rows, jobs, canceledParents, expiredParents, counts);
        if parentOrderId != "" && parentOrderId in db.rows && Ended(db.rows[parentOrderId].status) {
          if parentOrderId !in canceledParents {
            p.FirstCascade(id, done, db.rows, jobs, canceledParents, expiredParents, counts);
            var canceled := db.CancelPendingSlices(parentOrderId);
            counts := counts.(canceled := counts.canceled + canceled);
            canceledParents := canceledParents + {parentOrderId};
          } else {
            p.LaterCascade(id, done, db.rows, jobs, canceledParents, expiredParents, counts);
          }
        } else {
          p.RecoverTurn(id, done, db.rows, jobs, canceledParents, expiredParents, counts);
          var category := RecoverSlice(id, p);
          counts := Counted(counts, category);
          assert expiredParents + {} == expiredParents;
          if category == WasExpired {
            expiredParents := expiredParents + {parentOrderId};
          }
        }
      }
      assert pending[..|pending|] == pending;
      ghost var parentCount := |p.ExpiredAmong(p.ExpiredParents())|;
      p.LoopIsDone(pending, db.rows, jobs, canceledParents, expiredParents, counts, parentCount);
      var parents := ExpireParents(p, expiredParents, canceledParents);
      counts := counts.(parentsExpired := parents);
    }

    /** Expires the parents that lost a stale slice and have no live child left. */
    method ExpireParents(p: Pass, expiredParents: set<string>, canceledParents: set<string>) returns (count: nat)
      requires p.WellFormed() && expiredParents == p.ExpiredParents() && db.rows == p.AfterSlices()
      requires forall parent :: parent in canceledParents ==> parent in p.rows && Ended(p.rows[parent].status)
      modifies db
      ensures db.rows == p.AfterPass()
      ensures count == |p.ExpiredAmong(p.ExpiredParents())|
    {
      hide Pass.AfterSlices, Pass.ExpiredParents, Pass.ExpiresParent, Pass.ParentsSoFar, Pass.AfterPass,
           Pass.WellFormed, Cas, LiveChildren;
      count := 0;
      var todo := expiredParents;
      ghost var done: set<string> := {};
      p.ParentsBeginAndEnd();
      while todo != {}
        invariant done + todo == expiredParents && done !! todo
        invariant db.rows == p.ParentsSoFar(done)
        invariant count == |p.ExpiredAmong(done)|
      {
        var parentId :| parentId in todo;
        p.ExpiredParentsAreParents(parentId);
        p.ChildrenAreUntouched(done, parentId);
        p.ParentStep(done, parentId);
        if parentId !in canceledParents {
          var nonTerminal := db.CountNonTerminalChildren(parentId);
          if nonTerminal == 0 {
            var _ := db.UpdateOrderStatusCas(parentId, ParentExpired(p.now));
            count := count + 1;
          }
        }
        todo := todo - {parentId};
        done := done + {parentId};
      }
      assert done == expiredParents;
    }
  }

  // ---------------------------------------------------------------------------
  // What a pass promises
  // ---------------------------------------------------------------------------

  lemma {:induction false} CategoriesPartition(p: Pass, ids: seq<string>)
    requires forall id :: id in ids ==> p.IsPending(id)
    requires forall i, j :: 0 <= i < j < |ids| ==> ids[i] != ids[j]
    ensures |ids| ==
            |p.InCategory(ids, WasScheduled)| + |p.InCategory(ids, WasBlocked)| + |p.InCategory(ids, WasFailed)| +
            |p.InCategory(ids, WasCanceled)| + |p.InCategory(ids, WasExpired)| + |p.InCategory(ids, WasSkipped)|
    decreases |ids|
  {
    hide Pass.CategoryOf;
    if ids != [] {
      var n := |ids| - 1;
      var rest, id := ids[..n], ids[n];
      assert ids == rest + [id] && id !in rest;
      CategoriesPartition(p, rest);
      hide Pass.InCategory;
      p.InCategoryGrows(rest, id, WasScheduled);
      p.InCategoryGrows(rest, id, WasBlocked);
      p.InCategoryGrows(rest, id, WasFailed);
      p.InCategoryGrows(rest, id, WasCanceled);
      p.InCategoryGrows(rest, id, WasExpired);
      p.InCategoryGrows(rest, id, WasSkipped);
    }
  }

  /** Every pending slice is scheduled, blocked, failed, canceled, expired or skipped, and counted once. */
  lemma CountsAddUp(p: Pass, pending: seq<string>, counts: Counts)
    requires p.ListsPending(pending) && p.Tallies(pending, counts)
    ensures counts.pending == counts.scheduled + counts.blocked + counts.failed + counts.canceled + counts.expired
                            + |p.InCategory(pending, WasSkipped)|
  {
    CategoriesPartition(p, pending);
  }

  /** A child row is not touched by the parents' phase. */
  lemma ChildAfterPass(p: Pass, id: string)
    requires p.WellFormed() && id in p.rows && p.rows[id].parentOrderId.Some?
    ensures p.AfterPass()[id] == if p.IsPending(id) then p.RowAfter(id) else p.rows[id]
  {
  }

  lemma ParentAfterPass(p: Pass, id: string)
    requires p.WellFormed() && id in p.rows && p.rows[id].parentOrderId.None?
    ensures p.AfterPass()[id] == if p.ExpiresParent(id) then Cas(p.rows[id], ParentExpired(p.now)) else p.rows[id]
  {
    hide Pass.RowAfter, Pass.ExpiredParents, Pass.ExpiresParent, Cas;
    p.ParentRowAfter(id);
  }

  /** An added job runs at the time its row now shows, for a slice still pending, and not before
      now unless the clock's next opening is itself in the past; a slice has at most one added job. */
  lemma AddedJobsAreSafe(p: Pass, pending: seq<string>, after: map<JobKey, JobEntry>, k: JobKey)
    requires p.WellFormed() && p.ListsPending(pending) && p.JobsAdded(pending, after)
    requires k in after && k !in p.jobs
    ensures var id := after[k].clientOrderId;
      && id in p.rows && p.rows[id].parentOrderId == Some(k.0) && p.rows[id].sliceNum == Some(k.1)
      && p.AfterPass()[id] == p.rows[id].(scheduledTime := Some(after[k].runTime))
      && p.AfterPass()[id].status == PendingNew
      && k.0 in p.rows && Allowed(p.rows[k.0].status)
      && !p.env(id).tripped && !IsSliceStale(p.rows[id].scheduledTime, p.now, p.expirySeconds)
      && (after[k].runTime < p.now ==>
            !p.env(id).clock.isOpen && p.env(id).clock.nextOpen.Some? && p.env(id).clock.nextOpen.value < p.now)
    ensures forall k' :: k' in after && k' !in p.jobs && after[k'].clientOrderId == after[k].clientOrderId ==> k' == k
  {
  }

  /** The pass moves the slice's row to another time: it is overdue, reaches the scheduling step, and
      catches up now or at an opening other than its own time. */
  predicate Overtaken(p: Pass, id: string)
    requires p.IsPending(id)
  {
    var row, s, parent := p.rows[id], p.env(id), p.ParentOf(id);
    && row.scheduledTime.Some? && row.scheduledTime.value < p.now && row.sliceNum.Some?
    && parent != "" && parent in p.rows && Allowed(p.rows[parent].status)
    && !IsSliceStale(row.scheduledTime, p.now, p.expirySeconds) && !s.tripped
    && (s.clock.isOpen || (s.clock.nextOpen.Some? && s.clock.nextOpen != row.scheduledTime))
  }

  /** A slice that has a job already keeps the job's time, while its row may move on. */
  lemma ExistingJobKeepsItsTime(p: Pass, pending: seq<string>, after: map<JobKey, JobEntry>, id: string, t: int)
    requires p.WellFormed() && p.JobsAdded(pending, after)
    requires p.IsPending(id) && p.rows[id].sliceNum.Some? && p.rows[id].scheduledTime == Some(t)
    requires p.KeyOf(id) in p.jobs && p.jobs[p.KeyOf(id)] == JobEntry(t, id)
    ensures p.KeyOf(id) in after && after[p.KeyOf(id)] == JobEntry(t, id)
    ensures p.AfterPass()[id].scheduledTime ==
            if !Overtaken(p, id) then Some(t)
            else if p.env(id).clock.isOpen then Some(p.now) else p.env(id).clock.nextOpen
    ensures p.AfterPass()[id].scheduledTime == Some(t) <==> !Overtaken(p, id)
  {
    ChildAfterPass(p, id);
  }

  /** Every pending slice that has a job has its own, at the time its row shows. */
  ghost predicate TimesAgree(rows: Rows, jobs: map<JobKey, JobEntry>) {
    forall id :: id in rows && IsPendingChild(rows[id]) && rows[id].sliceNum.Some? ==> Agrees(rows, jobs, id)
  }

  predicate Agrees(rows: Rows, jobs: map<JobKey, JobEntry>, id: string)
    requires id in rows && rows[id].parentOrderId.Some? && rows[id].sliceNum.Some?
  {
    var k := (rows[id].parentOrderId.value, rows[id].sliceNum.value);
    k in jobs ==> jobs[k].clientOrderId == id && rows[id].scheduledTime == Some(jobs[k].runTime)
  }

  /** A pass keeps rows and jobs in agreement exactly when it overtakes no slice that has a job. */
  lemma TimesAgreeAfterPassIff(p: Pass, pending: seq<string>, after: map<JobKey, JobEntry>)
    requires p.WellFormed() && p.ListsPending(pending) && p.JobsAdded(pending, after)
    requires TimesAgree(p.rows, p.jobs)
    ensures TimesAgree(p.AfterPass(), after) <==>
            forall id :: p.IsPending(id) && Overtaken(p, id) ==> p.KeyOf(id) !in p.jobs
  {
    hide Pass.AfterPass, Pass.VerdictOf, Pass.RowAfter, Overtaken;
    LiveChildrenAfterPass(p, "");
    forall id | id in p.rows && IsPendingChild(p.AfterPass()[id]) && p.AfterPass()[id].sliceNum.Some?
      ensures p.IsPending(id) && SameKey(p, id)
      ensures p.KeyOf(id) in p.jobs ==> (Agrees(p.AfterPass(), after, id) <==> !Overtaken(p, id))
      ensures p.KeyOf(id) !in p.jobs ==> Agrees(p.AfterPass(), after, id)
    {
      JobOfPendingSlice(p, pending, after, id);
    }
    forall id | p.IsPending(id) && Overtaken(p, id)
      ensures IsPendingChild(p.AfterPass()[id]) && p.rows[id].sliceNum.Some? && SameKey(p, id)
    {
      OvertakenStaysPending(p, id);
    }
  }

  predicate SameKey(p: Pass, id: string)
    requires id in p.rows && id in p.AfterPass()
  {
    p.AfterPass()[id].sliceNum == p.rows[id].sliceNum && p.AfterPass()[id].parentOrderId == p.rows[id].parentOrderId
  }

  lemma JobOfPendingSlice(p: Pass, pending: seq<string>, after: map<JobKey, JobEntry>, id: string)
    requires p.WellFormed() && p.ListsPending(pending) && p.JobsAdded(pending, after) && TimesAgree(p.rows, p.jobs)
    requires id in p.rows && id in p.AfterPass() && IsPendingChild(p.AfterPass()[id])
    requires p.AfterPass()[id].sliceNum.Some?
    ensures p.IsPending(id) && SameKey(p, id)
    ensures p.KeyOf(id) in p.jobs ==> (Agrees(p.AfterPass(), after, id) <==> !Overtaken(p, id))
    ensures p.KeyOf(id) !in p.jobs ==> Agrees(p.AfterPass(), after, id)
  {
    hide Pass.AfterPass, Pass.VerdictOf, Pass.RowAfter, Overtaken;
    ChildrenStayChildren(p, id);
    ChildAfterPass(p, id);
    assert p.IsPending(id);
    assert Agrees(p.rows, p.jobs, id);
    var k := p.KeyOf(id);
    if k in p.jobs {
      ExistingJobKeepsItsTime(p, pending, after, id, p.jobs[k].runTime);
    } else if k in after {
      AddedJobsAreSafe(p, pending, after, k);
      var other := after[k].clientOrderId;
      assert p.IsPending(other) && p.KeyOf(other) == k;
      if other != id {
        p.KeysDiffer(other, id);
      }
    }
  }

  lemma OvertakenStaysPending(p: Pass, id: string)
    requires p.WellFormed() && p.IsPending(id) && Overtaken(p, id)
    ensures id in p.AfterPass() && IsPendingChild(p.AfterPass()[id]) && p.rows[id].sliceNum.Some? && SameKey(p, id)
  {
    ChildAfterPass(p, id);
  }

  lemma RunConditions(p: Pass, id: string)
    requires p.IsPending(id) && p.VerdictOf(id).RunAt?
    ensures var t := p.VerdictOf(id).time; var s := p.env(id);
      && !s.tripped && !IsSliceStale(p.rows[id].scheduledTime, p.now, p.expirySeconds)
      && (t >= p.now || (!s.clock.isOpen && s.clock.nextOpen == Some(t)))
      && p.RowAfter(id) == p.rows[id].(scheduledTime := Some(t))
  {
  }

  /** A parent's row changes exactly when a stale child was found in this pass, no child is left with
      is_terminal FALSE, and the write is accepted; it is then expired. */
  lemma ParentExpiresIff(p: Pass, parent: string)
    requires p.WellFormed() && parent in p.rows && p.rows[parent].parentOrderId.None?
    ensures p.AfterPass()[parent] != p.rows[parent] <==>
      && (exists id :: p.IsPending(id) && p.CategoryOf(id) == WasExpired && p.ParentOf(id) == parent)
      && (forall id :: id in p.rows && p.rows[id].parentOrderId == Some(parent) ==> p.AfterPass()[id].isTerminal)
      && CasAccepts(p.rows[parent], ParentExpired(p.now))
    ensures p.AfterPass()[parent] != p.rows[parent] ==> p.AfterPass()[parent].status == Expired
  {
    hide Pass.RowAfter, Pass.CategoryOf, Pass.AfterPass, Pass.AfterSlices;
    ParentAfterPass(p, parent);
    LiveChildrenAfterPass(p, parent);
    if p.ExpiresParent(parent) {
      p.ExpiredParentsAreParents(parent);
      ExpiringChangesTheRow(p.rows[parent], p.now);
    }
  }

  lemma ExpiringChangesTheRow(row: OrderRow, now: int)
    requires Allowed(row.status)
    ensures Cas(row, ParentExpired(now)) != row <==> CasAccepts(row, ParentExpired(now))
    ensures CasAccepts(row, ParentExpired(now)) ==> Cas(row, ParentExpired(now)).status == Expired
  {
    hide CasAccepts, ErrorMessage;
  }

  lemma LiveChildrenAfterPass(p: Pass, parent: string)
    requires p.WellFormed()
    ensures LiveChildren(p.AfterSlices(), parent) == {} <==>
      forall id :: id in p.rows && p.rows[id].parentOrderId == Some(parent) ==> p.AfterPass()[id].isTerminal
    ensures p.AfterPass().Keys == p.rows.Keys
  {
    hide Pass.RowAfter, Pass.VerdictOf, Pass.ExpiresParent, Cas;
    forall id | id in p.rows
      ensures p.AfterSlices()[id].parentOrderId == p.rows[id].parentOrderId
      ensures p.rows[id].parentOrderId.Some? ==> p.AfterPass()[id] == p.AfterSlices()[id]
    {
      if p.IsPending(id) {
        p.RowAfterKeepsParent(id);
      }
      if p.rows[id].parentOrderId.Some? {
        ChildAfterPass(p, id);
      }
    }
    if LiveChildren(p.AfterSlices(), parent) != {} {
      var id :| id in LiveChildren(p.AfterSlices(), parent);
      assert id in p.rows && !p.AfterPass()[id].isTerminal;
    }
    forall id | id in p.rows && p.rows[id].parentOrderId == Some(parent) && !p.AfterPass()[id].isTerminal
      ensures id in LiveChildren(p.AfterSlices(), parent)
    {
    }
  }

  /** A child canceled by cancel_pending_slices, which leaves is_terminal FALSE, keeps its parent from expiring. */
  lemma CanceledChildKeepsParentAlive(p: Pass, parent: string, child: string)
    requires p.WellFormed() && parent in p.rows && p.rows[parent].parentOrderId.None?
    requires child in p.rows && p.rows[child].parentOrderId == Some(parent)
    requires p.rows[child].status == Canceled && !p.rows[child].isTerminal
    ensures p.AfterPass()[parent] == p.rows[parent]
  {
    hide Pass.AfterPass;
    ParentExpiresIff(p, parent);
    ChildAfterPass(p, child);
  }

  // ---------------------------------------------------------------------------
  // Running recovery twice
  // ---------------------------------------------------------------------------

  /** A pending_new row is not flagged terminal: inserts and CAS writes both see to it. */
  ghost predicate PendingAreLive(p: Pass) {
    forall id :: p.IsPending(id) ==> !p.rows[id].isTerminal
  }

  /** The second pass: no job has fired, and clock, breaker and market answer as before. */
  function Again(p: Pass, jobs: map<JobKey, JobEntry>): Pass {
    p.(rows := p.AfterPass(), jobs := jobs)
  }

  /** The slice was moved to a next opening so far in the past that it is stale itself, and its row
      takes the expiry. */
  predicate MovedToStaleOpening(p: Pass, id: string)
    requires p.IsPending(id)
  {
    p.VerdictOf(id).RunAt? && IsSliceStale(Some(p.VerdictOf(id).time), p.now, p.expirySeconds) &&
    CasAccepts(p.RowAfter(id), Update(Expired, p.now, TooOld))
  }

  lemma StillPending(p: Pass, id: string)
    requires p.IsPending(id) && p.RowAfter(id).status == PendingNew
    ensures p.VerdictOf(id) != Cascade
    ensures p.VerdictOf(id).Mark? ==> p.RowAfter(id) == p.rows[id]
    ensures p.RowAfter(id).isTerminal == p.rows[id].isTerminal
  {
  }

  /** Slices pending at the second pass were pending at the first, and their parents have not changed. */
  lemma PendingAgain(p: Pass, jobs: map<JobKey, JobEntry>, id: string)
    requires p.WellFormed() && PendingAreLive(p) && Again(p, jobs).IsPending(id)
    ensures p.IsPending(id) && p.RowAfter(id).status == PendingNew && p.AfterPass()[id] == p.RowAfter(id)
    ensures Again(p, jobs).ParentOf(id) == p.ParentOf(id)
    ensures p.ParentOf(id) in p.rows ==> p.AfterPass()[p.ParentOf(id)] == p.rows[p.ParentOf(id)]
  {
    hide Pass.RowAfter, Pass.VerdictOf, Pass.AfterPass, Pass.AfterSlices;
    LiveChildrenAfterPass(p, "");
    ChildrenStayChildren(p, id);
    ChildAfterPass(p, id);
    p.RowAfterKeepsParent(id);
    StillPending(p, id);
    var parent := p.ParentOf(id);
    if parent in p.rows {
      LiveChildrenAfterPass(p, parent);
      ParentAfterPass(p, parent);
    }
  }

  lemma ChildrenStayChildren(p: Pass, id: string)
    requires p.WellFormed() && id in p.rows
    ensures p.AfterPass()[id].parentOrderId == p.rows[id].parentOrderId
    ensures p.AfterPass()[id].sliceNum == p.rows[id].sliceNum
  {
  }

  /** The second verdict is the first one, except that a slice moved to a stale opening expires. */
  lemma SecondVerdict(p: Pass, jobs: map<JobKey, JobEntry>, id: string)
    requires p.WellFormed() && PendingAreLive(p) && Again(p, jobs).IsPending(id)
    ensures p.IsPending(id)
    ensures Again(p, jobs).VerdictOf(id) ==
      if p.VerdictOf(id).RunAt? && IsSliceStale(Some(p.VerdictOf(id).time), p.now, p.expirySeconds) then
        Mark(Expired, TooOld)
      else p.VerdictOf(id)
  {
    hide Pass.AfterPass, Cas;
    PendingAgain(p, jobs, id);
    StillPending(p, id);
    LiveChildrenAfterPass(p, "");
    assert p.ParentOf(id) in p.AfterPass() <==> p.ParentOf(id) in p.rows;
  }

  lemma AgainIsWellFormed(p: Pass, jobs: map<JobKey, JobEntry>)
    requires p.WellFormed() && PendingAreLive(p)
    ensures Again(p, jobs).WellFormed()
  {
    hide Pass.AfterPass, Pass.VerdictOf, Pass.RowAfter;
    var q := Again(p, jobs);
    LiveChildrenAfterPass(p, "");
    forall id | id in p.rows
      ensures q.rows[id].parentOrderId == p.rows[id].parentOrderId && q.rows[id].sliceNum == p.rows[id].sliceNum
    {
      ChildrenStayChildren(p, id);
    }
    forall id | q.IsPending(id)
      ensures p.IsPending(id) && (q.rows[id].sliceNum.Some? ==> q.KeyOf(id) == p.KeyOf(id))
    {
      PendingAgain(p, jobs, id);
    }
  }

  /** A slice's row moves again only if it was moved to a stale opening. */
  lemma SecondRow(p: Pass, jobs: map<JobKey, JobEntry>, id: string)
    requires p.WellFormed() && PendingAreLive(p) && Again(p, jobs).IsPending(id)
    ensures p.IsPending(id)
    ensures var q := Again(p, jobs);
      q.RowAfter(id) ==
      if MovedToStaleOpening(p, id) then CasWrite(q.rows[id], Update(Expired, p.now, TooOld)) else q.rows[id]
  {
    hide Pass.AfterPass, Pass.VerdictOf, CasAccepts, CasWrite, Update;
    PendingAgain(p, jobs, id);
    SecondVerdict(p, jobs, id);
    StillPending(p, id);
  }

  lemma MovedSlicesArePending(p: Pass, jobs: map<JobKey, JobEntry>, id: string)
    requires p.WellFormed() && p.IsPending(id) && p.VerdictOf(id).RunAt?
    ensures Again(p, jobs).IsPending(id)
  {
  }

  lemma NothingToSchedule(p: Pass, pending: seq<string>, jobs: map<JobKey, JobEntry>, id: string)
    requires p.WellFormed() && PendingAreLive(p) && p.ListsPending(pending) && p.JobsAdded(pending, jobs)
    ensures !Again(p, jobs).IsScheduled(id)
  {
    hide Pass.AfterPass, Pass.VerdictOf, Pass.RowAfter;
    var q := Again(p, jobs);
    if q.IsScheduled(id) {
      q.IsScheduledKey(id);
      PendingAgain(p, jobs, id);
      SecondVerdict(p, jobs, id);
      p.RunsNumberedSlices(id);
      ChildrenStayChildren(p, id);
    }
  }

  /** No parent expires in the second pass while its stale children's rows cannot change. */
  lemma NoParentExpires(p: Pass, jobs: map<JobKey, JobEntry>, parent: string)
    requires p.WellFormed() && PendingAreLive(p)
    requires forall id :: p.IsPending(id) ==> !MovedToStaleOpening(p, id)
    ensures !Again(p, jobs).ExpiresParent(parent)
  {
    hide Pass.AfterPass, Pass.VerdictOf, Pass.RowAfter, Pass.CategoryOf, MovedToStaleOpening;
    var q := Again(p, jobs);
    if parent in q.ExpiredParents() {
      var id :| id in q.rows && q.IsPending(id) && q.CategoryOf(id) == WasExpired && q.ParentOf(id) == parent;
      SecondRow(p, jobs, id);
      PendingAgain(p, jobs, id);
      StillPending(p, id);
      assert id in LiveChildren(q.AfterSlices(), parent);
    }
  }

  lemma SecondPassIsIdle(p: Pass, jobs: map<JobKey, JobEntry>)
    requires p.WellFormed() && PendingAreLive(p)
    requires forall id :: p.IsPending(id) ==> !MovedToStaleOpening(p, id)
    ensures Again(p, jobs).AfterPass() == Again(p, jobs).rows
  {
    hide Pass.VerdictOf, Pass.RowAfter, Pass.ExpiresParent, MovedToStaleOpening;
    var q := Again(p, jobs);
    forall id | id in q.rows
      ensures !q.ExpiresParent(id) && q.AfterSlices()[id] == q.rows[id]
    {
      NoParentExpires(p, jobs, id);
      if q.IsPending(id) {
        SecondRow(p, jobs, id);
      }
    }
  }

  /** Recovery is idempotent: a second pass adds no job, and changes no row exactly when the first
      moved no slice to an opening already stale. Rows stamped later than now do not matter. */
  lemma SecondPassChangesNothingIff(p: Pass, pending: seq<string>, jobs: map<JobKey, JobEntry>,
                                    again: seq<string>, jobsAgain: map<JobKey, JobEntry>)
    requires p.WellFormed() && PendingAreLive(p) && p.ListsPending(pending) && p.JobsAdded(pending, jobs)
    requires Again(p, jobs).ListsPending(again) && Again(p, jobs).JobsAdded(again, jobsAgain)
    ensures jobsAgain == jobs
    ensures Again(p, jobs).AfterPass() == p.AfterPass() <==>
      forall id :: p.IsPending(id) ==> !MovedToStaleOpening(p, id)
  {
    hide Pass.VerdictOf, Pass.RowAfter, Pass.AfterPass, Pass.IsScheduled, Pass.CategoryOf, MovedToStaleOpening;
    var q := Again(p, jobs);
    forall id
      ensures !q.IsScheduled(id)
    {
      NothingToSchedule(p, pending, jobs, id);
    }
    if exists id :: p.IsPending(id) && MovedToStaleOpening(p, id) {
      var id :| p.IsPending(id) && MovedToStaleOpening(p, id);
      MovedSliceChanges(p, jobs, id);
    } else {
      SecondPassIsIdle(p, jobs);
    }
  }

  lemma MovedSliceChanges(p: Pass, jobs: map<JobKey, JobEntry>, id: string)
    requires p.WellFormed() && PendingAreLive(p) && p.IsPending(id) && MovedToStaleOpening(p, id)
    ensures Again(p, jobs).AfterPass() != p.AfterPass()
  {
    hide Pass.VerdictOf, Pass.RowAfter, Pass.AfterPass;
    var q := Again(p, jobs);
    MovedSlicesArePending(p, jobs, id);
    SecondRow(p, jobs, id);
    AgainIsWellFormed(p, jobs);
    ChildAfterPass(q, id);
    LiveChildrenAfterPass(q, "");
    assert q.AfterPass()[id].status == Expired && p.AfterPass()[id].status == PendingNew;
  }

  /** The clock's next opening lies ahead, so recovery is idempotent. */
  lemma SecondPassChangesNothing(p: Pass, jobs: map<JobKey, JobEntry>)
    requires p.WellFormed() && PendingAreLive(p)
    requires forall id :: p.IsPending(id) && p.env(id).clock.nextOpen.Some? ==> p.env(id).clock.nextOpen.value >= p.now
    ensures Again(p, jobs).AfterPass() == p.AfterPass()
  {
    hide Pass.RowAfter, Pass.AfterPass, CasAccepts, Pass.VerdictOf;
    forall id | p.IsPending(id)
      ensures !MovedToStaleOpening(p, id)
    {
      if p.VerdictOf(id).RunAt? {
        RunConditions(p, id);
      }
    }
    SecondPassIsIdle(p, jobs);
  }
}
