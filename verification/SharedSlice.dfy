/** Several jobs on one slice: a recovery pass during a running job adds a second one. */
module SharedSlice {
  import opened Base
  import opened OrderStatus
  import opened OrderStore
  import opened SliceExecution

  /** No new job for the slice, and no other writer that takes `canceled`, or the lock of a terminal
      canceled row, back. The slice's own jobs write as they do. */
  predicate KeepsSlice(w: World, step: Step, rowId: string) {
    match step
    case OtherWriter(id, row) =>
      id == rowId && IsCanceled(w.rows, rowId) ==>
        row.status == Canceled && (w.rows[rowId].isTerminal ==> row.isTerminal)
    case Schedule(_, id) => id != rowId
    case _ => true
  }

  ghost predicate SliceIsKept(w: World, steps: seq<Step>, rowId: string)
    decreases |steps|
  {
    steps != [] ==>
      && SliceIsKept(w, steps[..|steps| - 1], rowId)
      && KeepsSlice(Run(w, steps[..|steps| - 1]), steps[|steps| - 1], rowId)
  }

  predicate OnSlice(w: World, j: nat, rowId: string) {
    j in w.jobs && w.jobs[j].rowId == rowId
  }

  /** Submissions of one job for this slice. */
  function SliceSends(w: World, j: nat, rowId: string): nat {
    if OnSlice(w, j, rowId) then SendsOf(w, j) else 0
  }

  /** It has a write of its own ahead that could replace `canceled`. */
  predicate MayWrite(pc: Pc) {
    pc != Done && pc != Last(Canceled)
  }

  /** A second job can overwrite `canceled` before the first one reads it. */
  ghost predicate Overwritable(w: World, rowId: string) {
    && rowId in w.rows && !w.rows[rowId].isTerminal
    && exists i, j :: i != j && OnSlice(w, i, rowId) && OnSlice(w, j, rowId) &&
                      MayWrite(w.jobs[i].pc) && !WindingDown(w.jobs[j].pc)
  }

  ghost predicate SliceCanSubmit(w: World, rowId: string) {
    && !w.dryRun
    && ((exists j :: OnSlice(w, j, rowId) && CanSubmit(w, j)) ||
        (IsCanceled(w.rows, rowId) && Overwritable(w, rowId)))
  }

  // ---------------------------------------------------------------------------
  // When nothing more is submitted
  // ---------------------------------------------------------------------------

  /** Every job winding down, or the row canceled and locked, or canceled with one job left that could
      be the only one to write. */
  ghost predicate Quiet(w: World, rowId: string) {
    && rowId in w.rows
    && (forall j :: OnSlice(w, j, rowId) ==> w.jobs[j].pc != Submit)
    && ((forall j :: OnSlice(w, j, rowId) ==> WindingDown(w.jobs[j].pc)) ||
        (IsCanceled(w.rows, rowId) && (w.rows[rowId].isTerminal || AtMostOneWrites(w, rowId))))
  }

  ghost predicate AtMostOneWrites(w: World, rowId: string) {
    exists j :: OthersAreSilent(w, rowId, j)
  }

  ghost predicate OthersAreSilent(w: World, rowId: string, j: nat) {
    forall i :: i != j && OnSlice(w, i, rowId) ==> !MayWrite(w.jobs[i].pc)
  }

  lemma LockedStays(rows: Rows, id: string, status: Status, brokerOrderId: Option<string>, m: Move)
    requires IsCanceled(rows, id) && rows[id].isTerminal
    ensures Write(rows, id, status, brokerOrderId, m) == rows
  {
    assert Cas(rows[id], JobUpdate(status, brokerOrderId, m)) == rows[id];
  }

  lemma CanceledIsRewritten(rows: Rows, id: string, m: Move)
    requires IsCanceled(rows, id)
    ensures IsCanceled(Write(rows, id, Canceled, None, m), id)
  {
  }

  /** A job's own move when the row is canceled and locked, or it has nothing to write. */
  lemma HarmlessMove(w: World, job: Job, m: Move)
    requires IsCanceled(w.rows, job.rowId)
    ensures w.rows[job.rowId].isTerminal ==> RowsAfterMove(w, job, m) == w.rows
    ensures !MayWrite(job.pc) || !WindingDown(job.pc) ==> IsCanceled(RowsAfterMove(w, job, m), job.rowId)
  {
    hide Write;
    if w.rows[job.rowId].isTerminal && !m.dies && !m.infraFails {
      match job.pc
      case Block(status) => LockedStays(w.rows, job.rowId, status, None, m);
      case Last(status) => LockedStays(w.rows, job.rowId, status, None, m);
      case Confirm(_, id) => LockedStays(w.rows, job.rowId, Submitted, Some(id), m);
      case ConfirmFailed(id) => LockedStays(w.rows, job.rowId, SubmittedUnconfirmed, Some(id), m);
      case _ =>
    }
    CanceledIsRewritten(w.rows, job.rowId, m);
  }

  lemma MovedPc(w: World, job: Job, m: Move)
    requires job.pc != Submit
    ensures MovedJob(w, job, m).rowId == job.rowId && Sends(MovedJob(w, job, m).log) == Sends(job.log)
    ensures WindingDown(job.pc) ==> WindingDown(MovedJob(w, job, m).pc)
    ensures IsCanceled(w.rows, job.rowId) ==> MovedJob(w, job, m).pc != Submit
    ensures !MayWrite(job.pc) ==> !MayWrite(MovedJob(w, job, m).pc)
  {
    CheckSendsNothing(w, job, m);
  }

  lemma MoveKeepsQuiet(w: World, k: nat, m: Move, rowId: string)
    requires Quiet(w, rowId) && OnSlice(w, k, rowId)
    ensures Quiet(Next(w, JobMoves(k, m)), rowId)
    ensures forall j :: SliceSends(Next(w, JobMoves(k, m)), j, rowId) <= SliceSends(w, j, rowId)
  {
    hide MovedJob, RowsAfterMove, Sends, WindingDown, MayWrite, IsCanceled;
    var job, next := w.jobs[k], Next(w, JobMoves(k, m));
    MovedPc(w, job, m);
    WritesOnlyOwnRow(w, job, m);
    if forall j :: OnSlice(w, j, rowId) ==> WindingDown(w.jobs[j].pc) {
      assert WindingDown(next.jobs[k].pc);
      WindingIsNotSubmit();
    } else {
      HarmlessMove(w, job, m);
      if !w.rows[rowId].isTerminal {
        OneWriter(w, k, m, rowId);
      }
    }
  }

  lemma WindingIsNotSubmit()
    ensures !WindingDown(Submit)
  {
  }

  lemma OneWriter(w: World, k: nat, m: Move, rowId: string)
    requires Quiet(w, rowId) && OnSlice(w, k, rowId) && IsCanceled(w.rows, rowId)
    requires AtMostOneWrites(w, rowId) && exists j :: OnSlice(w, j, rowId) && !WindingDown(w.jobs[j].pc)
    ensures IsCanceled(Next(w, JobMoves(k, m)).rows, rowId) && AtMostOneWrites(Next(w, JobMoves(k, m)), rowId)
  {
    hide MovedJob, RowsAfterMove, Sends, IsCanceled;
    var j :| OthersAreSilent(w, rowId, j);
    var other :| OnSlice(w, other, rowId) && !WindingDown(w.jobs[other].pc);
    MovedPc(w, w.jobs[k], m);
    HarmlessMove(w, w.jobs[k], m);
    assert OthersAreSilent(Next(w, JobMoves(k, m)), rowId, j);
  }

  lemma StepKeepsQuiet(w: World, step: Step, rowId: string)
    requires Quiet(w, rowId) && KeepsSlice(w, step, rowId)
    ensures Quiet(Next(w, step), rowId)
    ensures forall j :: SliceSends(Next(w, step), j, rowId) <= SliceSends(w, j, rowId)
  {
    hide Next, Quiet, SliceSends;
    match step {
      case JobMoves(k, m) =>
        if OnSlice(w, k, rowId) {
          MoveKeepsQuiet(w, k, m, rowId);
        } else {
          OtherJobMoves(w, k, m, rowId);
        }
      case Fire(k) => FiringKeepsQuiet(w, k, rowId);
      case Schedule(k, id) => SchedulingKeepsQuiet(w, k, id, rowId);
      case RemoveJob(k) => RemovalKeepsQuiet(w, k, rowId);
      case _ => SurroundingsKeepQuiet(w, step, rowId);
    }
  }

  lemma SurroundingsKeepQuiet(w: World, step: Step, rowId: string)
    requires Quiet(w, rowId) && KeepsSlice(w, step, rowId)
    requires step.CancelSlices? || step.Switches? || step.OtherWriter?
    ensures Quiet(Next(w, step), rowId)
    ensures forall j :: SliceSends(Next(w, step), j, rowId) <= SliceSends(w, j, rowId)
  {
    hide Sends, AtMostOneWrites, MayWrite, WindingDown;
    SameJobs(w, Next(w, step), rowId);
  }

  lemma SameJobs(w: World, next: World, rowId: string)
    requires forall j :: OnSlice(next, j, rowId) ==>
               OnSlice(w, j, rowId) && (MayWrite(next.jobs[j].pc) ==> MayWrite(w.jobs[j].pc))
    ensures AtMostOneWrites(w, rowId) ==> AtMostOneWrites(next, rowId)
  {
    if j :| OthersAreSilent(w, rowId, j) {
      assert OthersAreSilent(next, rowId, j);
    }
  }

  lemma OtherJobMoves(w: World, k: nat, m: Move, rowId: string)
    requires Quiet(w, rowId) && !OnSlice(w, k, rowId)
    ensures Quiet(Next(w, JobMoves(k, m)), rowId)
    ensures forall j :: SliceSends(Next(w, JobMoves(k, m)), j, rowId) <= SliceSends(w, j, rowId)
  {
    hide MovedJob, RowsAfterMove, Sends, AtMostOneWrites;
    if k in w.jobs {
      MoveStaysOnRow(w, w.jobs[k], m);
      WritesOnlyOwnRow(w, w.jobs[k], m);
      SameJobs(w, Next(w, JobMoves(k, m)), rowId);
    }
  }

  lemma MoveStaysOnRow(w: World, job: Job, m: Move)
    ensures MovedJob(w, job, m).rowId == job.rowId
  {
    hide SubmitOrder;
  }

  lemma FiringKeepsQuiet(w: World, k: nat, rowId: string)
    requires Quiet(w, rowId)
    ensures Quiet(Next(w, Fire(k)), rowId)
    ensures forall j :: SliceSends(Next(w, Fire(k)), j, rowId) <= SliceSends(w, j, rowId)
  {
    hide Sends, AtMostOneWrites, IsCanceled;
    SameJobs(w, Next(w, Fire(k)), rowId);
  }

  lemma SchedulingKeepsQuiet(w: World, k: nat, id: string, rowId: string)
    requires Quiet(w, rowId) && id != rowId
    ensures Quiet(Next(w, Schedule(k, id)), rowId)
    ensures forall j :: SliceSends(Next(w, Schedule(k, id)), j, rowId) <= SliceSends(w, j, rowId)
  {
    hide Sends, AtMostOneWrites;
    SameJobs(w, Next(w, Schedule(k, id)), rowId);
  }

  lemma RemovalKeepsQuiet(w: World, k: nat, rowId: string)
    requires Quiet(w, rowId)
    ensures Quiet(Next(w, RemoveJob(k)), rowId)
    ensures forall j :: SliceSends(Next(w, RemoveJob(k)), j, rowId) <= SliceSends(w, j, rowId)
  {
    hide Sends, AtMostOneWrites;
    SameJobs(w, Next(w, RemoveJob(k)), rowId);
  }

  lemma {:induction false} RunKeepsQuiet(w: World, steps: seq<Step>, rowId: string)
    requires Quiet(w, rowId) && SliceIsKept(w, steps, rowId)
    ensures Quiet(Run(w, steps), rowId)
    ensures forall j :: SliceSends(Run(w, steps), j, rowId) <= SliceSends(w, j, rowId)
    decreases |steps|
  {
    hide Next, Quiet, KeepsSlice, SliceSends;
    if steps != [] {
      var n := |steps| - 1;
      RunKeepsQuiet(w, steps[..n], rowId);
      StepKeepsQuiet(Run(w, steps[..n]), steps[n], rowId);
    }
  }

  lemma CannotSubmitIsQuiet(w: World, rowId: string)
    requires rowId in w.rows && !w.dryRun && !SliceCanSubmit(w, rowId)
    ensures Quiet(w, rowId)
  {
    if j :| OnSlice(w, j, rowId) && !WindingDown(w.jobs[j].pc) {
      assert !CanSubmit(w, j);
      assert IsCanceled(w.rows, rowId) && !Overwritable(w, rowId);
      if !w.rows[rowId].isTerminal {
        assert OthersAreSilent(w, rowId, j);
      }
    }
    forall j | OnSlice(w, j, rowId) ensures w.jobs[j].pc != Submit {
      assert !CanSubmit(w, j);
    }
  }

  // ---------------------------------------------------------------------------
  // How it goes on otherwise
  // ---------------------------------------------------------------------------

  lemma {:induction false} OwnStepsKeepTheSlice(w: World, steps: seq<Step>, j: nat, rowId: string)
    requires OwnSteps(steps, j)
    ensures SliceIsKept(w, steps, rowId)
    decreases |steps|
  {
    if steps != [] {
      OwnStepsKeepTheSlice(w, steps[..|steps| - 1], j, rowId);
    }
  }

  lemma {:induction false} RunConcat(w: World, first: seq<Step>, rest: seq<Step>, rowId: string)
    ensures Run(w, first + rest) == Run(Run(w, first), rest)
    ensures SliceIsKept(w, first, rowId) && SliceIsKept(Run(w, first), rest, rowId) ==>
              SliceIsKept(w, first + rest, rowId)
    decreases |rest|
  {
    hide Next, KeepsSlice;
    if rest == [] {
      assert first + rest == first;
    } else {
      var n := |rest| - 1;
      assert (first + rest)[..|first| + n] == first + rest[..n];
      RunConcat(w, first, rest[..n], rowId);
    }
  }

  /** The job's own failure on the way to its next write. */
  function Failure(): Move {
    AnyMove(0, true, false, [Refused, Refused, Refused], "")
  }

  predicate AtWrite(pc: Pc) {
    pc.Confirm? || pc.ConfirmFailed? || (pc.Last? && pc != Last(Canceled))
  }

  /** One job has moved on to `pc`, and nothing else has changed. */
  predicate OnlyMoved(w: World, next: World, i: nat, pc: Pc)
    requires i in w.jobs
  {
    && i in next.jobs && next.jobs[i].pc == pc && next.jobs[i].rowId == w.jobs[i].rowId
    && next == w.(jobs := w.jobs[i := next.jobs[i]])
  }

  /** A failing read or write takes a job to the write that records the failure. */
  lemma ReachesItsWrite(w: World, i: nat) returns (steps: seq<Step>)
    requires i in w.jobs && MayWrite(w.jobs[i].pc) && w.jobs[i].pc != Submit
    ensures OwnSteps(steps, i) && i in Run(w, steps).jobs
    ensures OnlyMoved(w, Run(w, steps), i, Run(w, steps).jobs[i].pc) && AtWrite(Run(w, steps).jobs[i].pc)
  {
    hide Run, SubmitOrder, AfterSubmit;
    var pc, fail := w.jobs[i].pc, JobMoves(i, Failure());
    if AtWrite(pc) {
      steps := [];
      RunNothing(w);
    } else if pc == Waiting {
      steps := [Fire(i)] + [fail];
      RunOne(w, Fire(i));
      RunOneMore(w, [Fire(i)], fail);
    } else {
      steps := [fail];
      RunOne(w, fail);
    }
  }

  lemma RunNothing(w: World)
    ensures Run(w, []) == w
  {
  }

  /** A write later than the row's stamp goes through on a row that is not locked. */
  lemma WriteGoesThrough(row: OrderRow, status: Status, brokerOrderId: Option<string>, m: Move)
    requires !row.isTerminal && (row.lastUpdatedAt.Some? ==> row.lastUpdatedAt.value < m.now)
    ensures Cas(row, JobUpdate(status, brokerOrderId, m)).status == status
  {
  }

  lemma WritesOverCanceled(w: World, i: nat, rowId: string) returns (step: Step)
    requires OnSlice(w, i, rowId) && AtWrite(w.jobs[i].pc) && rowId in w.rows && !w.rows[rowId].isTerminal
    ensures OwnSteps([step], i)
    ensures var next := Next(w, step);
      && next.jobs.Keys == w.jobs.Keys && (forall j :: j != i && j in w.jobs ==> next.jobs[j] == w.jobs[j])
      && next.dryRun == w.dryRun && next.killSwitch == w.killSwitch && next.breaker == w.breaker
      && rowId in next.rows && !IsCanceled(next.rows, rowId)
  {
    hide MovedJob, RowsAfterMove;
    var now := if w.rows[rowId].lastUpdatedAt.Some? then w.rows[rowId].lastUpdatedAt.value + 1 else 0;
    var m := MoveAt(now, Refused);
    step := JobMoves(i, m);
    RowIsWritten(w, w.jobs[i], m);
  }

  lemma RowIsWritten(w: World, job: Job, m: Move)
    requires job.rowId in w.rows && AtWrite(job.pc) && !m.infraFails && !m.dies
    requires var row := w.rows[job.rowId];
      !row.isTerminal && (row.lastUpdatedAt.Some? ==> row.lastUpdatedAt.value < m.now)
    ensures job.rowId in RowsAfterMove(w, job, m) && !IsCanceled(RowsAfterMove(w, job, m), job.rowId)
  {
    hide Cas, JobUpdate;
    match job.pc {
      case Confirm(_, id) => WriteGoesThrough(w.rows[job.rowId], Submitted, Some(id), m);
      case ConfirmFailed(id) => WriteGoesThrough(w.rows[job.rowId], SubmittedUnconfirmed, Some(id), m);
      case Last(status) => WriteGoesThrough(w.rows[job.rowId], status, None, m);
    }
  }

  /** One job goes on to submit. */
  lemma JobSubmits(w: World, j: nat, rowId: string) returns (steps: seq<Step>)
    requires OnSlice(w, j, rowId) && CanSubmit(w, j)
    ensures SliceIsKept(w, steps, rowId) && SliceSends(Run(w, steps), j, rowId) > SliceSends(w, j, rowId)
  {
    hide Run, SliceIsKept, SendsOf, Next;
    var off := SwitchesOff(w, j);
    var rest := GoesOnToSubmit(off, j);
    OwnStepsKeepTheSlice(off, rest, j, rowId);
    RunOne(w, Switches(false, false));
    SwitchingKeepsTheSlice(w, rowId);
    RunConcat(w, [Switches(false, false)], rest, rowId);
    steps := [Switches(false, false)] + rest;
  }

  lemma SwitchingKeepsTheSlice(w: World, rowId: string)
    ensures SliceIsKept(w, [Switches(false, false)], rowId)
  {
    assert [Switches(false, false)][..0] == [];
    assert SliceIsKept(w, [], rowId);
  }

  /** One job's write replaces `canceled`, and the other goes on to submit. */
  lemma OverwrittenSliceSubmits(w: World, i: nat, j: nat, rowId: string) returns (steps: seq<Step>)
    requires rowId in w.rows && !w.rows[rowId].isTerminal && !w.dryRun
    requires i != j && OnSlice(w, i, rowId) && OnSlice(w, j, rowId)
    requires MayWrite(w.jobs[i].pc) && w.jobs[i].pc != Submit && !WindingDown(w.jobs[j].pc)
    ensures SliceIsKept(w, steps, rowId) && SliceSends(Run(w, steps), j, rowId) > SliceSends(w, j, rowId)
  {
    hide Run, SliceIsKept, Next, AtWrite, MayWrite, WindingDown, IsCanceled;
    var first := ReachesItsWrite(w, i);
    OwnStepsKeepTheSlice(w, first, i, rowId);
    var ready := Run(w, first);
    var step := WritesOverCanceled(ready, i, rowId);
    OwnStepsKeepTheSlice(ready, [step], i, rowId);
    RunConcat(w, first, [step], rowId);
    RunOne(ready, step);
    var written := Run(w, first + [step]);
    assert CanSubmit(written, j);
    var rest := JobSubmits(written, j, rowId);
    RunConcat(w, first + [step], rest, rowId);
    steps := first + [step] + rest;
  }

  /** From any state, some continuation submits for the slice -- without a new job for it and without
      another writer reopening it -- if and only if one of its jobs can still submit, or the row is
      canceled but not locked and a second job can overwrite `canceled` first. */
  lemma SliceCanStillSubmitIff(w: World, rowId: string)
    requires rowId in w.rows
    ensures SliceCanSubmit(w, rowId) <==>
            exists steps, j :: SliceIsKept(w, steps, rowId) &&
              SliceSends(Run(w, steps), j, rowId) > SliceSends(w, j, rowId)
  {
    hide Run, SliceIsKept, CanSubmit, SliceSends, MayWrite, WindingDown;
    if SliceCanSubmit(w, rowId) {
      if j :| OnSlice(w, j, rowId) && CanSubmit(w, j) {
        var steps := JobSubmits(w, j, rowId);
      } else {
        var i, j :| i != j && OnSlice(w, i, rowId) && OnSlice(w, j, rowId) &&
                    MayWrite(w.jobs[i].pc) && !WindingDown(w.jobs[j].pc);
        SubmitIsPastTheRead(w, i);
        var steps := OverwrittenSliceSubmits(w, i, j, rowId);
      }
    } else {
      forall steps, j | SliceIsKept(w, steps, rowId)
        ensures SliceSends(Run(w, steps), j, rowId) <= SliceSends(w, j, rowId)
      {
        if w.dryRun {
          DrySliceSendsNothing(w, steps, j, rowId);
        } else {
          CannotSubmitIsQuiet(w, rowId);
          RunKeepsQuiet(w, steps, rowId);
        }
      }
    }
  }

  /** A cancel commits while one job of the slice makes its checks and a second one waits: the failure
      that the first records reopens the slice for the second. */
  lemma SecondJobDefeatsTheCancel(w: World, parentOrderId: string, i: nat, j: nat, rowId: string)
    returns (steps: seq<Step>)
    requires rowId in w.rows && IsPendingSliceOf(w.rows[rowId], parentOrderId) && !w.rows[rowId].isTerminal && !w.dryRun
    requires i != j && OnSlice(w, i, rowId) && OnSlice(w, j, rowId) && w.jobs[j].pc == Waiting
    requires w.jobs[i].pc in {FirstRead, KillCheck, BreakerCheck, SecondRead}
    ensures var canceled := Next(w, CancelSlices(parentOrderId));
      && IsCanceled(canceled.rows, rowId) && SliceIsKept(canceled, steps, rowId)
      && SliceSends(Run(canceled, steps), j, rowId) > SliceSends(canceled, j, rowId)
  {
    hide Run, SliceIsKept, SliceSends;
    steps := OverwrittenSliceSubmits(Next(w, CancelSlices(parentOrderId)), i, j, rowId);
  }

  lemma SubmitIsPastTheRead(w: World, i: nat)
    requires i in w.jobs && !w.dryRun && !CanSubmit(w, i)
    ensures w.jobs[i].pc != Submit
  {
  }

  lemma {:induction false} DrySliceSendsNothing(w: World, steps: seq<Step>, j: nat, rowId: string)
    requires w.dryRun && SliceIsKept(w, steps, rowId)
    ensures Run(w, steps).dryRun && SliceSends(Run(w, steps), j, rowId) <= SliceSends(w, j, rowId)
    decreases |steps|
  {
    hide MovedJob, RowsAfterMove, Sends;
    if steps != [] {
      var n := |steps| - 1;
      DrySliceSendsNothing(w, steps[..n], j, rowId);
      var before := Run(w, steps[..n]);
      if steps[n].JobMoves? && steps[n].j in before.jobs {
        CheckSendsNothing(before, before.jobs[steps[n].j], steps[n].move);
      }
    }
  }
}
