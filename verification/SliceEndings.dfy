/** What the row shows of a slice job: how each job ends, and what a job's write says of its broker calls. */
module SliceEndings {
  import opened Base
  import opened OrderStatus
  import opened OrderStore
  import opened SliceExecution

  // ---------------------------------------------------------------------------
  // A job's own moves among everybody else's steps
  // ---------------------------------------------------------------------------

  function MovesOf(steps: seq<Step>, j: nat): seq<Move>
    decreases |steps|
  {
    if steps == [] then []
    else
      var last := steps[|steps| - 1];
      MovesOf(steps[..|steps| - 1], j) + if last.JobMoves? && last.j == j then [last.move] else []
  }

  predicate Healthy(m: Move) {
    !m.infraFails && !m.dies
  }

  predicate FailsOnly(m: Move) {
    m.infraFails && !m.dies
  }

  /** The first of three raw calls that is not a lost connection answers; three lost ones lose it. */
  predicate Answers(m: Move, response: Response) {
    exists k :: 0 <= k < 3 && m.raws[k] == response && (forall i :: 0 <= i < k ==> m.raws[i].ConnectionLost?) &&
                (response.ConnectionLost? ==> k == 2)
  }

  lemma {:induction false} OnlyRawCall(m: Move, response: Response)
    requires Answers(m, response)
    ensures SubmitOrder(m.raws, 0).1 == response
  {
    var k :| 0 <= k < 3 && m.raws[k] == response && (forall i :: 0 <= i < k ==> m.raws[i].ConnectionLost?) &&
             (response.ConnectionLost? ==> k == 2);
    assert SubmitOrder(m.raws, 0).0 == k + 1;
  }

  /** A job past its start changes by its own moves only. */
  lemma OthersLeaveTheJob(w: World, step: Step, j: nat)
    requires j in w.jobs && w.jobs[j].pc != Waiting && !(step.JobMoves? && step.j == j)
    ensures j in Next(w, step).jobs && Next(w, step).jobs[j] == w.jobs[j] && Next(w, step).dryRun == w.dryRun
  {
    hide MovedJob, RowsAfterMove;
  }

  /** What its next move makes of a job that has no check left to make. */
  function Moved(job: Job, dryRun: bool, m: Move): Job {
    MovedJob(World(map[], map[], false, false, dryRun), job, m)
  }

  predicate PastChecks(pc: Pc) {
    pc == Submit || WindingDown(pc)
  }

  lemma MovedAlone(w: World, job: Job, m: Move)
    requires PastChecks(job.pc)
    ensures MovedJob(w, job, m) == Moved(job, w.dryRun, m)
    ensures MovedJob(w, job, m).rowId == job.rowId
    ensures MovedJob(w, job, m).pc != Waiting
  {
    hide SubmitOrder;
  }

  /** `jobs[k]` is the job after its first `k` moves, none of them back to the checks. */
  predicate Trace(jobs: seq<Job>, moves: seq<Move>, dryRun: bool) {
    && |jobs| == |moves| + 1
    && (forall k :: 0 <= k < |moves| ==> PastChecks(jobs[k].pc) && jobs[k + 1] == Moved(jobs[k], dryRun, moves[k]))
  }

  lemma {:induction false} TraceRuns(w: World, steps: seq<Step>, j: nat, jobs: seq<Job>)
    requires j in w.jobs && PastChecks(w.jobs[j].pc)
    requires Trace(jobs, MovesOf(steps, j), w.dryRun) && jobs[0] == w.jobs[j]
    ensures var after := Run(w, steps);
      j in after.jobs && after.jobs[j] == jobs[|jobs| - 1] && after.dryRun == w.dryRun && after.jobs[j].pc != Waiting
    decreases |steps|
  {
    hide Moved, Next;
    if steps != [] {
      var n := |steps| - 1;
      var before, last := Run(w, steps[..n]), steps[n];
      if last.JobMoves? && last.j == j {
        TraceRuns(w, steps[..n], j, jobs[..|jobs| - 1]);
        MovedAlone(before, before.jobs[j], last.move);
        OwnMove(before, j, last.move);
      } else {
        TraceRuns(w, steps[..n], j, jobs);
        OthersLeaveTheJob(before, last, j);
      }
    }
  }

  lemma OwnMove(w: World, j: nat, m: Move)
    requires j in w.jobs
    ensures var next := Next(w, JobMoves(j, m));
      && j in next.jobs && next.jobs[j] == MovedJob(w, w.jobs[j], m) && next.dryRun == w.dryRun
      && next.rows == RowsAfterMove(w, w.jobs[j], m)
  {
    hide MovedJob, RowsAfterMove;
  }

  // ---------------------------------------------------------------------------
  // How each job ends
  // ---------------------------------------------------------------------------

  /** A row takes the gateway's own write of a rank: it is not locked, and shows nothing newer. */
  predicate Takes(row: OrderRow, now: int, rank: int) {
    && (!row.isTerminal || row.status == Filled)
    && (|| row.lastUpdatedAt.None? || row.lastUpdatedAt.value < now
        || (row.lastUpdatedAt.value == now && row.statusRank.Some? &&
            (row.statusRank.value < rank ||
             (row.statusRank.value == rank && row.filledQty == 0.0 && row.sourcePriority > 1))))
  }

  /** The row before and after a write: these columns and no others, or, if it is refused, none. */
  predicate Recorded(before: OrderRow, after: OrderRow, now: int, status: Status, rank: int, ends: bool,
                     brokerOrderId: Option<string>, text: Option<string>) {
    after == if Takes(before, now, rank)
             then before.(status := status, statusRank := Some(rank), lastUpdatedAt := Some(now), sourcePriority := 1,
                          isTerminal := ends, errorMessage := text,
                          brokerOrderId := if brokerOrderId.Some? then brokerOrderId else before.brokerOrderId)
             else before
  }

  /** The last step of `steps` is the job's write, and its row is there. */
  predicate EndsWithWrite(w: World, steps: seq<Step>, j: nat, write: Move) {
    && steps != [] && steps[|steps| - 1] == JobMoves(j, write) && Healthy(write)
    && j in w.jobs && w.jobs[j].rowId in Run(w, steps[..|steps| - 1]).rows
    && Run(w, steps[..|steps| - 1]).rows[w.jobs[j].rowId].filledQty >= 0.0
  }

  /** The row as the job's last step finds and leaves it, and the job done. */
  predicate Ends(w: World, steps: seq<Step>, j: nat, status: Status, rank: int, ends: bool,
                 brokerOrderId: Option<string>, text: Option<string>)
    requires steps != [] && j in w.jobs && steps[|steps| - 1].JobMoves?
    requires w.jobs[j].rowId in Run(w, steps[..|steps| - 1]).rows
  {
    var id, after := w.jobs[j].rowId, Run(w, steps);
    && id in after.rows && j in after.jobs && after.jobs[j].pc == Done
    && Recorded(Run(w, steps[..|steps| - 1]).rows[id], after.rows[id], steps[|steps| - 1].move.now, status, rank, ends,
                brokerOrderId, text)
  }

  lemma WriteIsRecorded(row: OrderRow, status: Status, brokerOrderId: Option<string>, m: Move)
    requires row.filledQty >= 0.0
    ensures Recorded(row, Cas(row, JobUpdate(status, brokerOrderId, m)), m.now, status, StatusRankFor(status),
                     IsTerminalStatus(status), brokerOrderId, ErrorMessage(status, m.message))
  {
    hide CasAccepts, Takes;
    TakesIffAccepts(row, status, brokerOrderId, m);
  }

  lemma TakesIffAccepts(row: OrderRow, status: Status, brokerOrderId: Option<string>, m: Move)
    requires row.filledQty >= 0.0
    ensures CasAccepts(row, JobUpdate(status, brokerOrderId, m)) <==> Takes(row, m.now, StatusRankFor(status))
  {
  }

  /** What a job at its write leaves in its row. */
  lemma WriteOfJob(w: World, job: Job, m: Move)
    requires Healthy(m) && job.rowId in w.rows && w.rows[job.rowId].filledQty >= 0.0
    ensures job.rowId in RowsAfterMove(w, job, m)
    ensures job.pc.Confirm? ==>
              Recorded(w.rows[job.rowId], RowsAfterMove(w, job, m)[job.rowId], m.now, Submitted, 2, false,
                       Some(job.pc.brokerOrderId), Some(""))
    ensures job.pc.ConfirmFailed? ==>
              Recorded(w.rows[job.rowId], RowsAfterMove(w, job, m)[job.rowId], m.now, SubmittedUnconfirmed, 2, false,
                       Some(job.pc.brokerOrderId), Some(m.message))
    ensures job.pc.Last? || job.pc.Block? ==>
              Recorded(w.rows[job.rowId], RowsAfterMove(w, job, m)[job.rowId], m.now, job.pc.status,
                       StatusRankFor(job.pc.status), IsTerminalStatus(job.pc.status), None,
                       ErrorMessage(job.pc.status, m.message))
  {
    hide Cas, JobUpdate, Recorded;
    var row := w.rows[job.rowId];
    match job.pc {
      case Block(status) => WriteIsRecorded(row, status, None, m);
      case Last(status) => WriteIsRecorded(row, status, None, m);
      case Confirm(_, id) => WriteIsRecorded(row, Submitted, Some(id), m);
      case ConfirmFailed(id) => WriteIsRecorded(row, SubmittedUnconfirmed, Some(id), m);
      case _ =>
    }
  }

  /** A job that has come to a write by its moves, and makes it. */
  lemma WriteEndsIt(w: World, steps: seq<Step>, j: nat, jobs: seq<Job>, write: Move)
    requires EndsWithWrite(w, steps, j, write) && PastChecks(w.jobs[j].pc)
    requires Trace(jobs, MovesOf(steps[..|steps| - 1], j), w.dryRun) && jobs[0] == w.jobs[j]
    requires forall k :: 0 <= k < |jobs| ==> jobs[k].rowId == w.jobs[j].rowId
    requires var pc := jobs[|jobs| - 1].pc; pc.Confirm? || pc.ConfirmFailed? || pc.Last? || pc.Block?
    ensures jobs[|jobs| - 1].pc.Confirm? ==>
              Ends(w, steps, j, Submitted, 2, false, Some(jobs[|jobs| - 1].pc.brokerOrderId), Some(""))
    ensures jobs[|jobs| - 1].pc.ConfirmFailed? ==>
              Ends(w, steps, j, SubmittedUnconfirmed, 2, false, Some(jobs[|jobs| - 1].pc.brokerOrderId),
                   Some(write.message))
    ensures var pc := jobs[|jobs| - 1].pc; pc.Last? || pc.Block? ==>
              Ends(w, steps, j, pc.status, StatusRankFor(pc.status), IsTerminalStatus(pc.status), None,
                   ErrorMessage(pc.status, write.message))
  {
    hide Recorded, RowsAfterMove, Moved;
    var n := |steps| - 1;
    TraceRuns(w, steps[..n], j, jobs);
    var before := Run(w, steps[..n]);
    WriteOfJob(before, before.jobs[j], write);
    OwnMove(before, j, write);
    assert Run(w, steps) == Next(before, JobMoves(j, write));
  }

  predicate ReadyToSend(w: World, j: nat) {
    j in w.jobs && w.jobs[j].pc == Submit && !w.dryRun
  }

  lemma AfterAnswer(job: Job, m: Move, response: Response)
    requires job.pc == Submit && !m.dies && Answers(m, response)
    ensures var after := Moved(job, false, m);
      && after.rowId == job.rowId
      && (response.Returned? ==> after.pc == Confirm(1, response.brokerOrderId))
      && (response.Refused? ==> after.pc == Last(Rejected))
      && (response.ConnectionLost? && job.attempt >= 3 ==> after.pc == Last(Failed))
      && (response.ConnectionLost? && job.attempt < 3 ==> after.pc == FirstRead && after.attempt == job.attempt + 1)
      && (response.Unexpected? ==> after.pc == Done)
  {
    hide SubmitOrder;
    OnlyRawCall(m, response);
  }

  lemma MovesBeforeTheLast(steps: seq<Step>, j: nat, moves: seq<Move>, m: Move)
    requires steps != [] && steps[|steps| - 1] == JobMoves(j, m) && MovesOf(steps, j) == moves + [m]
    ensures MovesOf(steps[..|steps| - 1], j) == moves
  {
    var init := MovesOf(steps[..|steps| - 1], j);
    assert init == (init + [m])[..|init|] && moves == (moves + [m])[..|moves|];
  }

  /** The job after its answered submission and some failed confirmations. */
  function Confirming(job: Job, send: Move, fails: seq<Move>): seq<Job>
    decreases |fails|
  {
    if fails == [] then [job, Moved(job, false, send)]
    else
      var before := Confirming(job, send, fails[..|fails| - 1]);
      before + [Moved(before[|before| - 1], false, fails[|fails| - 1])]
  }

  lemma NoMovesYet(job: Job)
    ensures Trace([job], [], false)
  {
  }

  lemma TraceExtends(jobs: seq<Job>, moves: seq<Move>, m: Move)
    requires Trace(jobs, moves, false) && jobs != [] && PastChecks(jobs[|jobs| - 1].pc)
    ensures Trace(jobs + [Moved(jobs[|jobs| - 1], false, m)], moves + [m], false)
  {
    hide Moved, PastChecks;
  }

  lemma ConfirmationFails(job: Job, m: Move, k: nat, id: string)
    requires job.pc == Confirm(k, id) && FailsOnly(m)
    ensures Moved(job, false, m) == job.(pc := if k < 3 then Confirm(k + 1, id) else ConfirmFailed(id))
  {
  }

  lemma {:induction false} ConfirmingIsATrace(job: Job, send: Move, fails: seq<Move>, id: string)
    requires job.pc == Submit && !send.dies && Answers(send, Returned(id)) && |fails| <= 3
    requires forall k :: 0 <= k < |fails| ==> FailsOnly(fails[k])
    ensures var jobs := Confirming(job, send, fails);
      && |jobs| == |fails| + 2 && jobs[0] == job && Trace(jobs, [send] + fails, false)
      && (forall k :: 0 <= k < |jobs| ==> jobs[k].rowId == job.rowId)
      && jobs[|jobs| - 1].pc == if |fails| < 3 then Confirm(|fails| + 1, id) else ConfirmFailed(id)
    decreases |fails|
  {
    hide SubmitOrder, Moved, Answers, Trace;
    AfterAnswer(job, send, Returned(id));
    if fails == [] {
      assert [send] + fails == [] + [send] && [job] + [Moved(job, false, send)] == [job, Moved(job, false, send)];
      NoMovesYet(job);
      TraceExtends([job], [], send);
    } else {
      var n := |fails| - 1;
      ConfirmingIsATrace(job, send, fails[..n], id);
      assert [send] + fails == ([send] + fails[..n]) + [fails[n]];
      var before := Confirming(job, send, fails[..n]);
      ConfirmationFails(before[n + 1], fails[n], n + 1, id);
      TraceExtends(before, [send] + fails[..n], fails[n]);
    }
  }

  /** The broker took the order, and at most two confirmations failed: the row shows it submitted, with
      the broker's id, unless the row refuses the write. */
  lemma SubmissionIsRecorded(w: World, steps: seq<Step>, j: nat, send: Move, fails: seq<Move>, write: Move, id: string)
    requires ReadyToSend(w, j) && EndsWithWrite(w, steps, j, write) && MovesOf(steps, j) == [send] + fails + [write]
    requires !send.dies && Answers(send, Returned(id))
    requires |fails| <= 2 && forall k :: 0 <= k < |fails| ==> FailsOnly(fails[k])
    ensures Ends(w, steps, j, Submitted, 2, false, Some(id), Some(""))
  {
    hide Trace, Ends, EndsWithWrite, MovesOf, Answers, Moved;
    MovesBeforeWrite(w, steps, j, [send] + fails, write);
    ConfirmingIsATrace(w.jobs[j], send, fails, id);
    WriteEndsIt(w, steps, j, Confirming(w.jobs[j], send, fails), write);
  }

  lemma MovesBeforeWrite(w: World, steps: seq<Step>, j: nat, moves: seq<Move>, write: Move)
    requires EndsWithWrite(w, steps, j, write) && MovesOf(steps, j) == moves + [write]
    ensures steps != [] && steps[|steps| - 1] == JobMoves(j, write) && MovesOf(steps[..|steps| - 1], j) == moves
    ensures j in w.jobs && w.jobs[j].rowId in Run(w, steps[..|steps| - 1]).rows
  {
    MovesBeforeTheLast(steps, j, moves, write);
  }

  /** After three failed confirmations the last write records the submission as unconfirmed, with the id. */
  lemma UnconfirmedIsRecorded(w: World, steps: seq<Step>, j: nat, send: Move, fails: seq<Move>, write: Move, id: string)
    requires ReadyToSend(w, j) && EndsWithWrite(w, steps, j, write) && MovesOf(steps, j) == [send] + fails + [write]
    requires !send.dies && Answers(send, Returned(id))
    requires |fails| == 3 && forall k :: 0 <= k < |fails| ==> FailsOnly(fails[k])
    ensures Ends(w, steps, j, SubmittedUnconfirmed, 2, false, Some(id), Some(write.message))
  {
    hide Trace, Ends, EndsWithWrite, MovesOf, Answers, Moved;
    MovesBeforeWrite(w, steps, j, [send] + fails, write);
    ConfirmingIsATrace(w.jobs[j], send, fails, id);
    WriteEndsIt(w, steps, j, Confirming(w.jobs[j], send, fails), write);
  }

  /** One move brings the job to its last write. */
  lemma TwoMoves(w: World, steps: seq<Step>, j: nat, first: Move, write: Move)
    requires j in w.jobs && PastChecks(w.jobs[j].pc)
    requires EndsWithWrite(w, steps, j, write) && MovesOf(steps, j) == [first] + [write]
    requires Moved(w.jobs[j], w.dryRun, first).rowId == w.jobs[j].rowId
    requires Moved(w.jobs[j], w.dryRun, first).pc.Last? || Moved(w.jobs[j], w.dryRun, first).pc.Block?
    ensures var status := Moved(w.jobs[j], w.dryRun, first).pc.status;
            Ends(w, steps, j, status, StatusRankFor(status), IsTerminalStatus(status), None,
                 ErrorMessage(status, write.message))
  {
    hide Ends, EndsWithWrite, MovesOf, Moved;
    MovesBeforeWrite(w, steps, j, [first], write);
    var jobs := [w.jobs[j], Moved(w.jobs[j], w.dryRun, first)];
    WriteEndsIt(w, steps, j, jobs, write);
  }

  /** The broker refused the order: rejected, for good. */
  lemma RefusalIsRecorded(w: World, steps: seq<Step>, j: nat, send: Move, write: Move)
    requires ReadyToSend(w, j) && EndsWithWrite(w, steps, j, write) && MovesOf(steps, j) == [send] + [write]
    requires !send.dies && Answers(send, Refused)
    ensures Ends(w, steps, j, Rejected, 4, true, None, Some(write.message))
  {
    hide Ends, EndsWithWrite, MovesOf, Moved, Answers;
    AfterAnswer(w.jobs[j], send, Refused);
    TwoMoves(w, steps, j, send, write);
  }

  /** The third submission lost its connection: failed, for good. */
  lemma ThirdLossIsRecorded(w: World, steps: seq<Step>, j: nat, send: Move, write: Move)
    requires ReadyToSend(w, j) && EndsWithWrite(w, steps, j, write) && MovesOf(steps, j) == [send] + [write]
    requires !send.dies && Answers(send, ConnectionLost) && w.jobs[j].attempt >= 3
    ensures Ends(w, steps, j, Failed, 4, true, None, Some(write.message))
  {
    hide Ends, EndsWithWrite, MovesOf, Moved, Answers;
    AfterAnswer(w.jobs[j], send, ConnectionLost);
    TwoMoves(w, steps, j, send, write);
  }

  /** Before that, a lost connection starts the job over, and an unexpected error ends it; neither
      touches a row. */
  lemma LostConnectionStartsOver(w: World, j: nat, send: Move)
    requires ReadyToSend(w, j) && !send.dies
    ensures Answers(send, ConnectionLost) && w.jobs[j].attempt < 3 ==>
              var next := Next(w, JobMoves(j, send));
              && next.rows == w.rows && next.jobs[j].pc == FirstRead
              && next.jobs[j].attempt == w.jobs[j].attempt + 1
    ensures Answers(send, Unexpected) ==>
              Next(w, JobMoves(j, send)).rows == w.rows && Next(w, JobMoves(j, send)).jobs[j].pc == Done
  {
    hide Answers, SubmitOrder;
    if Answers(send, ConnectionLost) {
      AfterAnswer(w.jobs[j], send, ConnectionLost);
    }
    if Answers(send, Unexpected) {
      AfterAnswer(w.jobs[j], send, Unexpected);
    }
    MovedAlone(w, w.jobs[j], send);
  }

  /** Without a broker the slice is recorded as a dry run. */
  lemma DryRunIsRecorded(w: World, steps: seq<Step>, j: nat, send: Move, write: Move)
    requires j in w.jobs && w.jobs[j].pc == Submit && w.dryRun && !send.dies
    requires EndsWithWrite(w, steps, j, write) && MovesOf(steps, j) == [send] + [write]
    ensures Ends(w, steps, j, DryRun, 1, false, None, None)
  {
    hide Ends, EndsWithWrite, MovesOf;
    TwoMoves(w, steps, j, send, write);
  }

  /** The write that records a block fails: the slice is recorded as failed instead. */
  lemma UnrecordedBlockFails(w: World, steps: seq<Step>, j: nat, fail: Move, write: Move)
    requires j in w.jobs && w.jobs[j].pc.Block? && FailsOnly(fail)
    requires EndsWithWrite(w, steps, j, write) && MovesOf(steps, j) == [fail] + [write]
    ensures Ends(w, steps, j, Failed, 4, true, None, Some(write.message))
  {
    hide Ends, EndsWithWrite, MovesOf;
    TwoMoves(w, steps, j, fail, write);
  }

  // ---------------------------------------------------------------------------
  // Checks that end a job
  // ---------------------------------------------------------------------------

  predicate Checking(pc: Pc) {
    pc in {FirstRead, KillCheck, BreakerCheck, SecondRead}
  }

  /** The job's one move from a check, and what it leads to. */
  lemma FromCheck(w: World, check: Move, rest: seq<Step>, j: nat, write: Move)
    requires j in w.jobs && EndsWithWrite(Next(w, JobMoves(j, check)), rest, j, write) && MovesOf(rest, j) == [write]
    requires var pc := MovedJob(w, w.jobs[j], check).pc; pc.Last? || pc.Block?
    ensures var next, status := Next(w, JobMoves(j, check)), MovedJob(w, w.jobs[j], check).pc.status;
            Ends(next, rest, j, status, StatusRankFor(status), IsTerminalStatus(status), None,
                 ErrorMessage(status, write.message))
  {
    hide Ends, EndsWithWrite, MovesOf, MovedJob;
    OwnMove(w, j, check);
    var next := Next(w, JobMoves(j, check));
    assert [] + [write] == [write];
    MovesBeforeWrite(next, rest, j, [], write);
    WriteEndsIt(next, rest, j, [next.jobs[j]], write);
  }

  /** An engaged kill switch, a tripped breaker and a failing database or Redis each leave their own
      status; a healthy check goes on, and a canceled row ends the job without a write. */
  lemma ChecksAreRecorded(w: World, check: Move, rest: seq<Step>, j: nat, write: Move)
    requires j in w.jobs && Checking(w.jobs[j].pc) && !check.dies
    requires EndsWithWrite(Next(w, JobMoves(j, check)), rest, j, write) && MovesOf(rest, j) == [write]
    ensures var next, pc := Next(w, JobMoves(j, check)), w.jobs[j].pc;
      && (pc == KillCheck && !check.infraFails && w.killSwitch ==>
            Ends(next, rest, j, BlockedKillSwitch, 4, true, None, Some(write.message)))
      && (pc == BreakerCheck && !check.infraFails && w.breaker ==>
            Ends(next, rest, j, BlockedCircuitBreaker, 4, true, None, Some(write.message)))
      && (check.infraFails ==> Ends(next, rest, j, Failed, 4, true, None, Some(write.message)))
  {
    hide Ends, EndsWithWrite, MovesOf;
    var pc := MovedJob(w, w.jobs[j], check).pc;
    if pc.Last? || pc.Block? {
      FromCheck(w, check, rest, j, write);
    }
  }

  lemma ChecksGoOn(w: World, check: Move, j: nat)
    requires j in w.jobs && Checking(w.jobs[j].pc) && Healthy(check)
    ensures var next, pc, canceled := Next(w, JobMoves(j, check)), w.jobs[j].pc, IsCanceled(w.rows, w.jobs[j].rowId);
      && next.rows == w.rows && j in next.jobs
      && (pc == FirstRead ==> next.jobs[j].pc == if canceled then Done else KillCheck)
      && (pc == KillCheck && !w.killSwitch ==> next.jobs[j].pc == BreakerCheck)
      && (pc == BreakerCheck && !w.breaker ==> next.jobs[j].pc == SecondRead)
      && (pc == SecondRead ==> next.jobs[j].pc == if canceled then Done else Submit)
  {
    hide RowsAfterMove;
    OwnMove(w, j, check);
    CheckTouchesNoRow(w, w.jobs[j], check);
  }

  lemma CheckTouchesNoRow(w: World, job: Job, m: Move)
    requires Checking(job.pc)
    ensures RowsAfterMove(w, job, m) == w.rows
  {
  }

  /** From its firing to its end: with clear switches, a row that is not canceled and a broker that takes
      the order, the row shows the submission. */
  lemma HealthySliceIsSubmitted(w: World, j: nat, send: Move, write: Move, id: string)
    requires j in w.jobs && w.jobs[j].pc == Waiting && !w.killSwitch && !w.breaker && !w.dryRun
    requires w.jobs[j].rowId in w.rows && !IsCanceled(w.rows, w.jobs[j].rowId)
    requires w.rows[w.jobs[j].rowId].filledQty >= 0.0
    requires !send.dies && Answers(send, Returned(id)) && Healthy(write)
    ensures var steps := [Fire(j)] + ChecksOf(j) + [JobMoves(j, send), JobMoves(j, write)];
            var rowId, final := w.jobs[j].rowId, Run(w, steps);
      && rowId in final.rows
      && Recorded(w.rows[rowId], final.rows[rowId], write.now, Submitted, 2, false, Some(id), Some(""))
  {
    hide Run, Recorded, Answers, CLEAR, MovedJob, RowsAfterMove, ChecksOf;
    var rowId, fired := w.jobs[j].rowId, Next(w, Fire(j));
    RunOne(w, Fire(j));
    RunChecks(w, [Fire(j)], j);
    FourChecks(fired, j);
    var ready := Run(w, [Fire(j)] + ChecksOf(j));
    OwnMove(ready, j, send);
    SendTouchesNoRow(ready, ready.jobs[j], send);
    AfterAnswer(ready.jobs[j], send, Returned(id));
    MovedAlone(ready, ready.jobs[j], send);
    var sent := Next(ready, JobMoves(j, send));
    OwnMove(sent, j, write);
    WriteOfJob(sent, sent.jobs[j], write);
    RunOneMore(w, [Fire(j)] + ChecksOf(j), JobMoves(j, send));
    RunOneMore(w, [Fire(j)] + ChecksOf(j) + [JobMoves(j, send)], JobMoves(j, write));
    assert [Fire(j)] + ChecksOf(j) + [JobMoves(j, send)] + [JobMoves(j, write)] ==
           [Fire(j)] + ChecksOf(j) + [JobMoves(j, send), JobMoves(j, write)];
  }

  lemma SendTouchesNoRow(w: World, job: Job, m: Move)
    requires job.pc == Submit
    ensures RowsAfterMove(w, job, m) == w.rows
  {
  }

  // ---------------------------------------------------------------------------
  // What a job's write says of its broker calls
  // ---------------------------------------------------------------------------

  predicate LastIs(log: seq<Event>, event: Event) {
    log != [] && log[|log| - 1] == event
  }

  /** The broker has taken no order and refused none. */
  predicate Undecided(log: seq<Event>) {
    forall i :: 0 <= i < |log| && log[i].Sent? ==> log[i].response.ConnectionLost?
  }

  /** All but the last event are undecided. */
  predicate DecidedLast(log: seq<Event>) {
    log != [] && Undecided(log[..|log| - 1])
  }

  /** What the log says when a job writes this status. */
  predicate Tells(log: seq<Event>, dryRun: bool, status: Status) {
    match status
    case Rejected => DecidedLast(log) && log[|log| - 1].Sent? && log[|log| - 1].response.Refused?
    case BlockedKillSwitch => Undecided(log) && LastIs(log, SawKillSwitch(true))
    case BlockedCircuitBreaker => Undecided(log) && LastIs(log, SawBreaker(true))
    case DryRun => Undecided(log) && dryRun && LastIs(log, SawRow(false))
    case Failed => Undecided(log)
    case _ => false
  }

  predicate TookOrder(log: seq<Event>, id: string) {
    DecidedLast(log) && log[|log| - 1].Sent? && log[|log| - 1].response == Returned(id)
  }

  /** The job's log, by where it stands. */
  predicate LogFits(job: Job, dryRun: bool) {
    match job.pc
    case Waiting | FirstRead | KillCheck | BreakerCheck | SecondRead => Undecided(job.log)
    case Submit => Undecided(job.log) && LastIs(job.log, SawRow(false))
    case Block(status) => status in {BlockedKillSwitch, BlockedCircuitBreaker} && Tells(job.log, dryRun, status)
    case Last(status) => status in {Failed, Rejected, DryRun} && Tells(job.log, dryRun, status)
    case Confirm(_, id) => TookOrder(job.log, id)
    case ConfirmFailed(id) => TookOrder(job.log, id)
    case Done => true
  }

  ghost predicate AllLogsFit(w: World) {
    forall j :: j in w.jobs ==> LogFits(w.jobs[j], w.dryRun)
  }

  lemma ObservedFits(job: Job, event: Event, pc: Pc)
    requires Undecided(job.log)
    ensures var after := Observe(job, event, pc);
      && DecidedLast(after.log) && LastIs(after.log, event)
      && (!event.Sent? || event.response.ConnectionLost? ==> Undecided(after.log))
  {
    assert (job.log + [event])[..|job.log|] == job.log;
  }

  lemma SendFits(job: Job, calls: nat, response: Response, dryRun: bool)
    requires Undecided(job.log)
    ensures LogFits(AfterSubmit(job, calls, response), dryRun)
  {
    hide DecidedLast, LastIs, Undecided;
    ObservedFits(job, Sent(calls, response), Done);
    LastEvent(AfterSubmit(job, calls, response).log, Sent(calls, response));
  }

  lemma LastEvent(log: seq<Event>, event: Event)
    ensures LastIs(log, event) ==> log != [] && log[|log| - 1] == event
  {
  }

  lemma MoveFits(w: World, job: Job, m: Move)
    requires LogFits(job, w.dryRun)
    ensures LogFits(MovedJob(w, job, m), w.dryRun)
  {
    hide SubmitOrder, AfterSubmit, Undecided, LastIs, DecidedLast;
    if job.pc == Submit && !m.dies && !w.dryRun {
      var sent := SubmitOrder(m.raws, 0);
      SendFits(job, sent.0, sent.1, w.dryRun);
    } else if Checking(job.pc) {
      forall event: Event, pc: Pc | !event.Sent?
        ensures Undecided(Observe(job, event, pc).log) && LastIs(Observe(job, event, pc).log, event)
      {
        ObservedFits(job, event, pc);
      }
    }
  }

  lemma {:induction false} RunFits(w: World, steps: seq<Step>)
    requires AllLogsFit(w)
    ensures AllLogsFit(Run(w, steps)) && Run(w, steps).dryRun == w.dryRun
    decreases |steps|
  {
    hide LogFits, MovedJob, RowsAfterMove;
    if steps != [] {
      var n := |steps| - 1;
      RunFits(w, steps[..n]);
      var before := Run(w, steps[..n]);
      if steps[n].JobMoves? && steps[n].j in before.jobs {
        MoveFits(before, before.jobs[steps[n].j], steps[n].move);
      }
      assert forall rowId :: LogFits(Job(rowId, Waiting, 1, []), w.dryRun) by { NewLogFits(w.dryRun); }
      assert forall job: Job :: job.pc == Waiting && LogFits(job, w.dryRun) ==> LogFits(job.(pc := FirstRead), w.dryRun)
      by { FiredLogFits(w.dryRun); }
    }
  }

  lemma NewLogFits(dryRun: bool)
    ensures forall rowId :: LogFits(Job(rowId, Waiting, 1, []), dryRun)
  {
  }

  lemma FiredLogFits(dryRun: bool)
    ensures forall job: Job :: job.pc == Waiting && LogFits(job, dryRun) ==> LogFits(job.(pc := FirstRead), dryRun)
  {
  }

  /** Over every run: when a job's move changes a row it is the job's own, and the new status is told by the
      job's log. An order the broker took is never recorded as anything but submitted, under its own id,
      and nothing else is recorded as submitted. */
  lemma WritesTellTheTruth(w: World, steps: seq<Step>, j: nat, m: Move, id: string)
    requires NoJobs(w) && j in Run(w, steps).jobs
    requires var before := Run(w, steps); id in before.rows && Next(before, JobMoves(j, m)).rows[id] != before.rows[id]
    ensures var job, row := Run(w, steps).jobs[j], Next(Run(w, steps), JobMoves(j, m)).rows[id];
      && id == job.rowId
      && (row.status in {Submitted, SubmittedUnconfirmed} ==>
            row.brokerOrderId.Some? && TookOrder(job.log, row.brokerOrderId.value) && !row.isTerminal)
      && (row.status !in {Submitted, SubmittedUnconfirmed} ==> Tells(job.log, w.dryRun, row.status))
  {
    hide Run, LogFits, CasAccepts, Tells, TookOrder;
    RunFits(w, steps);
    var before := Run(w, steps);
    WritesOnlyOwnRow(before, before.jobs[j], m);
    WriteTells(before, before.jobs[j], m);
  }

  lemma WriteTells(w: World, job: Job, m: Move)
    requires LogFits(job, w.dryRun) && job.rowId in w.rows
    ensures job.rowId in RowsAfterMove(w, job, m)
    ensures RowsAfterMove(w, job, m)[job.rowId] != w.rows[job.rowId] ==>
              var row := RowsAfterMove(w, job, m)[job.rowId];
              && (row.status in {Submitted, SubmittedUnconfirmed} ==>
                    row.brokerOrderId.Some? && TookOrder(job.log, row.brokerOrderId.value) && !row.isTerminal)
              && (row.status !in {Submitted, SubmittedUnconfirmed} ==> Tells(job.log, w.dryRun, row.status))
  {
    hide CasAccepts, Tells, TookOrder;
  }
}
