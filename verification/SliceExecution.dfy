/** Slice jobs, cancellation and the rest of the system, interleaved step by step. */
module SliceExecution {
  import opened Base
  import opened OrderStatus
  import opened OrderStore

  /** What a broker call ends in: an order, a non-retryable refusal, a connection error,
      or an error that nobody catches. */
  datatype Response = Returned(brokerOrderId: string) | Refused | ConnectionLost | Unexpected

  const MAX_ATTEMPTS := 3

  /** The executor's own retry: the first raw call that is not a connection error decides,
      and after three the connection error is raised. */
  function SubmitOrder(raws: seq<Response>, calls: nat): (r: (nat, Response))
    requires calls < MAX_ATTEMPTS <= |raws|
    ensures calls < r.0 <= MAX_ATTEMPTS && r.1 == raws[r.0 - 1]
    ensures r.1.ConnectionLost? ==> r.0 == MAX_ATTEMPTS
    ensures forall i :: calls <= i < r.0 - 1 ==> raws[i].ConnectionLost?
    decreases MAX_ATTEMPTS - calls
  {
    if raws[calls].ConnectionLost? && calls + 1 < MAX_ATTEMPTS then SubmitOrder(raws, calls + 1)
    else (calls + 1, raws[calls])
  }

  /** What a job has observed and done, in order. */
  datatype Event =
    | SawRow(canceled: bool)
    | SawKillSwitch(engaged: bool)
    | SawBreaker(tripped: bool)
    | Sent(rawCalls: nat, response: Response)

  /** Where a job stands in _execute_slice. `Block` is the write inside the guarded region,
      `Last` any write after which the job ends whether it succeeds or not. */
  datatype Pc =
    | Waiting
    | FirstRead | KillCheck | BreakerCheck | SecondRead
    | Block(status: Status)
    | Submit
    | Confirm(attempt: nat, brokerOrderId: string)
    | ConfirmFailed(brokerOrderId: string)
    | Last(status: Status)
    | Done

  datatype Job = Job(rowId: string, pc: Pc, attempt: nat, log: seq<Event>)

  datatype World = World(rows: Rows, jobs: map<nat, Job>, killSwitch: bool, breaker: bool, dryRun: bool)

  /** The environment's choices for one move of a job: the clock, whether the database or Redis
      call fails, whether an uncaught error or a crash ends the job, and the broker's answers. */
  type Move = m: AnyMove | |m.raws| >= MAX_ATTEMPTS witness AnyMove(0, false, false, [Refused, Refused, Refused], "")
  datatype AnyMove = AnyMove(now: int, infraFails: bool, dies: bool, raws: seq<Response>, message: string)

  datatype Step =
    | Schedule(j: nat, rowId: string)
    | Fire(j: nat)
    | JobMoves(j: nat, move: Move)
    | CancelSlices(parentOrderId: string)
    | RemoveJob(j: nat)
    | Switches(killSwitch: bool, breaker: bool)
    | OtherWriter(id: string, row: OrderRow)

  function ErrorMessage(status: Status, message: string): Option<string> {
    if status == DryRun then None else if status == Submitted then Some("") else Some(message)
  }

  function JobUpdate(status: Status, brokerOrderId: Option<string>, m: Move): CasUpdate {
    CasUpdate(status, m.now, StatusRankFor(status), SOURCE_PRIORITY_MANUAL, None, None, None, brokerOrderId, None,
              ErrorMessage(status, m.message))
  }

  function Write(rows: Rows, id: string, status: Status, brokerOrderId: Option<string>, m: Move): Rows {
    if id in rows then rows[id := Cas(rows[id], JobUpdate(status, brokerOrderId, m))] else rows
  }

  /** A missing row does not read as canceled. */
  predicate IsCanceled(rows: Rows, id: string) {
    id in rows && rows[id].status == Canceled
  }

  function Observe(job: Job, event: Event, pc: Pc): Job {
    job.(log := job.log + [event], pc := pc)
  }

  function AfterSubmit(job: Job, calls: nat, response: Response): Job {
    var sent := Observe(job, Sent(calls, response), Done);
    match response
    case Returned(brokerOrderId) => sent.(pc := Confirm(1, brokerOrderId))
    case Refused => sent.(pc := Last(Rejected))
    case ConnectionLost =>
      if job.attempt < MAX_ATTEMPTS then sent.(pc := FirstRead, attempt := job.attempt + 1)
      else sent.(pc := Last(Failed))
    case Unexpected => sent
  }

  function MovedJob(w: World, job: Job, m: Move): Job {
    if m.dies then job.(pc := Done)
    else
      match job.pc
      case Waiting => job
      case FirstRead =>
        if m.infraFails then job.(pc := Last(Failed))
        else
          var canceled := IsCanceled(w.rows, job.rowId);
          Observe(job, SawRow(canceled), if canceled then Done else KillCheck)
      case KillCheck =>
        if m.infraFails then job.(pc := Last(Failed))
        else Observe(job, SawKillSwitch(w.killSwitch), if w.killSwitch then Block(BlockedKillSwitch) else BreakerCheck)
      case BreakerCheck =>
        if m.infraFails then job.(pc := Last(Failed))
        else Observe(job, SawBreaker(w.breaker), if w.breaker then Block(BlockedCircuitBreaker) else SecondRead)
      case Block(_) => job.(pc := if m.infraFails then Last(Failed) else Done)
      case SecondRead =>
        if m.infraFails then job.(pc := Last(Failed))
        else Observe(job, SawRow(IsCanceled(w.rows, job.rowId)), if IsCanceled(w.rows, job.rowId) then Done else Submit)
      case Submit =>
        if w.dryRun then job.(pc := Last(DryRun))
        else var sent := SubmitOrder(m.raws, 0); AfterSubmit(job, sent.0, sent.1)
      case Confirm(attempt, id) =>
        job.(pc := if !m.infraFails then Done
                   else if attempt < MAX_ATTEMPTS then Confirm(attempt + 1, id)
                   else ConfirmFailed(id))
      case ConfirmFailed(_) => job.(pc := Done)
      case Last(_) => job.(pc := Done)
      case Done => job
  }

  function RowsAfterMove(w: World, job: Job, m: Move): Rows {
    if m.dies || m.infraFails then w.rows
    else
      match job.pc
      case Block(status) => Write(w.rows, job.rowId, status, None, m)
      case Last(status) => Write(w.rows, job.rowId, status, None, m)
      case Confirm(_, id) => Write(w.rows, job.rowId, Submitted, Some(id), m)
      case ConfirmFailed(id) => Write(w.rows, job.rowId, SubmittedUnconfirmed, Some(id), m)
      case _ => w.rows
  }

  /** A step that is not possible changes nothing. */
  function Next(w: World, step: Step): World {
    match step
    case Schedule(j, rowId) => if j in w.jobs then w else w.(jobs := w.jobs[j := Job(rowId, Waiting, 1, [])])
    case Fire(j) =>
      if j in w.jobs && w.jobs[j].pc == Waiting then w.(jobs := w.jobs[j := w.jobs[j].(pc := FirstRead)]) else w
    case JobMoves(j, m) =>
      if j in w.jobs then w.(jobs := w.jobs[j := MovedJob(w, w.jobs[j], m)], rows := RowsAfterMove(w, w.jobs[j], m))
      else w
    case CancelSlices(parentOrderId) => w.(rows := CancelPending(w.rows, parentOrderId))
    case RemoveJob(j) => if j in w.jobs && w.jobs[j].pc == Waiting then w.(jobs := w.jobs - {j}) else w
    case Switches(killSwitch, breaker) => w.(killSwitch := killSwitch, breaker := breaker)
    case OtherWriter(id, row) => if id in w.rows then w.(rows := w.rows[id := row]) else w
  }

  function Run(w: World, steps: seq<Step>): World
    decreases |steps|
  {
    if steps == [] then w else Next(Run(w, steps[..|steps| - 1]), steps[|steps| - 1])
  }

  // ---------------------------------------------------------------------------
  // What every job does
  // ---------------------------------------------------------------------------

  /** The four checks an attempt makes, all clear. */
  const CLEAR := [SawRow(false), SawKillSwitch(false), SawBreaker(false), SawRow(false)]

  const LOST := CLEAR + [Sent(MAX_ATTEMPTS, ConnectionLost)]

  function LostAttempts(n: nat): seq<Event> {
    if n == 0 then [] else LostAttempts(n - 1) + LOST
  }

  predicate PossibleEvent(e: Event, i: nat) {
    match i
    case 0 | 3 => e.SawRow?
    case 1 => e.SawKillSwitch?
    case 2 => e.SawBreaker?
    case _ => e.Sent? && 1 <= e.rawCalls <= MAX_ATTEMPTS && (e.response.ConnectionLost? ==> e.rawCalls == MAX_ATTEMPTS)
  }

  /** The events of an attempt that is over: some clear checks and one more event. */
  predicate Attempted(events: seq<Event>) {
    events != [] ==>
      var k := |events| - 1;
      k <= 4 && events[..k] == CLEAR[..k] && PossibleEvent(events[k], k)
  }

  /** The events of the running attempt, by where the job stands. */
  predicate AttemptSoFar(pc: Pc, events: seq<Event>) {
    match pc
    case Waiting | FirstRead => events == []
    case KillCheck => events == CLEAR[..1]
    case BreakerCheck => events == CLEAR[..2]
    case SecondRead => events == CLEAR[..3]
    case Submit => events == CLEAR
    case Block(_) => Attempted(events) && |events| <= 3
    case Confirm(_, id) => Attempted(events) && |events| == 5 && events[4].response == Returned(id)
    case ConfirmFailed(id) => Attempted(events) && |events| == 5 && events[4].response == Returned(id)
    case Last(_) => Attempted(events)
    case Done => Attempted(events)
  }

  predicate InShape(job: Job) {
    && 1 <= job.attempt <= MAX_ATTEMPTS
    && (job.pc == Waiting ==> job.attempt == 1)
    && var lost := LostAttempts(job.attempt - 1);
    && |lost| <= |job.log| && job.log[..|lost|] == lost && AttemptSoFar(job.pc, job.log[|lost|..])
  }

  ghost predicate AllInShape(w: World) {
    forall j :: j in w.jobs ==> InShape(w.jobs[j])
  }

  lemma ObserveExtends(job: Job, event: Event, pc: Pc)
    requires InShape(job)
    ensures var lost := LostAttempts(job.attempt - 1); var after := Observe(job, event, pc);
      |lost| <= |after.log| && after.log[..|lost|] == lost && after.log[|lost|..] == job.log[|lost|..] + [event]
  {
  }

  lemma ClearPrefixes()
    ensures |CLEAR| == 4
    ensures CLEAR[..1] == [SawRow(false)]
    ensures CLEAR[..2] == CLEAR[..1] + [SawKillSwitch(false)]
    ensures CLEAR[..3] == CLEAR[..2] + [SawBreaker(false)]
    ensures CLEAR == CLEAR[..3] + [SawRow(false)]
  {
  }

  /** Clear checks and one more event make up a finished attempt. */
  lemma OneMoreEvent(k: nat, event: Event)
    requires k <= 4 && PossibleEvent(event, k)
    ensures Attempted(CLEAR[..k] + [event])
  {
    assert (CLEAR[..k] + [event])[..k] == CLEAR[..k];
  }

  lemma ObserveKeepsShape(job: Job, k: nat, event: Event, pc: Pc)
    requires InShape(job) && k < 4 && PossibleEvent(event, k)
    requires job.log[|LostAttempts(job.attempt - 1)|..] == CLEAR[..k]
    requires pc in {Done, Block(BlockedKillSwitch), Block(BlockedCircuitBreaker)} && k < 4
    requires pc.Block? ==> k <= 2
    ensures InShape(Observe(job, event, pc))
  {
  }

  function ClearEvent(k: nat): Event {
    match k case 0 => SawRow(false) case 1 => SawKillSwitch(false) case 2 => SawBreaker(false) case _ => SawRow(false)
  }

  function PcAfterClear(k: nat): Pc {
    match k case 0 => KillCheck case 1 => BreakerCheck case 2 => SecondRead case _ => Submit
  }

  lemma ClearCheckKeepsShape(job: Job, k: nat)
    requires InShape(job) && k < 4
    requires job.log[|LostAttempts(job.attempt - 1)|..] == CLEAR[..k]
    ensures InShape(Observe(job, ClearEvent(k), PcAfterClear(k)))
  {
  }

  lemma CheckKeepsShape(w: World, job: Job, m: Move)
    requires InShape(job) && !m.dies && !m.infraFails
    requires job.pc in {FirstRead, KillCheck, BreakerCheck, SecondRead}
    ensures InShape(MovedJob(w, job, m))
  {
    hide InShape, Observe, IsCanceled;
    var k := match job.pc case FirstRead => 0 case KillCheck => 1 case BreakerCheck => 2 case _ => 3;
    CheckedSoFar(job, k);
    var canceled := IsCanceled(w.rows, job.rowId);
    if job.pc in {FirstRead, SecondRead} && canceled {
      ObserveKeepsShape(job, k, SawRow(true), Done);
    } else if job.pc == KillCheck && w.killSwitch {
      ObserveKeepsShape(job, k, SawKillSwitch(true), Block(BlockedKillSwitch));
    } else if job.pc == BreakerCheck && w.breaker {
      ObserveKeepsShape(job, k, SawBreaker(true), Block(BlockedCircuitBreaker));
    } else {
      ClearCheckKeepsShape(job, k);
    }
  }

  lemma CheckedSoFar(job: Job, k: nat)
    requires InShape(job) && k < 4 && job.pc == [FirstRead, KillCheck, BreakerCheck, SecondRead][k]
    ensures job.attempt > 0 && |LostAttempts(job.attempt - 1)| <= |job.log|
    ensures job.log[|LostAttempts(job.attempt - 1)|..] == CLEAR[..k]
  {
    hide LostAttempts;
    assert CLEAR[..0] == [];
  }

  lemma SubmitKeepsShape(w: World, job: Job, m: Move)
    requires InShape(job) && !m.dies && job.pc == Submit && !w.dryRun
    ensures InShape(MovedJob(w, job, m))
  {
    hide SubmitOrder;
    var sent := SubmitOrder(m.raws, 0);
    SentKeepsShape(job, sent.0, sent.1);
  }

  lemma SentKeepsShape(job: Job, calls: nat, response: Response)
    requires InShape(job) && job.pc == Submit && 1 <= calls <= MAX_ATTEMPTS
    requires response.ConnectionLost? ==> calls == MAX_ATTEMPTS
    ensures InShape(AfterSubmit(job, calls, response))
  {
    hide CLEAR, Attempted, LostAttempts;
    ClearPrefixes();
    var event := Sent(calls, response);
    ObserveExtends(job, event, Done);
    assert CLEAR[..4] == CLEAR;
    OneMoreEvent(4, event);
    var after := AfterSubmit(job, calls, response);
    if after.pc == FirstRead {
      OneMoreLost(job.attempt);
      assert after.log == LostAttempts(job.attempt - 1) + LOST;
    }
  }

  lemma OneMoreLost(n: nat)
    requires n > 0
    ensures LostAttempts(n) == LostAttempts(n - 1) + LOST
  {
  }

  lemma ShapeIsAttempted(pc: Pc, events: seq<Event>)
    requires AttemptSoFar(pc, events)
    ensures Attempted(events)
  {
  }

  /** A job that ends early leaves an attempt behind. */
  lemma EndingKeepsShape(job: Job, pc: Pc)
    requires InShape(job) && (pc.Last? || pc.Done?)
    ensures InShape(job.(pc := pc))
  {
    hide LostAttempts;
    ShapeIsAttempted(job.pc, job.log[|LostAttempts(job.attempt - 1)|..]);
  }

  lemma MoveKeepsShape(w: World, job: Job, m: Move)
    requires InShape(job)
    ensures InShape(MovedJob(w, job, m))
  {
    hide LostAttempts, CLEAR, Attempted;
    EndingKeepsShape(job, Done);
    EndingKeepsShape(job, Last(Failed));
    EndingKeepsShape(job, Last(DryRun));
    if job.pc in {FirstRead, KillCheck, BreakerCheck, SecondRead} && !m.dies && !m.infraFails {
      CheckKeepsShape(w, job, m);
    } else if job.pc == Submit && !m.dies && !w.dryRun {
      SubmitKeepsShape(w, job, m);
    }
  }

  lemma NextKeepsShape(w: World, step: Step)
    requires AllInShape(w)
    ensures AllInShape(Next(w, step))
  {
    hide MovedJob, RowsAfterMove;
    if step.JobMoves? && step.j in w.jobs {
      MoveKeepsShape(w, w.jobs[step.j], step.move);
    }
  }

  lemma {:induction false} RunKeepsShape(w: World, steps: seq<Step>)
    requires AllInShape(w)
    ensures AllInShape(Run(w, steps))
    decreases |steps|
  {
    hide Next, InShape;
    if steps != [] {
      RunKeepsShape(w, steps[..|steps| - 1]);
      NextKeepsShape(Run(w, steps[..|steps| - 1]), steps[|steps| - 1]);
    }
  }

  function Sends(log: seq<Event>): nat
    decreases |log|
  {
    if log == [] then 0 else Sends(log[..|log| - 1]) + if log[|log| - 1].Sent? then 1 else 0
  }

  function RawCalls(log: seq<Event>): nat
    decreases |log|
  {
    if log == [] then 0
    else RawCalls(log[..|log| - 1]) + match log[|log| - 1] case Sent(rawCalls, _) => rawCalls case _ => 0
  }

  /** Every submission follows, within its attempt, an uncanceled read, a clear kill switch, a clear
      breaker and a second uncanceled read; all but the last submission ended in a connection error
      of three raw calls, so only the last can have returned normally. */
  ghost predicate Guarded(log: seq<Event>) {
    && (forall i :: 0 <= i < |log| && log[i].Sent? ==> 4 <= i && log[i - 4..i] == CLEAR)
    && (forall i :: 0 <= i < |log| - 1 && log[i].Sent? ==> log[i] == Sent(MAX_ATTEMPTS, ConnectionLost))
  }

  lemma {:induction false} SendsConcat(a: seq<Event>, b: seq<Event>)
    ensures Sends(a + b) == Sends(a) + Sends(b)
    ensures RawCalls(a + b) == RawCalls(a) + RawCalls(b)
    decreases |b|
  {
    if b == [] {
      assert a + b == a;
    } else {
      SendsConcat(a, b[..|b| - 1]);
      assert (a + b)[..|a + b| - 1] == a + b[..|b| - 1];
    }
  }

  lemma ClearHasNoSends(k: nat)
    requires k <= 4
    ensures Sends(CLEAR[..k]) == RawCalls(CLEAR[..k]) == 0
    decreases k
  {
    if k > 0 {
      ClearHasNoSends(k - 1);
      assert CLEAR[..k][..k - 1] == CLEAR[..k - 1];
    }
  }

  lemma AttemptIsGuarded(events: seq<Event>)
    requires Attempted(events)
    ensures Sends(events) <= 1 && RawCalls(events) <= 3 && Guarded(events)
  {
    if events != [] {
      var k := |events| - 1;
      ClearHasNoSends(k);
      assert events[..k] == CLEAR[..k];
      if events[k].Sent? {
        assert events[0..4] == CLEAR;
      }
      forall i | 0 <= i < k
        ensures !events[i].Sent?
      {
        assert events[i] == CLEAR[..k][i];
      }
    }
  }

  /** After attempts that all lost the connection, another attempt leaves the log guarded. */
  lemma {:induction false} LostAttemptsAreGuarded(n: nat, events: seq<Event>)
    requires Attempted(events)
    ensures |LostAttempts(n)| == 5 * n
    ensures Sends(LostAttempts(n)) == n && RawCalls(LostAttempts(n)) == 3 * n
    ensures Guarded(LostAttempts(n) + events)
  {
    hide Attempted, CLEAR;
    AttemptIsGuarded(events);
    LostIsAttempted();
    if n == 0 {
      assert LostAttempts(0) + events == events;
    } else {
      LostAttemptsAreGuarded(n - 1, LOST);
      SendsConcat(LostAttempts(n - 1), LOST);
      GuardedConcat(LostAttempts(n), events);
    }
  }

  lemma LostIsAttempted()
    ensures Attempted(LOST) && |LOST| == 5 && Sends(LOST) == 1 && RawCalls(LOST) == 3
  {
    assert CLEAR[..4] == CLEAR;
    OneMoreEvent(4, Sent(MAX_ATTEMPTS, ConnectionLost));
    ClearHasNoSends(4);
    assert LOST[..4] == CLEAR;
  }

  lemma GuardedConcat(a: seq<Event>, b: seq<Event>)
    requires Guarded(a) && Guarded(b)
    requires a != [] && (a[|a| - 1].Sent? ==> a[|a| - 1] == Sent(MAX_ATTEMPTS, ConnectionLost))
    ensures Guarded(a + b)
  {
  }

  ghost predicate NoJobs(w: World) {
    w.jobs == map[]
  }

  /** Over every run: a job submits at most three times, in at most nine raw broker calls, only the
      last submission may return normally, and each is guarded in its own attempt. */
  lemma EverySubmissionIsGuarded(w: World, steps: seq<Step>, j: nat)
    requires NoJobs(w) && j in Run(w, steps).jobs
    ensures var log := Run(w, steps).jobs[j].log;
      Guarded(log) && Sends(log) <= MAX_ATTEMPTS && RawCalls(log) <= MAX_ATTEMPTS * MAX_ATTEMPTS
  {
    hide Next, Attempted, Guarded, AttemptSoFar;
    RunKeepsShape(w, steps);
    var job := Run(w, steps).jobs[j];
    var n := job.attempt - 1;
    var events := job.log[|LostAttempts(n)|..];
    assert job.log == LostAttempts(n) + events;
    ShapeIsAttempted(job.pc, events);
    LostAttemptsAreGuarded(n, events);
    AttemptIsGuarded(events);
    SendsConcat(LostAttempts(n), events);
  }

  // ---------------------------------------------------------------------------
  // Cancellation
  // ---------------------------------------------------------------------------

  /** Other writers may do what they like to the row, except turn `canceled` into something else. */
  predicate KeepsCanceled(w: World, step: Step, j: nat, rowId: string) {
    match step
    case OtherWriter(id, row) => id == rowId && IsCanceled(w.rows, rowId) ==> row.status == Canceled
    case JobMoves(k, _) => k == j || (IsCanceled(w.rows, rowId) ==> IsCanceled(Next(w, step).rows, rowId))
    case Schedule(k, id) => k == j ==> id == rowId
    case _ => true
  }

  ghost predicate CancelIsKept(w: World, steps: seq<Step>, j: nat, rowId: string)
    decreases |steps|
  {
    steps != [] ==>
      && CancelIsKept(w, steps[..|steps| - 1], j, rowId)
      && KeepsCanceled(Run(w, steps[..|steps| - 1]), steps[|steps| - 1], j, rowId)
  }

  /** Nothing but writes and the end is left to do. */
  predicate WindingDown(pc: Pc) {
    pc.Block? || pc.Confirm? || pc.ConfirmFailed? || pc.Last? || pc.Done?
  }

  function SendsOf(w: World, j: nat): nat {
    if j in w.jobs then Sends(w.jobs[j].log) else 0
  }

  function CallsOf(w: World, j: nat): nat {
    if j in w.jobs then RawCalls(w.jobs[j].log) else 0
  }

  predicate AtSubmit(w: World, j: nat) {
    j in w.jobs && w.jobs[j].pc == Submit && !w.dryRun
  }

  /** Once canceled, the row stays canceled until its job is winding down, and only a job that was
      past its second read has anything left to send. */
  predicate Stopping(w: World, j: nat, rowId: string, sends: nat, calls: nat) {
    && rowId in w.rows
    && (j in w.jobs ==> w.jobs[j].rowId == rowId)
    && (w.rows[rowId].status == Canceled || (j in w.jobs && WindingDown(w.jobs[j].pc)))
    && SendsOf(w, j) + (if AtSubmit(w, j) then 1 else 0) <= sends
    && CallsOf(w, j) + (if AtSubmit(w, j) then MAX_ATTEMPTS else 0) <= calls
  }

  lemma SubmitKeepsStopping(job: Job, m: Move)
    requires job.pc == Submit
    ensures var sent := SubmitOrder(m.raws, 0); var after := AfterSubmit(job, sent.0, sent.1);
      && after.rowId == job.rowId && after.pc != Submit
      && Sends(after.log) == Sends(job.log) + 1 && RawCalls(after.log) <= RawCalls(job.log) + MAX_ATTEMPTS
  {
  }

  lemma CheckSendsNothing(w: World, job: Job, m: Move)
    requires job.pc != Submit || w.dryRun || m.dies
    ensures var after := MovedJob(w, job, m);
      after.rowId == job.rowId && Sends(after.log) == Sends(job.log) && RawCalls(after.log) == RawCalls(job.log)
    ensures MovedJob(w, job, m).pc == Submit ==> !IsCanceled(w.rows, job.rowId)
    ensures WindingDown(job.pc) ==> WindingDown(MovedJob(w, job, m).pc)
  {
  }

  lemma WritesOnlyOwnRow(w: World, job: Job, m: Move)
    ensures var rows := RowsAfterMove(w, job, m);
      && rows.Keys == w.rows.Keys
      && (forall id :: id in w.rows && id != job.rowId ==> rows[id] == w.rows[id])
      && (rows == w.rows || WindingDown(job.pc))
  {
    hide Cas, JobUpdate;
  }

  lemma MoveKeepsStopping(w: World, m: Move, j: nat, rowId: string, sends: nat, calls: nat)
    requires j in w.jobs && Stopping(w, j, rowId, sends, calls)
    ensures Stopping(Next(w, JobMoves(j, m)), j, rowId, sends, calls)
  {
    hide MovedJob, RowsAfterMove, Sends, RawCalls;
    var job := w.jobs[j];
    WritesOnlyOwnRow(w, job, m);
    if job.pc == Submit && !w.dryRun && !m.dies {
      assert MovedJob(w, job, m) == var sent := SubmitOrder(m.raws, 0); AfterSubmit(job, sent.0, sent.1) by {
        SubmitMoves(w, job, m);
      }
      SubmitKeepsStopping(job, m);
    } else {
      CheckSendsNothing(w, job, m);
    }
  }

  lemma SubmitMoves(w: World, job: Job, m: Move)
    requires job.pc == Submit && !w.dryRun && !m.dies
    ensures MovedJob(w, job, m) == var sent := SubmitOrder(m.raws, 0); AfterSubmit(job, sent.0, sent.1)
  {
    hide SubmitOrder, AfterSubmit;
  }

  lemma NextKeepsStopping(w: World, step: Step, j: nat, rowId: string, sends: nat, calls: nat)
    requires Stopping(w, j, rowId, sends, calls) && KeepsCanceled(w, step, j, rowId)
    ensures Stopping(Next(w, step), j, rowId, sends, calls)
  {
    hide JobUpdate, Cas, MovedJob, RowsAfterMove, Sends, RawCalls;
    match step
    case JobMoves(k, m) =>
      if k == j && j in w.jobs {
        MoveKeepsStopping(w, m, j, rowId, sends, calls);
      } else if k in w.jobs {
        WritesOnlyOwnRow(w, w.jobs[k], m);
      }
    case Schedule(k, id) =>
      SendsOfNothing();
    case _ =>
  }

  lemma SendsOfNothing()
    ensures Sends([]) == RawCalls([]) == 0
  {
  }

  lemma {:induction false} RunKeepsStopping(w: World, steps: seq<Step>, j: nat, rowId: string, sends: nat, calls: nat)
    requires Stopping(w, j, rowId, sends, calls) && CancelIsKept(w, steps, j, rowId)
    ensures Stopping(Run(w, steps), j, rowId, sends, calls)
    decreases |steps|
  {
    hide Next, Stopping, KeepsCanceled;
    if steps != [] {
      RunKeepsStopping(w, steps[..|steps| - 1], j, rowId, sends, calls);
      NextKeepsStopping(Run(w, steps[..|steps| - 1]), steps[|steps| - 1], j, rowId, sends, calls);
    }
  }

  /** Once a cancel has committed on a pending slice, and while no other writer turns `canceled` into
      something else, the job submits nothing more -- even after its own blocked or failed write has
      replaced `canceled` -- unless it was past its second read, and then at most once. */
  lemma CanceledSliceStops(w: World, parentOrderId: string, steps: seq<Step>, j: nat, rowId: string)
    requires rowId in w.rows && IsPendingSliceOf(w.rows[rowId], parentOrderId)
    requires j in w.jobs ==> w.jobs[j].rowId == rowId
    requires CancelIsKept(Next(w, CancelSlices(parentOrderId)), steps, j, rowId)
    ensures var after := Run(Next(w, CancelSlices(parentOrderId)), steps);
      && SendsOf(after, j) <= SendsOf(w, j) + (if AtSubmit(w, j) then 1 else 0)
      && CallsOf(after, j) <= CallsOf(w, j) + (if AtSubmit(w, j) then MAX_ATTEMPTS else 0)
  {
    hide Run, CancelIsKept, Sends, RawCalls;
    RunKeepsStopping(Next(w, CancelSlices(parentOrderId)), steps, j, rowId,
                     SendsOf(w, j) + (if AtSubmit(w, j) then 1 else 0),
                     CallsOf(w, j) + (if AtSubmit(w, j) then MAX_ATTEMPTS else 0));
  }

  lemma SubmitsOnceMore(w: World, j: nat, rowId: string)
    requires AtSubmit(w, j) && w.jobs[j].rowId == rowId
    ensures var steps := [JobMoves(j, MoveAt(0, Refused))];
      && CancelIsKept(w, steps, j, rowId) && SendsOf(Run(w, steps), j) == SendsOf(w, j) + 1
      && j in Run(w, steps).jobs && Run(w, steps).jobs[j].rowId == rowId
  {
  }

  /** Past its second read, or short of it with work left and the row not canceled. */
  predicate CanSubmit(w: World, j: nat)
    requires j in w.jobs
  {
    var job := w.jobs[j];
    !w.dryRun && (job.pc == Submit || (!WindingDown(job.pc) && !IsCanceled(w.rows, job.rowId)))
  }

  lemma {:induction false} RunFirst(w: World, step: Step, rest: seq<Step>)
    ensures Run(w, [step] + rest) == Run(Next(w, step), rest)
    decreases |rest|
  {
    hide Next;
    if rest == [] {
      assert [step] + rest == [] + [step];
      RunOneMore(w, [], step);
    } else {
      var n := |rest| - 1;
      assert ([step] + rest)[..n + 1] == [step] + rest[..n];
      RunFirst(w, step, rest[..n]);
    }
  }

  lemma {:induction false} KeptFirst(w: World, step: Step, rest: seq<Step>, j: nat, rowId: string)
    requires KeepsCanceled(w, step, j, rowId) && CancelIsKept(Next(w, step), rest, j, rowId)
    ensures CancelIsKept(w, [step] + rest, j, rowId)
    decreases |rest|
  {
    hide Next, KeepsCanceled;
    if rest == [] {
      assert [step] + rest == [step] && [step][..0] == [];
      assert CancelIsKept(w, [], j, rowId);
    } else {
      var n := |rest| - 1;
      assert ([step] + rest)[..n + 1] == [step] + rest[..n];
      KeptFirst(w, step, rest[..n], j, rowId);
      RunFirst(w, step, rest[..n]);
    }
  }

  function MovesToSubmit(pc: Pc): nat {
    match pc
    case Waiting => 5
    case FirstRead => 4
    case KillCheck => 3
    case BreakerCheck => 2
    case SecondRead => 1
    case _ => 0
  }

  function StepForward(w: World, j: nat): Step
    requires j in w.jobs
  {
    if w.jobs[j].pc == Waiting then Fire(j) else JobMoves(j, MoveAt(0, Refused))
  }

  /** A job's own progress. */
  predicate OwnSteps(steps: seq<Step>, j: nat) {
    forall k :: 0 <= k < |steps| ==> steps[k] == Fire(j) || (steps[k].JobMoves? && steps[k].j == j)
  }

  lemma ForwardComesCloser(w: World, j: nat)
    requires j in w.jobs && CanSubmit(w, j) && w.jobs[j].pc != Submit && !w.killSwitch && !w.breaker
    ensures var next := Next(w, StepForward(w, j));
      && j in next.jobs && CanSubmit(next, j) && !next.killSwitch && !next.breaker
      && next.jobs[j].rowId == w.jobs[j].rowId
      && MovesToSubmit(next.jobs[j].pc) < MovesToSubmit(w.jobs[j].pc)
      && SendsOf(next, j) == SendsOf(w, j)
    ensures KeepsCanceled(w, StepForward(w, j), j, w.jobs[j].rowId) && OwnSteps([StepForward(w, j)], j)
  {
    hide Sends, SubmitOrder, AfterSubmit, Write;
    if w.jobs[j].pc != Waiting {
      CheckSendsNothing(w, w.jobs[j], MoveAt(0, Refused));
    }
  }

  /** With the switches off the job can go on to its submission by its own moves. */
  lemma {:induction false} GoesOnToSubmit(w: World, j: nat) returns (steps: seq<Step>)
    requires j in w.jobs && CanSubmit(w, j) && !w.killSwitch && !w.breaker
    ensures CancelIsKept(w, steps, j, w.jobs[j].rowId) && SendsOf(Run(w, steps), j) > SendsOf(w, j)
    ensures OwnSteps(steps, j) && j in Run(w, steps).jobs && Run(w, steps).jobs[j].rowId == w.jobs[j].rowId
    decreases MovesToSubmit(w.jobs[j].pc)
  {
    hide Next, Run, CancelIsKept, KeepsCanceled, SendsOf, StepForward;
    if w.jobs[j].pc == Submit {
      SubmitsOnceMore(w, j, w.jobs[j].rowId);
      steps := [JobMoves(j, MoveAt(0, Refused))];
    } else {
      ForwardComesCloser(w, j);
      var next := Next(w, StepForward(w, j));
      var rest := GoesOnToSubmit(next, j);
      RunFirst(w, StepForward(w, j), rest);
      KeptFirst(w, StepForward(w, j), rest, j, w.jobs[j].rowId);
      assert OwnSteps([StepForward(w, j)] + rest, j);
      steps := [StepForward(w, j)] + rest;
    }
  }

  lemma {:induction false} DryRunSendsNothing(w: World, steps: seq<Step>, j: nat)
    requires w.dryRun
    ensures Run(w, steps).dryRun && SendsOf(Run(w, steps), j) <= SendsOf(w, j)
    decreases |steps|
  {
    hide MovedJob, RowsAfterMove, Sends;
    if steps != [] {
      var n := |steps| - 1;
      DryRunSendsNothing(w, steps[..n], j);
      var before := Run(w, steps[..n]);
      if steps[n].JobMoves? && steps[n].j in before.jobs {
        CheckSendsNothing(before, before.jobs[steps[n].j], steps[n].move);
      }
      SendsOfNothing();
    }
  }

  /** From any state, a job can still submit while no other writer reopens a canceled row if and only
      if it is past its second read, or has not come that far and its row is not canceled. */
  lemma CanStillSubmitIff(w: World, j: nat)
    requires j in w.jobs && w.jobs[j].rowId in w.rows
    ensures CanSubmit(w, j) <==>
      exists steps :: CancelIsKept(w, steps, j, w.jobs[j].rowId) && SendsOf(Run(w, steps), j) > SendsOf(w, j)
  {
    hide Next, Run, CancelIsKept, Sends, RawCalls, IsCanceled;
    var rowId := w.jobs[j].rowId;
    if CanSubmit(w, j) {
      var off := SwitchesOff(w, j);
      var rest := GoesOnToSubmit(off, j);
      RunFirst(w, Switches(false, false), rest);
      KeptFirst(w, Switches(false, false), rest, j, rowId);
      var steps := [Switches(false, false)] + rest;
      assert CancelIsKept(w, steps, j, rowId) && SendsOf(Run(w, steps), j) > SendsOf(w, j);
    } else {
      forall steps | CancelIsKept(w, steps, j, rowId)
        ensures SendsOf(Run(w, steps), j) <= SendsOf(w, j)
      {
        if w.dryRun {
          DryRunSendsNothing(w, steps, j);
        } else {
          StoppedJob(w, j);
          RunKeepsStopping(w, steps, j, rowId, SendsOf(w, j), CallsOf(w, j));
        }
      }
    }
  }

  lemma StoppedJob(w: World, j: nat)
    requires j in w.jobs && w.jobs[j].rowId in w.rows && !CanSubmit(w, j) && !w.dryRun
    ensures Stopping(w, j, w.jobs[j].rowId, SendsOf(w, j), CallsOf(w, j))
  {
  }

  lemma SwitchesOff(w: World, j: nat) returns (off: World)
    requires j in w.jobs && CanSubmit(w, j)
    ensures off == Next(w, Switches(false, false)) && !off.killSwitch && !off.breaker
    ensures j in off.jobs && CanSubmit(off, j) && off.jobs[j] == w.jobs[j] && SendsOf(off, j) == SendsOf(w, j)
    ensures KeepsCanceled(w, Switches(false, false), j, w.jobs[j].rowId)
  {
    off := Next(w, Switches(false, false));
  }

  // ---------------------------------------------------------------------------
  // Another writer reopens a canceled slice
  // ---------------------------------------------------------------------------

  function MoveAt(now: int, response: Response): Move {
    AnyMove(now, false, false, [response, response, response], "")
  }

  lemma RunOneMore(w: World, steps: seq<Step>, step: Step)
    ensures Run(w, steps + [step]) == Next(Run(w, steps), step)
  {
    assert (steps + [step])[..|steps|] == steps;
  }

  /** With the switches off and the row not canceled, four moves take a job to its submission. */
  lemma FourChecks(w: World, j: nat)
    requires j in w.jobs && w.jobs[j].pc == FirstRead && !w.killSwitch && !w.breaker
    requires !IsCanceled(w.rows, w.jobs[j].rowId)
    ensures var step := JobMoves(j, MoveAt(0, Refused));
      Next(Next(Next(Next(w, step), step), step), step) ==
        w.(jobs := w.jobs[j := w.jobs[j].(pc := Submit, log := w.jobs[j].log + CLEAR)])
  {
    hide IsCanceled, Write, SubmitOrder, AfterSubmit;
    var step := JobMoves(j, MoveAt(0, Refused));
    var job := w.jobs[j];
    var w1 := Next(w, step);
    assert w1 == w.(jobs := w.jobs[j := job.(pc := KillCheck, log := job.log + [SawRow(false)])]);
    var w2 := Next(w1, step);
    assert w2 == w.(jobs := w.jobs[j := job.(pc := BreakerCheck,
      log := job.log + [SawRow(false)] + [SawKillSwitch(false)])]);
    var w3 := Next(w2, step);
    assert w3 == w.(jobs := w.jobs[j := job.(pc := SecondRead,
      log := job.log + [SawRow(false)] + [SawKillSwitch(false)] + [SawBreaker(false)])]);
    var w4 := Next(w3, step);
    assert job.log + [SawRow(false)] + [SawKillSwitch(false)] + [SawBreaker(false)] + [SawRow(false)] ==
           job.log + CLEAR;
  }

  function ChecksOf(j: nat): seq<Step> {
    var step := JobMoves(j, MoveAt(0, Refused)); [step, step, step, step]
  }

  lemma RunChecks(w: World, steps: seq<Step>, j: nat)
    ensures var step := JobMoves(j, MoveAt(0, Refused));
      Run(w, steps + ChecksOf(j)) == Next(Next(Next(Next(Run(w, steps), step), step), step), step)
  {
    hide Run, Next;
    var step := JobMoves(j, MoveAt(0, Refused));
    RunOneMore(w, steps, step);
    RunOneMore(w, steps + [step], step);
    RunOneMore(w, steps + [step] + [step], step);
    RunOneMore(w, steps + [step] + [step] + [step], step);
    assert steps + [step] + [step] + [step] + [step] == steps + ChecksOf(j);
  }

  lemma RunOne(w: World, step: Step)
    ensures Run(w, [step]) == Next(w, step)
  {
    assert [step][..0] == [];
  }

  /** The submission loses its response, the cancel commits meanwhile, and then a webhook for the
      order the broker did receive reopens the row. */
  function Reopening(row: OrderRow, u: CasUpdate, j: nat): seq<Step>
  {
    [JobMoves(j, MoveAt(0, ConnectionLost)), OtherWriter("slice", Cas(row, u))] + ChecksOf(j) +
    [JobMoves(j, MoveAt(0, Refused))]
  }

  lemma CancelAtSubmit(w: World, row: OrderRow, j: nat)
    requires NoJobs(w) && w.rows == map["slice" := row] && !w.killSwitch && !w.breaker
    requires row.parentOrderId == Some("parent") && row.status == PendingNew
    ensures Run(w, [Schedule(j, "slice"), Fire(j)] + ChecksOf(j) + [CancelSlices("parent")]) ==
      w.(jobs := map[j := Job("slice", Submit, 1, CLEAR)], rows := map["slice" := row.(status := Canceled)])
  {
    hide Run, MovedJob, RowsAfterMove, CLEAR, ChecksOf;
    var start := [Schedule(j, "slice"), Fire(j)];
    RunOne(w, Schedule(j, "slice"));
    RunOneMore(w, [Schedule(j, "slice")], Fire(j));
    assert [Schedule(j, "slice")] + [Fire(j)] == start;
    var fired := w.(jobs := map[j := Job("slice", FirstRead, 1, [])]);
    assert Run(w, start) == fired;
    RunChecks(w, start, j);
    FourChecks(fired, j);
    assert [] + CLEAR == CLEAR;
    RunOneMore(w, start + ChecksOf(j), CancelSlices("parent"));
    CancelOne(row);
  }

  lemma CancelOne(row: OrderRow)
    requires row.parentOrderId == Some("parent") && row.status == PendingNew
    ensures CancelPending(map["slice" := row], "parent") == map["slice" := row.(status := Canceled)]
  {
  }

  /** A writer that reopens the row makes the retry submit again after the cancel. */
  lemma WebhookReopensACanceledSlice(w: World, row: OrderRow, u: CasUpdate, j: nat)
    requires NoJobs(w) && w.rows == map["slice" := row] && !w.killSwitch && !w.breaker && !w.dryRun
    requires row.parentOrderId == Some("parent") && row.status == PendingNew
    requires row.lastUpdatedAt.None? && !row.isTerminal && u.status != Canceled
    ensures var atCancel := Run(w, [Schedule(j, "slice"), Fire(j)] + ChecksOf(j) + [CancelSlices("parent")]);
      && atCancel.rows == map["slice" := row.(status := Canceled)]
      && SendsOf(atCancel, j) == 0
      && SendsOf(Run(atCancel, Reopening(row.(status := Canceled), u, j)), j) == 2
  {
    hide Run, CLEAR, Reopening, ChecksOf, Cas;
    CancelAtSubmit(w, row, j);
    SubmitsAgain(w.(jobs := map[j := Job("slice", Submit, 1, CLEAR)], rows := map["slice" := row.(status := Canceled)]),
                 row.(status := Canceled), u, j);
  }

  lemma SubmitsAgain(w: World, row: OrderRow, u: CasUpdate, j: nat)
    requires !w.killSwitch && !w.breaker && !w.dryRun
    requires w.jobs == map[j := Job("slice", Submit, 1, CLEAR)] && w.rows == map["slice" := row]
    requires row.lastUpdatedAt.None? && !row.isTerminal && u.status != Canceled
    ensures SendsOf(w, j) == 0
    ensures SendsOf(Run(w, Reopening(row, u, j)), j) == 2
  {
    hide Run, Sends, CLEAR;
    var lost := JobMoves(j, MoveAt(0, ConnectionLost));
    var last := JobMoves(j, MoveAt(0, Refused));
    var webhook := OtherWriter("slice", Cas(row, u));
    RunOne(w, lost);
    RunOneMore(w, [lost], webhook);
    assert [lost] + [webhook] == [lost, webhook];
    SubmitMoves(w, w.jobs[j], lost.move);
    var reopened := Run(w, [lost, webhook]);
    assert reopened == w.(jobs := map[j := Job("slice", FirstRead, 2, CLEAR + [Sent(3, ConnectionLost)])],
                          rows := map["slice" := Cas(row, u)]);
    RunChecks(w, [lost, webhook], j);
    FourChecks(reopened, j);
    RunOneMore(w, [lost, webhook] + ChecksOf(j), last);
    var ready := Run(w, [lost, webhook] + ChecksOf(j));
    SubmitMoves(ready, ready.jobs[j], last.move);
    SubmitKeepsStopping(ready.jobs[j], last.move);
    CountSends();
  }

  lemma CountSends()
    ensures Sends(CLEAR) == 0 && Sends(CLEAR + [Sent(3, ConnectionLost)] + CLEAR) == 1
  {
    assert CLEAR[..4] == CLEAR;
    ClearHasNoSends(4);
    LostIsAttempted();
    SendsConcat(LOST, CLEAR);
  }
}
