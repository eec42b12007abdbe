/** Initialisation and recovery of the safety components, failing closed. */
module ComponentRecovery {
  import opened Base

  type Instance = nat

  datatype Kind = KillSwitch | CircuitBreaker | PositionReservation

  /** What a factory call does; an uncaught error leaves the caller at once. */
  datatype Factory = Gives(instance: Instance) | GivesNone | FactoryFails | FactoryUncaught

  /** What a health check does: is_engaged, is_tripped, or the Redis health check. Only the last can
      report ill health without raising. */
  datatype Check = Passes | Unhealthy | CheckFails | CheckUncaught

  /** A call returns, or an uncaught error passes through it. */
  datatype Uncaught = Uncaught

  /** One component: its instance, its flag, and the instance whose most recent check passed. */
  datatype Status = Status(instance: Option<Instance>, unavailable: bool, checked: Option<Instance>)

  /** A cleared flag means a present instance whose last check passed. */
  predicate FailsClosed(s: Status) {
    !s.unavailable ==> s.instance.Some? && s.checked == s.instance
  }

  /** What needs_recovery takes for healthy: the flag is clear and the instance present. */
  predicate Available(s: Status) {
    !s.unavailable && s.instance.Some?
  }

  function AfterCheck(s: Status, check: Check): Status {
    match check
    case Passes => s.(unavailable := false, checked := s.instance)
    case Unhealthy => s.(unavailable := true, checked := None)
    case CheckFails => s.(unavailable := true, checked := None)
    case CheckUncaught => s.(checked := None)
  }

  /** _recover_*: builds a missing instance, then checks whatever instance there is. */
  function Recovered(s: Status, factory: Option<Factory>, check: Check): Status {
    if s.instance.None? && factory.Some? then
      match factory.value
      case Gives(i) => AfterCheck(s.(instance := Some(i)), check)
      case GivesNone => s.(unavailable := true)
      case FactoryFails => s.(unavailable := true)
      case FactoryUncaught => s
    else if s.instance.Some? then AfterCheck(s, check)
    else s.(unavailable := true)
  }

  /** The calls of _recover_* that an uncaught error leaves. */
  predicate RaisesOut(s: Status, factory: Option<Factory>, check: Check) {
    if s.instance.None? then
      && factory.Some?
      && (factory.value.FactoryUncaught? || (factory.value.Gives? && check.CheckUncaught?))
    else check.CheckUncaught?
  }

  /** An instance that recovery can use: the present one, or else the factory's. */
  function Candidate(instance: Option<Instance>, factory: Option<Factory>): Option<Instance> {
    if instance.Some? then instance
    else if factory.Some? && factory.value.Gives? then Some(factory.value.instance)
    else None
  }

  /** initialize_*: a fresh instance replaces the old one unless its check raises out of the call;
      for the position reservation a raising check keeps the old one too. */
  function Initialized(s: Status, kind: Kind, hasRedis: bool, factory: Factory, check: Check): Status {
    if !hasRedis then s.(unavailable := true)
    else
      match factory
      case Gives(i) =>
        if check.CheckUncaught? then s
        else if check.CheckFails? && kind == PositionReservation then s.(unavailable := true)
        else AfterCheck(s.(instance := Some(i)), check)
      case GivesNone => s.(unavailable := true)
      case FactoryFails => s.(unavailable := true)
      case FactoryUncaught => s
  }

  class Component {
    const kind: Kind
    var instance: Option<Instance>
    var unavailable: bool
    ghost var checked: Option<Instance>

    ghost function Now(): Status
      reads this
    {
      Status(instance, unavailable, checked)
    }

    constructor (kind: Kind)
      ensures this.kind == kind && Now() == Status(None, true, None)
    {
      this.kind := kind;
      instance, unavailable, checked := None, true, None;
    }

    method SetUnavailable(value: bool)
      modifies this
      ensures Now() == old(Now()).(unavailable := value)
    {
      unavailable := value;
    }

    /** The property setter: it takes any instance and leaves the flag alone. */
    method SetInstance(value: Option<Instance>)
      modifies this
      ensures Now() == old(Now()).(instance := value)
    {
      instance := value;
    }

    method Recover(factory: Option<Factory>, check: Check) returns (r: Result<bool, Uncaught>)
      modifies this
      ensures r.Err? <==> RaisesOut(old(Now()), factory, check)
      ensures r == Ok(true) <==> Candidate(old(instance), factory).Some? && check == Passes
      ensures r == Ok(true) ==> !unavailable && instance == Candidate(old(instance), factory) && checked == instance
      ensures unavailable == if r.Err? then old(unavailable) else r == Ok(false)
      ensures instance == Candidate(old(instance), factory)
      ensures Now() == Recovered(old(Now()), factory, check)
      ensures r.Ok? ==> (r.value <==> Available(Now()))
      ensures r == Ok(true) ==> FailsClosed(Now())
    {
      if instance.None? && factory.Some? {
        match factory.value
        case Gives(i) => instance := Some(i);
        case GivesNone =>
        case FactoryFails => unavailable := true; return Ok(false);
        case FactoryUncaught => return Err(Uncaught);
      }
      if instance.None? {
        unavailable := true;
        return Ok(false);
      }
      checked := None;
      match check
      case Passes =>
        checked := instance;
        unavailable := false;
        return Ok(true);
      case Unhealthy => unavailable := true; return Ok(false);
      case CheckFails => unavailable := true; return Ok(false);
      case CheckUncaught => return Err(Uncaught);
    }

    method RecoverIfNeeded(w: ComponentWorld) returns (r: Result<bool, Uncaught>)
      modifies this
      ensures Now() == RecoverStep(kind, old(Now()), w)
      ensures r.Err? <==> RecoverRaises(old(Now()), w)
      ensures r == Ok(true) ==> Available(Now())
      ensures r.Ok? ==> (Available(Now()) <==> Available(old(Now())) || Restores(old(Now()), w))
      ensures r == Ok(true) <==> ComesBack(old(Now()), w)
    {
      if !unavailable && instance.Some? {
        return Ok(false);
      }
      r := Recover(w.factory, w.check);
    }

    method Initialize(hasRedis: bool, factory: Factory, check: Check) returns (r: Result<Option<Instance>, Uncaught>)
      modifies this
      ensures Now() == Initialized(old(Now()), kind, hasRedis, factory, check)
      ensures r.Ok? ==> (r.value.Some? <==> !unavailable)
      ensures r.Ok? && r.value.Some? <==> hasRedis && factory.Gives? && check == Passes
      ensures r.Err? <==> hasRedis && (factory.FactoryUncaught? || (factory.Gives? && check.CheckUncaught?))
      ensures instance ==
              if hasRedis && factory.Gives? && !check.CheckUncaught? &&
                 !(check.CheckFails? && kind == PositionReservation)
              then Some(factory.instance) else old(instance)
      ensures unavailable ==
              if r.Err? then old(unavailable) else !(hasRedis && factory.Gives? && check == Passes)
      ensures r.Ok? && r.value.Some? ==> r.value == instance && FailsClosed(Now())
    {
      if !hasRedis {
        unavailable := true;
        return Ok(None);
      }
      match factory
      case GivesNone => unavailable := true; return Ok(None);
      case FactoryFails => unavailable := true; return Ok(None);
      case FactoryUncaught => return Err(Uncaught);
      case Gives(i) =>
        if check.CheckUncaught? {
          return Err(Uncaught);
        }
        if check.CheckFails? && kind == PositionReservation {
          unavailable := true;
          return Ok(None);
        }
        instance := Some(i);
        if check != Passes {
          checked := None;
          unavailable := true;
          return Ok(None);
        }
        checked := instance;
        unavailable := false;
        return Ok(instance);
    }
  }

  // ---------------------------------------------------------------------------
  // Any sequence of calls
  // ---------------------------------------------------------------------------

  datatype Call =
    | CallInitialize(hasRedis: bool, factory: Factory, check: Check)
    | CallRecover(maybeFactory: Option<Factory>, check: Check)
    | CallSetUnavailable(flag: bool)
    | CallSetInstance(value: Option<Instance>)

  /** attempt_recovery calls _recover_* only when the flag is set or the instance missing. */
  function Step(s: Status, kind: Kind, call: Call): Status {
    match call
    case CallInitialize(hasRedis, factory, check) => Initialized(s, kind, hasRedis, factory, check)
    case CallRecover(factory, check) => if Available(s) then s else Recovered(s, factory, check)
    case CallSetUnavailable(flag) => s.(unavailable := flag)
    case CallSetInstance(value) => s.(instance := value)
  }

  function RunCalls(s: Status, kind: Kind, calls: seq<Call>): Status
    decreases |calls|
  {
    if calls == [] then s else Step(RunCalls(s, kind, calls[..|calls| - 1]), kind, calls[|calls| - 1])
  }

  const Start := Status(None, true, None)

  /** A setter that installs an instance or clears the flag. */
  predicate SetsFree(call: Call) {
    call.CallSetInstance? || (call.CallSetUnavailable? && !call.flag)
  }

  /** From start-up, over any initialise, recover and mark-unavailable calls with failing factories and
      checks, an available component's last check passed -- and the flag alone says as much. */
  lemma {:induction false} EveryRunFailsClosed(kind: Kind, calls: seq<Call>)
    requires forall k :: 0 <= k < |calls| ==> !SetsFree(calls[k])
    ensures FailsClosed(RunCalls(Start, kind, calls))
    decreases |calls|
  {
    if calls != [] {
      EveryRunFailsClosed(kind, calls[..|calls| - 1]);
    }
  }

  /** What the rest of the gateway relies on: a component that looks healthy passed its last check. */
  predicate Trusted(s: Status) {
    Available(s) ==> s.checked == s.instance
  }

  /** An uncaught error while recovering an instance that was cleared under a clear flag. */
  predicate FailsOpen(s: Status, call: Call) {
    && call.CallRecover? && s.instance.None? && !s.unavailable
    && call.maybeFactory.Some? && call.maybeFactory.value.Gives? && call.check.CheckUncaught?
  }

  /** The calls that make an unchecked instance look healthy: that recovery, installing an instance other
      than the checked one under a clear flag, and clearing the flag over such an instance. */
  predicate Breaks(s: Status, call: Call) {
    || FailsOpen(s, call)
    || (call.CallSetInstance? && call.value.Some? && !s.unavailable && s.checked != call.value)
    || (call.CallSetUnavailable? && !call.flag && s.instance.Some? && s.checked != s.instance)
  }

  lemma BreaksExactly(s: Status, kind: Kind, call: Call)
    requires Trusted(s)
    ensures Trusted(Step(s, kind, call)) <==> !Breaks(s, call)
  {
  }

  predicate TrustedThroughout(kind: Kind, calls: seq<Call>) {
    forall k :: 0 <= k <= |calls| ==> Trusted(RunCalls(Start, kind, calls[..k]))
  }

  predicate NeverBreaks(kind: Kind, calls: seq<Call>) {
    forall k :: 0 <= k < |calls| ==> !Breaks(RunCalls(Start, kind, calls[..k]), calls[k])
  }

  lemma RunCallsAppend(kind: Kind, calls: seq<Call>, n: nat)
    requires n < |calls|
    ensures RunCalls(Start, kind, calls[..n + 1]) == Step(RunCalls(Start, kind, calls[..n]), kind, calls[n])
  {
    hide Step;
    assert calls[..n + 1][..n] == calls[..n];
  }

  lemma {:induction false} TrustedUpTo(kind: Kind, calls: seq<Call>, n: nat)
    requires n <= |calls| && NeverBreaks(kind, calls)
    ensures Trusted(RunCalls(Start, kind, calls[..n]))
  {
    if n > 0 {
      hide Breaks, Step, Trusted, RunCalls;
      TrustedUpTo(kind, calls, n - 1);
      BreaksExactly(RunCalls(Start, kind, calls[..n - 1]), kind, calls[n - 1]);
      RunCallsAppend(kind, calls, n - 1);
    }
  }

  /** Over any calls of all four kinds. */
  lemma TrustedThroughoutIff(kind: Kind, calls: seq<Call>)
    ensures TrustedThroughout(kind, calls) <==> NeverBreaks(kind, calls)
  {
    hide Breaks, Step, Trusted, RunCalls;
    if NeverBreaks(kind, calls) {
      forall n | 0 <= n <= |calls| ensures Trusted(RunCalls(Start, kind, calls[..n])) {
        TrustedUpTo(kind, calls, n);
      }
    }
    if TrustedThroughout(kind, calls) {
      forall n | 0 <= n < |calls| ensures !Breaks(RunCalls(Start, kind, calls[..n]), calls[n]) {
        BreaksExactly(RunCalls(Start, kind, calls[..n]), kind, calls[n]);
        RunCallsAppend(kind, calls, n);
      }
    }
  }

  /** A run of each kind: a cleared instance recovered by a check that raises out of the call, another
      instance installed after a passed check, and the flag cleared over an instance never checked. */
  lemma UncheckedInstances(kind: Kind, i: Instance, j: Instance)
    requires i != j
    ensures var calls := [CallInitialize(true, Gives(i), Passes), CallSetInstance(None),
                          CallRecover(Some(Gives(j)), CheckUncaught)];
            RunCalls(Start, kind, calls) == Status(Some(j), false, None)
    ensures var calls := [CallInitialize(true, Gives(i), Passes), CallSetInstance(Some(j))];
            RunCalls(Start, kind, calls) == Status(Some(j), false, Some(i))
    ensures var calls := [CallSetInstance(Some(i)), CallSetUnavailable(false)];
            RunCalls(Start, kind, calls) == Status(Some(i), false, None)
  {
    var a, b := CallInitialize(true, Gives(i), Passes), CallSetInstance(None);
    var c := CallRecover(Some(Gives(j)), CheckUncaught);
    assert [a, b, c][..2] == [a, b] && [a, b][..1] == [a] && [a][..0] == [];
    assert RunCalls(Start, kind, [a]) == Status(Some(i), false, Some(i));
    assert RunCalls(Start, kind, [a, b]) == Status(None, false, Some(i));
    var other := CallSetInstance(Some(j));
    assert [a, other][..1] == [a];
    var install, clear := CallSetInstance(Some(i)), CallSetUnavailable(false);
    assert [install, clear][..1] == [install] && [install][..0] == [];
    assert RunCalls(Start, kind, [install]) == Status(Some(i), true, None);
  }

  // ---------------------------------------------------------------------------
  // Recovering everything
  // ---------------------------------------------------------------------------

  /** A read of the scheduler thread's `running`. */
  datatype Probe = Running | Stopped | ProbeFails

  /** What start() does. */
  datatype StartCall = Returns | StartFails | StartUncaught

  datatype SchedulerWorld = SchedulerWorld(
    precheck: Probe, recheck: Probe, decision: Probe, before: Probe, after: Probe,
    factory: Option<Factory>, start: StartCall)

  datatype ComponentWorld = ComponentWorld(factory: Option<Factory>, check: Check)

  function RecoverStep(kind: Kind, s: Status, w: ComponentWorld): Status {
    Step(s, kind, CallRecover(w.factory, w.check))
  }

  /** An instance is present or the factory gives one, and its check passes. */
  predicate Restores(s: Status, w: ComponentWorld) {
    Candidate(s.instance, w.factory).Some? && w.check == Passes
  }

  predicate ComesBack(s: Status, w: ComponentWorld) {
    !Available(s) && Restores(s, w)
  }

  /** A component that needs recovery comes back, checked, exactly when it can be restored. Only the
      failing-open recovery makes another look available. */
  lemma ComesBackIff(s: Status, kind: Kind, w: ComponentWorld)
    requires !Available(s)
    ensures var after := RecoverStep(kind, s, w);
      && (Available(after) && after.checked == after.instance <==> Restores(s, w))
      && (Available(after) <==> Restores(s, w) || FailsOpen(s, CallRecover(w.factory, w.check)))
      && (Restores(s, w) ==> after == Status(Candidate(s.instance, w.factory), false, Candidate(s.instance, w.factory)))
  {
  }

  predicate RecoverRaises(s: Status, w: ComponentWorld) {
    !Available(s) && RaisesOut(s, w.factory, w.check)
  }

  datatype Outcome = Outcome(killSwitch: bool, circuitBreaker: bool, positionReservation: bool, sliceScheduler: bool,
                             allRecovered: bool)

  /** The scheduler runs already, or is started and then runs. */
  predicate EndsUpRunning(w: SchedulerWorld) {
    w.before == Running || (w.before == Stopped && w.start == Returns && w.after == Running)
  }

  predicate SchedulerRaises(scheduler: Option<Instance>, w: SchedulerWorld) {
    || (scheduler.None? && w.factory == Some(FactoryUncaught))
    || (Candidate(scheduler, w.factory).Some? && w.before == Stopped && w.start == StartUncaught)
  }

  class RecoveryManager {
    const killSwitch: Component
    const circuitBreaker: Component
    const positionReservation: Component
    var sliceScheduler: Option<Instance>
    /** Calls of the scheduler's factory and of start(). */
    ghost var schedulerCalls: nat

    predicate Valid() {
      killSwitch != circuitBreaker && circuitBreaker != positionReservation && killSwitch != positionReservation
    }

    ghost predicate AllFailClosed()
      reads this, killSwitch, circuitBreaker, positionReservation
    {
      FailsClosed(killSwitch.Now()) && FailsClosed(circuitBreaker.Now()) && FailsClosed(positionReservation.Now())
    }

    constructor ()
      ensures Valid() && AllFailClosed() && NeedsRecovery() && schedulerCalls == 0
    {
      killSwitch := new Component(KillSwitch);
      circuitBreaker := new Component(CircuitBreaker);
      positionReservation := new Component(PositionReservation);
      sliceScheduler, schedulerCalls := None, 0;
    }

    /** The flags, and missing instances as well. */
    predicate NeedsRecovery()
      reads this, killSwitch, circuitBreaker, positionReservation
    {
      || killSwitch.unavailable || circuitBreaker.unavailable || positionReservation.unavailable
      || killSwitch.instance.None? || circuitBreaker.instance.None? || positionReservation.instance.None?
    }

    /** A probe that raises counts as stopped. */
    predicate ShouldRecoverSliceScheduler(probe: Probe)
      reads this, killSwitch, circuitBreaker
    {
      && !killSwitch.unavailable && !circuitBreaker.unavailable
      && killSwitch.instance.Some? && circuitBreaker.instance.Some?
      && (sliceScheduler.None? || probe != Running)
    }

    method RecoverSliceScheduler(w: SchedulerWorld) returns (r: Result<bool, Uncaught>)
      modifies this`sliceScheduler, this`schedulerCalls
      ensures schedulerCalls >= old(schedulerCalls)
      ensures r == Ok(true) <==> Candidate(old(sliceScheduler), w.factory).Some? && EndsUpRunning(w)
      ensures r.Err? <==> SchedulerRaises(old(sliceScheduler), w)
      ensures sliceScheduler == Candidate(old(sliceScheduler), w.factory)
      ensures sliceScheduler != old(sliceScheduler) ==>
              old(sliceScheduler).None? && schedulerCalls > old(schedulerCalls)
      ensures r == Ok(true) ==>
              sliceScheduler.Some? && (w.before == Running || (w.start == Returns && w.after == Running))
    {
      if sliceScheduler.None? {
        if w.factory.None? {
          return Ok(false);
        }
        schedulerCalls := schedulerCalls + 1;
        match w.factory.value
        case Gives(i) => sliceScheduler := Some(i);
        case GivesNone => return Ok(false);
        case FactoryFails => return Ok(false);
        case FactoryUncaught => return Err(Uncaught);
      }
      if w.before == Running {
        return Ok(true);
      }
      if w.before == ProbeFails {
        return Ok(false);
      }
      schedulerCalls := schedulerCalls + 1;
      if w.start == StartUncaught {
        return Err(Uncaught);
      }
      if w.start == StartFails {
        return Ok(false);
      }
      return Ok(w.after == Running);
    }

    /** Kill switch, breaker and position reservation in turn, up to the first uncaught error. */
    method RecoverSafetyComponents(ks: ComponentWorld, cb: ComponentWorld, pr: ComponentWorld)
      returns (r: Result<(bool, bool, bool), Uncaught>)
      requires Valid()
      modifies killSwitch, circuitBreaker, positionReservation
      ensures killSwitch.Now() == RecoverStep(killSwitch.kind, old(killSwitch.Now()), ks)
      ensures circuitBreaker.Now() ==
              if RecoverRaises(old(killSwitch.Now()), ks) then old(circuitBreaker.Now())
              else RecoverStep(circuitBreaker.kind, old(circuitBreaker.Now()), cb)
      ensures positionReservation.Now() ==
              if RecoverRaises(old(killSwitch.Now()), ks) || RecoverRaises(old(circuitBreaker.Now()), cb)
              then old(positionReservation.Now())
              else RecoverStep(positionReservation.kind, old(positionReservation.Now()), pr)
      ensures r.Err? <==> RecoverRaises(old(killSwitch.Now()), ks) || RecoverRaises(old(circuitBreaker.Now()), cb) ||
                          RecoverRaises(old(positionReservation.Now()), pr)
      ensures r.Ok? ==>
                && (r.value.0 <==> ComesBack(old(killSwitch.Now()), ks))
                && (r.value.1 <==> ComesBack(old(circuitBreaker.Now()), cb))
                && (r.value.2 <==> ComesBack(old(positionReservation.Now()), pr))
      ensures r.Ok? ==>
                && (Available(killSwitch.Now()) <==>
                    old(Available(killSwitch.Now())) || Restores(old(killSwitch.Now()), ks))
                && (Available(circuitBreaker.Now()) <==>
                    old(Available(circuitBreaker.Now())) || Restores(old(circuitBreaker.Now()), cb))
                && (Available(positionReservation.Now()) <==>
                    old(Available(positionReservation.Now())) || Restores(old(positionReservation.Now()), pr))
    {
      hide RecoverStep, RecoverRaises, Restores, ComesBack;
      var k := killSwitch.RecoverIfNeeded(ks);
      if k.Err? { return Err(Uncaught); }
      var c := circuitBreaker.RecoverIfNeeded(cb);
      if c.Err? { return Err(Uncaught); }
      var p := positionReservation.RecoverIfNeeded(pr);
      if p.Err? { return Err(Uncaught); }
      return Ok((k.value, c.value, p.value));
    }

    /** From any instances and flags, setters' included. An uncaught error leaves the components after the
        raising one as they were. */
    method AttemptRecovery(canRecover: bool, ks: ComponentWorld, cb: ComponentWorld, pr: ComponentWorld,
                           w: SchedulerWorld)
      returns (r: Result<Outcome, Uncaught>)
      requires Valid()
      modifies this, killSwitch, circuitBreaker, positionReservation
      ensures Valid()
      ensures old(AllFailClosed()) ==> AllFailClosed()
      ensures r.Ok? ==> (r.value.allRecovered <==> !NeedsRecovery())
      ensures r.Ok? && canRecover ==>
                (r.value.allRecovered <==>
                 && (old(Available(killSwitch.Now())) || Restores(old(killSwitch.Now()), ks))
                 && (old(Available(circuitBreaker.Now())) || Restores(old(circuitBreaker.Now()), cb))
                 && (old(Available(positionReservation.Now())) || Restores(old(positionReservation.Now()), pr)))
      ensures r.Ok? && !canRecover ==> (r.value.allRecovered <==> !old(NeedsRecovery()))
      ensures r.Ok? ==> (r.value.killSwitch <==> canRecover && ComesBack(old(killSwitch.Now()), ks))
      ensures r.Ok? ==> (r.value.circuitBreaker <==> canRecover && ComesBack(old(circuitBreaker.Now()), cb))
      ensures r.Ok? ==> (r.value.positionReservation <==> canRecover && ComesBack(old(positionReservation.Now()), pr))
      ensures r.Ok? ==>
                (r.value.sliceScheduler <==>
                 && (old(NeedsRecovery()) ||
                     old(ShouldRecoverSliceScheduler(w.precheck) && ShouldRecoverSliceScheduler(w.recheck)))
                 && Available(killSwitch.Now()) && Available(circuitBreaker.Now())
                 && (old(sliceScheduler).None? || w.decision != Running)
                 && Candidate(old(sliceScheduler), w.factory).Some? && EndsUpRunning(w))
      ensures schedulerCalls > old(schedulerCalls) || sliceScheduler != old(sliceScheduler) ==>
                Available(killSwitch.Now()) && Available(circuitBreaker.Now())
      ensures r.Err? ==>
                || (canRecover && RecoverRaises(old(killSwitch.Now()), ks))
                || (canRecover && RecoverRaises(old(circuitBreaker.Now()), cb))
                || (canRecover && RecoverRaises(old(positionReservation.Now()), pr))
                || SchedulerRaises(old(sliceScheduler), w)
      ensures canRecover && RecoverRaises(old(killSwitch.Now()), ks) ==> r.Err?
      ensures canRecover && RecoverRaises(old(circuitBreaker.Now()), cb) ==> r.Err?
      ensures canRecover && RecoverRaises(old(positionReservation.Now()), pr) ==> r.Err?
      ensures killSwitch.Now() == if canRecover then RecoverStep(killSwitch.kind, old(killSwitch.Now()), ks)
                                  else old(killSwitch.Now())
      ensures circuitBreaker.Now() ==
              if canRecover && !RecoverRaises(old(killSwitch.Now()), ks)
              then RecoverStep(circuitBreaker.kind, old(circuitBreaker.Now()), cb) else old(circuitBreaker.Now())
      ensures positionReservation.Now() ==
              if canRecover && !RecoverRaises(old(killSwitch.Now()), ks) &&
                 !RecoverRaises(old(circuitBreaker.Now()), cb)
              then RecoverStep(positionReservation.kind, old(positionReservation.Now()), pr)
              else old(positionReservation.Now())
    {
      hide RecoverStep, RecoverRaises, FailsClosed, Restores, SchedulerRaises, EndsUpRunning, Candidate;
      var killSwitchRecovered, breakerRecovered, reservationRecovered, schedulerRecovered := false, false, false, false;
      if !NeedsRecovery() {
        HealthyIsLeftAlone(killSwitch.Now(), killSwitch.kind, ks);
        HealthyIsLeftAlone(circuitBreaker.Now(), circuitBreaker.kind, cb);
        HealthyIsLeftAlone(positionReservation.Now(), positionReservation.kind, pr);
      }
      if AllFailClosed() {
        RecoveringFailsClosed(killSwitch.Now(), killSwitch.kind, ks);
        RecoveringFailsClosed(circuitBreaker.Now(), circuitBreaker.kind, cb);
        RecoveringFailsClosed(positionReservation.Now(), positionReservation.kind, pr);
      }
      if !NeedsRecovery() && !ShouldRecoverSliceScheduler(w.precheck) {
        return Ok(Outcome(false, false, false, false, true));
      }
      if !NeedsRecovery() && !ShouldRecoverSliceScheduler(w.recheck) {
        return Ok(Outcome(false, false, false, false, true));
      }
      if canRecover {
        var done := RecoverSafetyComponents(ks, cb, pr);
        if done.Err? { return Err(Uncaught); }
        killSwitchRecovered, breakerRecovered, reservationRecovered := done.value.0, done.value.1, done.value.2;
      }
      if ShouldRecoverSliceScheduler(w.decision) {
        var done := RecoverSliceScheduler(w);
        if done.Err? { return Err(Uncaught); }
        schedulerRecovered := done.value;
      }
      r := Ok(Outcome(killSwitchRecovered, breakerRecovered, reservationRecovered, schedulerRecovered,
                      !NeedsRecovery()));
    }
  }

  lemma HealthyIsLeftAlone(s: Status, kind: Kind, w: ComponentWorld)
    requires Available(s)
    ensures RecoverStep(kind, s, w) == s && !RecoverRaises(s, w)
  {
  }

  lemma RecoveringFailsClosed(s: Status, kind: Kind, w: ComponentWorld)
    requires FailsClosed(s)
    ensures FailsClosed(RecoverStep(kind, s, w))
  {
  }
}
