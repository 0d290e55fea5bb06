/** The lifecycle of one saved port-forward rule, and every interleaving of its start attempts,
    stops, child exits and failed shutdowns (apps/coder-gateway/src/portForwards.ts). */
module PortForwards {
  import opened Options
  import opened SmallSets

  /** Names a deferred promise. A start attempt opens at most one child, so it names that too. */
  type Id = nat

  datatype State =
    | ShutdownFailed(generation: nat, child: Id)
    | Idle(generation: nat)
    | WorkspaceStopped(generation: nat)
    | Starting(generation: nat, operation: Id)
    | Running(generation: nat, child: Id)
    | Stopping(generation: nat, operation: Id, shutdownFailure: Option<Id>)
    | Failed(generation: nat)

  datatype StartClaim =
    | HeldByShutdown
    | Existing(child: Id)
    | PendingStart(start: Id)
    | WaitForStop(stop: Id)
    | Start(generation: nat)

  datatype StopClaim =
    | Stopped
    | PendingStop(stop: Id)
    | Stop(previous: Option<Id>, pending: Option<Id>)

  // ---- The atomic updates of one rule's state

  function StartClaimOf(s: State): StartClaim {
    match s
    case ShutdownFailed(_, _) => HeldByShutdown
    case Running(_, c) => Existing(c)
    case Starting(_, a) => PendingStart(a)
    case Stopping(_, op, _) => WaitForStop(op)
    case _ => Start(s.generation)
  }

  function AfterStartClaim(s: State, op: Id): State {
    if StartClaimOf(s).Start? then Starting(s.generation, op) else s
  }

  predicate IsCurrentStart(s: State, generation: nat, op: Id) {
    s == Starting(generation, op)
  }

  function AfterCommit(s: State, generation: nat, op: Id): State {
    if IsCurrentStart(s, generation, op) then Running(generation, op) else s
  }

  /** A child exited; `failed` says it exited unexpectedly while its rule was still current. */
  function AfterChildClosed(s: State, child: Id, failed: bool): State {
    if s.Stopping? && s.shutdownFailure == Some(child) then
      s.(shutdownFailure := None)
    else if ((s.Running? || s.ShutdownFailed?) && s.child == child) || (s.Starting? && s.operation == child) then
      if failed then Failed(s.generation) else Idle(s.generation)
    else
      s
  }

  function AfterCleanupFailed(s: State, child: Id): State {
    if s.Stopping? then s.(shutdownFailure := Some(child)) else ShutdownFailed(s.generation, child)
  }

  function AfterStartRejected(s: State, op: Id): State {
    if s.Starting? && s.operation == op then Failed(s.generation) else s
  }

  function StopClaimOf(s: State): StopClaim {
    match s
    case Stopping(_, op, _) => PendingStop(op)
    case Starting(_, a) => Stop(None, Some(a))
    case Running(_, c) => Stop(Some(c), None)
    case ShutdownFailed(_, c) => Stop(Some(c), None)
    case _ => Stopped
  }

  function AfterStopClaim(s: State, op: Id): State {
    match StopClaimOf(s)
    case PendingStop(_) => s
    case Stopped => Idle(s.generation + 1)
    case Stop(_, _) => Stopping(s.generation + 1, op, None)
  }

  function AfterStopDone(s: State, op: Id): State {
    if s.Stopping? && s.operation == op then Idle(s.generation) else s
  }

  function AfterStopFailed(s: State, op: Id, previous: Option<Id>): State {
    if s.Stopping? && s.operation == op then
      match (s.shutdownFailure, previous)
      case (Some(c), _) => ShutdownFailed(s.generation, c)
      case (None, Some(c)) => ShutdownFailed(s.generation, c)
      case (None, None) => Failed(s.generation)
    else
      s
  }

  /** What starting the configured rules and a failed workspace action write without looking. */
  function AfterOverwrite(s: State, workspaceStopped: bool): State {
    if workspaceStopped then WorkspaceStopped(s.generation) else Failed(s.generation)
  }

  function Lookup(lifecycles: map<string, State>, rule: string): State {
    if rule in lifecycles then lifecycles[rule] else Idle(0)
  }

  /** The manager's table of rules. Each method is one atomic update of one rule's reference. */
  class PortForwardManager {
    var lifecycles: map<string, State>

    constructor ()
      ensures lifecycles == map[]
    {
      lifecycles := map[];
    }

    method Lifecycle(rule: string) returns (state: State)
      modifies this
      ensures state == Lookup(old(lifecycles), rule)
      ensures lifecycles == old(lifecycles)[rule := state]
    {
      if rule !in lifecycles {
        lifecycles := lifecycles[rule := Idle(0)];
      }
      state := lifecycles[rule];
    }

    method ClaimStart(rule: string, op: Id) returns (claim: StartClaim)
      modifies this
      ensures var s := Lookup(old(lifecycles), rule);
        claim == StartClaimOf(s) && lifecycles == old(lifecycles)[rule := AfterStartClaim(s, op)]
    {
      var state := Lifecycle(rule);
      match state {
        case ShutdownFailed(_, _) => claim := HeldByShutdown;
        case Running(_, c) => claim := Existing(c);
        case Starting(_, a) => claim := PendingStart(a);
        case Stopping(_, stop, _) => claim := WaitForStop(stop);
        case _ =>
          claim := Start(state.generation);
          lifecycles := lifecycles[rule := Starting(state.generation, op)];
      }
    }

    method Commit(rule: string, generation: nat, op: Id) returns (running: bool)
      modifies this
      ensures var s := Lookup(old(lifecycles), rule);
        && running == IsCurrentStart(s, generation, op)
        && lifecycles == old(lifecycles)[rule := AfterCommit(s, generation, op)]
    {
      var state := Lifecycle(rule);
      running := state.Starting? && state.generation == generation && state.operation == op;
      if running {
        lifecycles := lifecycles[rule := Running(generation, op)];
      }
    }

    method ChildClosed(rule: string, child: Id, failed: bool)
      modifies this
      ensures var s := Lookup(old(lifecycles), rule);
        lifecycles == old(lifecycles)[rule := AfterChildClosed(s, child, failed)]
    {
      var state := Lifecycle(rule);
      if state.Stopping? && state.shutdownFailure == Some(child) {
        lifecycles := lifecycles[rule := state.(shutdownFailure := None)];
        return;
      }
      if !((state.Running? || state.ShutdownFailed?) && state.child == child)
         && !(state.Starting? && state.operation == child)
      {
        return;
      }
      if failed {
        lifecycles := lifecycles[rule := Failed(state.generation)];
        return;
      }
      lifecycles := lifecycles[rule := Idle(state.generation)];
    }

    method CleanupFailed(rule: string, child: Id)
      modifies this
      ensures var s := Lookup(old(lifecycles), rule);
        lifecycles == old(lifecycles)[rule := AfterCleanupFailed(s, child)]
    {
      var state := Lifecycle(rule);
      var next := ShutdownFailed(state.generation, child);
      if state.Stopping? {
        next := state.(shutdownFailure := Some(child));
      }
      lifecycles := lifecycles[rule := next];
    }

    method StartRejected(rule: string, op: Id)
      modifies this
      ensures var s := Lookup(old(lifecycles), rule);
        lifecycles == old(lifecycles)[rule := AfterStartRejected(s, op)]
    {
      var state := Lifecycle(rule);
      if state.Starting? && state.operation == op {
        lifecycles := lifecycles[rule := Failed(state.generation)];
      }
    }

    method ClaimStop(rule: string, op: Id) returns (claim: StopClaim)
      modifies this
      ensures var s := Lookup(old(lifecycles), rule);
        claim == StopClaimOf(s) && lifecycles == old(lifecycles)[rule := AfterStopClaim(s, op)]
    {
      var state := Lifecycle(rule);
      if state.Stopping? {
        return PendingStop(state.operation);
      }
      var generation := state.generation + 1;
      if state.Idle? || state.WorkspaceStopped? || state.Failed? {
        lifecycles := lifecycles[rule := Idle(generation)];
        return Stopped;
      }
      claim := Stop(
        if state.Running? || state.ShutdownFailed? then Some(state.child) else None,
        if state.Starting? then Some(state.operation) else None);
      lifecycles := lifecycles[rule := Stopping(generation, op, None)];
    }

    method StopDone(rule: string, op: Id)
      modifies this
      ensures var s := Lookup(old(lifecycles), rule);
        lifecycles == old(lifecycles)[rule := AfterStopDone(s, op)]
    {
      var state := Lifecycle(rule);
      if state.Stopping? && state.operation == op {
        lifecycles := lifecycles[rule := Idle(state.generation)];
      }
    }

    method StopFailed(rule: string, op: Id, previous: Option<Id>)
      modifies this
      ensures var s := Lookup(old(lifecycles), rule);
        lifecycles == old(lifecycles)[rule := AfterStopFailed(s, op, previous)]
    {
      var state := Lifecycle(rule);
      if state.Stopping? && state.operation == op {
        var failure := if state.shutdownFailure.Some? then state.shutdownFailure else previous;
        var next := Failed(state.generation);
        if failure.Some? {
          next := ShutdownFailed(state.generation, failure.value);
        }
        lifecycles := lifecycles[rule := next];
      }
    }
  }

  // ---- Every interleaving, as a state machine over those updates

  /** Where a start attempt's fiber stands. `Rejecting` is after its cleanup, before its promise. */
  datatype Phase = Opening | Acquired | Checked | Cleaning | Rejecting | Settled(ok: bool)

  datatype Attempt = Attempt(generation: nat, phase: Phase)

  datatype StopPhase = ClosingPrevious | AwaitingPending | Finishing | Failing | Done

  datatype StopRun = StopRun(previous: Option<Id>, pending: Option<Id>, phase: StopPhase)

  /** `live` are the running children; `watched` are those whose exit observer has not run yet. */
  datatype System = System(
    state: State,
    attempts: map<Id, Attempt>,
    stops: map<Id, StopRun>,
    nextId: Id,
    live: set<Id>,
    watched: set<Id>)

  datatype Event =
    | Ensure
    | OpenFails(attempt: Id)
    | Opens(attempt: Id)
    | CheckCurrent(attempt: Id, configCurrent: bool)
    | CommitRunning(attempt: Id)
    | CleanupCloses(attempt: Id)
    | CleanupCloseFails(attempt: Id)
    | Rejects(attempt: Id)
    | ChildExits(child: Id)
    | ObserveExit(child: Id, failed: bool)
    | RequestStop
    | PreviousCloses(stop: Id)
    | PreviousCloseFails(stop: Id)
    | PendingSettles(stop: Id)
    | StopFinishes(stop: Id)
    | StopFails(stop: Id)

  const Initial := System(Idle(0), map[], map[], 0, {}, {})

  predicate InPhase(s: System, a: Id, phase: Phase) {
    a in s.attempts && s.attempts[a].phase == phase
  }

  predicate StopIn(s: System, op: Id, phase: StopPhase) {
    op in s.stops && s.stops[op].phase == phase
  }

  predicate Enabled(s: System, e: Event) {
    match e
    case Ensure => true
    case OpenFails(a) => InPhase(s, a, Opening)
    case Opens(a) => InPhase(s, a, Opening)
    case CheckCurrent(a, _) => InPhase(s, a, Acquired)
    case CommitRunning(a) => InPhase(s, a, Checked)
    case CleanupCloses(a) => InPhase(s, a, Cleaning)
    // Closing a child that is already dead succeeds.
    case CleanupCloseFails(a) => InPhase(s, a, Cleaning) && a in s.live
    case Rejects(a) => InPhase(s, a, Rejecting)
    case ChildExits(c) => c in s.live
    case ObserveExit(c, _) => c in s.watched && c !in s.live
    case RequestStop => true
    case PreviousCloses(op) => StopIn(s, op, ClosingPrevious)
    case PreviousCloseFails(op) =>
      StopIn(s, op, ClosingPrevious) && s.stops[op].previous.Some? && s.stops[op].previous.value in s.live
    case PendingSettles(op) =>
      StopIn(s, op, AwaitingPending)
      && match s.stops[op].pending {
           case None => true
           case Some(a) => a in s.attempts && s.attempts[a].phase.Settled?
         }
    case StopFinishes(op) => StopIn(s, op, Finishing)
    case StopFails(op) => StopIn(s, op, Failing)
  }

  function SetPhase(s: System, a: Id, phase: Phase): System
    requires a in s.attempts
  {
    s.(attempts := s.attempts[a := s.attempts[a].(phase := phase)])
  }

  function SetStop(s: System, op: Id, phase: StopPhase): System
    requires op in s.stops
  {
    s.(stops := s.stops[op := s.stops[op].(phase := phase)])
  }

  /** The rejected wait is rethrown exactly when the attempt's cleanup left its child behind. */
  predicate RethrowsPending(s: State) {
    s.ShutdownFailed? || (s.Stopping? && s.shutdownFailure.Some?)
  }

  function Step(s: System, e: Event): System
    requires Enabled(s, e)
  {
    match e
    case Ensure =>
      if StartClaimOf(s.state).Start? then
        s.(state := AfterStartClaim(s.state, s.nextId),
           attempts := s.attempts[s.nextId := Attempt(s.state.generation, Opening)],
           nextId := s.nextId + 1)
      else s
    case OpenFails(a) => SetPhase(s, a, Rejecting)
    case Opens(a) => SetPhase(s, a, Acquired).(live := s.live + {a}, watched := s.watched + {a})
    case CheckCurrent(a, configCurrent) =>
      if configCurrent && IsCurrentStart(s.state, s.attempts[a].generation, a)
      then SetPhase(s, a, Checked) else SetPhase(s, a, Cleaning)
    case CommitRunning(a) =>
      var generation := s.attempts[a].generation;
      if IsCurrentStart(s.state, generation, a)
      then SetPhase(s, a, Settled(true)).(state := AfterCommit(s.state, generation, a))
      else SetPhase(s, a, Cleaning)
    case CleanupCloses(a) => SetPhase(s, a, Rejecting).(live := s.live - {a})
    case CleanupCloseFails(a) => SetPhase(s, a, Rejecting).(state := AfterCleanupFailed(s.state, a))
    case Rejects(a) => SetPhase(s, a, Settled(false)).(state := AfterStartRejected(s.state, a))
    case ChildExits(c) => s.(live := s.live - {c})
    case ObserveExit(c, failed) =>
      s.(state := AfterChildClosed(s.state, c, failed), watched := s.watched - {c})
    case RequestStop =>
      var claim := StopClaimOf(s.state);
      var claimed := s.(state := AfterStopClaim(s.state, s.nextId));
      if claim.Stop? then
        claimed.(
          stops := s.stops[s.nextId := StopRun(
                             claim.previous, claim.pending,
                             if claim.previous.Some? then ClosingPrevious else AwaitingPending)],
          nextId := s.nextId + 1)
      else claimed
    case PreviousCloses(op) =>
      SetStop(s, op, AwaitingPending).(
        live := s.live - (if s.stops[op].previous.Some? then {s.stops[op].previous.value} else {}))
    case PreviousCloseFails(op) => SetStop(s, op, Failing)
    case PendingSettles(op) =>
      var pending := s.stops[op].pending;
      if pending.Some? && s.attempts[pending.value].phase == Settled(false) && RethrowsPending(s.state)
      then SetStop(s, op, Failing) else SetStop(s, op, Finishing)
    case StopFinishes(op) => SetStop(s, op, Done).(state := AfterStopDone(s.state, op))
    case StopFails(op) =>
      SetStop(s, op, Done).(state := AfterStopFailed(s.state, op, s.stops[op].previous))
  }

  predicate Possible(s: System, es: seq<Event>)
    decreases |es|
  {
    es == [] || (Enabled(s, es[0]) && Possible(Step(s, es[0]), es[1..]))
  }

  function Run(s: System, es: seq<Event>): System
    requires Possible(s, es)
    decreases |es|
  {
    if es == [] then s else Run(Step(s, es[0]), es[1..])
  }

  // ---- The invariant

  /** The attempt that the current start, or the current stop, is waiting for. */
  predicate Awaited(s: System, a: Id) {
    match s.state
    case Starting(_, op) => op == a
    case Stopping(_, op, None) => StopIn(s, op, AwaitingPending) && s.stops[op].pending == Some(a)
    case _ => false
  }

  /** The child the state holds, or holds as a stop's previous connection. */
  predicate Held(s: System, c: Id) {
    match s.state
    case Running(_, child) => child == c
    case ShutdownFailed(_, child) => child == c
    case Stopping(_, _, Some(child)) => child == c
    case Stopping(_, op, None) =>
      (StopIn(s, op, ClosingPrevious) || StopIn(s, op, Failing)) && s.stops[op].previous == Some(c)
    case _ => false
  }

  predicate Unfinished(phase: Phase) {
    phase in {Opening, Acquired, Checked, Cleaning}
  }

  ghost predicate Inv(s: System) {
    && (forall a <- s.attempts :: a < s.nextId && s.attempts[a].generation <= s.state.generation)
    && (forall op <- s.stops :: op < s.nextId)
    && s.live <= s.watched <= s.attempts.Keys
    && (forall a <- s.attempts :: InPhase(s, a, Opening) ==> Awaited(s, a) && a !in s.watched)
    && (forall c <- s.live :: if Unfinished(s.attempts[c].phase) then Awaited(s, c) else Held(s, c))
    && (s.state.Starting? ==>
          && s.state.operation in s.attempts
          && s.attempts[s.state.operation].generation == s.state.generation
          && !s.attempts[s.state.operation].phase.Settled?)
    && (s.state.Running? ==>
          && s.state.child in s.attempts
          && s.attempts[s.state.child] == Attempt(s.state.generation, Settled(true)))
    && (s.state.Stopping? ==>
          && StopInv(s, s.state.operation, s.state.shutdownFailure)
          && forall a <- s.attempts :: s.attempts[a].generation < s.state.generation)
  }

  ghost predicate StopInv(s: System, op: Id, shutdownFailure: Option<Id>) {
    && op in s.stops
    && var stop := s.stops[op];
    && !stop.phase.Done?
    && (stop.previous.None? || stop.pending.None?)
    && (stop.phase.ClosingPrevious? ==> stop.previous.Some?)
    && (stop.pending.Some? ==> stop.pending.value in s.attempts)
    && (stop.phase.Finishing? ==> shutdownFailure.None?)
    && (shutdownFailure.Some? ==>
          && stop.pending == shutdownFailure
          && s.attempts[shutdownFailure.value].phase in {Rejecting, Settled(false)})
  }

  lemma StartClaimKeepsInv(s: System, e: Event)
    requires Inv(s) && Enabled(s, e) && e.Ensure?
    ensures Inv(Step(s, e))
  {
  }

  lemma StopClaimKeepsInv(s: System, e: Event)
    requires Inv(s) && Enabled(s, e) && e.RequestStop?
    ensures Inv(Step(s, e))
  {
  }

  lemma OpenKeepsInv(s: System, e: Event)
    requires Inv(s) && Enabled(s, e) && (e.OpenFails? || e.Opens?)
    ensures Inv(Step(s, e))
  {
  }

  lemma CheckKeepsInv(s: System, e: Event)
    requires Inv(s) && Enabled(s, e) && e.CheckCurrent?
    ensures Inv(Step(s, e))
  {
  }

  lemma CommitKeepsInv(s: System, e: Event)
    requires Inv(s) && Enabled(s, e) && e.CommitRunning?
    ensures Inv(Step(s, e))
  {
  }

  lemma CleanupCloseKeepsInv(s: System, e: Event)
    requires Inv(s) && Enabled(s, e) && e.CleanupCloses?
    ensures Inv(Step(s, e))
  {
  }

  lemma CleanupFailKeepsInv(s: System, e: Event)
    requires Inv(s) && Enabled(s, e) && e.CleanupCloseFails?
    ensures Inv(Step(s, e))
  {
  }

  lemma RejectKeepsInv(s: System, e: Event)
    requires Inv(s) && Enabled(s, e) && e.Rejects?
    ensures Inv(Step(s, e))
  {
  }

  lemma ExitKeepsInv(s: System, e: Event)
    requires Inv(s) && Enabled(s, e) && (e.ChildExits? || e.ObserveExit?)
    ensures Inv(Step(s, e))
  {
  }

  lemma PreviousKeepsInv(s: System, e: Event)
    requires Inv(s) && Enabled(s, e) && (e.PreviousCloses? || e.PreviousCloseFails?)
    ensures Inv(Step(s, e))
  {
  }

  lemma PendingKeepsInv(s: System, e: Event)
    requires Inv(s) && Enabled(s, e) && e.PendingSettles?
    ensures Inv(Step(s, e))
  {
  }

  lemma StopEndKeepsInv(s: System, e: Event)
    requires Inv(s) && Enabled(s, e) && (e.StopFinishes? || e.StopFails?)
    ensures Inv(Step(s, e))
  {
  }

  lemma StepKeepsInv(s: System, e: Event)
    requires Inv(s) && Enabled(s, e)
    ensures Inv(Step(s, e))
  {
    match e {
      case Ensure => StartClaimKeepsInv(s, e);
      case RequestStop => StopClaimKeepsInv(s, e);
      case OpenFails(_) | Opens(_) => OpenKeepsInv(s, e);
      case CheckCurrent(_, _) => CheckKeepsInv(s, e);
      case CommitRunning(_) => CommitKeepsInv(s, e);
      case CleanupCloses(_) => CleanupCloseKeepsInv(s, e);
      case CleanupCloseFails(_) => CleanupFailKeepsInv(s, e);
      case Rejects(_) => RejectKeepsInv(s, e);
      case ChildExits(_) | ObserveExit(_, _) => ExitKeepsInv(s, e);
      case PreviousCloses(_) | PreviousCloseFails(_) => PreviousKeepsInv(s, e);
      case PendingSettles(_) => PendingKeepsInv(s, e);
      case StopFinishes(_) | StopFails(_) => StopEndKeepsInv(s, e);
    }
  }

  /** Generations never fall, and an attempt keeps the generation it was claimed in. */
  predicate Later(s: System, t: System) {
    && s.state.generation <= t.state.generation
    && forall a <- s.attempts :: a in t.attempts && t.attempts[a].generation == s.attempts[a].generation
  }

  lemma StepIsLater(s: System, e: Event)
    requires Inv(s) && Enabled(s, e)
    ensures Later(s, Step(s, e))
  {
    hide Held, Awaited, InPhase;
  }

  lemma Prepend(s: System, e: Event, es: seq<Event>)
    requires Enabled(s, e) && Possible(Step(s, e), es)
    ensures Possible(s, [e] + es) && Run(s, [e] + es) == Run(Step(s, e), es)
  {
    assert ([e] + es)[1..] == es;
  }

  lemma {:induction false} RunKeepsInv(s: System, es: seq<Event>)
    requires Inv(s) && Possible(s, es)
    ensures Inv(Run(s, es)) && Later(s, Run(s, es))
    decreases |es|
  {
    if es != [] {
      StepKeepsInv(s, es[0]);
      StepIsLater(s, es[0]);
      RunKeepsInv(Step(s, es[0]), es[1..]);
    }
  }

  lemma EveryRunKeepsInv(es: seq<Event>)
    requires Possible(Initial, es)
    ensures Inv(Run(Initial, es))
  {
    RunKeepsInv(Initial, es);
  }

  // ---- What every run keeps

  /** At most one child runs, and it belongs to whatever the state says is holding it. */
  ghost predicate OneChild(s: System) {
    && |s.live| <= 1
    && forall c <- s.live ::
         c in s.attempts && if Unfinished(s.attempts[c].phase) then Awaited(s, c) else Held(s, c)
  }

  lemma EveryRunHasOneChild(es: seq<Event>)
    requires Possible(Initial, es)
    ensures OneChild(Run(Initial, es))
  {
    RunKeepsInv(Initial, es);
    SameElementsAtMostOne(Run(Initial, es).live);
  }

  /** A new child is begun only when none runs and no earlier attempt can still open one. */
  lemma StartsOnlyAfterEarlierChildIsGone(es: seq<Event>)
    requires Possible(Initial, es)
    requires StartClaimOf(Run(Initial, es).state).Start?
    ensures Run(Initial, es).live == {}
    ensures forall a :: !InPhase(Run(Initial, es), a, Opening)
  {
    RunKeepsInv(Initial, es);
  }

  /** No attempt claimed before a stop ever becomes the running forward after it. */
  lemma StopOutlawsEarlierStarts(s: System, a: Id, es: seq<Event>)
    requires Inv(s) && a in s.attempts && Possible(Step(s, RequestStop), es)
    ensures var t := Run(Step(s, RequestStop), es); !(t.state.Running? && t.state.child == a)
  {
    StepKeepsInv(s, RequestStop);
    RunKeepsInv(Step(s, RequestStop), es);
  }

  // ---- The unconditional overwrites

  function Overwritten(s: System, workspaceStopped: bool): System {
    s.(state := AfterOverwrite(s.state, workspaceStopped))
  }

  ghost predicate NeverTwoChildren(s: System) {
    forall es | Possible(s, es) :: |Run(s, es).live| <= 1
  }

  predicate NothingRunsOrOpens(s: System) {
    s.live == {} && forall a <- s.attempts :: !InPhase(s, a, Opening)
  }

  /** At rest, a further start opens a second child beside one the state does not mention. */
  lemma SecondChildOpens(s: System, c: Id) returns (es: seq<Event>)
    requires StartClaimOf(s.state).Start? && c in s.live && c != s.nextId
    ensures Possible(s, es) && |Run(s, es).live| >= 2
  {
    var claimed := Step(s, Ensure);
    var both := Step(claimed, Opens(s.nextId));
    assert Possible(both, []) && Run(both, []) == both;
    Prepend(claimed, Opens(s.nextId), []);
    es := [Opens(s.nextId)] + [];
    Prepend(s, Ensure, es);
    es := [Ensure] + es;
    TwoElements(both.live, c, s.nextId);
  }

  /** An overwrite can lead to a second child exactly when it hides one that runs or is opening. */
  lemma OverwriteIsSafeExactlyWhenNothingRuns(s: System, workspaceStopped: bool)
    requires Inv(s)
    ensures NeverTwoChildren(Overwritten(s, workspaceStopped)) <==> NothingRunsOrOpens(s)
    ensures var o := Overwritten(s, workspaceStopped).state;
      Resting(o) && o.generation == s.state.generation && (o.WorkspaceStopped? <==> workspaceStopped) && !o.Idle?
  {
    var o := Overwritten(s, workspaceStopped);
    if NothingRunsOrOpens(s) {
      OverwriteKeepsInv(s, workspaceStopped);
      forall es | Possible(o, es) ensures |Run(o, es).live| <= 1 {
        RunKeepsInv(o, es);
        SameElementsAtMostOne(Run(o, es).live);
      }
    } else if c :| c in s.live {
      var es := SecondChildOpens(o, c);
    } else {
      var a :| a in s.attempts && InPhase(s, a, Opening);
      var es := SecondChildOpens(Step(o, Opens(a)), a);
      Prepend(o, Opens(a), es);
    }
  }

  lemma OverwriteKeepsInv(s: System, workspaceStopped: bool)
    requires Inv(s) && NothingRunsOrOpens(s)
    ensures Inv(Overwritten(s, workspaceStopped))
  {
  }

  /** A run in which the overwrite finds a child: the rule is being started when its workspace is reported stopped. */
  lemma RunningChildCanBeOverwritten(workspaceStopped: bool)
    ensures var es := [Ensure, Opens(0)];
      Possible(Initial, es) && Run(Initial, es).live == {0}
      && !NeverTwoChildren(Overwritten(Run(Initial, es), workspaceStopped))
  {
    var claimed := Step(Initial, Ensure);
    var running := Step(claimed, Opens(0));
    assert Possible(running, []) && Run(running, []) == running;
    Prepend(claimed, Opens(0), []);
    Prepend(Initial, Ensure, [Opens(0)]);
    assert [Opens(0)] + [] == [Opens(0)] && [Ensure] + [Opens(0)] == [Ensure, Opens(0)];
    RunKeepsInv(Initial, [Ensure, Opens(0)]);
    hide NeverTwoChildren, Possible, Run;
    OverwriteIsSafeExactlyWhenNothingRuns(running, workspaceStopped);
  }

  // ---- No state is stuck

  predicate Resting(s: State) {
    s.Idle? || s.WorkspaceStopped? || s.Failed?
  }

  /** An event that brings the rule closer to rest, with every close succeeding. */
  function Towards(s: System): Event
    requires Inv(s) && !Resting(s.state)
  {
    match s.state
    case Starting(_, a) => AttemptTowards(a, s.attempts[a].phase)
    case Stopping(_, op, _) =>
      var stop := s.stops[op];
      (match stop.phase
       case ClosingPrevious => PreviousCloses(op)
       case Finishing => StopFinishes(op)
       case AwaitingPending =>
         if stop.pending.None? || s.attempts[stop.pending.value].phase.Settled? then PendingSettles(op)
         else AttemptTowards(stop.pending.value, s.attempts[stop.pending.value].phase)
       case _ => StopFails(op))
    case _ => RequestStop
  }

  function AttemptTowards(a: Id, phase: Phase): Event {
    match phase
    case Opening => OpenFails(a)
    case Acquired => CheckCurrent(a, false)
    case Checked => CommitRunning(a)
    case Cleaning => CleanupCloses(a)
    case _ => Rejects(a)
  }

  function PhaseRank(phase: Phase): nat {
    match phase
    case Opening => 5 case Acquired => 5 case Checked => 4 case Cleaning => 2 case Rejecting => 1
    case Settled(_) => 0
  }

  function Rank(s: System): nat
    requires Inv(s)
  {
    match s.state
    case Starting(_, a) => if s.attempts[a].phase.Checked? then 11 else PhaseRank(s.attempts[a].phase)
    case Stopping(_, op, _) =>
      (match s.stops[op].phase
       case ClosingPrevious => 9
       case AwaitingPending =>
         if s.stops[op].pending.None? then 8
         else 20 + PhaseRank(s.attempts[s.stops[op].pending.value].phase)
       case Finishing => 7
       case _ => 19)
    case Running(_, _) => 10
    case ShutdownFailed(_, _) => 10
    case _ => 0
  }

  lemma TowardsIsEnabled(s: System)
    requires Inv(s) && !Resting(s.state)
    ensures Enabled(s, Towards(s))
  {
  }

  lemma StopDescends(s: System, t: System)
    requires Inv(s) && s.state.Stopping? && Enabled(s, Towards(s)) && t == Step(s, Towards(s)) && Inv(t)
    ensures Rank(t) < Rank(s)
  {
  }

  lemma TowardsDescends(s: System, t: System)
    requires Inv(s) && !Resting(s.state) && Enabled(s, Towards(s)) && t == Step(s, Towards(s)) && Inv(t)
    ensures Rank(t) < Rank(s)
  {
    if s.state.Stopping? {
      StopDescends(s, t);
    }
  }

  /** From every reachable state the rule can still come to rest with no child left behind. */
  lemma {:induction false} CanComeToRest(s: System) returns (es: seq<Event>)
    requires Inv(s)
    ensures Possible(s, es) && Resting(Run(s, es).state) && Run(s, es).live == {}
    decreases Rank(s)
  {
    if Resting(s.state) {
      es := [];
    } else {
      TowardsIsEnabled(s);
      var t := Step(s, Towards(s));
      StepKeepsInv(s, Towards(s));
      TowardsDescends(s, t);
      var rest := CanComeToRest(t);
      Prepend(s, Towards(s), rest);
      es := [Towards(s)] + rest;
    }
  }

  // ---- What becomes of a start, told from the events since its Ensure

  /** A stop was requested, or the exit of its child was seen. */
  predicate IsDisturbed(es: seq<Event>, a: Id) {
    exists e <- es :: Disturbs(e, a)
  }

  predicate Disturbs(e: Event, a: Id) {
    e.RequestStop? || (e.ObserveExit? && e.child == a)
  }

  /** It was found current, with the configuration it was started for. */
  predicate PassedCheck(es: seq<Event>, a: Id) {
    es != []
    && (PassedCheck(es[..|es| - 1], a)
        || (es[|es| - 1] == CheckCurrent(a, true) && !IsDisturbed(es[..|es| - 1], a)))
  }

  predicate Committed(es: seq<Event>, a: Id) {
    es != []
    && (Committed(es[..|es| - 1], a) || (es[|es| - 1] == CommitRunning(a) && !IsDisturbed(es[..|es| - 1], a)))
  }

  /** How far the attempt has come. */
  function PhaseAfter(es: seq<Event>, a: Id): Phase {
    if Rejects(a) in es then Settled(false)
    else if Committed(es, a) then Settled(true)
    else if OpenFails(a) in es || CleanupCloses(a) in es || CleanupCloseFails(a) in es then Rejecting
    else if Opens(a) !in es then Opening
    else if CheckCurrent(a, true) !in es && CheckCurrent(a, false) !in es then Acquired
    else if PassedCheck(es, a) && CommitRunning(a) !in es then Checked
    else Cleaning
  }

  /** What the rule's state is as long as nothing disturbs the attempt and it has not been given up. */
  function StateDuring(es: seq<Event>, generation: nat, a: Id): State {
    if CleanupCloseFails(a) in es then ShutdownFailed(generation, a)
    else if Committed(es, a) then Running(generation, a)
    else Starting(generation, a)
  }

  predicate IsGivenUp(es: seq<Event>, a: Id) {
    Rejects(a) in es && CleanupCloseFails(a) !in es
  }

  /** An attempt takes its steps one after the other. */
  predicate IsInOrder(es: seq<Event>, a: Id) {
    && (Opens(a) !in es ==> CheckCurrent(a, true) !in es && CheckCurrent(a, false) !in es)
    && (CheckCurrent(a, true) !in es ==> !PassedCheck(es, a))
    && (PassedCheck(es, a) ==> CheckCurrent(a, false) !in es)
    && (CommitRunning(a) in es ==> PassedCheck(es, a))
    && (OpenFails(a) in es || CleanupCloses(a) in es || CleanupCloseFails(a) in es || Rejects(a) in es ==>
          !PassedCheck(es, a) || CommitRunning(a) in es)
    && (OpenFails(a) in es ==> Opens(a) !in es)
    && (CleanupCloses(a) in es || CleanupCloseFails(a) in es ==> CheckCurrent(a, true) in es || CheckCurrent(a, false) in es)
    && (Rejects(a) in es ==> OpenFails(a) in es || CleanupCloses(a) in es || CleanupCloseFails(a) in es)
    && (Committed(es, a) ==> CommitRunning(a) in es && CleanupCloseFails(a) !in es && Rejects(a) !in es)
  }

  ghost predicate IsAsTold(s: System, es: seq<Event>, generation: nat, a: Id) {
    && IsInOrder(es, a)
    && a in s.attempts && s.attempts[a] == Attempt(generation, PhaseAfter(es, a))
    && generation <= s.state.generation && HasState(s.state, es, generation, a)
  }

  predicate HasState(s: State, es: seq<Event>, generation: nat, a: Id) {
    if IsDisturbed(es, a) || IsGivenUp(es, a) then s != Starting(generation, a) && s != Running(generation, a)
    else s == StateDuring(es, generation, a)
  }

  lemma OneMore(es: seq<Event>, e: Event, a: Id)
    ensures PassedCheck(es + [e], a) <==> PassedCheck(es, a) || (e == CheckCurrent(a, true) && !IsDisturbed(es, a))
    ensures Committed(es + [e], a) <==> Committed(es, a) || (e == CommitRunning(a) && !IsDisturbed(es, a))
    ensures forall d :: d in es + [e] <==> d in es || d == e
  {
    assert (es + [e])[..|es|] == es;
  }

  /** The events in which the attempt itself takes a step. */
  predicate IsStepOf(e: Event, a: Id) {
    match e
    case OpenFails(b) => b == a
    case Opens(b) => b == a
    case CheckCurrent(b, _) => b == a
    case CommitRunning(b) => b == a
    case CleanupCloses(b) => b == a
    case CleanupCloseFails(b) => b == a
    case Rejects(b) => b == a
    case _ => false
  }

  lemma OwnStepHasPhase(s: System, es: seq<Event>, e: Event, generation: nat, a: Id)
    requires Enabled(s, e) && IsAsTold(s, es, generation, a) && IsStepOf(e, a)
    ensures IsInOrder(es + [e], a) && Step(s, e).attempts[a] == Attempt(generation, PhaseAfter(es + [e], a))
  {
    OneMore(es, e, a);
    hide Committed, PassedCheck;
  }

  lemma OwnStepHasState(s: System, es: seq<Event>, e: Event, generation: nat, a: Id)
    requires Enabled(s, e) && IsAsTold(s, es, generation, a) && IsStepOf(e, a)
    ensures generation <= Step(s, e).state.generation && HasState(Step(s, e).state, es + [e], generation, a)
  {
    OneMore(es, e, a);
    hide Committed, PassedCheck;
  }

  lemma OtherStepLeavesAttempt(s: System, e: Event, a: Id)
    requires Enabled(s, e) && a in s.attempts && !IsStepOf(e, a) && a < s.nextId
    ensures a in Step(s, e).attempts && Step(s, e).attempts[a] == s.attempts[a]
  {
  }

  lemma SamePhase(es: seq<Event>, e: Event, a: Id)
    requires !IsStepOf(e, a)
    ensures PhaseAfter(es + [e], a) == PhaseAfter(es, a) && (IsInOrder(es + [e], a) <==> IsInOrder(es, a))
  {
    OneMore(es, e, a);
    hide Committed, PassedCheck, IsDisturbed;
  }

  lemma OtherStepHasPhase(s: System, es: seq<Event>, e: Event, generation: nat, a: Id)
    requires Enabled(s, e) && IsAsTold(s, es, generation, a) && !IsStepOf(e, a) && a < s.nextId
    ensures IsInOrder(es + [e], a) && a in Step(s, e).attempts
    ensures Step(s, e).attempts[a] == Attempt(generation, PhaseAfter(es + [e], a))
  {
    OtherStepLeavesAttempt(s, e, a);
    hide *;
    SamePhase(es, e, a);
  }

  /** The state is about the attempt, or holds its child. */
  predicate IsAbout(s: State, generation: nat, a: Id) {
    s == Starting(generation, a) || s == Running(generation, a) || s == ShutdownFailed(generation, a)
  }

  lemma OtherStepLeavesIt(s: System, e: Event, generation: nat, a: Id)
    requires Inv(s) && Enabled(s, e) && a in s.attempts && IsAbout(s.state, generation, a)
    requires !IsStepOf(e, a) && !Disturbs(e, a)
    ensures Step(s, e).state == s.state
  {
  }

  lemma OtherStepIsNotForIt(s: System, e: Event, generation: nat, a: Id)
    requires Enabled(s, e) && a < s.nextId && !IsStepOf(e, a)
    requires s.state != Starting(generation, a) && s.state != Running(generation, a)
    ensures Step(s, e).state != Starting(generation, a) && Step(s, e).state != Running(generation, a)
  {
  }

  lemma DisturbanceEndsIt(s: System, e: Event, generation: nat, a: Id)
    requires Enabled(s, e) && Disturbs(e, a) && generation <= s.state.generation
    ensures Step(s, e).state != Starting(generation, a) && Step(s, e).state != Running(generation, a)
  {
  }

  lemma GenerationsRise(s: System, e: Event)
    requires Enabled(s, e)
    ensures s.state.generation <= Step(s, e).state.generation
  {
  }

  lemma OtherStepHasState(s: System, es: seq<Event>, e: Event, generation: nat, a: Id)
    requires Inv(s) && Enabled(s, e) && IsAsTold(s, es, generation, a) && !IsStepOf(e, a)
    ensures generation <= Step(s, e).state.generation && HasState(Step(s, e).state, es + [e], generation, a)
  {
    GenerationsRise(s, e);
    assert a < s.nextId;
    hide Inv, Step, Enabled, IsInOrder, PhaseAfter, Committed, PassedCheck, StateDuring, IsGivenUp, IsDisturbed, Disturbs;
    SameState(es, e, generation, a);
    if Disturbs(e, a) {
      DisturbanceEndsIt(s, e, generation, a);
    } else if IsDisturbed(es, a) || IsGivenUp(es, a) {
      OtherStepIsNotForIt(s, e, generation, a);
    } else {
      DuringIsAbout(es, generation, a);
      OtherStepLeavesIt(s, e, generation, a);
    }
  }

  lemma SameState(es: seq<Event>, e: Event, generation: nat, a: Id)
    requires !IsStepOf(e, a)
    ensures IsDisturbed(es + [e], a) <==> IsDisturbed(es, a) || Disturbs(e, a)
    ensures StateDuring(es + [e], generation, a) == StateDuring(es, generation, a)
    ensures IsGivenUp(es + [e], a) <==> IsGivenUp(es, a)
  {
    OneMore(es, e, a);
    hide Committed, PassedCheck, Disturbs;
    if IsDisturbed(es, a) {
      var d :| d in es && Disturbs(d, a);
      assert d in es + [e];
    }
    assert e in es + [e];
  }

  lemma DuringIsAbout(es: seq<Event>, generation: nat, a: Id)
    ensures IsAbout(StateDuring(es, generation, a), generation, a)
  {
  }

  lemma StepIsAsTold(s: System, es: seq<Event>, e: Event, generation: nat, a: Id)
    requires Inv(s) && Enabled(s, e) && IsAsTold(s, es, generation, a)
    ensures IsAsTold(Step(s, e), es + [e], generation, a)
  {
    assert a < s.nextId;
    hide Inv, Step, Enabled, IsInOrder, PhaseAfter, HasState;
    if IsStepOf(e, a) {
      OwnStepHasPhase(s, es, e, generation, a);
      OwnStepHasState(s, es, e, generation, a);
    } else {
      OtherStepHasPhase(s, es, e, generation, a);
      OtherStepHasState(s, es, e, generation, a);
    }
  }

  lemma {:induction false} PossibleAppends(s: System, es: seq<Event>, e: Event)
    requires Possible(s, es + [e])
    ensures Possible(s, es) && Enabled(Run(s, es), e) && Run(s, es + [e]) == Step(Run(s, es), e)
    decreases |es|
  {
    if es == [] {
      assert Run(Step(s, e), []) == Step(s, e);
    } else {
      assert (es + [e])[0] == es[0] && (es + [e])[1..] == es[1..] + [e];
      PossibleAppends(Step(s, es[0]), es[1..], e);
    }
  }

  lemma ClaimIsAsTold(s: System)
    requires Inv(s) && Resting(s.state)
    ensures IsAsTold(Step(s, Ensure), [], s.state.generation, s.nextId)
  {
  }

  lemma {:induction false} AttemptIsAsTold(s: System, es: seq<Event>)
    requires Inv(s) && Resting(s.state) && Possible(Step(s, Ensure), es)
    ensures IsAsTold(Run(Step(s, Ensure), es), es, s.state.generation, s.nextId)
    decreases |es|
  {
    var t := Step(s, Ensure);
    if es == [] {
      ClaimIsAsTold(s);
    } else {
      var before, e := es[..|es| - 1], es[|es| - 1];
      assert before + [e] == es;
      PossibleAppends(t, before, e);
      AttemptIsAsTold(s, before);
      StepKeepsInv(s, Ensure);
      RunKeepsInv(t, before);
      StepIsAsTold(Run(t, before), before, e, s.state.generation, s.nextId);
    }
  }

  /** In every run, a start that is claimed at rest succeeds exactly when it commits before a stop is requested or its child's
      exit is seen; and it gets as far as committing exactly when it was found current before either. From its success on, an
      ensure is given its child exactly until a stop is requested or the child's exit is seen; before, it waits for the start
      exactly until that, or until the start is rejected or leaves a child it cannot close. */
  lemma StartsSucceedExactlyUndisturbed(before: seq<Event>, es: seq<Event>)
    requires Possible(Initial, before) && Resting(Run(Initial, before).state)
    requires Possible(Step(Run(Initial, before), Ensure), es)
    ensures
      var s := Run(Initial, before);
      var a, t := s.nextId, Run(Step(s, Ensure), es);
      && (InPhase(t, a, Settled(true)) <==> Committed(es, a))
      && (InPhase(t, a, Settled(false)) <==> Rejects(a) in es)
      && (Enabled(t, CommitRunning(a)) <==> PassedCheck(es, a) && CommitRunning(a) !in es)
      && (Enabled(t, CheckCurrent(a, true)) <==>
            Opens(a) in es && CheckCurrent(a, true) !in es && CheckCurrent(a, false) !in es)
      && (StartClaimOf(t.state) == Existing(a) <==> Committed(es, a) && !IsDisturbed(es, a))
      && (StartClaimOf(t.state) == PendingStart(a) <==>
            !Committed(es, a) && !IsDisturbed(es, a) && Rejects(a) !in es && CleanupCloseFails(a) !in es)
      && (CleanupCloseFails(a) in es && !IsDisturbed(es, a) ==> StartClaimOf(t.state) == HeldByShutdown)
  {
    var s := Run(Initial, before);
    EveryRunKeepsInv(before);
    hide Inv, Step, Run, Possible, IsDisturbed, IsAsTold, PassedCheck, Committed, InPhase, Enabled;
    AttemptIsAsTold(s, es);
    StepKeepsInv(s, Ensure);
    RunKeepsInv(Step(s, Ensure), es);
    var g, a, t := s.state.generation, s.nextId, Run(Step(s, Ensure), es);
    ToldHasGeneration(t, es, g, a);
    StartingIsItsOwn(t, g, a);
    ToldIsExact(t, es, g, a);
  }

  lemma StartingIsItsOwn(t: System, g: nat, a: Id)
    requires Inv(t) && a in t.attempts && t.attempts[a].generation == g
    ensures t.state.Starting? && t.state.operation == a ==> t.state.generation == g
    ensures t.state.Running? && t.state.child == a ==> t.state.generation == g
  {
  }

  lemma ToldHasGeneration(t: System, es: seq<Event>, g: nat, a: Id)
    requires IsAsTold(t, es, g, a)
    ensures a in t.attempts && t.attempts[a].generation == g
  {
  }

  lemma ToldIsExact(t: System, es: seq<Event>, g: nat, a: Id)
    requires IsAsTold(t, es, g, a)
    requires t.state.Starting? && t.state.operation == a ==> t.state.generation == g
    requires t.state.Running? && t.state.child == a ==> t.state.generation == g
    ensures InPhase(t, a, Settled(true)) <==> Committed(es, a)
    ensures InPhase(t, a, Settled(false)) <==> Rejects(a) in es
    ensures Enabled(t, CommitRunning(a)) <==> PassedCheck(es, a) && CommitRunning(a) !in es
    ensures Enabled(t, CheckCurrent(a, true))
            <==> Opens(a) in es && CheckCurrent(a, true) !in es && CheckCurrent(a, false) !in es
    ensures StartClaimOf(t.state) == Existing(a) <==> Committed(es, a) && !IsDisturbed(es, a)
    ensures StartClaimOf(t.state) == PendingStart(a)
            <==> !Committed(es, a) && !IsDisturbed(es, a) && Rejects(a) !in es && CleanupCloseFails(a) !in es
    ensures CleanupCloseFails(a) in es && !IsDisturbed(es, a) ==> StartClaimOf(t.state) == HeldByShutdown
  {
    hide PassedCheck, Committed, IsDisturbed;
  }

  /** With nothing in its way a start that is claimed at rest ends in a running child. */
  lemma PlainStartSucceeds(s: System)
    requires Inv(s) && Resting(s.state)
    ensures
      var es := [Ensure, Opens(s.nextId), CheckCurrent(s.nextId, true), CommitRunning(s.nextId)];
      Possible(s, es) && Run(s, es).state == Running(s.state.generation, s.nextId) && Run(s, es).live == {s.nextId}
  {
    NoChildAtRest(s);
    hide *;
    PlainStartRuns(s);
    var a := s.nextId;
    FourSteps(s, Ensure, Opens(a), CheckCurrent(a, true), CommitRunning(a));
  }

  lemma NoChildAtRest(s: System)
    requires Inv(s) && Resting(s.state)
    ensures s.live == {}
  {
  }

  lemma PlainStartRuns(s: System)
    requires Resting(s.state) && s.live == {}
    ensures var a := s.nextId; var s1 := Step(s, Ensure);
      Enabled(s1, Opens(a)) && Enabled(Step(s1, Opens(a)), CheckCurrent(a, true))
    ensures var a := s.nextId; var s3 := Step(Step(Step(s, Ensure), Opens(a)), CheckCurrent(a, true));
      Enabled(s3, CommitRunning(a))
      && Step(s3, CommitRunning(a)).state == Running(s.state.generation, a) && Step(s3, CommitRunning(a)).live == {a}
  {
  }

  lemma FourSteps(s: System, e1: Event, e2: Event, e3: Event, e4: Event)
    requires Enabled(s, e1) && Enabled(Step(s, e1), e2) && Enabled(Step(Step(s, e1), e2), e3)
    requires Enabled(Step(Step(Step(s, e1), e2), e3), e4)
    ensures Possible(s, [e1, e2, e3, e4]) && Run(s, [e1, e2, e3, e4]) == Step(Step(Step(Step(s, e1), e2), e3), e4)
  {
    hide Step, Enabled;
    var s1 := Step(s, e1);
    var s2 := Step(s1, e2);
    var s3 := Step(s2, e3);
    assert Possible(Step(s3, e4), []) && Run(Step(s3, e4), []) == Step(s3, e4);
    assert [e4] + [] == [e4] && [e3] + [e4] == [e3, e4] && [e2] + [e3, e4] == [e2, e3, e4];
    assert [e1] + [e2, e3, e4] == [e1, e2, e3, e4];
    hide Possible, Run;
    Prepend(s3, e4, []);
    Prepend(s2, e3, [e4]);
    Prepend(s1, e2, [e3, e4]);
    Prepend(s, e1, [e2, e3, e4]);
  }

  /** How a start ends: with the exit of its child, which is a failure if it was unexpected; by being given up; or with a
      child that cannot be closed and is kept for another try. */
  lemma StartsEndAsTold(before: seq<Event>, es: seq<Event>, e: Event)
    requires Possible(Initial, before) && Resting(Run(Initial, before).state)
    requires Possible(Step(Run(Initial, before), Ensure), es + [e])
    requires var a := Run(Initial, before).nextId; !IsDisturbed(es, a) && Rejects(a) !in es
    ensures
      var s := Run(Initial, before);
      var a, g, t := s.nextId, s.state.generation, Run(Step(s, Ensure), es + [e]);
      && (e == ObserveExit(a, true) ==> t.state == Failed(g))
      && (e == ObserveExit(a, false) ==> t.state == Idle(g))
      && (e == CleanupCloseFails(a) ==> t.state == ShutdownFailed(g, a))
      && (e == Rejects(a) ==> t.state == if CleanupCloseFails(a) in es then ShutdownFailed(g, a) else Failed(g))
  {
    var s := Run(Initial, before);
    RunKeepsInv(Initial, before);
    PossibleAppends(Step(s, Ensure), es, e);
    AttemptIsAsTold(s, es);
    StepKeepsInv(s, Ensure);
    RunKeepsInv(Step(s, Ensure), es);
    hide Run, Possible, IsInOrder, Committed, PassedCheck, IsDisturbed, Inv, HasState;
    EndingStep(Run(Step(s, Ensure), es), es, e, s.state.generation, s.nextId);
  }

  lemma EndingStep(s: System, es: seq<Event>, e: Event, g: nat, a: Id)
    requires Enabled(s, e) && HasState(s.state, es, g, a) && !IsDisturbed(es, a) && Rejects(a) !in es
    ensures var t := Step(s, e);
      && (e == ObserveExit(a, true) ==> t.state == Failed(g))
      && (e == ObserveExit(a, false) ==> t.state == Idle(g))
      && (e == CleanupCloseFails(a) ==> t.state == ShutdownFailed(g, a))
      && (e == Rejects(a) && CleanupCloseFails(a) in es ==> t.state == ShutdownFailed(g, a))
      && (e == Rejects(a) && CleanupCloseFails(a) !in es && !Committed(es, a) ==> t.state == Failed(g))
  {
    hide IsDisturbed;
  }

  // ---- What becomes of a stop, told from the events since it was requested

  /** The child that the rule has, running or still to be closed, and the start that it waits for. */
  function ChildOf(s: State): Option<Id> {
    if s.Running? || s.ShutdownFailed? then Some(s.child) else None
  }

  function StartOf(s: State): Option<Id> {
    if s.Starting? then Some(s.operation) else None
  }

  /** The attempt has left a child that it could not close and whose exit has not been seen since. */
  predicate LeftBehind(es: seq<Event>, pending: Option<Id>) {
    es != [] && pending.Some?
    && (es[|es| - 1] == CleanupCloseFails(pending.value)
        || (LeftBehind(es[..|es| - 1], pending)
            && es[|es| - 1] != ObserveExit(pending.value, true) && es[|es| - 1] != ObserveExit(pending.value, false)))
  }

  /** The stop found such a child when the attempt that it waited for was over. */
  predicate FoundLeftBehind(es: seq<Event>, op: Id, pending: Option<Id>) {
    es != []
    && (FoundLeftBehind(es[..|es| - 1], op, pending)
        || (es[|es| - 1] == PendingSettles(op) && LeftBehind(es[..|es| - 1], pending)))
  }

  function StopPhaseAfter(es: seq<Event>, op: Id, previous: Option<Id>, pending: Option<Id>): StopPhase {
    if StopFinishes(op) in es || StopFails(op) in es then Done
    else if PreviousCloseFails(op) in es || FoundLeftBehind(es, op, pending) then Failing
    else if PendingSettles(op) in es then Finishing
    else if previous.Some? && PreviousCloses(op) !in es then ClosingPrevious
    else AwaitingPending
  }

  ghost predicate StopIsAsTold(s: System, es: seq<Event>, generation: nat, op: Id, previous: Option<Id>, pending: Option<Id>) {
    && op in s.stops && s.stops[op] == StopRun(previous, pending, StopPhaseAfter(es, op, previous, pending))
    && (if s.stops[op].phase.Done? then !(s.state.Stopping? && s.state.operation == op)
        else s.state == Stopping(generation, op, if LeftBehind(es, pending) then pending else None))
    && (FoundLeftBehind(es, op, pending) ==> PendingSettles(op) in es)
    && (PendingSettles(op) in es ==> previous.None? || PreviousCloses(op) in es)
    && (PreviousCloseFails(op) in es ==> PreviousCloses(op) !in es && PendingSettles(op) !in es)
  }

  lemma OneMoreOfStop(es: seq<Event>, e: Event, op: Id, pending: Option<Id>)
    ensures LeftBehind(es + [e], pending) <==>
              pending.Some? && (e == CleanupCloseFails(pending.value)
                                || (LeftBehind(es, pending) && e != ObserveExit(pending.value, true)
                                    && e != ObserveExit(pending.value, false)))
    ensures LeftBehind(es, pending) ==> pending.Some?
    ensures FoundLeftBehind(es + [e], op, pending) <==>
              FoundLeftBehind(es, op, pending) || (e == PendingSettles(op) && LeftBehind(es, pending))
    ensures forall d :: d in es + [e] <==> d in es || d == e
  {
    assert (es + [e])[..|es|] == es;
  }

  predicate IsStepOfStop(e: Event, op: Id) {
    match e
    case PreviousCloses(b) => b == op
    case PreviousCloseFails(b) => b == op
    case PendingSettles(b) => b == op
    case StopFinishes(b) => b == op
    case StopFails(b) => b == op
    case _ => false
  }

  lemma StopStepHasPhase(s: System, es: seq<Event>, e: Event, generation: nat, op: Id, previous: Option<Id>, pending: Option<Id>)
    requires Enabled(s, e) && StopIsAsTold(s, es, generation, op, previous, pending) && IsStepOfStop(e, op)
    requires LeftBehind(es, pending) && e.PendingSettles? ==> InPhase(s, pending.value, Settled(false))
    ensures var t := Step(s, e);
      op in t.stops && t.stops[op] == StopRun(previous, pending, StopPhaseAfter(es + [e], op, previous, pending))
  {
    OneMoreOfStop(es, e, op, pending);
    hide LeftBehind, FoundLeftBehind;
  }

  lemma OtherStopStepHasPhase(s: System, es: seq<Event>, e: Event, generation: nat, op: Id, previous: Option<Id>, pending: Option<Id>)
    requires Enabled(s, e) && StopIsAsTold(s, es, generation, op, previous, pending) && !IsStepOfStop(e, op) && op < s.nextId
    ensures var t := Step(s, e);
      op in t.stops && t.stops[op] == StopRun(previous, pending, StopPhaseAfter(es + [e], op, previous, pending))
  {
    OneMoreOfStop(es, e, op, pending);
    hide LeftBehind, FoundLeftBehind;
  }

  lemma StopStepHasState(s: System, es: seq<Event>, e: Event, generation: nat, op: Id, previous: Option<Id>, pending: Option<Id>)
    requires Inv(s) && Enabled(s, e) && StopIsAsTold(s, es, generation, op, previous, pending)
    requires !s.stops[op].phase.Done? && e != StopFinishes(op) && e != StopFails(op)
    ensures Step(s, e).state == Stopping(generation, op, if LeftBehind(es + [e], pending) then pending else None)
  {
    OneMoreOfStop(es, e, op, pending);
    hide LeftBehind, FoundLeftBehind;
  }

  lemma EndedStopStaysEnded(s: System, e: Event, op: Id)
    requires Enabled(s, e) && op < s.nextId
    requires !(s.state.Stopping? && s.state.operation == op) || e == StopFinishes(op) || e == StopFails(op)
    ensures var t := Step(s, e).state; !(t.Stopping? && t.operation == op)
  {
  }

  lemma SettledWhenLeftBehind(s: System, es: seq<Event>, generation: nat, op: Id, previous: Option<Id>, pending: Option<Id>)
    requires Inv(s) && StopIsAsTold(s, es, generation, op, previous, pending)
    requires LeftBehind(es, pending) && Enabled(s, PendingSettles(op))
    ensures InPhase(s, pending.value, Settled(false))
  {
  }

  lemma StopStepIsAsTold(s: System, es: seq<Event>, e: Event, generation: nat, op: Id, previous: Option<Id>, pending: Option<Id>)
    requires Inv(s) && Enabled(s, e) && StopIsAsTold(s, es, generation, op, previous, pending)
    ensures StopIsAsTold(Step(s, e), es + [e], generation, op, previous, pending)
  {
    StopStepIsInOrder(s, es, e, generation, op, previous, pending);
    StopPhaseIsDone(es, e, op, previous, pending);
    assert op < s.nextId;
    hide Inv, Step, Enabled, LeftBehind, FoundLeftBehind;
    if IsStepOfStop(e, op) {
      if LeftBehind(es, pending) && e.PendingSettles? { SettledWhenLeftBehind(s, es, generation, op, previous, pending); }
      StopStepHasPhase(s, es, e, generation, op, previous, pending);
    } else {
      OtherStopStepHasPhase(s, es, e, generation, op, previous, pending);
    }
    if s.stops[op].phase.Done? || e == StopFinishes(op) || e == StopFails(op) {
      EndedStopStaysEnded(s, e, op);
    } else {
      StopStepHasState(s, es, e, generation, op, previous, pending);
    }
  }

  lemma StopPhaseIsDone(es: seq<Event>, e: Event, op: Id, previous: Option<Id>, pending: Option<Id>)
    ensures StopPhaseAfter(es + [e], op, previous, pending).Done?
            <==> StopPhaseAfter(es, op, previous, pending).Done? || e == StopFinishes(op) || e == StopFails(op)
  {
    OneMoreOfStop(es, e, op, pending);
  }

  lemma StopStepIsInOrder(s: System, es: seq<Event>, e: Event, generation: nat, op: Id, previous: Option<Id>, pending: Option<Id>)
    requires Enabled(s, e) && StopIsAsTold(s, es, generation, op, previous, pending)
    ensures var es' := es + [e];
      && (FoundLeftBehind(es', op, pending) ==> PendingSettles(op) in es')
      && (PendingSettles(op) in es' ==> previous.None? || PreviousCloses(op) in es')
      && (PreviousCloseFails(op) in es' ==> PreviousCloses(op) !in es' && PendingSettles(op) !in es')
  {
    OneMoreOfStop(es, e, op, pending);
    hide LeftBehind, FoundLeftBehind, Step;
  }

  lemma {:induction false} StopIsAsToldInRuns(s: System, es: seq<Event>)
    requires Inv(s) && StopClaimOf(s.state).Stop? && Possible(Step(s, RequestStop), es)
    ensures var claim := StopClaimOf(s.state);
      StopIsAsTold(Run(Step(s, RequestStop), es), es, s.state.generation + 1, s.nextId, claim.previous, claim.pending)
    decreases |es|
  {
    var t := Step(s, RequestStop);
    if es != [] {
      var before, e := es[..|es| - 1], es[|es| - 1];
      assert before + [e] == es;
      PossibleAppends(t, before, e);
      StopIsAsToldInRuns(s, before);
      StepKeepsInv(s, RequestStop);
      RunKeepsInv(t, before);
      StopStepIsAsTold(Run(t, before), before, e, s.state.generation + 1, s.nextId, StopClaimOf(s.state).previous,
                       StopClaimOf(s.state).pending);
    }
  }

  /** In every run, a stop takes over what the rule has: a running child or one that could not be closed, which it closes, or
      a start, which it waits for. An ensure waits for it until it finishes or fails. It can finish once what it waits for is
      over and has left no child behind, and fail exactly if its close failed or a child was left behind. */
  lemma StopsEndAsTold(before: seq<Event>, es: seq<Event>)
    requires Possible(Initial, before) && !Resting(Run(Initial, before).state) && !Run(Initial, before).state.Stopping?
    requires Possible(Step(Run(Initial, before), RequestStop), es)
    ensures
      var s := Run(Initial, before);
      var op, g, t := s.nextId, s.state.generation + 1, Run(Step(s, RequestStop), es);
      var previous, pending := ChildOf(s.state), StartOf(s.state);
      var over := StopFinishes(op) in es || StopFails(op) in es;
      && (StartClaimOf(t.state) == WaitForStop(op) <==> !over)
      && (Enabled(t, StopFinishes(op)) <==> !over && PendingSettles(op) in es && !FoundLeftBehind(es, op, pending))
      && (Enabled(t, StopFails(op)) <==> !over && (PreviousCloseFails(op) in es || FoundLeftBehind(es, op, pending)))
      && (Enabled(t, StopFinishes(op)) ==> Step(t, StopFinishes(op)).state == Idle(g))
      && (Enabled(t, StopFails(op)) ==>
            Step(t, StopFails(op)).state
            == if pending.Some? && LeftBehind(es, pending) then ShutdownFailed(g, pending.value)
               else if previous.Some? then ShutdownFailed(g, previous.value) else Failed(g))
  {
    hide *;
    var s := Run(Initial, before);
    var op, g := s.nextId, s.state.generation + 1;
    var previous, pending := ChildOf(s.state), StartOf(s.state);
    StopTakesWhatIsThere(s.state);
    RequestsAreEnabled(s);
    EveryRunKeepsInv(before);
    StopIsAsToldInRuns(s, es);
    OneMoreOfStop(es, RequestStop, op, pending);
    StopToldIsExact(Run(Step(s, RequestStop), es), es, g, op, previous, pending);
  }

  lemma StopToldIsExact(t: System, es: seq<Event>, g: nat, op: Id, previous: Option<Id>, pending: Option<Id>)
    requires StopIsAsTold(t, es, g, op, previous, pending)
    ensures
      var over := StopFinishes(op) in es || StopFails(op) in es;
      && (StartClaimOf(t.state) == WaitForStop(op) <==> !over)
      && (Enabled(t, StopFinishes(op)) <==> !over && PendingSettles(op) in es && !FoundLeftBehind(es, op, pending))
      && (Enabled(t, StopFails(op)) <==> !over && (PreviousCloseFails(op) in es || FoundLeftBehind(es, op, pending)))
      && (Enabled(t, StopFinishes(op)) ==> Step(t, StopFinishes(op)).state == Idle(g))
      && (Enabled(t, StopFails(op)) ==>
            Step(t, StopFails(op)).state
            == if pending.Some? && LeftBehind(es, pending) then ShutdownFailed(g, pending.value)
               else if previous.Some? then ShutdownFailed(g, previous.value) else Failed(g))
  {
    hide FoundLeftBehind, LeftBehind;
  }

  lemma RequestsAreEnabled(s: System)
    ensures Enabled(s, Ensure) && Enabled(s, RequestStop)
  {
  }

  lemma StopTakesWhatIsThere(s: State)
    requires !Resting(s) && !s.Stopping?
    ensures StopClaimOf(s) == Stop(ChildOf(s), StartOf(s))
  {
  }

  /** A stop at rest only outlaws what was started before. */
  lemma StopAtRest(s: System)
    ensures Resting(s.state) ==> Step(s, RequestStop) == s.(state := Idle(s.state.generation + 1))
    ensures s.state.Stopping? ==> Step(s, RequestStop) == s
  {
  }
}
