/** The lifecycle of one workspace's helper connection, and every interleaving of its connection
    attempts, closes, workspace actions, child exits and failed shutdowns
    (apps/coder-gateway/src/workspaceConnections.ts). */
module WorkspaceConnections {
  import opened Options
  import opened SmallSets

  /** Names a deferred promise. An attempt keeps at most one child, so it names that too. */
  type Id = nat

  datatype Action = StartWorkspace | StopWorkspace | RestartWorkspace | UpdateWorkspace

  datatype State =
    | ShutdownFailed(generation: nat, child: Id)
    | Disconnected(generation: nat)
    | Connecting(generation: nat, operation: Id)
    | Connected(generation: nat, child: Id)
    | Changing(generation: nat, action: Action, operation: Id, shutdownFailure: Option<Id>)

  datatype ConnectionClaim =
    | HeldByShutdown
    | Existing(child: Id)
    | PendingStart(start: Id)
    | WaitForChange(change: Id)
    | Start(generation: nat)

  /** The claim of a close or of an action: `Take` interrupts whatever held the child. */
  datatype ChangeClaim =
    | Closed
    | Pending(change: Id)
    | Conflict(action: Action)
    | Take(previous: Option<Id>, pending: Option<Id>)

  // ---- The atomic updates of one workspace's state

  function ConnectionClaimOf(s: State): ConnectionClaim {
    match s
    case ShutdownFailed(_, _) => HeldByShutdown
    case Connected(_, c) => Existing(c)
    case Connecting(_, a) => PendingStart(a)
    case Changing(_, _, op, _) => WaitForChange(op)
    case Disconnected(g) => Start(g)
  }

  function AfterConnectionClaim(s: State, op: Id): State {
    if s.Disconnected? then Connecting(s.generation, op) else s
  }

  predicate IsCurrentStart(s: State, generation: nat, op: Id) {
    s == Connecting(generation, op)
  }

  function AfterCommit(s: State, generation: nat, op: Id): State {
    if IsCurrentStart(s, generation, op) then Connected(generation, op) else s
  }

  function AfterChildClosed(s: State, child: Id): State {
    if s.Changing? && s.shutdownFailure == Some(child) then
      s.(shutdownFailure := None)
    else if ((s.Connected? || s.ShutdownFailed?) && s.child == child) || (s.Connecting? && s.operation == child) then
      Disconnected(s.generation)
    else
      s
  }

  function AfterCleanupFailed(s: State, child: Id): State {
    if s.Changing? then s.(shutdownFailure := Some(child)) else ShutdownFailed(s.generation, child)
  }

  function AfterStartRejected(s: State, op: Id): State {
    if s.Connecting? && s.operation == op then Disconnected(s.generation) else s
  }

  function Taken(s: State): ChangeClaim {
    Take(
      if s.Connected? || s.ShutdownFailed? then Some(s.child) else None,
      if s.Connecting? then Some(s.operation) else None)
  }

  function CloseClaimOf(s: State): ChangeClaim {
    match s
    case Changing(_, _, op, _) => Pending(op)
    case Disconnected(_) => Closed
    case _ => Taken(s)
  }

  function AfterCloseClaim(s: State, op: Id): State {
    match CloseClaimOf(s)
    case Closed => Disconnected(s.generation + 1)
    case Take(_, _) => Changing(s.generation + 1, StopWorkspace, op, None)
    case _ => s
  }

  function ActionClaimOf(s: State, action: Action): ChangeClaim {
    match s
    case Changing(_, active, op, _) => if active == action then Pending(op) else Conflict(active)
    case _ => Taken(s)
  }

  function AfterActionClaim(s: State, action: Action, op: Id): State {
    if s.Changing? then s else Changing(s.generation + 1, action, op, None)
  }

  function AfterChangeDone(s: State, op: Id): State {
    if s.Changing? && s.operation == op then Disconnected(s.generation) else s
  }

  /** `unclosed` is the connection the change took over and did not manage to close. */
  function AfterChangeFailed(s: State, op: Id, unclosed: Option<Id>): State {
    if s.Changing? && s.operation == op then
      match (s.shutdownFailure, unclosed)
      case (Some(c), _) => ShutdownFailed(s.generation, c)
      case (None, Some(c)) => ShutdownFailed(s.generation, c)
      case (None, None) => Disconnected(s.generation)
    else
      s
  }

  function Lookup(lifecycles: map<string, State>, workspace: string): State {
    if workspace in lifecycles then lifecycles[workspace] else Disconnected(0)
  }

  /** The manager's table of workspaces. Each method is one atomic update of one reference. */
  class WorkspaceConnectionManager {
    var lifecycles: map<string, State>

    constructor ()
      ensures lifecycles == map[]
    {
      lifecycles := map[];
    }

    method Lifecycle(workspace: string) returns (state: State)
      modifies this
      ensures state == Lookup(old(lifecycles), workspace)
      ensures lifecycles == old(lifecycles)[workspace := state]
    {
      if workspace !in lifecycles {
        lifecycles := lifecycles[workspace := Disconnected(0)];
      }
      state := lifecycles[workspace];
    }

    method ClaimConnection(workspace: string, op: Id) returns (claim: ConnectionClaim)
      modifies this
      ensures var s := Lookup(old(lifecycles), workspace);
        && claim == ConnectionClaimOf(s)
        && lifecycles == old(lifecycles)[workspace := AfterConnectionClaim(s, op)]
    {
      var state := Lifecycle(workspace);
      match state {
        case ShutdownFailed(_, _) => claim := HeldByShutdown;
        case Connected(_, c) => claim := Existing(c);
        case Connecting(_, a) => claim := PendingStart(a);
        case Changing(_, _, change, _) => claim := WaitForChange(change);
        case Disconnected(generation) =>
          claim := Start(generation);
          lifecycles := lifecycles[workspace := Connecting(generation, op)];
      }
    }

    method Commit(workspace: string, generation: nat, op: Id) returns (connected: bool)
      modifies this
      ensures var s := Lookup(old(lifecycles), workspace);
        && connected == IsCurrentStart(s, generation, op)
        && lifecycles == old(lifecycles)[workspace := AfterCommit(s, generation, op)]
    {
      var state := Lifecycle(workspace);
      if !state.Connecting? || state.generation != generation || state.operation != op {
        return false;
      }
      lifecycles := lifecycles[workspace := Connected(generation, op)];
      return true;
    }

    method ChildClosed(workspace: string, child: Id)
      modifies this
      ensures var s := Lookup(old(lifecycles), workspace);
        lifecycles == old(lifecycles)[workspace := AfterChildClosed(s, child)]
    {
      var state := Lifecycle(workspace);
      if state.Changing? && state.shutdownFailure == Some(child) {
        lifecycles := lifecycles[workspace := state.(shutdownFailure := None)];
        return;
      }
      if ((state.Connected? || state.ShutdownFailed?) && state.child == child)
         || (state.Connecting? && state.operation == child)
      {
        lifecycles := lifecycles[workspace := Disconnected(state.generation)];
      }
    }

    method CleanupFailed(workspace: string, child: Id)
      modifies this
      ensures var s := Lookup(old(lifecycles), workspace);
        lifecycles == old(lifecycles)[workspace := AfterCleanupFailed(s, child)]
    {
      var state := Lifecycle(workspace);
      var next := ShutdownFailed(state.generation, child);
      if state.Changing? {
        next := state.(shutdownFailure := Some(child));
      }
      lifecycles := lifecycles[workspace := next];
    }

    method StartRejected(workspace: string, op: Id)
      modifies this
      ensures var s := Lookup(old(lifecycles), workspace);
        lifecycles == old(lifecycles)[workspace := AfterStartRejected(s, op)]
    {
      var state := Lifecycle(workspace);
      if state.Connecting? && state.operation == op {
        lifecycles := lifecycles[workspace := Disconnected(state.generation)];
      }
    }

    method ClaimClose(workspace: string, op: Id) returns (claim: ChangeClaim)
      modifies this
      ensures var s := Lookup(old(lifecycles), workspace);
        claim == CloseClaimOf(s) && lifecycles == old(lifecycles)[workspace := AfterCloseClaim(s, op)]
    {
      var state := Lifecycle(workspace);
      if state.Changing? {
        return Pending(state.operation);
      }
      var generation := state.generation + 1;
      if state.Disconnected? {
        lifecycles := lifecycles[workspace := Disconnected(generation)];
        return Closed;
      }
      claim := Take(
        if state.Connected? || state.ShutdownFailed? then Some(state.child) else None,
        if state.Connecting? then Some(state.operation) else None);
      lifecycles := lifecycles[workspace := Changing(generation, StopWorkspace, op, None)];
    }

    method ClaimAction(workspace: string, action: Action, op: Id) returns (claim: ChangeClaim)
      modifies this
      ensures var s := Lookup(old(lifecycles), workspace);
        && claim == ActionClaimOf(s, action)
        && lifecycles == old(lifecycles)[workspace := AfterActionClaim(s, action, op)]
    {
      var state := Lifecycle(workspace);
      if state.Changing? {
        if state.action == action {
          return Pending(state.operation);
        }
        return Conflict(state.action);
      }
      claim := Take(
        if state.Connected? || state.ShutdownFailed? then Some(state.child) else None,
        if state.Connecting? then Some(state.operation) else None);
      lifecycles := lifecycles[workspace := Changing(state.generation + 1, action, op, None)];
    }

    method ChangeDone(workspace: string, op: Id)
      modifies this
      ensures var s := Lookup(old(lifecycles), workspace);
        lifecycles == old(lifecycles)[workspace := AfterChangeDone(s, op)]
    {
      var state := Lifecycle(workspace);
      if state.Changing? && state.operation == op {
        lifecycles := lifecycles[workspace := Disconnected(state.generation)];
      }
    }

    method ChangeFailed(workspace: string, op: Id, unclosed: Option<Id>)
      modifies this
      ensures var s := Lookup(old(lifecycles), workspace);
        lifecycles == old(lifecycles)[workspace := AfterChangeFailed(s, op, unclosed)]
    {
      var state := Lifecycle(workspace);
      if state.Changing? && state.operation == op {
        var failure := if state.shutdownFailure.Some? then state.shutdownFailure else unclosed;
        var next := Disconnected(state.generation);
        if failure.Some? {
          next := ShutdownFailed(state.generation, failure.value);
        }
        lifecycles := lifecycles[workspace := next];
      }
    }
  }

  // ---- Every interleaving, as a state machine over those updates

  /** Where an attempt's fiber stands. `Rejecting` is after its cleanup, before its promise. */
  datatype Phase = Opening | Acquired | Checked | Cleaning | Rejecting | Settled(ok: bool)

  datatype Attempt = Attempt(generation: nat, phase: Phase)

  /** Where a close or an action stands; only an action looks its workspace up and works. */
  datatype ChangePhase = LookingUp | ClosingPrevious | AwaitingPending | Working | Finishing | Failing | Done | Failed

  datatype Change = Change(
    isAction: bool, previous: Option<Id>, pending: Option<Id>, phase: ChangePhase, helperClosed: bool)

  /** `live` are the running children; `watched` are those whose exit observer has not run yet. */
  datatype System = System(
    state: State,
    attempts: map<Id, Attempt>,
    changes: map<Id, Change>,
    nextId: Id,
    live: set<Id>,
    watched: set<Id>)

  datatype Event =
    | Ensure
    | OpenFails(attempt: Id)
    | Opens(attempt: Id)
    | CheckCurrent(attempt: Id, configCurrent: bool)
    | CommitConnected(attempt: Id)
    | CleanupCloses(attempt: Id)
    | CleanupCloseFails(attempt: Id)
    | Rejects(attempt: Id)
    | ChildExits(child: Id)
    | ObserveExit(child: Id)
    | RequestClose
    | RequestAction(action: Action)
    | FindsWorkspace(change: Id)
    | PreviousCloses(change: Id)
    | PreviousCloseFails(change: Id)
    | PendingSettles(change: Id)
    | Works(change: Id, ok: bool)
    | ChangeFinishes(change: Id)
    | ChangeFails(change: Id)

  const Initial := System(Disconnected(0), map[], map[], 0, {}, {})

  predicate InPhase(s: System, a: Id, phase: Phase) {
    a in s.attempts && s.attempts[a].phase == phase
  }

  predicate ChangeIn(s: System, op: Id, phase: ChangePhase) {
    op in s.changes && s.changes[op].phase == phase
  }

  predicate Enabled(s: System, e: Event) {
    match e
    case Ensure => true
    case OpenFails(a) => InPhase(s, a, Opening)
    case Opens(a) => InPhase(s, a, Opening)
    case CheckCurrent(a, _) => InPhase(s, a, Acquired)
    case CommitConnected(a) => InPhase(s, a, Checked)
    case CleanupCloses(a) => InPhase(s, a, Cleaning)
    // Closing a child that is already dead succeeds.
    case CleanupCloseFails(a) => InPhase(s, a, Cleaning) && a in s.live
    case Rejects(a) => InPhase(s, a, Rejecting)
    case ChildExits(c) => c in s.live
    case ObserveExit(c) => c in s.watched && c !in s.live
    case RequestClose => true
    case RequestAction(_) => true
    case FindsWorkspace(op) => ChangeIn(s, op, LookingUp)
    case PreviousCloses(op) => ChangeIn(s, op, ClosingPrevious)
    case PreviousCloseFails(op) =>
      ChangeIn(s, op, ClosingPrevious) && s.changes[op].previous.Some? && s.changes[op].previous.value in s.live
    case PendingSettles(op) =>
      ChangeIn(s, op, AwaitingPending)
      && match s.changes[op].pending {
           case None => true
           case Some(a) => a in s.attempts && s.attempts[a].phase.Settled?
         }
    case Works(op, _) => ChangeIn(s, op, Working)
    case ChangeFinishes(op) => ChangeIn(s, op, Finishing)
    case ChangeFails(op) => ChangeIn(s, op, Failing)
  }

  function SetPhase(s: System, a: Id, phase: Phase): System
    requires a in s.attempts
  {
    s.(attempts := s.attempts[a := s.attempts[a].(phase := phase)])
  }

  function SetChange(s: System, op: Id, phase: ChangePhase): System
    requires op in s.changes
  {
    s.(changes := s.changes[op := s.changes[op].(phase := phase)])
  }

  function AfterLookup(previous: Option<Id>): ChangePhase {
    if previous.Some? then ClosingPrevious else AwaitingPending
  }

  function AddChange(s: System, isAction: bool, claim: ChangeClaim): System
    requires claim.Take?
  {
    var phase := if isAction then LookingUp else AfterLookup(claim.previous);
    s.(changes := s.changes[s.nextId := Change(isAction, claim.previous, claim.pending, phase, false)],
       nextId := s.nextId + 1)
  }

  /** The rejected wait is rethrown exactly when the attempt's cleanup left its child behind. */
  predicate RethrowsPending(s: State) {
    s.ShutdownFailed? || (s.Changing? && s.shutdownFailure.Some?)
  }

  /** A failed close gives back what it took; a failed action only before the helper closed. */
  function Unclosed(change: Change): Option<Id> {
    if change.isAction && change.helperClosed then None else change.previous
  }

  function Step(s: System, e: Event): System
    requires Enabled(s, e)
  {
    match e
    case Ensure =>
      if ConnectionClaimOf(s.state).Start? then
        s.(state := AfterConnectionClaim(s.state, s.nextId),
           attempts := s.attempts[s.nextId := Attempt(s.state.generation, Opening)],
           nextId := s.nextId + 1)
      else s
    case OpenFails(a) => SetPhase(s, a, Rejecting)
    case Opens(a) => SetPhase(s, a, Acquired).(live := s.live + {a}, watched := s.watched + {a})
    case CheckCurrent(a, configCurrent) =>
      if configCurrent && IsCurrentStart(s.state, s.attempts[a].generation, a)
      then SetPhase(s, a, Checked) else SetPhase(s, a, Cleaning)
    case CommitConnected(a) =>
      var generation := s.attempts[a].generation;
      if IsCurrentStart(s.state, generation, a)
      then SetPhase(s, a, Settled(true)).(state := AfterCommit(s.state, generation, a))
      else SetPhase(s, a, Cleaning)
    case CleanupCloses(a) => SetPhase(s, a, Rejecting).(live := s.live - {a})
    case CleanupCloseFails(a) => SetPhase(s, a, Rejecting).(state := AfterCleanupFailed(s.state, a))
    case Rejects(a) => SetPhase(s, a, Settled(false)).(state := AfterStartRejected(s.state, a))
    case ChildExits(c) => s.(live := s.live - {c})
    case ObserveExit(c) => s.(state := AfterChildClosed(s.state, c), watched := s.watched - {c})
    case RequestClose =>
      var claimed := s.(state := AfterCloseClaim(s.state, s.nextId));
      if CloseClaimOf(s.state).Take? then AddChange(claimed, false, CloseClaimOf(s.state)) else claimed
    case RequestAction(action) =>
      var claimed := s.(state := AfterActionClaim(s.state, action, s.nextId));
      if ActionClaimOf(s.state, action).Take?
      then AddChange(claimed, true, ActionClaimOf(s.state, action)) else claimed
    case FindsWorkspace(op) => SetChange(s, op, AfterLookup(s.changes[op].previous))
    case PreviousCloses(op) =>
      SetChange(s, op, AwaitingPending).(
        live := s.live - (if s.changes[op].previous.Some? then {s.changes[op].previous.value} else {}))
    case PreviousCloseFails(op) => SetChange(s, op, Failing)
    case PendingSettles(op) =>
      var change := s.changes[op];
      var rethrows := change.pending.Some? && s.attempts[change.pending.value].phase == Settled(false)
                      && RethrowsPending(s.state);
      var phase := if rethrows then Failing else if change.isAction then Working else Finishing;
      s.(changes := s.changes[op := change.(phase := phase, helperClosed := true)])
    case Works(op, ok) => SetChange(s, op, if ok then Finishing else Failing)
    case ChangeFinishes(op) => SetChange(s, op, Done).(state := AfterChangeDone(s.state, op))
    case ChangeFails(op) =>
      SetChange(s, op, Failed).(state := AfterChangeFailed(s.state, op, Unclosed(s.changes[op])))
  }

  predicate Possible(s: System, es: seq<Event>)
    decreases |es|
  {
    es == [] || (Enabled(s, es[0]) && Possible(Step(s, es[0]), es[1..]))
  }

  function Run(s: System, es: seq<Event>): System
    requires Possible(s, es)
    decreases |es|
  {
    if es == [] then s else Run(Step(s, es[0]), es[1..])
  }

  // ---- The invariant

  /** The attempt that the current start, or the current change, is waiting for. */
  predicate Awaited(s: System, a: Id) {
    match s.state
    case Connecting(_, op) => op == a
    case Changing(_, _, op, None) =>
      (ChangeIn(s, op, LookingUp) || ChangeIn(s, op, AwaitingPending)) && s.changes[op].pending == Some(a)
    case _ => false
  }

  /** The child the state holds, or holds as a change's previous connection. */
  predicate Held(s: System, c: Id) {
    match s.state
    case Connected(_, child) => child == c
    case ShutdownFailed(_, child) => child == c
    case Changing(_, _, _, Some(child)) => child == c
    case Changing(_, _, op, None) =>
      && (ChangeIn(s, op, LookingUp) || ChangeIn(s, op, ClosingPrevious) || ChangeIn(s, op, Failing))
      && Unclosed(s.changes[op]) == Some(c)
    case _ => false
  }

  predicate Unfinished(phase: Phase) {
    phase in {Opening, Acquired, Checked, Cleaning}
  }

  predicate Ended(change: Change) {
    change.phase.Done? || change.phase.Failed?
  }

  ghost predicate Inv(s: System) {
    && (forall a <- s.attempts :: a < s.nextId && s.attempts[a].generation <= s.state.generation)
    && (forall op <- s.changes :: op < s.nextId)
    && (forall op <- s.changes :: Ended(s.changes[op]) || (s.state.Changing? && s.state.operation == op))
    && s.live <= s.watched <= s.attempts.Keys
    && (forall a <- s.attempts :: InPhase(s, a, Opening) ==> Awaited(s, a) && a !in s.watched)
    && (forall c <- s.live :: if Unfinished(s.attempts[c].phase) then Awaited(s, c) else Held(s, c))
    && (s.state.Connecting? ==>
          && s.state.operation in s.attempts
          && s.attempts[s.state.operation].generation == s.state.generation
          && !s.attempts[s.state.operation].phase.Settled?)
    && (s.state.Connected? ==>
          && s.state.child in s.attempts
          && s.attempts[s.state.child] == Attempt(s.state.generation, Settled(true)))
    && (s.state.Changing? ==>
          && ChangeInv(s, s.state.operation, s.state.shutdownFailure)
          && forall a <- s.attempts :: s.attempts[a].generation < s.state.generation)
  }

  ghost predicate ChangeInv(s: System, op: Id, shutdownFailure: Option<Id>) {
    && op in s.changes
    && var change := s.changes[op];
    && !Ended(change)
    && (change.previous.None? || change.pending.None?)
    && (change.phase.ClosingPrevious? ==> change.previous.Some?)
    && (change.phase in {LookingUp, ClosingPrevious} ==> !change.helperClosed)
    && (change.pending.Some? ==> change.pending.value in s.attempts)
    && (change.phase in {Working, Finishing} ==> shutdownFailure.None?)
    && (change.phase == Working ==> change.isAction && change.helperClosed)
    && (shutdownFailure.Some? ==>
          && change.pending == shutdownFailure
          && s.attempts[shutdownFailure.value].phase in {Rejecting, Settled(false)})
  }

  lemma EnsureKeepsInv(s: System, e: Event)
    requires Inv(s) && Enabled(s, e) && e.Ensure?
    ensures Inv(Step(s, e))
  {
  }

  lemma CloseClaimKeepsInv(s: System, e: Event)
    requires Inv(s) && Enabled(s, e) && e.RequestClose?
    ensures Inv(Step(s, e))
  {
  }

  lemma ActionClaimKeepsInv(s: System, e: Event)
    requires Inv(s) && Enabled(s, e) && e.RequestAction?
    ensures Inv(Step(s, e))
  {
  }

  lemma OpenKeepsInv(s: System, e: Event)
    requires Inv(s) && Enabled(s, e) && (e.OpenFails? || e.Opens?)
    ensures Inv(Step(s, e))
  {
  }

  lemma CheckKeepsInv(s: System, e: Event)
    requires Inv(s) && Enabled(s, e) && e.CheckCurrent?
    ensures Inv(Step(s, e))
  {
  }

  lemma CommitKeepsInv(s: System, e: Event)
    requires Inv(s) && Enabled(s, e) && e.CommitConnected?
    ensures Inv(Step(s, e))
  {
  }

  lemma CleanupCloseKeepsInv(s: System, e: Event)
    requires Inv(s) && Enabled(s, e) && e.CleanupCloses?
    ensures Inv(Step(s, e))
  {
  }

  lemma CleanupFailKeepsInv(s: System, e: Event)
    requires Inv(s) && Enabled(s, e) && e.CleanupCloseFails?
    ensures Inv(Step(s, e))
  {
  }

  lemma RejectKeepsInv(s: System, e: Event)
    requires Inv(s) && Enabled(s, e) && e.Rejects?
    ensures Inv(Step(s, e))
  {
  }

  lemma ExitKeepsInv(s: System, e: Event)
    requires Inv(s) && Enabled(s, e) && e.ChildExits?
    ensures Inv(Step(s, e))
  {
  }

  lemma ObserverKeepsInv(s: System, e: Event)
    requires Inv(s) && Enabled(s, e) && e.ObserveExit?
    ensures Inv(Step(s, e))
  {
  }

  lemma LookupKeepsInv(s: System, e: Event)
    requires Inv(s) && Enabled(s, e) && e.FindsWorkspace?
    ensures Inv(Step(s, e))
  {
  }

  lemma PreviousClosedKeepsInv(s: System, e: Event)
    requires Inv(s) && Enabled(s, e) && e.PreviousCloses?
    ensures Inv(Step(s, e))
  {
  }

  lemma PreviousUnclosedKeepsInv(s: System, e: Event)
    requires Inv(s) && Enabled(s, e) && e.PreviousCloseFails?
    ensures Inv(Step(s, e))
  {
  }

  lemma PendingKeepsInv(s: System, e: Event)
    requires Inv(s) && Enabled(s, e) && e.PendingSettles?
    ensures Inv(Step(s, e))
  {
  }

  lemma WorkKeepsInv(s: System, e: Event)
    requires Inv(s) && Enabled(s, e) && e.Works?
    ensures Inv(Step(s, e))
  {
  }

  lemma ChangeDoneKeepsInv(s: System, e: Event)
    requires Inv(s) && Enabled(s, e) && e.ChangeFinishes?
    ensures Inv(Step(s, e))
  {
  }

  lemma ChangeFailedKeepsInv(s: System, e: Event)
    requires Inv(s) && Enabled(s, e) && e.ChangeFails?
    ensures Inv(Step(s, e))
  {
  }

  lemma StepKeepsInv(s: System, e: Event)
    requires Inv(s) && Enabled(s, e)
    ensures Inv(Step(s, e))
  {
    match e {
      case Ensure => EnsureKeepsInv(s, e);
      case RequestClose => CloseClaimKeepsInv(s, e);
      case RequestAction(_) => ActionClaimKeepsInv(s, e);
      case OpenFails(_) | Opens(_) => OpenKeepsInv(s, e);
      case CheckCurrent(_, _) => CheckKeepsInv(s, e);
      case CommitConnected(_) => CommitKeepsInv(s, e);
      case CleanupCloses(_) => CleanupCloseKeepsInv(s, e);
      case CleanupCloseFails(_) => CleanupFailKeepsInv(s, e);
      case Rejects(_) => RejectKeepsInv(s, e);
      case ChildExits(_) => ExitKeepsInv(s, e);
      case ObserveExit(_) => ObserverKeepsInv(s, e);
      case FindsWorkspace(_) => LookupKeepsInv(s, e);
      case PreviousCloses(_) => PreviousClosedKeepsInv(s, e);
      case PreviousCloseFails(_) => PreviousUnclosedKeepsInv(s, e);
      case PendingSettles(_) => PendingKeepsInv(s, e);
      case Works(_, _) => WorkKeepsInv(s, e);
      case ChangeFinishes(_) => ChangeDoneKeepsInv(s, e);
      case ChangeFails(_) => ChangeFailedKeepsInv(s, e);
    }
  }

  /** Generations never fall, and an attempt keeps the generation it was claimed in. */
  predicate Later(s: System, t: System) {
    && s.state.generation <= t.state.generation
    && forall a <- s.attempts :: a in t.attempts && t.attempts[a].generation == s.attempts[a].generation
  }

  lemma StepIsLater(s: System, e: Event)
    requires Inv(s) && Enabled(s, e)
    ensures Later(s, Step(s, e))
  {
    hide ChangeInv, Held, Awaited, InPhase;
  }

  lemma {:induction false} RunKeepsInv(s: System, es: seq<Event>)
    requires Inv(s) && Possible(s, es)
    ensures Inv(Run(s, es)) && Later(s, Run(s, es))
    decreases |es|
  {
    if es != [] {
      StepKeepsInv(s, es[0]);
      StepIsLater(s, es[0]);
      RunKeepsInv(Step(s, es[0]), es[1..]);
    }
  }

  // ---- What every run keeps

  /** At most one child runs, and while its attempt is unfinished somebody waits for it; after
      that it is connected, or its failed shutdown is on record. */
  ghost predicate OneChild(s: System) {
    && |s.live| <= 1
    && forall c <- s.live ::
         c in s.attempts && if Unfinished(s.attempts[c].phase) then Awaited(s, c) else Held(s, c)
  }

  /** A child whose shutdown failed is held by the state itself, or by a change that is to close it again. */
  predicate FailureIsOnRecord(s: System, c: Id) {
    match s.state
    case ShutdownFailed(_, child) => child == c
    case Changing(_, _, op, failure) => failure == Some(c) || (op in s.changes && Unclosed(s.changes[op]) == Some(c))
    case _ => false
  }

  lemma EveryRunHasOneChild(es: seq<Event>)
    requires Possible(Initial, es)
    ensures var s := Run(Initial, es);
      OneChild(s) && forall c <- s.live | s.attempts[c].phase in {Rejecting, Settled(false)} :: FailureIsOnRecord(s, c)
  {
    RunKeepsInv(Initial, es);
    SameElementsAtMostOne(Run(Initial, es).live);
  }

  /** A new child starts only from Disconnected, where none runs and none can still open. */
  lemma DisconnectedHasNoChild(es: seq<Event>)
    requires Possible(Initial, es)
    requires Run(Initial, es).state.Disconnected?
    ensures Run(Initial, es).live == {}
    ensures forall a :: !InPhase(Run(Initial, es), a, Opening)
  {
    RunKeepsInv(Initial, es);
  }

  /** No attempt claimed before a close or an action becomes the connection after it. */
  lemma ChangeOutlawsEarlierAttempts(s: System, e: Event, a: Id, es: seq<Event>)
    requires Inv(s) && a in s.attempts && (e.RequestClose? || e.RequestAction?) && Possible(Step(s, e), es)
    ensures s.state.Changing? || s.state.generation < Step(s, e).state.generation
    ensures var t := Run(Step(s, e), es); !(t.state.Connected? && t.state.child == a)
  {
    StepKeepsInv(s, e);
    RunKeepsInv(Step(s, e), es);
  }
}
