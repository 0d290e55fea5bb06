/** What becomes of each connection attempt, close and action of a workspace, in every interleaving, told from what happened
    since it was claimed (apps/coder-gateway/src/workspaceConnections.ts). */
module WorkspaceOutcomes {
  import opened Options
  import opened WorkspaceConnections

  lemma EveryRunKeepsInv(es: seq<Event>)
    requires Possible(Initial, es)
    ensures Inv(Run(Initial, es))
  {
    RunKeepsInv(Initial, es);
  }

  lemma Prepend(s: System, e: Event, es: seq<Event>)
    requires Enabled(s, e) && Possible(Step(s, e), es)
    ensures Possible(s, [e] + es) && Run(s, [e] + es) == Run(Step(s, e), es)
  {
    assert ([e] + es)[1..] == es;
  }

  // ---- What becomes of an attempt, told from the events since its Ensure

  /** A close or an action was requested, or the exit of its child was seen. */
  predicate IsDisturbed(es: seq<Event>, a: Id) {
    exists e <- es :: Disturbs(e, a)
  }

  predicate Disturbs(e: Event, a: Id) {
    e.RequestClose? || e.RequestAction? || (e.ObserveExit? && e.child == a)
  }

  /** It was found current, with the configuration it was started for. */
  predicate PassedCheck(es: seq<Event>, a: Id) {
    es != []
    && (PassedCheck(es[..|es| - 1], a)
        || (es[|es| - 1] == CheckCurrent(a, true) && !IsDisturbed(es[..|es| - 1], a)))
  }

  predicate Committed(es: seq<Event>, a: Id) {
    es != []
    && (Committed(es[..|es| - 1], a) || (es[|es| - 1] == CommitConnected(a) && !IsDisturbed(es[..|es| - 1], a)))
  }

  /** How far the attempt has come. */
  function PhaseAfter(es: seq<Event>, a: Id): Phase {
    if Rejects(a) in es then Settled(false)
    else if Committed(es, a) then Settled(true)
    else if OpenFails(a) in es || CleanupCloses(a) in es || CleanupCloseFails(a) in es then Rejecting
    else if Opens(a) !in es then Opening
    else if CheckCurrent(a, true) !in es && CheckCurrent(a, false) !in es then Acquired
    else if PassedCheck(es, a) && CommitConnected(a) !in es then Checked
    else Cleaning
  }

  /** What the workspace's state is as long as nothing disturbs the attempt and it has not been given up. */
  function StateDuring(es: seq<Event>, generation: nat, a: Id): State {
    if CleanupCloseFails(a) in es then ShutdownFailed(generation, a)
    else if Committed(es, a) then Connected(generation, a)
    else Connecting(generation, a)
  }

  predicate IsGivenUp(es: seq<Event>, a: Id) {
    Rejects(a) in es && CleanupCloseFails(a) !in es
  }

  /** An attempt takes its steps one after the other. */
  predicate IsInOrder(es: seq<Event>, a: Id) {
    && (Opens(a) !in es ==> CheckCurrent(a, true) !in es && CheckCurrent(a, false) !in es)
    && (CheckCurrent(a, true) !in es ==> !PassedCheck(es, a))
    && (PassedCheck(es, a) ==> CheckCurrent(a, false) !in es)
    && (CommitConnected(a) in es ==> PassedCheck(es, a))
    && (OpenFails(a) in es || CleanupCloses(a) in es || CleanupCloseFails(a) in es || Rejects(a) in es ==>
          !PassedCheck(es, a) || CommitConnected(a) in es)
    && (OpenFails(a) in es ==> Opens(a) !in es)
    && (CleanupCloses(a) in es || CleanupCloseFails(a) in es ==> CheckCurrent(a, true) in es || CheckCurrent(a, false) in es)
    && (Rejects(a) in es ==> OpenFails(a) in es || CleanupCloses(a) in es || CleanupCloseFails(a) in es)
    && (Committed(es, a) ==> CommitConnected(a) in es && CleanupCloseFails(a) !in es && Rejects(a) !in es)
  }

  ghost predicate IsAsTold(s: System, es: seq<Event>, generation: nat, a: Id) {
    && IsInOrder(es, a)
    && a in s.attempts && s.attempts[a] == Attempt(generation, PhaseAfter(es, a))
    && generation <= s.state.generation && HasState(s.state, es, generation, a)
  }

  predicate HasState(s: State, es: seq<Event>, generation: nat, a: Id) {
    if IsDisturbed(es, a) || IsGivenUp(es, a) then s != Connecting(generation, a) && s != Connected(generation, a)
    else s == StateDuring(es, generation, a)
  }

  lemma OneMore(es: seq<Event>, e: Event, a: Id)
    ensures PassedCheck(es + [e], a) <==> PassedCheck(es, a) || (e == CheckCurrent(a, true) && !IsDisturbed(es, a))
    ensures Committed(es + [e], a) <==> Committed(es, a) || (e == CommitConnected(a) && !IsDisturbed(es, a))
    ensures forall d :: d in es + [e] <==> d in es || d == e
  {
    assert (es + [e])[..|es|] == es;
  }

  /** The events in which the attempt itself takes a step. */
  predicate IsStepOf(e: Event, a: Id) {
    match e
    case OpenFails(b) => b == a
    case Opens(b) => b == a
    case CheckCurrent(b, _) => b == a
    case CommitConnected(b) => b == a
    case CleanupCloses(b) => b == a
    case CleanupCloseFails(b) => b == a
    case Rejects(b) => b == a
    case _ => false
  }

  lemma OwnStepHasPhase(s: System, es: seq<Event>, e: Event, generation: nat, a: Id)
    requires Enabled(s, e) && IsAsTold(s, es, generation, a) && IsStepOf(e, a)
    ensures IsInOrder(es + [e], a) && Step(s, e).attempts[a] == Attempt(generation, PhaseAfter(es + [e], a))
  {
    OneMore(es, e, a);
    hide Committed, PassedCheck;
  }

  lemma OwnStepHasState(s: System, es: seq<Event>, e: Event, generation: nat, a: Id)
    requires Enabled(s, e) && IsAsTold(s, es, generation, a) && IsStepOf(e, a)
    ensures generation <= Step(s, e).state.generation && HasState(Step(s, e).state, es + [e], generation, a)
  {
    OneMore(es, e, a);
    hide Committed, PassedCheck;
  }

  lemma OtherStepLeavesAttempt(s: System, e: Event, a: Id)
    requires Enabled(s, e) && a in s.attempts && !IsStepOf(e, a) && a < s.nextId
    ensures a in Step(s, e).attempts && Step(s, e).attempts[a] == s.attempts[a]
  {
  }

  lemma SamePhase(es: seq<Event>, e: Event, a: Id)
    requires !IsStepOf(e, a)
    ensures PhaseAfter(es + [e], a) == PhaseAfter(es, a) && (IsInOrder(es + [e], a) <==> IsInOrder(es, a))
  {
    OneMore(es, e, a);
    hide Committed, PassedCheck, IsDisturbed;
  }

  lemma OtherStepHasPhase(s: System, es: seq<Event>, e: Event, generation: nat, a: Id)
    requires Enabled(s, e) && IsAsTold(s, es, generation, a) && !IsStepOf(e, a) && a < s.nextId
    ensures IsInOrder(es + [e], a) && a in Step(s, e).attempts
    ensures Step(s, e).attempts[a] == Attempt(generation, PhaseAfter(es + [e], a))
  {
    OtherStepLeavesAttempt(s, e, a);
    hide *;
    SamePhase(es, e, a);
  }

  /** The state is about the attempt, or holds its child. */
  predicate IsAbout(s: State, generation: nat, a: Id) {
    s == Connecting(generation, a) || s == Connected(generation, a) || s == ShutdownFailed(generation, a)
  }

  lemma OtherStepLeavesIt(s: System, e: Event, generation: nat, a: Id)
    requires Inv(s) && Enabled(s, e) && a in s.attempts && IsAbout(s.state, generation, a)
    requires !IsStepOf(e, a) && !Disturbs(e, a)
    ensures Step(s, e).state == s.state
  {
  }

  lemma OtherStepIsNotForIt(s: System, e: Event, generation: nat, a: Id)
    requires Enabled(s, e) && a < s.nextId && !IsStepOf(e, a)
    requires s.state != Connecting(generation, a) && s.state != Connected(generation, a)
    ensures Step(s, e).state != Connecting(generation, a) && Step(s, e).state != Connected(generation, a)
  {
  }

  lemma DisturbanceEndsIt(s: System, e: Event, generation: nat, a: Id)
    requires Enabled(s, e) && Disturbs(e, a) && generation <= s.state.generation
    ensures Step(s, e).state != Connecting(generation, a) && Step(s, e).state != Connected(generation, a)
  {
  }

  lemma GenerationsRise(s: System, e: Event)
    requires Enabled(s, e)
    ensures s.state.generation <= Step(s, e).state.generation
  {
  }

  lemma OtherStepHasState(s: System, es: seq<Event>, e: Event, generation: nat, a: Id)
    requires Inv(s) && Enabled(s, e) && IsAsTold(s, es, generation, a) && !IsStepOf(e, a)
    ensures generation <= Step(s, e).state.generation && HasState(Step(s, e).state, es + [e], generation, a)
  {
    GenerationsRise(s, e);
    assert a < s.nextId;
    hide Inv, Step, Enabled, IsInOrder, PhaseAfter, Committed, PassedCheck, StateDuring, IsGivenUp, IsDisturbed, Disturbs;
    SameState(es, e, generation, a);
    if Disturbs(e, a) {
      DisturbanceEndsIt(s, e, generation, a);
    } else if IsDisturbed(es, a) || IsGivenUp(es, a) {
      OtherStepIsNotForIt(s, e, generation, a);
    } else {
      DuringIsAbout(es, generation, a);
      OtherStepLeavesIt(s, e, generation, a);
    }
  }

  lemma SameState(es: seq<Event>, e: Event, generation: nat, a: Id)
    requires !IsStepOf(e, a)
    ensures IsDisturbed(es + [e], a) <==> IsDisturbed(es, a) || Disturbs(e, a)
    ensures StateDuring(es + [e], generation, a) == StateDuring(es, generation, a)
    ensures IsGivenUp(es + [e], a) <==> IsGivenUp(es, a)
  {
    OneMore(es, e, a);
    hide Committed, PassedCheck, Disturbs;
    if IsDisturbed(es, a) {
      var d :| d in es && Disturbs(d, a);
      assert d in es + [e];
    }
    assert e in es + [e];
  }

  lemma DuringIsAbout(es: seq<Event>, generation: nat, a: Id)
    ensures IsAbout(StateDuring(es, generation, a), generation, a)
  {
  }

  lemma StepIsAsTold(s: System, es: seq<Event>, e: Event, generation: nat, a: Id)
    requires Inv(s) && Enabled(s, e) && IsAsTold(s, es, generation, a)
    ensures IsAsTold(Step(s, e), es + [e], generation, a)
  {
    assert a < s.nextId;
    hide Inv, Step, Enabled, IsInOrder, PhaseAfter, HasState;
    if IsStepOf(e, a) {
      OwnStepHasPhase(s, es, e, generation, a);
      OwnStepHasState(s, es, e, generation, a);
    } else {
      OtherStepHasPhase(s, es, e, generation, a);
      OtherStepHasState(s, es, e, generation, a);
    }
  }

  lemma {:induction false} PossibleAppends(s: System, es: seq<Event>, e: Event)
    requires Possible(s, es + [e])
    ensures Possible(s, es) && Enabled(Run(s, es), e) && Run(s, es + [e]) == Step(Run(s, es), e)
    decreases |es|
  {
    if es == [] {
      assert Run(Step(s, e), []) == Step(s, e);
    } else {
      assert (es + [e])[0] == es[0] && (es + [e])[1..] == es[1..] + [e];
      PossibleAppends(Step(s, es[0]), es[1..], e);
    }
  }

  lemma ClaimIsAsTold(s: System)
    requires Inv(s) && s.state.Disconnected?
    ensures IsAsTold(Step(s, Ensure), [], s.state.generation, s.nextId)
  {
  }

  lemma {:induction false} AttemptIsAsTold(s: System, es: seq<Event>)
    requires Inv(s) && s.state.Disconnected? && Possible(Step(s, Ensure), es)
    ensures IsAsTold(Run(Step(s, Ensure), es), es, s.state.generation, s.nextId)
    decreases |es|
  {
    var t := Step(s, Ensure);
    if es == [] {
      ClaimIsAsTold(s);
    } else {
      var before, e := es[..|es| - 1], es[|es| - 1];
      assert before + [e] == es;
      PossibleAppends(t, before, e);
      AttemptIsAsTold(s, before);
      StepKeepsInv(s, Ensure);
      RunKeepsInv(t, before);
      StepIsAsTold(Run(t, before), before, e, s.state.generation, s.nextId);
    }
  }

  /** In every run, an attempt succeeds exactly when it commits before a close or an action is requested or its helper's exit
      is seen; and it gets as far as committing exactly when it was found current before that. From its success on, an ensure
      is given its helper exactly until then; before, it waits for the attempt exactly until that, or until the attempt is
      rejected or leaves a helper it cannot close. */
  lemma AttemptsSucceedExactlyUndisturbed(before: seq<Event>, es: seq<Event>)
    requires Possible(Initial, before) && Run(Initial, before).state.Disconnected?
    requires Possible(Step(Run(Initial, before), Ensure), es)
    ensures
      var s := Run(Initial, before);
      var a, t := s.nextId, Run(Step(s, Ensure), es);
      && (InPhase(t, a, Settled(true)) <==> Committed(es, a))
      && (InPhase(t, a, Settled(false)) <==> Rejects(a) in es)
      && (Enabled(t, CommitConnected(a)) <==> PassedCheck(es, a) && CommitConnected(a) !in es)
      && (Enabled(t, CheckCurrent(a, true)) <==>
            Opens(a) in es && CheckCurrent(a, true) !in es && CheckCurrent(a, false) !in es)
      && (ConnectionClaimOf(t.state) == Existing(a) <==> Committed(es, a) && !IsDisturbed(es, a))
      && (ConnectionClaimOf(t.state) == PendingStart(a) <==>
            !Committed(es, a) && !IsDisturbed(es, a) && Rejects(a) !in es && CleanupCloseFails(a) !in es)
      && (CleanupCloseFails(a) in es && !IsDisturbed(es, a) ==> ConnectionClaimOf(t.state) == HeldByShutdown)
  {
    var s := Run(Initial, before);
    EveryRunKeepsInv(before);
    hide Inv, Step, Run, Possible, IsDisturbed, IsAsTold, PassedCheck, Committed, InPhase, Enabled;
    AttemptIsAsTold(s, es);
    StepKeepsInv(s, Ensure);
    RunKeepsInv(Step(s, Ensure), es);
    var g, a, t := s.state.generation, s.nextId, Run(Step(s, Ensure), es);
    ToldHasGeneration(t, es, g, a);
    ConnectingIsItsOwn(t, g, a);
    ToldIsExact(t, es, g, a);
  }

  lemma ConnectingIsItsOwn(t: System, g: nat, a: Id)
    requires Inv(t) && a in t.attempts && t.attempts[a].generation == g
    ensures t.state.Connecting? && t.state.operation == a ==> t.state.generation == g
    ensures t.state.Connected? && t.state.child == a ==> t.state.generation == g
  {
  }

  lemma ToldHasGeneration(t: System, es: seq<Event>, g: nat, a: Id)
    requires IsAsTold(t, es, g, a)
    ensures a in t.attempts && t.attempts[a].generation == g
  {
  }

  lemma ToldIsExact(t: System, es: seq<Event>, g: nat, a: Id)
    requires IsAsTold(t, es, g, a)
    requires t.state.Connecting? && t.state.operation == a ==> t.state.generation == g
    requires t.state.Connected? && t.state.child == a ==> t.state.generation == g
    ensures InPhase(t, a, Settled(true)) <==> Committed(es, a)
    ensures InPhase(t, a, Settled(false)) <==> Rejects(a) in es
    ensures Enabled(t, CommitConnected(a)) <==> PassedCheck(es, a) && CommitConnected(a) !in es
    ensures Enabled(t, CheckCurrent(a, true))
            <==> Opens(a) in es && CheckCurrent(a, true) !in es && CheckCurrent(a, false) !in es
    ensures ConnectionClaimOf(t.state) == Existing(a) <==> Committed(es, a) && !IsDisturbed(es, a)
    ensures ConnectionClaimOf(t.state) == PendingStart(a)
            <==> !Committed(es, a) && !IsDisturbed(es, a) && Rejects(a) !in es && CleanupCloseFails(a) !in es
    ensures CleanupCloseFails(a) in es && !IsDisturbed(es, a) ==> ConnectionClaimOf(t.state) == HeldByShutdown
  {
    hide PassedCheck, Committed, IsDisturbed;
  }

  /** With nothing in its way an attempt ends in a connected helper. */
  lemma PlainAttemptSucceeds(s: System)
    requires Inv(s) && s.state.Disconnected?
    ensures
      var es := [Ensure, Opens(s.nextId), CheckCurrent(s.nextId, true), CommitConnected(s.nextId)];
      Possible(s, es) && Run(s, es).state == Connected(s.state.generation, s.nextId) && Run(s, es).live == {s.nextId}
  {
    NoChildWhenDisconnected(s);
    hide *;
    PlainAttemptRuns(s);
    var a := s.nextId;
    FourSteps(s, Ensure, Opens(a), CheckCurrent(a, true), CommitConnected(a));
  }

  lemma NoChildWhenDisconnected(s: System)
    requires Inv(s) && s.state.Disconnected?
    ensures s.live == {}
  {
  }

  lemma PlainAttemptRuns(s: System)
    requires s.state.Disconnected? && s.live == {}
    ensures var a := s.nextId; var s1 := Step(s, Ensure);
      Enabled(s1, Opens(a)) && Enabled(Step(s1, Opens(a)), CheckCurrent(a, true))
    ensures var a := s.nextId; var s3 := Step(Step(Step(s, Ensure), Opens(a)), CheckCurrent(a, true));
      Enabled(s3, CommitConnected(a))
      && Step(s3, CommitConnected(a)).state == Connected(s.state.generation, a) && Step(s3, CommitConnected(a)).live == {a}
  {
  }

  lemma FourSteps(s: System, e1: Event, e2: Event, e3: Event, e4: Event)
    requires Enabled(s, e1) && Enabled(Step(s, e1), e2) && Enabled(Step(Step(s, e1), e2), e3)
    requires Enabled(Step(Step(Step(s, e1), e2), e3), e4)
    ensures Possible(s, [e1, e2, e3, e4]) && Run(s, [e1, e2, e3, e4]) == Step(Step(Step(Step(s, e1), e2), e3), e4)
  {
    hide Step, Enabled;
    var s1 := Step(s, e1);
    var s2 := Step(s1, e2);
    var s3 := Step(s2, e3);
    assert Possible(Step(s3, e4), []) && Run(Step(s3, e4), []) == Step(s3, e4);
    assert [e4] + [] == [e4] && [e3] + [e4] == [e3, e4] && [e2] + [e3, e4] == [e2, e3, e4];
    assert [e1] + [e2, e3, e4] == [e1, e2, e3, e4];
    hide Possible, Run;
    Prepend(s3, e4, []);
    Prepend(s2, e3, [e4]);
    Prepend(s1, e2, [e3, e4]);
    Prepend(s, e1, [e2, e3, e4]);
  }

  /** How an attempt ends: with the exit of its helper; by being given up; or with a helper that cannot be closed and is kept
      for another try. */
  lemma AttemptsEndAsTold(before: seq<Event>, es: seq<Event>, e: Event)
    requires Possible(Initial, before) && Run(Initial, before).state.Disconnected?
    requires Possible(Step(Run(Initial, before), Ensure), es + [e])
    requires var a := Run(Initial, before).nextId; !IsDisturbed(es, a) && Rejects(a) !in es
    ensures
      var s := Run(Initial, before);
      var a, g, t := s.nextId, s.state.generation, Run(Step(s, Ensure), es + [e]);
      && (e == ObserveExit(a) ==> t.state == Disconnected(g))
      && (e == CleanupCloseFails(a) ==> t.state == ShutdownFailed(g, a))
      && (e == Rejects(a) ==> t.state == if CleanupCloseFails(a) in es then ShutdownFailed(g, a) else Disconnected(g))
  {
    var s := Run(Initial, before);
    RunKeepsInv(Initial, before);
    PossibleAppends(Step(s, Ensure), es, e);
    AttemptIsAsTold(s, es);
    StepKeepsInv(s, Ensure);
    RunKeepsInv(Step(s, Ensure), es);
    hide Run, Possible, IsInOrder, Committed, PassedCheck, IsDisturbed, Inv, HasState;
    EndingStep(Run(Step(s, Ensure), es), es, e, s.state.generation, s.nextId);
  }

  lemma EndingStep(s: System, es: seq<Event>, e: Event, g: nat, a: Id)
    requires Enabled(s, e) && HasState(s.state, es, g, a) && !IsDisturbed(es, a) && Rejects(a) !in es
    ensures var t := Step(s, e);
      && (e == ObserveExit(a) ==> t.state == Disconnected(g))
      && (e == CleanupCloseFails(a) ==> t.state == ShutdownFailed(g, a))
      && (e == Rejects(a) && CleanupCloseFails(a) in es ==> t.state == ShutdownFailed(g, a))
      && (e == Rejects(a) && CleanupCloseFails(a) !in es && !Committed(es, a) ==> t.state == Disconnected(g))
  {
    hide IsDisturbed;
  }

  // ---- What becomes of a close or an action, told from the events since it was requested

  /** The helper that the workspace has, connected or still to be closed, and the attempt that it waits for. */
  function ChildOf(s: State): Option<Id> {
    if s.Connected? || s.ShutdownFailed? then Some(s.child) else None
  }

  function AttemptOf(s: State): Option<Id> {
    if s.Connecting? then Some(s.operation) else None
  }

  /** The attempt has left a helper that it could not close and whose exit has not been seen since. */
  predicate LeftBehind(es: seq<Event>, pending: Option<Id>) {
    es != [] && pending.Some?
    && (es[|es| - 1] == CleanupCloseFails(pending.value)
        || (LeftBehind(es[..|es| - 1], pending) && es[|es| - 1] != ObserveExit(pending.value)))
  }

  /** The change found such a helper when the attempt that it waited for was over. */
  predicate FoundLeftBehind(es: seq<Event>, op: Id, pending: Option<Id>) {
    es != []
    && (FoundLeftBehind(es[..|es| - 1], op, pending)
        || (es[|es| - 1] == PendingSettles(op) && LeftBehind(es[..|es| - 1], pending)))
  }

  /** What a request takes over: only an action works, and it looks its workspace up first. */
  datatype Request = Request(op: Id, action: Option<Action>, previous: Option<Id>, pending: Option<Id>)

  function ChangePhaseAfter(es: seq<Event>, r: Request): ChangePhase {
    if ChangeFinishes(r.op) in es then Done
    else if ChangeFails(r.op) in es then Failed
    else if PreviousCloseFails(r.op) in es || FoundLeftBehind(es, r.op, r.pending) || Works(r.op, false) in es then Failing
    else if PendingSettles(r.op) in es then (if r.action.Some? && Works(r.op, true) !in es then Working else Finishing)
    else if r.action.Some? && FindsWorkspace(r.op) !in es then LookingUp
    else if r.previous.Some? && PreviousCloses(r.op) !in es then ClosingPrevious
    else AwaitingPending
  }

  function ChangeAfter(es: seq<Event>, r: Request): Change {
    Change(r.action.Some?, r.previous, r.pending, ChangePhaseAfter(es, r), PendingSettles(r.op) in es)
  }

  predicate StepsInOrder(es: seq<Event>, r: Request) {
    && (FoundLeftBehind(es, r.op, r.pending) ==> PendingSettles(r.op) in es && r.pending.Some?)
    && (Works(r.op, true) in es || Works(r.op, false) in es ==> PendingSettles(r.op) in es && r.action.Some?)
    && (Works(r.op, true) in es ==> Works(r.op, false) !in es && !FoundLeftBehind(es, r.op, r.pending))
    && (PendingSettles(r.op) in es || PreviousCloses(r.op) in es || PreviousCloseFails(r.op) in es ==>
          r.action.None? || FindsWorkspace(r.op) in es)
    && (PendingSettles(r.op) in es ==> r.previous.None? || PreviousCloses(r.op) in es)
    && (PreviousCloseFails(r.op) in es ==> PreviousCloses(r.op) !in es && PendingSettles(r.op) !in es)
    && (ChangeFinishes(r.op) in es ==> ChangeFails(r.op) !in es)
  }

  /** Until it is over, the state is the request's own. */
  predicate ChangeHasState(s: State, es: seq<Event>, generation: nat, r: Request) {
    if ChangeFinishes(r.op) in es || ChangeFails(r.op) in es then !(s.Changing? && s.operation == r.op)
    else s == Changing(generation, if r.action.Some? then r.action.value else StopWorkspace, r.op,
                       if LeftBehind(es, r.pending) then r.pending else None)
  }

  ghost predicate ChangeIsAsTold(s: System, es: seq<Event>, generation: nat, r: Request) {
    && r.op in s.changes && s.changes[r.op] == ChangeAfter(es, r)
    && StepsInOrder(es, r) && ChangeHasState(s.state, es, generation, r)
  }

  lemma OneMoreOfChange(es: seq<Event>, e: Event, r: Request)
    ensures LeftBehind(es + [e], r.pending) <==>
              r.pending.Some? && (e == CleanupCloseFails(r.pending.value)
                                  || (LeftBehind(es, r.pending) && e != ObserveExit(r.pending.value)))
    ensures LeftBehind(es, r.pending) ==> r.pending.Some?
    ensures FoundLeftBehind(es + [e], r.op, r.pending) <==>
              FoundLeftBehind(es, r.op, r.pending) || (e == PendingSettles(r.op) && LeftBehind(es, r.pending))
    ensures forall d :: d in es + [e] <==> d in es || d == e
  {
    assert (es + [e])[..|es|] == es;
  }

  predicate IsStepOfChange(e: Event, op: Id) {
    match e
    case FindsWorkspace(b) => b == op
    case PreviousCloses(b) => b == op
    case PreviousCloseFails(b) => b == op
    case PendingSettles(b) => b == op
    case Works(b, _) => b == op
    case ChangeFinishes(b) => b == op
    case ChangeFails(b) => b == op
    case _ => false
  }

  /** A step of the request itself, from where it stands to where it then stands. */
  predicate StepsTo(from: Change, e: Event, leftBehind: bool, to: Change) {
    match e
    case FindsWorkspace(_) => from.phase.LookingUp? && to == from.(phase := AfterLookup(from.previous))
    case PreviousCloses(_) => from.phase.ClosingPrevious? && to == from.(phase := AwaitingPending)
    case PreviousCloseFails(_) => from.phase.ClosingPrevious? && to == from.(phase := Failing)
    case PendingSettles(_) =>
      from.phase.AwaitingPending?
      && to == from.(phase := if leftBehind then Failing else if from.isAction then Working else Finishing, helperClosed := true)
    case Works(_, ok) => from.phase.Working? && to == from.(phase := if ok then Finishing else Failing)
    case ChangeFinishes(_) => from.phase.Finishing? && to == from.(phase := Done)
    case ChangeFails(_) => from.phase.Failing? && to == from.(phase := Failed)
    case _ => to == from
  }

  lemma ChangeStepsTo(s: System, es: seq<Event>, e: Event, generation: nat, r: Request)
    requires Enabled(s, e) && ChangeIsAsTold(s, es, generation, r) && IsStepOfChange(e, r.op)
    requires LeftBehind(es, r.pending) && e.PendingSettles? ==> InPhase(s, r.pending.value, Settled(false))
    ensures r.op in Step(s, e).changes
    ensures StepsTo(s.changes[r.op], e, LeftBehind(es, r.pending), Step(s, e).changes[r.op])
  {
    OneMoreOfChange(es, e, r);
    hide LeftBehind, FoundLeftBehind, StepsInOrder;
  }

  lemma StepsToAsTold(es: seq<Event>, e: Event, r: Request, to: Change)
    requires StepsInOrder(es, r) && IsStepOfChange(e, r.op)
    requires StepsTo(ChangeAfter(es, r), e, LeftBehind(es, r.pending), to)
    ensures to == ChangeAfter(es + [e], r) && StepsInOrder(es + [e], r)
  {
    OneMoreOfChange(es, e, r);
    hide LeftBehind, FoundLeftBehind;
  }

  lemma ChangeStepHasPhase(s: System, es: seq<Event>, e: Event, generation: nat, r: Request)
    requires Enabled(s, e) && ChangeIsAsTold(s, es, generation, r) && IsStepOfChange(e, r.op)
    requires LeftBehind(es, r.pending) && e.PendingSettles? ==> InPhase(s, r.pending.value, Settled(false))
    ensures var t := Step(s, e);
      r.op in t.changes && t.changes[r.op] == ChangeAfter(es + [e], r) && StepsInOrder(es + [e], r)
  {
    ChangeStepsTo(s, es, e, generation, r);
    var to := Step(s, e).changes[r.op];
    hide LeftBehind, FoundLeftBehind, Step, Enabled, ChangeHasState, ChangeAfter, StepsInOrder, StepsTo;
    StepsToAsTold(es, e, r, to);
  }

  lemma OtherStepLeavesChange(s: System, e: Event, op: Id)
    requires Enabled(s, e) && op in s.changes && !IsStepOfChange(e, op) && op < s.nextId
    ensures op in Step(s, e).changes && Step(s, e).changes[op] == s.changes[op]
  {
  }

  lemma SameChange(es: seq<Event>, e: Event, r: Request)
    requires !IsStepOfChange(e, r.op)
    ensures ChangeAfter(es + [e], r) == ChangeAfter(es, r) && (StepsInOrder(es + [e], r) <==> StepsInOrder(es, r))
  {
    OneMoreOfChange(es, e, r);
    hide LeftBehind, FoundLeftBehind;
  }

  lemma OtherStepHasChange(s: System, es: seq<Event>, e: Event, generation: nat, r: Request)
    requires Enabled(s, e) && ChangeIsAsTold(s, es, generation, r) && !IsStepOfChange(e, r.op) && r.op < s.nextId
    ensures var t := Step(s, e);
      r.op in t.changes && t.changes[r.op] == ChangeAfter(es + [e], r) && StepsInOrder(es + [e], r)
  {
    OtherStepLeavesChange(s, e, r.op);
    hide *;
    SameChange(es, e, r);
  }

  lemma ChangeStepHasState(s: System, es: seq<Event>, e: Event, generation: nat, r: Request)
    requires Inv(s) && Enabled(s, e) && ChangeIsAsTold(s, es, generation, r)
    requires ChangeFinishes(r.op) !in es && ChangeFails(r.op) !in es && e != ChangeFinishes(r.op) && e != ChangeFails(r.op)
    ensures ChangeHasState(Step(s, e).state, es + [e], generation, r)
  {
    OneMoreOfChange(es, e, r);
    hide LeftBehind, FoundLeftBehind, StepsInOrder;
  }

  lemma EndedChangeStaysEnded(s: System, e: Event, op: Id)
    requires Enabled(s, e) && op < s.nextId
    requires !(s.state.Changing? && s.state.operation == op) || e == ChangeFinishes(op) || e == ChangeFails(op)
    ensures var t := Step(s, e).state; !(t.Changing? && t.operation == op)
  {
  }

  lemma SettledWhenLeftBehind(s: System, es: seq<Event>, generation: nat, r: Request)
    requires Inv(s) && ChangeIsAsTold(s, es, generation, r)
    requires LeftBehind(es, r.pending) && Enabled(s, PendingSettles(r.op))
    ensures InPhase(s, r.pending.value, Settled(false))
  {
  }

  lemma ChangeStepIsAsTold(s: System, es: seq<Event>, e: Event, generation: nat, r: Request)
    requires Inv(s) && Enabled(s, e) && ChangeIsAsTold(s, es, generation, r)
    ensures ChangeIsAsTold(Step(s, e), es + [e], generation, r)
  {
    assert r.op < s.nextId;
    hide Inv, Step, Enabled, LeftBehind, FoundLeftBehind, StepsInOrder, ChangeAfter;
    if IsStepOfChange(e, r.op) {
      if LeftBehind(es, r.pending) && e.PendingSettles? { SettledWhenLeftBehind(s, es, generation, r); }
      ChangeStepHasPhase(s, es, e, generation, r);
    } else {
      OtherStepHasChange(s, es, e, generation, r);
    }
    if ChangeFinishes(r.op) in es || ChangeFails(r.op) in es || e == ChangeFinishes(r.op) || e == ChangeFails(r.op) {
      EndedChangeStaysEnded(s, e, r.op);
    } else {
      ChangeStepHasState(s, es, e, generation, r);
    }
  }

  /** The event that makes a request, and the request it makes. */
  function RequestEvent(action: Option<Action>): Event {
    if action.Some? then RequestAction(action.value) else RequestClose
  }

  function RequestOf(s: System, action: Option<Action>): Request {
    Request(s.nextId, action, ChildOf(s.state), AttemptOf(s.state))
  }

  /** A close takes over what there is; an action does so from a disconnected workspace too. */
  predicate TakesOver(s: State, action: Option<Action>) {
    !s.Changing? && (action.Some? || !s.Disconnected?)
  }

  lemma RequestIsAsTold(s: System, action: Option<Action>)
    requires Inv(s) && TakesOver(s.state, action)
    ensures Enabled(s, RequestEvent(action))
    ensures ChangeIsAsTold(Step(s, RequestEvent(action)), [], s.state.generation + 1, RequestOf(s, action))
  {
  }

  lemma {:induction false} ChangeIsAsToldInRuns(s: System, action: Option<Action>, es: seq<Event>)
    requires Inv(s) && TakesOver(s.state, action) && Enabled(s, RequestEvent(action))
    requires Possible(Step(s, RequestEvent(action)), es)
    ensures ChangeIsAsTold(Run(Step(s, RequestEvent(action)), es), es, s.state.generation + 1, RequestOf(s, action))
    decreases |es|
  {
    var t := Step(s, RequestEvent(action));
    RequestIsAsTold(s, action);
    if es != [] {
      var before, e := es[..|es| - 1], es[|es| - 1];
      assert before + [e] == es;
      hide Inv, Step, Enabled, RequestEvent, ChangeIsAsTold, TakesOver;
      PossibleAppends(t, before, e);
      ChangeIsAsToldInRuns(s, action, before);
      StepKeepsInv(s, RequestEvent(action));
      RunKeepsInv(t, before);
      ChangeStepIsAsTold(Run(t, before), before, e, s.state.generation + 1, RequestOf(s, action));
    }
  }

  /** In every run, a close or an action takes over what the workspace has: a connected helper or one that could not be closed,
      which it closes, or an attempt, which it waits for. Until it finishes or fails, an ensure and a close wait for it, and an
      action joins it if it is the same one and conflicts with it otherwise. It can finish once what it waits for is over, has
      left no helper behind, and an action's own work is done; it can fail exactly if its close failed, a helper was left
      behind, or its work failed. When it fails, a helper that is left is kept for another try. */
  lemma ChangesEndAsTold(before: seq<Event>, action: Option<Action>, es: seq<Event>)
    requires Possible(Initial, before) && TakesOver(Run(Initial, before).state, action)
    requires Enabled(Run(Initial, before), RequestEvent(action))
    requires Possible(Step(Run(Initial, before), RequestEvent(action)), es)
    ensures
      var s := Run(Initial, before);
      var r, g, t := RequestOf(s, action), s.state.generation + 1, Run(Step(s, RequestEvent(action)), es);
      IsWaitedFor(t.state, es, r) && EndsAsTold(t, es, g, r)
  {
    hide *;
    var s := Run(Initial, before);
    EveryRunKeepsInv(before);
    ChangeIsAsToldInRuns(s, action, es);
    TakesOneOfBoth(s, action);
    ChangeToldIsExact(Run(Step(s, RequestEvent(action)), es), es, s.state.generation + 1, RequestOf(s, action));
  }

  function ActionOf(r: Request): Action {
    if r.action.Some? then r.action.value else StopWorkspace
  }

  predicate IsOver(es: seq<Event>, op: Id) {
    ChangeFinishes(op) in es || ChangeFails(op) in es
  }

  ghost predicate IsWaitedFor(s: State, es: seq<Event>, r: Request) {
    && (ConnectionClaimOf(s) == WaitForChange(r.op) <==> !IsOver(es, r.op))
    && (CloseClaimOf(s) == Pending(r.op) <==> !IsOver(es, r.op))
    && forall x :: !IsOver(es, r.op) ==> ActionClaimOf(s, x) == if x == ActionOf(r) then Pending(r.op) else Conflict(ActionOf(r))
  }

  predicate EndsAsTold(t: System, es: seq<Event>, g: nat, r: Request) {
    && (Enabled(t, ChangeFinishes(r.op))
        <==> !IsOver(es, r.op) && PendingSettles(r.op) in es && !FoundLeftBehind(es, r.op, r.pending)
             && (r.action.Some? ==> Works(r.op, true) in es))
    && (Enabled(t, ChangeFails(r.op))
        <==> !IsOver(es, r.op) && (PreviousCloseFails(r.op) in es || FoundLeftBehind(es, r.op, r.pending)
                                   || Works(r.op, false) in es))
    && (Enabled(t, ChangeFinishes(r.op)) ==> Step(t, ChangeFinishes(r.op)).state == Disconnected(g))
    && (Enabled(t, ChangeFails(r.op)) ==>
          Step(t, ChangeFails(r.op)).state
          == if r.pending.Some? && LeftBehind(es, r.pending) then ShutdownFailed(g, r.pending.value)
             else if r.previous.Some? && PreviousCloseFails(r.op) in es then ShutdownFailed(g, r.previous.value)
             else Disconnected(g))
  }

  lemma ChangeToldIsExact(t: System, es: seq<Event>, g: nat, r: Request)
    requires ChangeIsAsTold(t, es, g, r) && (r.previous.None? || r.pending.None?)
    ensures IsWaitedFor(t.state, es, r) && EndsAsTold(t, es, g, r)
  {
    OneMoreOfChange(es, Ensure, r);
    hide FoundLeftBehind, LeftBehind;
  }

  lemma TakesOneOfBoth(s: System, action: Option<Action>)
    ensures RequestOf(s, action).previous.None? || RequestOf(s, action).pending.None?
  {
  }

  /** A close of a disconnected workspace only outlaws earlier attempts; under a change both requests change nothing. */
  lemma RequestWithNothingToTake(s: System, action: Action)
    ensures s.state.Disconnected? ==> Step(s, RequestClose) == s.(state := Disconnected(s.state.generation + 1))
    ensures s.state.Changing? ==> Step(s, RequestClose) == s && Step(s, RequestAction(action)) == s
  {
  }
}
