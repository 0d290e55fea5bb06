/** What becomes of a workspace's helpers when the configuration stops listing it and lists it again: a change of the
    configuration closes the workspace and deletes its lifecycle, and the next use makes a new one
    (apps/coder-gateway/src/server.ts, workspaceConnections.ts). */
module WorkspaceListing {
  import opened Options
  import opened SmallSets
  import opened WorkspaceConnections

  /** One lifecycle reference with its attempts and changes, and the attempts that found the workspace listed. */
  datatype Lifecycle = Lifecycle(machine: WorkspaceConnections.System, found: set<Id>)

  /** Where a change of the configuration stands with this workspace: it waits for its close, has seen the close succeed, or
      has deleted the lifecycle. */
  datatype Mutation = Idle | Waiting(change: Id) | Ready | Deleted

  /** The last lifecycle is the one in the table; attempts and changes of deleted ones go on with their own. */
  datatype Gateway = Gateway(listed: bool, mutation: Mutation, lifecycles: seq<Lifecycle>)

  datatype Event =
    | At(i: nat, e: WorkspaceConnections.Event)
    | LooksUp(i: nat, attempt: Id)
    | MissesWorkspace(i: nat, change: Id)
    | StartClose
    | CloseSucceeds
    | CloseFails
    | Forget
    | SetListed(listed: bool)

  const Fresh := Lifecycle(WorkspaceConnections.Initial, {})
  const Initial := Gateway(true, Idle, [Fresh])

  predicate IsClaim(e: WorkspaceConnections.Event) {
    e.Ensure? || e.RequestClose? || e.RequestAction?
  }

  function Machine(g: Gateway, i: nat): WorkspaceConnections.System
    requires i < |g.lifecycles|
  {
    g.lifecycles[i].machine
  }

  function Current(g: Gateway): WorkspaceConnections.System
    requires |g.lifecycles| > 0
  {
    Machine(g, |g.lifecycles| - 1)
  }

  /** A helper opens only for an attempt that found its workspace listed; an action is asked for only while it is listed and
      then looks it up once more. Claims are made on the lifecycle in the table. */
  predicate Enabled(g: Gateway, e: Event) {
    |g.lifecycles| > 0
    && match e
       case At(i, e) =>
         i < |g.lifecycles| && WorkspaceConnections.Enabled(Machine(g, i), e)
         && (IsClaim(e) ==> i == |g.lifecycles| - 1)
         && (e.Opens? ==> e.attempt in g.lifecycles[i].found) && (e.FindsWorkspace? || e.RequestAction? ==> g.listed)
       case LooksUp(i, a) => i < |g.lifecycles| && InPhase(Machine(g, i), a, Opening) && g.listed
       case MissesWorkspace(i, op) => i < |g.lifecycles| && ChangeIn(Machine(g, i), op, LookingUp) && !g.listed
       // A close waits for a change under way to end and then starts over.
       case StartClose => (g.mutation.Idle? || g.mutation.Deleted?) && !Current(g).state.Changing?
       case CloseSucceeds => g.mutation.Waiting? && ChangeIn(Current(g), g.mutation.change, Done)
       case CloseFails => g.mutation.Waiting? && ChangeIn(Current(g), g.mutation.change, Failed)
       case Forget => g.mutation.Ready?
       case SetListed(_) => g.mutation.Deleted?
  }

  function WithMachine(g: Gateway, i: nat, machine: WorkspaceConnections.System): Gateway
    requires i < |g.lifecycles|
  {
    g.(lifecycles := g.lifecycles[i := g.lifecycles[i].(machine := machine)])
  }

  function Step(g: Gateway, e: Event): Gateway
    requires Enabled(g, e)
  {
    match e
    case At(i, e) => WithMachine(g, i, WorkspaceConnections.Step(Machine(g, i), e))
    case LooksUp(i, a) => g.(lifecycles := g.lifecycles[i := g.lifecycles[i].(found := g.lifecycles[i].found + {a})])
    case MissesWorkspace(i, op) => WithMachine(g, i, SetChange(Machine(g, i), op, Failing))
    case StartClose =>
      var s := Current(g);
      WithMachine(g, |g.lifecycles| - 1, WorkspaceConnections.Step(s, RequestClose))
        .(mutation := if CloseClaimOf(s.state).Take? then Waiting(s.nextId) else Ready)
    case CloseSucceeds => g.(mutation := Ready)
    case CloseFails => g.(mutation := Idle)
    case Forget => g.(mutation := Deleted, lifecycles := g.lifecycles + [Fresh])
    case SetListed(listed) => g.(mutation := Idle, listed := listed)
  }

  predicate Possible(g: Gateway, es: seq<Event>)
    decreases |es|
  {
    es == [] || (Enabled(g, es[0]) && Possible(Step(g, es[0]), es[1..]))
  }

  function Run(g: Gateway, es: seq<Event>): Gateway
    requires Possible(g, es)
    decreases |es|
  {
    if es == [] then g else Run(Step(g, es[0]), es[1..])
  }

  /** The running helpers of the workspace, of all its lifecycles. */
  function Helpers(g: Gateway): set<(nat, Id)> {
    set i: nat, c | 0 <= i < |g.lifecycles| && c in g.lifecycles[i].machine.live :: (i, c)
  }

  // ---- Ordinary runs

  /** No action misses its workspace, and a lifecycle is deleted only while it is disconnected. */
  predicate IsOrdinary(g: Gateway, e: Event)
    requires Enabled(g, e)
  {
    !e.MissesWorkspace? && (e.Forget? ==> Current(g).state.Disconnected?)
  }

  predicate OrdinaryRun(g: Gateway, es: seq<Event>)
    requires Possible(g, es)
    decreases |es|
  {
    es == [] || (IsOrdinary(g, es[0]) && OrdinaryRun(Step(g, es[0]), es[1..]))
  }

  /** No helper runs and no attempt can still open one. */
  ghost predicate NothingRunsOrOpens(s: WorkspaceConnections.System) {
    s.live == {} && forall a :: !InPhase(s, a, Opening)
  }

  /** A change that has no workspace to look up. */
  predicate IsClose(s: WorkspaceConnections.System, op: Id) {
    op in s.changes && !s.changes[op].phase.LookingUp?
  }

  ghost predicate Inv(g: Gateway) {
    && |g.lifecycles| > 0 && WorkspaceConnections.Inv(Current(g))
    && (forall i | 0 <= i < |g.lifecycles| - 1 :: NothingRunsOrOpens(g.lifecycles[i].machine))
    && (g.mutation.Waiting? ==> IsClose(Current(g), g.mutation.change))
  }

  lemma OldLifecyclesStayQuiet(s: WorkspaceConnections.System, e: WorkspaceConnections.Event)
    requires NothingRunsOrOpens(s) && WorkspaceConnections.Enabled(s, e) && !IsClaim(e)
    ensures NothingRunsOrOpens(WorkspaceConnections.Step(s, e))
  {
    var t := WorkspaceConnections.Step(s, e);
    forall a ensures !InPhase(t, a, Opening) {
      assert !InPhase(s, a, Opening);
    }
  }

  lemma ClosesStay(s: WorkspaceConnections.System, e: WorkspaceConnections.Event, op: Id)
    requires WorkspaceConnections.Inv(s) && WorkspaceConnections.Enabled(s, e) && IsClose(s, op)
    ensures IsClose(WorkspaceConnections.Step(s, e), op)
  {
    assert op < s.nextId;
  }

  lemma StartedCloseIsKnown(s: WorkspaceConnections.System)
    requires CloseClaimOf(s.state).Take?
    ensures IsClose(WorkspaceConnections.Step(s, RequestClose), s.nextId)
  {
  }

  lemma DisconnectedIsQuiet(s: WorkspaceConnections.System)
    requires WorkspaceConnections.Inv(s) && s.state.Disconnected?
    ensures NothingRunsOrOpens(s)
  {
  }

  lemma AtKeepsInv(g: Gateway, i: nat, e: WorkspaceConnections.Event)
    requires Inv(g) && Enabled(g, At(i, e))
    ensures Inv(Step(g, At(i, e)))
  {
    hide WorkspaceConnections.Inv, NothingRunsOrOpens, WorkspaceConnections.Step, WorkspaceConnections.Enabled, IsClose;
    if i == |g.lifecycles| - 1 {
      WorkspaceConnections.StepKeepsInv(Current(g), e);
      if g.mutation.Waiting? {
        ClosesStay(Current(g), e, g.mutation.change);
      }
    } else {
      OldLifecyclesStayQuiet(Machine(g, i), e);
    }
  }

  lemma StartCloseKeepsInv(g: Gateway)
    requires Inv(g) && Enabled(g, StartClose)
    ensures Inv(Step(g, StartClose))
  {
    hide WorkspaceConnections.Inv, NothingRunsOrOpens, WorkspaceConnections.Step, CloseClaimOf, IsClose;
    WorkspaceConnections.StepKeepsInv(Current(g), RequestClose);
    if CloseClaimOf(Current(g).state).Take? {
      StartedCloseIsKnown(Current(g));
    }
  }

  lemma FreshIsSound()
    ensures WorkspaceConnections.Inv(Fresh.machine)
  {
  }

  lemma StepKeepsInv(g: Gateway, e: Event)
    requires Inv(g) && Enabled(g, e) && IsOrdinary(g, e)
    ensures Inv(Step(g, e))
  {
    hide WorkspaceConnections.Inv, NothingRunsOrOpens, WorkspaceConnections.Step, WorkspaceConnections.Enabled, IsClose;
    match e
    case At(i, e) => AtKeepsInv(g, i, e);
    case StartClose => StartCloseKeepsInv(g);
    case Forget =>
      FreshIsSound();
      DisconnectedIsQuiet(Current(g));
    case _ =>
  }

  lemma {:induction false} RunKeepsInv(g: Gateway, es: seq<Event>)
    requires Inv(g) && Possible(g, es) && OrdinaryRun(g, es)
    ensures Inv(Run(g, es))
    decreases |es|
  {
    hide Inv, Step, Enabled, IsOrdinary;
    if |es| > 0 {
      assert Enabled(g, es[0]) && IsOrdinary(g, es[0]);
      StepKeepsInv(g, es[0]);
      RunKeepsInv(Step(g, es[0]), es[1..]);
    }
  }

  lemma OneHelper(g: Gateway)
    requires Inv(g)
    ensures |Helpers(g)| <= 1
  {
    hide WorkspaceConnections.Inv;
    var s := Current(g);
    assert forall x <- s.live, y <- s.live :: x == y by {
      OneChildAtATime(s);
    }
    forall x <- Helpers(g), y <- Helpers(g) ensures x == y {
    }
    SameElementsAtMostOne(Helpers(g));
  }

  lemma OneChildAtATime(s: WorkspaceConnections.System)
    requires WorkspaceConnections.Inv(s)
    ensures forall x <- s.live, y <- s.live :: x == y
  {
  }

  /** Through any changes of the configuration, in ordinary runs the workspace has at most one helper. */
  lemma EveryOrdinaryRunHasOneHelper(es: seq<Event>)
    requires Possible(Initial, es) && OrdinaryRun(Initial, es)
    ensures |Helpers(Run(Initial, es))| <= 1
  {
    FreshIsSound();
    RunKeepsInv(Initial, es);
    OneHelper(Run(Initial, es));
  }

  // ---- Where it goes wrong

  /** However things go on ordinarily, there is never more than one helper. */
  ghost predicate NeverTwoHelpers(g: Gateway) {
    forall es | Possible(g, es) && OrdinaryRun(g, es) :: |Helpers(Run(g, es))| <= 1
  }

  ghost predicate Goes(g: Gateway, es: seq<Event>, z: Gateway) {
    Possible(g, es) && OrdinaryRun(g, es) && Run(g, es) == z
  }

  lemma OneStep(g: Gateway, e: Event)
    requires Enabled(g, e) && IsOrdinary(g, e)
    ensures Goes(g, [e], Step(g, e))
  {
    hide Enabled, IsOrdinary, Step;
    assert [e][0] == e && [e][1..] == [];
    assert Goes(Step(g, e), [], Step(g, e));
  }

  lemma {:induction false} Extend(g: Gateway, es: seq<Event>, z: Gateway, e: Event)
    requires Goes(g, es, z) && Enabled(z, e) && IsOrdinary(z, e)
    ensures Goes(g, es + [e], Step(z, e))
    decreases |es|
  {
    hide Enabled, IsOrdinary, Step;
    if |es| == 0 {
      OneStep(g, e);
      assert es + [e] == [e];
    } else {
      Extend(Step(g, es[0]), es[1..], z, e);
      assert (es + [e])[1..] == es[1..] + [e];
    }
  }

  lemma Go(g: Gateway, es: seq<Event>, z: Gateway, e: Event) returns (longer: seq<Event>, next: Gateway)
    requires Goes(g, es, z) && Enabled(z, e) && IsOrdinary(z, e)
    ensures Goes(g, longer, next) && next == Step(z, e)
  {
    Extend(g, es, z, e);
    longer, next := es + [e], Step(z, e);
  }

  /** A helper runs, or an attempt can still open one. */
  predicate RunsOrOpens(s: WorkspaceConnections.System, a: Id) {
    a in s.live || InPhase(s, a, Opening)
  }

  /** An attempt in some lifecycle whose helper runs or can still open, other than what the present one could start next. */
  predicate Lingers(g: Gateway, i: nat, a: Id) {
    && |g.lifecycles| > 0 && i < |g.lifecycles| && RunsOrOpens(Machine(g, i), a)
    && (i == |g.lifecycles| - 1 ==> a < Current(g).nextId)
  }

  /** The attempt that lingers opens its helper, if it has not yet. */
  lemma LetOpen(start: Gateway, es: seq<Event>, g: Gateway, i: nat, a: Id) returns (longer: seq<Event>, z: Gateway)
    requires Goes(start, es, g) && g.listed && Lingers(g, i, a) && Current(g).state.Disconnected?
    ensures Goes(start, longer, z) && z.listed && |z.lifecycles| == |g.lifecycles| && Lingers(z, i, a)
    ensures Current(z).state.Disconnected? && a in Machine(z, i).live
  {
    hide Goes;
    longer, z := es, g;
    if a !in Machine(g, i).live {
      longer, z := Go(start, longer, z, LooksUp(i, a));
      longer, z := Go(start, longer, z, At(i, Opens(a)));
    }
  }

  lemma TwoHelpers(g: Gateway, i: nat, a: Id, b: Id)
    requires i < |g.lifecycles| && a in Machine(g, i).live && b in Current(g).live
    requires i < |g.lifecycles| - 1 || a != b
    ensures |Helpers(g)| >= 2
  {
    TwoElements(Helpers(g), (i, a), (|g.lifecycles| - 1, b));
  }

  /** Then the next use of the workspace, listed and disconnected as it is, opens a second one. */
  lemma SecondHelperOpens(start: Gateway, es: seq<Event>, g: Gateway, i: nat, a: Id) returns (longer: seq<Event>, z: Gateway)
    requires Goes(start, es, g) && g.listed && Lingers(g, i, a) && Current(g).state.Disconnected?
    ensures Goes(start, longer, z) && |Helpers(z)| >= 2
  {
    longer, z := LetOpen(start, es, g, i, a);
    hide Goes;
    var last := |z.lifecycles| - 1;
    var b := Current(z).nextId;
    longer, z := Go(start, longer, z, At(last, Ensure));
    assert InPhase(Current(z), b, Opening) && a in Machine(z, i).live && (i < last || a != b);
    longer, z := Go(start, longer, z, LooksUp(last, b));
    longer, z := Go(start, longer, z, At(last, Opens(b)));
    TwoHelpers(z, i, a, b);
  }

  lemma Refutes(start: Gateway, es: seq<Event>, z: Gateway)
    requires Goes(start, es, z) && |Helpers(z)| >= 2
    ensures !NeverTwoHelpers(start)
  {
  }

  lemma QuietOrNot(s: WorkspaceConnections.System) returns (a: Option<Id>)
    ensures a.None? <==> NothingRunsOrOpens(s)
    ensures a.Some? ==> RunsOrOpens(s, a.value)
  {
    if c :| c in s.live {
      a := Some(c);
    } else if c :| InPhase(s, c, Opening) {
      a := Some(c);
    } else {
      a := None;
    }
  }

  /** Deleting a lifecycle keeps to one helper exactly if nothing runs in it and nothing can still open. */
  lemma DeletingIsSafeExactlyWhenNothingRunsOrOpens(g: Gateway)
    requires Inv(g) && g.mutation.Ready?
    ensures NeverTwoHelpers(Step(g, Forget)) <==> NothingRunsOrOpens(Current(g))
  {
    var f := Step(g, Forget);
    var lingering := QuietOrNot(Current(g));
    if lingering.None? {
      ForgettingQuietKeepsInv(g);
      forall es | Possible(f, es) && OrdinaryRun(f, es) ensures |Helpers(Run(f, es))| <= 1 {
        RunKeepsInv(f, es);
        OneHelper(Run(f, es));
      }
    } else {
      var i := |g.lifecycles| - 1;
      assert Goes(f, [], f);
      assert Machine(f, i) == Current(g) && Current(f) == WorkspaceConnections.Initial;
      hide Goes, NeverTwoHelpers;
      var es, z := Go(f, [], f, SetListed(true));
      es, z := SecondHelperOpens(f, es, z, i, lingering.value);
      Refutes(f, es, z);
    }
  }

  lemma ForgettingQuietKeepsInv(g: Gateway)
    requires Inv(g) && g.mutation.Ready? && NothingRunsOrOpens(Current(g))
    ensures Inv(Step(g, Forget))
  {
    hide WorkspaceConnections.Inv, NothingRunsOrOpens;
    FreshIsSound();
  }

  // ---- An action on a workspace that is no longer listed

  /** The action still waits for an attempt that has a helper or may open one. */
  predicate LeavesAttempt(s: WorkspaceConnections.System, op: Id)
    requires op in s.changes
  {
    s.changes[op].pending.Some? && Awaited(s, s.changes[op].pending.value) && RunsOrOpens(s, s.changes[op].pending.value)
  }

  lemma HarmlessMissKeepsInv(s: WorkspaceConnections.System, op: Id)
    requires WorkspaceConnections.Inv(s) && ChangeIn(s, op, LookingUp) && !LeavesAttempt(s, op)
    ensures WorkspaceConnections.Inv(SetChange(s, op, Failing))
  {
  }

  /** The action fails without waiting for the attempt, and the lifecycle is disconnected with it left over. */
  lemma MissLeavesAttempt(s: WorkspaceConnections.System, op: Id)
    requires WorkspaceConnections.Inv(s) && ChangeIn(s, op, LookingUp) && LeavesAttempt(s, op)
    ensures var m := SetChange(s, op, Failing); var t := WorkspaceConnections.Step(m, ChangeFails(op));
      WorkspaceConnections.Enabled(m, ChangeFails(op)) && t.state.Disconnected?
      && RunsOrOpens(t, s.changes[op].pending.value) && s.changes[op].pending.value < t.nextId
      && forall other | IsClose(s, other) :: IsClose(t, other) && Ended(t.changes[other])
  {
  }

  /** The configuration lists the workspace again, whatever it was doing with it. */
  lemma Relist(start: Gateway, es: seq<Event>, g: Gateway, i: nat, a: Id) returns (longer: seq<Event>, z: Gateway)
    requires Goes(start, es, g) && Lingers(g, i, a) && Current(g).state.Disconnected?
    requires g.mutation.Waiting? ==> g.mutation.change in Current(g).changes && Ended(Current(g).changes[g.mutation.change])
    ensures Goes(start, longer, z) && z.listed && Lingers(z, i, a) && Current(z).state.Disconnected?
  {
    hide Goes;
    longer, z := es, g;
    if z.mutation.Waiting? {
      longer, z := Go(start, longer, z, if ChangeIn(Current(z), z.mutation.change, Done) then CloseSucceeds else CloseFails);
    }
    if z.mutation.Idle? {
      longer, z := Go(start, longer, z, StartClose);
    }
    if z.mutation.Ready? {
      longer, z := Go(start, longer, z, Forget);
    }
    longer, z := Go(start, longer, z, SetListed(true));
  }

  lemma MissedAttemptOpensSecond(g: Gateway, op: Id)
    requires Inv(g) && Enabled(g, MissesWorkspace(|g.lifecycles| - 1, op)) && LeavesAttempt(Current(g), op)
    ensures !NeverTwoHelpers(Step(g, MissesWorkspace(|g.lifecycles| - 1, op)))
  {
    var i, a := |g.lifecycles| - 1, Current(g).changes[op].pending.value;
    var m := Step(g, MissesWorkspace(i, op));
    assert Goes(m, [], m);
    MissLeavesAttempt(Current(g), op);
    hide Goes, WorkspaceConnections.Inv, WorkspaceConnections.Step, NeverTwoHelpers;
    var es, z := Go(m, [], m, At(i, ChangeFails(op)));
    es, z := Relist(m, es, z, i, a);
    es, z := SecondHelperOpens(m, es, z, i, a);
    Refutes(m, es, z);
  }

  /** An action that misses its workspace keeps to one helper exactly if it has not interrupted an attempt that has a helper
      or may still open one: it does not wait for the attempt, and the lifecycle seems disconnected. */
  lemma MissingWorkspaceIsSafeExactlyWithoutAttempt(g: Gateway, op: Id)
    requires Inv(g) && Enabled(g, MissesWorkspace(|g.lifecycles| - 1, op))
    ensures NeverTwoHelpers(Step(g, MissesWorkspace(|g.lifecycles| - 1, op))) <==> !LeavesAttempt(Current(g), op)
  {
    var m := Step(g, MissesWorkspace(|g.lifecycles| - 1, op));
    if LeavesAttempt(Current(g), op) {
      MissedAttemptOpensSecond(g, op);
    } else {
      HarmlessMissKeepsInv(Current(g), op);
      assert Inv(m);
      forall es | Possible(m, es) && OrdinaryRun(m, es) ensures |Helpers(Run(m, es))| <= 1 {
        RunKeepsInv(m, es);
        OneHelper(Run(m, es));
      }
    }
  }

  // ---- Both happen

  ghost predicate IsReached(es: seq<Event>, g: Gateway) {
    Goes(Initial, es, g) && Inv(g)
  }

  lemma GoOn(es: seq<Event>, z: Gateway, e: Event, next: Gateway) returns (longer: seq<Event>)
    requires IsReached(es, z) && Enabled(z, e) && IsOrdinary(z, e) && next == Step(z, e)
    ensures IsReached(longer, next)
  {
    var g;
    longer, g := Go(Initial, es, z, e);
    StepKeepsInv(z, e);
  }

  lemma InitialIsReached()
    ensures IsReached([], Initial)
  {
    FreshIsSound();
    hide WorkspaceConnections.Inv;
  }

  /** The fresh lifecycle's first attempt has found its workspace and not opened its helper yet. */
  const Asked := WorkspaceConnections.System(Connecting(0, 0), map[0 := Attempt(0, Opening)], map[], 1, {}, {})
  const Running := WorkspaceConnections.System(Connected(0, 0), map[0 := Attempt(0, Settled(true))], map[], 1, {0}, {0})

  lemma Asks(es: seq<Event>, g: Gateway, before: seq<Lifecycle>) returns (longer: seq<Event>)
    requires IsReached(es, g) && g.listed && g.lifecycles == before + [Fresh]
    ensures IsReached(longer, g.(lifecycles := before + [Lifecycle(Asked, {0})]))
  {
    hide IsReached;
    var n := |before|;
    var asking := g.(lifecycles := before + [Lifecycle(Asked, {})]);
    assert WithMachine(g, n, Asked).lifecycles == asking.lifecycles;
    longer := GoOn(es, g, At(n, Ensure), asking);
    assert {} + {0 as Id} == {0};
    assert asking.lifecycles[n := Lifecycle(Asked, {0})] == before + [Lifecycle(Asked, {0})];
    longer := GoOn(longer, asking, LooksUp(n, 0), g.(lifecycles := before + [Lifecycle(Asked, {0})]));
  }

  /** Steps of the only lifecycle. */
  function Alone(mutation: Mutation, machine: WorkspaceConnections.System): Gateway {
    Gateway(true, mutation, [Lifecycle(machine, {0})])
  }

  lemma StepAlone(es: seq<Event>, mutation: Mutation, s: WorkspaceConnections.System, e: WorkspaceConnections.Event,
                  t: WorkspaceConnections.System)
    returns (longer: seq<Event>)
    requires IsReached(es, Alone(mutation, s)) && (e.Opens? ==> e.attempt == 0)
    requires WorkspaceConnections.Enabled(s, e) && t == WorkspaceConnections.Step(s, e)
    ensures IsReached(longer, Alone(mutation, t))
  {
    hide IsReached, WorkspaceConnections.Step, WorkspaceConnections.Enabled;
    longer := GoOn(es, Alone(mutation, s), At(0, e), Alone(mutation, t));
  }

  lemma Connects() returns (es: seq<Event>)
    ensures IsReached(es, Alone(Idle, Running))
  {
    InitialIsReached();
    hide IsReached;
    assert [Fresh] == [] + [Fresh] && [Lifecycle(Asked, {0})] == [] + [Lifecycle(Asked, {0})];
    es := Asks([], Initial, []);
    var acquired := Asked.(attempts := map[0 := Attempt(0, Acquired)], live := {0}, watched := {0});
    var checked := acquired.(attempts := map[0 := Attempt(0, Checked)]);
    es := StepAlone(es, Idle, Asked, Opens(0), acquired);
    es := StepAlone(es, Idle, acquired, CheckCurrent(0, true), checked);
    es := StepAlone(es, Idle, checked, CommitConnected(0), Running);
  }

  /** The close of a running helper, at each of its phases. */
  function Closing(phase: ChangePhase, helperClosed: bool): WorkspaceConnections.System {
    Running.(state := if phase.Done? then Disconnected(1) else Changing(1, StopWorkspace, 1, None),
             changes := map[1 := Change(false, Some(0), None, phase, helperClosed)], nextId := 2,
             live := if phase.ClosingPrevious? then {0} else {})
  }

  lemma CloseBegins()
    ensures WorkspaceConnections.Step(Running, RequestClose) == Closing(ClosingPrevious, false)
    ensures CloseClaimOf(Running.state).Take?
  {
  }

  lemma CloseClosesPrevious()
    ensures var s := Closing(ClosingPrevious, false);
      WorkspaceConnections.Enabled(s, PreviousCloses(1))
      && WorkspaceConnections.Step(s, PreviousCloses(1)) == Closing(AwaitingPending, false)
  {
  }

  lemma CloseAwaitsNothing()
    ensures var s := Closing(AwaitingPending, false);
      WorkspaceConnections.Enabled(s, PendingSettles(1))
      && WorkspaceConnections.Step(s, PendingSettles(1)) == Closing(Finishing, true)
  {
  }

  lemma CloseEnds()
    ensures var s := Closing(Finishing, true);
      WorkspaceConnections.Enabled(s, ChangeFinishes(1))
      && WorkspaceConnections.Step(s, ChangeFinishes(1)) == Closing(Done, true)
  {
  }

  lemma Closes() returns (es: seq<Event>)
    ensures IsReached(es, Alone(Waiting(1), Closing(Done, true)))
  {
    es := Connects();
    CloseBegins();
    hide IsReached, Closing, CloseClaimOf, WorkspaceConnections.Step;
    es := GoOn(es, Alone(Idle, Running), StartClose, Alone(Waiting(1), Closing(ClosingPrevious, false)));
    CloseClosesPrevious();
    es := StepAlone(es, Waiting(1), Closing(ClosingPrevious, false), PreviousCloses(1), Closing(AwaitingPending, false));
    CloseAwaitsNothing();
    es := StepAlone(es, Waiting(1), Closing(AwaitingPending, false), PendingSettles(1), Closing(Finishing, true));
    CloseEnds();
    es := StepAlone(es, Waiting(1), Closing(Finishing, true), ChangeFinishes(1), Closing(Done, true));
  }

  /** A use of the workspace that waits for the close starts over as soon as it ends, before the lifecycle is deleted. */
  lemma WaitingConnectionIsDeleted() returns (es: seq<Event>, g: Gateway)
    ensures IsReached(es, g) && g.mutation.Ready? && |g.lifecycles| == 1 && InPhase(Current(g), 2, Opening)
    ensures !NeverTwoHelpers(Step(g, Forget))
  {
    es := Closes();
    var t := WorkspaceConnections.Step(Closing(Done, true), Ensure);
    ThenReady(t);
    g := Alone(Ready, t);
    hide IsReached, NeverTwoHelpers, Closing, WorkspaceConnections.Step;
    es := StepAlone(es, Waiting(1), Closing(Done, true), Ensure, t);
    es := GoOn(es, Alone(Waiting(1), t), CloseSucceeds, g);
    ReachedIsSound(es, g);
    DeletingIsSafeExactlyWhenNothingRunsOrOpens(g);
  }

  lemma ThenReady(t: WorkspaceConnections.System)
    requires t == WorkspaceConnections.Step(Closing(Done, true), Ensure)
    ensures ChangeIn(t, 1, Done) && InPhase(t, 2, Opening)
  {
  }

  lemma ReachedIsSound(es: seq<Event>, g: Gateway)
    requires IsReached(es, g)
    ensures Inv(g)
  {
  }

  /** The action has interrupted the attempt and not looked its workspace up yet. */
  const Interrupted := Asked.(state := Changing(1, StartWorkspace, 1, None),
                              changes := map[1 := Change(true, None, Some(0), LookingUp, false)], nextId := 2)

  /** A connection starts between the deletion of the lifecycle and the new configuration, an action interrupts it, and then
      the configuration no longer lists the workspace. */
  lemma ActionMissesInterruptedConnection() returns (es: seq<Event>, g: Gateway)
    ensures IsReached(es, g) && |g.lifecycles| == 2 && Enabled(g, MissesWorkspace(1, 1))
    ensures LeavesAttempt(Current(g), 1) && !NeverTwoHelpers(Step(g, MissesWorkspace(1, 1)))
  {
    InitialIsReached();
    hide IsReached, NeverTwoHelpers;
    var closed := Lifecycle(WorkspaceConnections.Initial.(state := Disconnected(1)), {});
    es := GoOn([], Initial, StartClose, Gateway(true, Ready, [closed]));
    es := GoOn(es, Gateway(true, Ready, [closed]), Forget, Gateway(true, Deleted, [closed, Fresh]));
    assert [closed, Fresh] == [closed] + [Fresh];
    es := Asks(es, Gateway(true, Deleted, [closed, Fresh]), [closed]);
    assert [closed] + [Lifecycle(Asked, {0})] == [closed, Lifecycle(Asked, {0})];
    es := Interrupts(es, closed);
    g := Gateway(false, Idle, [closed, Lifecycle(Interrupted, {0})]);
    es := GoOn(es, Gateway(true, Deleted, g.lifecycles), SetListed(false), g);
    ReachedIsSound(es, g);
    MissingWorkspaceIsSafeExactlyWithoutAttempt(g, 1);
  }

  lemma Interrupts(es: seq<Event>, closed: Lifecycle) returns (longer: seq<Event>)
    requires IsReached(es, Gateway(true, Deleted, [closed, Lifecycle(Asked, {0})]))
    ensures IsReached(longer, Gateway(true, Deleted, [closed, Lifecycle(Interrupted, {0})]))
  {
    assert WorkspaceConnections.Step(Asked, RequestAction(StartWorkspace)) == Interrupted;
    hide IsReached, WorkspaceConnections.Step;
    longer := GoOn(es, Gateway(true, Deleted, [closed, Lifecycle(Asked, {0})]), At(1, RequestAction(StartWorkspace)),
                   Gateway(true, Deleted, [closed, Lifecycle(Interrupted, {0})]));
  }
}
