/** The gateway's hub: tool calls that one workspace helper asks another to run
    (apps/coder-gateway/src/hub.ts). */
module GatewayHub {
  import opened Options

  /** Names one attachment of a helper; a helper that attaches again gets a new one. */
  type Id = nat

  datatype Callback = TargetGone(call: nat) | RequesterGone(call: nat)

  datatype Attachment = Attachment(workspace: string, environment: string, onDetach: seq<Callback>)

  datatype Outcome = Answer(text: string) | Failure(text: string)

  /** A call waits, then settles (None: nobody wants the answer), then its answer is sent or not. */
  datatype Phase = Pending | Settled(outcome: Option<Outcome>) | Done(answered: bool)

  /** `request` is the requester's own id, which its answer carries. */
  datatype Call = Call(requester: Id, request: string, target: Id, phase: Phase)

  datatype Reply = ReplyTo(requester: Id, request: string, outcome: Outcome)

  datatype Hub = Hub(
    nextRequestId: nat,
    attached: map<string, Id>,
    attachments: map<Id, Attachment>,
    workspaceByEnvironment: map<string, string>,
    environmentByWorkspace: map<string, string>,
    calls: map<nat, Call>,
    interrupted: set<nat>,
    replies: seq<Reply>)

  predicate IsAttached(h: Hub, a: Id) {
    a in h.attachments && h.attachments[a].workspace in h.attached
    && h.attached[h.attachments[a].workspace] == a
  }

  // ---- The hub's atomic steps

  function Without(callbacks: seq<Callback>, callback: Callback): seq<Callback> {
    if callbacks == [] then []
    else if callbacks[0] == callback then Without(callbacks[1..], callback)
    else [callbacks[0]] + Without(callbacks[1..], callback)
  }

  function Unregistered(h: Hub, a: Id, callback: Callback): Hub {
    if a in h.attachments then
      h.(attachments := h.attachments[a := h.attachments[a].(onDetach := Without(h.attachments[a].onDetach, callback))])
    else h
  }

  function Registered(h: Hub, a: Id, callback: Callback): Hub {
    if a in h.attachments then
      h.(attachments := h.attachments[a := h.attachments[a].(onDetach := h.attachments[a].onDetach + [callback])])
    else h
  }

  /** Only the first settlement counts; it takes both callbacks away. */
  function AfterSettle(h: Hub, call: nat, outcome: Option<Outcome>): Hub {
    if call !in h.calls || !h.calls[call].phase.Pending? then h
    else
      var c := h.calls[call];
      var settled := h.(calls := h.calls[call := c.(phase := Settled(outcome))]);
      Unregistered(Unregistered(settled, c.target, TargetGone(call)), c.requester, RequesterGone(call))
  }

  function AfterCallback(h: Hub, callback: Callback): Hub {
    match callback
    case TargetGone(call) => AfterSettle(h, call, Some(GONE))
    case RequesterGone(call) => AfterSettle(h.(interrupted := h.interrupted + {call}), call, None)
  }

  function AfterCallbacks(h: Hub, callbacks: seq<Callback>): Hub {
    if callbacks == [] then h
    else AfterCallback(AfterCallbacks(h, callbacks[..|callbacks| - 1]), callbacks[|callbacks| - 1])
  }

  function AfterDetach(h: Hub, a: Id): Hub {
    if !IsAttached(h, a) then h
    else
      var snapshot := h.attachments[a].onDetach;
      var run := AfterCallbacks(h.(attached := h.attached - {h.attachments[a].workspace}), snapshot);
      if a in run.attachments then run.(attachments := run.attachments[a := run.attachments[a].(onDetach := [])]) else run
  }

  function AfterAttach(h: Hub, workspace: string, environment: string): Hub {
    var freed := if workspace in h.attached then AfterDetach(h, h.attached[workspace]) else h;
    var stale := environment in freed.workspaceByEnvironment && freed.workspaceByEnvironment[environment] != workspace;
    var known := if stale
                 then freed.environmentByWorkspace - {freed.workspaceByEnvironment[environment]}
                 else freed.environmentByWorkspace;
    freed.(attached := freed.attached[workspace := freed.nextRequestId],
           attachments := freed.attachments[freed.nextRequestId := Attachment(workspace, environment, [])],
           workspaceByEnvironment := freed.workspaceByEnvironment[environment := workspace],
           environmentByWorkspace := known[workspace := environment],
           nextRequestId := freed.nextRequestId + 1)
  }

  function WithCall(h: Hub, requester: Id, request: string, target: Id): Hub {
    h.(calls := h.calls[h.nextRequestId := Call(requester, request, target, Pending)], nextRequestId := h.nextRequestId + 1)
  }

  function AfterInvoke(h: Hub, requester: Id, request: string, target: Id): Hub {
    var id := h.nextRequestId;
    Registered(Registered(WithCall(h, requester, request, target), target, TargetGone(id)), requester, RequesterGone(id))
  }

  datatype Refusal = NotSeenYet | NotLinked | NotConnected

  datatype Route = To(target: Id) | Refused(refusal: Refusal)

  /** handleCall's decision: which attachment runs a call meant for an environment. Links name workspaces, from and to. */
  function RouteOf(h: Hub, links: set<(string, string)>, from: string, environment: string): Route {
    if environment !in h.workspaceByEnvironment then
      if exists link <- links :: link.0 == from && link.1 !in h.environmentByWorkspace
      then Refused(NotSeenYet) else Refused(NotLinked)
    else
      var to := h.workspaceByEnvironment[environment];
      if (from, to) !in links then Refused(NotLinked)
      else if to !in h.attached then Refused(NotConnected)
      else To(h.attached[to])
  }

  const GONE := Failure("disconnected before it answered")

  function RefusalOutcome(refusal: Refusal): Outcome {
    match refusal
    case NotSeenYet => Failure("has not connected yet")
    case NotLinked => Failure("is not linked")
    case NotConnected => Failure("is not connected")
  }

  /** A reply takes a request id of its own and is dropped once the requester is gone. */
  function AfterReply(h: Hub, requester: Id): Hub {
    if IsAttached(h, requester) then h.(nextRequestId := h.nextRequestId + 1) else h
  }

  function AfterAnswer(h: Hub, requester: Id, request: string, outcome: Outcome): Hub {
    if IsAttached(h, requester) then AfterReply(h, requester).(replies := h.replies + [ReplyTo(requester, request, outcome)]) else h
  }

  function AfterCall(h: Hub, links: set<(string, string)>, requester: Id, request: string, environment: string): Hub
    requires requester in h.attachments
  {
    match RouteOf(h, links, h.attachments[requester].workspace, environment)
    case To(target) => AfterInvoke(h, requester, request, target)
    case Refused(refusal) => AfterAnswer(h, requester, request, RefusalOutcome(refusal))
  }

  /** The awaiting caller resumes once: it sends the answer if the requester is still attached. */
  function AfterResume(h: Hub, call: nat): Hub
    requires call in h.calls && h.calls[call].phase.Settled?
  {
    var c := h.calls[call];
    var sends := c.phase.outcome.Some? && IsAttached(h, c.requester);
    var resumed := h.(calls := h.calls[call := c.(phase := Done(sends))]);
    if sends then AfterAnswer(resumed, c.requester, c.request, c.phase.outcome.value) else resumed
  }

  class CoderHub {
    var hub: Hub

    constructor ()
      ensures hub == Hub(0, map[], map[], map[], map[], map[], {}, [])
    {
      hub := Hub(0, map[], map[], map[], map[], map[], {}, []);
    }

    method Settle(call: nat, outcome: Option<Outcome>)
      modifies this
      ensures hub == AfterSettle(old(hub), call, outcome)
    {
      if call !in hub.calls || !hub.calls[call].phase.Pending? {
        return;
      }
      var c := hub.calls[call];
      hub := hub.(calls := hub.calls[call := c.(phase := Settled(outcome))]);
      hub := Unregistered(hub, c.target, TargetGone(call));
      hub := Unregistered(hub, c.requester, RequesterGone(call));
    }

    method RunCallback(callback: Callback)
      modifies this
      ensures hub == AfterCallback(old(hub), callback)
    {
      match callback {
        case TargetGone(call) =>
          Settle(call, Some(GONE));
        case RequesterGone(call) =>
          hub := hub.(interrupted := hub.interrupted + {call});
          Settle(call, None);
      }
    }

    method Detach(a: Id)
      modifies this
      ensures hub == AfterDetach(old(hub), a)
    {
      if !IsAttached(hub, a) {
        return;
      }
      var snapshot := hub.attachments[a].onDetach;
      hub := hub.(attached := hub.attached - {hub.attachments[a].workspace});
      ghost var begun := hub;
      for i := 0 to |snapshot|
        invariant hub == AfterCallbacks(begun, snapshot[..i])
      {
        assert snapshot[..i + 1][..i] == snapshot[..i];
        RunCallback(snapshot[i]);
      }
      assert snapshot[..|snapshot|] == snapshot;
      if a in hub.attachments {
        hub := hub.(attachments := hub.attachments[a := hub.attachments[a].(onDetach := [])]);
      }
    }

    method Attach(workspace: string, environment: string) returns (a: Id)
      modifies this
      ensures hub == AfterAttach(old(hub), workspace, environment)
      ensures a == hub.nextRequestId - 1
    {
      if workspace in hub.attached {
        Detach(hub.attached[workspace]);
      }
      a := hub.nextRequestId;
      hub := hub.(attached := hub.attached[workspace := a],
                  attachments := hub.attachments[a := Attachment(workspace, environment, [])],
                  nextRequestId := a + 1);
      if environment in hub.workspaceByEnvironment && hub.workspaceByEnvironment[environment] != workspace {
        hub := hub.(environmentByWorkspace := hub.environmentByWorkspace - {hub.workspaceByEnvironment[environment]});
      }
      hub := hub.(workspaceByEnvironment := hub.workspaceByEnvironment[environment := workspace],
                  environmentByWorkspace := hub.environmentByWorkspace[workspace := environment]);
    }

    method Invoke(requester: Id, request: string, target: Id) returns (call: nat)
      modifies this
      ensures call == old(hub).nextRequestId && hub == AfterInvoke(old(hub), requester, request, target)
    {
      call := hub.nextRequestId;
      hub := hub.(calls := hub.calls[call := Call(requester, request, target, Pending)], nextRequestId := call + 1);
      hub := Registered(hub, target, TargetGone(call));
      hub := Registered(hub, requester, RequesterGone(call));
    }

    method Reply(requester: Id)
      modifies this
      ensures hub == AfterReply(old(hub), requester)
    {
      if IsAttached(hub, requester) {
        hub := hub.(nextRequestId := hub.nextRequestId + 1);
      }
    }

    method Answer(requester: Id, request: string, outcome: Outcome)
      modifies this
      ensures hub == AfterAnswer(old(hub), requester, request, outcome)
    {
      if IsAttached(hub, requester) {
        hub := hub.(nextRequestId := hub.nextRequestId + 1, replies := hub.replies + [ReplyTo(requester, request, outcome)]);
      }
    }

    method HandleCall(requester: Id, request: string, links: set<(string, string)>, environment: string)
      returns (refused: Option<Refusal>)
      requires IsAttached(hub, requester)
      modifies this
      ensures hub == AfterCall(old(hub), links, requester, request, environment)
      ensures var route := RouteOf(old(hub), links, old(hub).attachments[requester].workspace, environment);
        refused == if route.To? then None else Some(route.refusal)
    {
      var from := hub.attachments[requester].workspace;
      if environment !in hub.workspaceByEnvironment
         && exists link <- links :: link.0 == from && link.1 !in hub.environmentByWorkspace {
        refused := Some(NotSeenYet);
      } else if environment !in hub.workspaceByEnvironment
                || (from, hub.workspaceByEnvironment[environment]) !in links {
        refused := Some(NotLinked);
      } else if hub.workspaceByEnvironment[environment] !in hub.attached {
        refused := Some(NotConnected);
      } else {
        var _ := Invoke(requester, request, hub.attached[hub.workspaceByEnvironment[environment]]);
        return None;
      }
      Answer(requester, request, RefusalOutcome(refused.value));
    }

    method Resume(call: nat) returns (sent: bool)
      requires call in hub.calls && hub.calls[call].phase.Settled?
      modifies this
      ensures hub == AfterResume(old(hub), call) && sent == hub.calls[call].phase.answered
    {
      var c := hub.calls[call];
      sent := c.phase.outcome.Some? && IsAttached(hub, c.requester);
      hub := hub.(calls := hub.calls[call := c.(phase := Done(sent))]);
      if sent {
        Answer(c.requester, c.request, c.phase.outcome.value);
      }
    }
  }

  // ---- Runs

  datatype Event =
    | HelperAttaches(workspace: string, environment: string)
    | HelperGoes(a: Id)
    | CallArrives(requester: Id, request: string, environment: string, links: set<(string, string)>)
    | OtherReply(requester: Id)
    | ExitArrives(call: nat, outcome: Outcome)
    | SendFails(call: nat)
    | Resumes(call: nat)

  const Initial := Hub(0, map[], map[], map[], map[], map[], {}, [])

  /** A detached helper is no longer listened to, so its calls stop arriving. */
  predicate Enabled(h: Hub, e: Event) {
    match e
    case CallArrives(requester, _, _, _) => IsAttached(h, requester)
    case Resumes(call) => call in h.calls && h.calls[call].phase.Settled?
    case _ => true
  }

  function Step(h: Hub, e: Event): Hub
    requires Enabled(h, e)
  {
    match e
    case HelperAttaches(workspace, environment) => AfterAttach(h, workspace, environment)
    case HelperGoes(a) => AfterDetach(h, a)
    case CallArrives(requester, request, environment, links) => AfterCall(h, links, requester, request, environment)
    case OtherReply(requester) => AfterReply(h, requester)
    case ExitArrives(call, outcome) => AfterSettle(h, call, Some(outcome))
    case SendFails(call) => AfterCallback(h, TargetGone(call))
    case Resumes(call) => AfterResume(h, call)
  }

  predicate Possible(h: Hub, es: seq<Event>)
    decreases |es|
  {
    es == [] || (Enabled(h, es[0]) && Possible(Step(h, es[0]), es[1..]))
  }

  function Run(h: Hub, es: seq<Event>): Hub
    requires Possible(h, es)
    decreases |es|
  {
    if es == [] then h else Run(Step(h, es[0]), es[1..])
  }

  // ---- What every run keeps

  /** The endpoint that a callback is registered with. */
  function EndOf(c: Call, callback: Callback): Id {
    if callback.TargetGone? then c.target else c.requester
  }

  ghost predicate Numbered(h: Hub) {
    && (forall a <- h.attachments :: a < h.nextRequestId)
    && (forall c <- h.calls :: c < h.nextRequestId)
    && (forall c <- h.calls :: h.calls[c].requester in h.attachments && h.calls[c].target in h.attachments)
    && (forall w <- h.attached :: h.attached[w] in h.attachments && h.attachments[h.attached[w]].workspace == w)
  }

  ghost predicate OwnCallbacks(h: Hub) {
    forall a <- h.attachments, cb <- h.attachments[a].onDetach ::
      cb.call in h.calls && EndOf(h.calls[cb.call], cb) == a
  }

  ghost predicate OnlyPendingCallbacks(h: Hub) {
    forall a <- h.attachments, cb <- h.attachments[a].onDetach ::
      cb.call in h.calls && h.calls[cb.call].phase.Pending?
  }

  predicate Watched(h: Hub, call: nat, callback: Callback)
    requires call in h.calls
  {
    var end := EndOf(h.calls[call], callback);
    IsAttached(h, end) && callback in h.attachments[end].onDetach
  }

  /** An unsettled call has both ends attached and would hear of either one's detachment. */
  ghost predicate PendingAreWatched(h: Hub) {
    forall c <- h.calls | h.calls[c].phase.Pending? ::
      Watched(h, c, TargetGone(c)) && Watched(h, c, RequesterGone(c))
  }

  predicate Unwanted(phase: Phase) {
    phase == Settled(None) || phase == Done(false)
  }

  ghost predicate UnansweredHaveGone(h: Hub) {
    && (forall c <- h.calls | Unwanted(h.calls[c].phase) :: !IsAttached(h, h.calls[c].requester))
    && (forall c <- h.calls | h.calls[c].phase == Settled(None) :: c in h.interrupted)
  }

  ghost predicate OneWayInverse(h: Hub) {
    forall w <- h.environmentByWorkspace ::
      h.environmentByWorkspace[w] in h.workspaceByEnvironment
      && h.workspaceByEnvironment[h.environmentByWorkspace[w]] == w
  }

  /** What the directory knows about an attached workspace is where that workspace is now. */
  ghost predicate KnownAreCurrent(h: Hub) {
    forall w <- h.attached | w in h.environmentByWorkspace ::
      h.attached[w] in h.attachments && h.environmentByWorkspace[w] == h.attachments[h.attached[w]].environment
  }

  ghost predicate Inv(h: Hub) {
    && Numbered(h) && OwnCallbacks(h) && OnlyPendingCallbacks(h) && PendingAreWatched(h)
    && UnansweredHaveGone(h) && OneWayInverse(h) && KnownAreCurrent(h)
  }

  // ---- Settling and detaching

  lemma {:induction false} WithoutDropsOne(callbacks: seq<Callback>, callback: Callback)
    ensures forall cb :: cb in Without(callbacks, callback) <==> cb in callbacks && cb != callback
  {
    if |callbacks| > 0 {
      WithoutDropsOne(callbacks[1..], callback);
    }
  }

  predicate SameEnds(c: Call, d: Call) {
    c.requester == d.requester && c.request == d.request && c.target == d.target
  }

  /** Same people, same directory, same calls between the same ends. */
  ghost predicate SameShape(h: Hub, r: Hub) {
    && r.attached == h.attached && r.nextRequestId == h.nextRequestId && r.replies == h.replies
    && r.workspaceByEnvironment == h.workspaceByEnvironment && r.environmentByWorkspace == h.environmentByWorkspace
    && r.attachments.Keys == h.attachments.Keys && r.calls.Keys == h.calls.Keys
    && (forall a <- h.attachments :: r.attachments[a].workspace == h.attachments[a].workspace
                                     && r.attachments[a].environment == h.attachments[a].environment)
    && (forall c <- h.calls :: SameEnds(h.calls[c], r.calls[c]))
  }

  predicate WasPending(h: Hub, call: nat) {
    call in h.calls && h.calls[call].phase.Pending?
  }

  function CallsOf(callbacks: seq<Callback>): set<nat> {
    set cb <- callbacks :: cb.call
  }

  /** After the calls in `hit` have been settled, exactly their callbacks are gone. */
  ghost predicate CallbacksDropped(h: Hub, r: Hub, hit: set<nat>)
    requires SameShape(h, r)
  {
    forall a, cb {:trigger cb in r.attachments[a].onDetach} {:trigger cb in h.attachments[a].onDetach} | a in h.attachments ::
      (cb in r.attachments[a].onDetach
       <==> cb in h.attachments[a].onDetach && !(WasPending(h, cb.call) && cb.call in hit))
  }

  ghost predicate PhasesSettled(h: Hub, r: Hub, hit: set<nat>)
    requires SameShape(h, r)
  {
    forall c <- h.calls :: if WasPending(h, c) && c in hit then r.calls[c].phase.Settled?
                           else r.calls[c].phase == h.calls[c].phase
  }

  lemma UnregisterEffect(h: Hub, a: Id, callback: Callback)
    ensures var r := Unregistered(h, a, callback);
      SameShape(h, r) && r.calls == h.calls && r.interrupted == h.interrupted
      && (forall x <- h.attachments, cb :: (cb in r.attachments[x].onDetach
            <==> cb in h.attachments[x].onDetach && !(x == a && cb == callback)))
  {
    if a in h.attachments {
      WithoutDropsOne(h.attachments[a].onDetach, callback);
    }
  }

  ghost predicate SettledBy(h: Hub, r: Hub, hit: set<nat>) {
    SameShape(h, r) && CallbacksDropped(h, r, hit) && PhasesSettled(h, r, hit)
  }

  lemma ShapesInTurn(h: Hub, mid: Hub, r: Hub)
    requires SameShape(h, mid) && SameShape(mid, r)
    ensures SameShape(h, r)
  {
  }

  lemma DroppedInTurn(h: Hub, mid: Hub, r: Hub, hit: set<nat>, more: set<nat>, a: Id, cb: Callback)
    requires SettledBy(h, mid, hit) && SettledBy(mid, r, more) && a in h.attachments
    ensures SameShape(h, r)
    ensures (cb in r.attachments[a].onDetach
             <==> cb in h.attachments[a].onDetach && !(WasPending(h, cb.call) && cb.call in hit + more))
  {
    ShapesInTurn(h, mid, r);
    assert a in mid.attachments && a in r.attachments;
    assert cb in r.attachments[a].onDetach ==> cb in mid.attachments[a].onDetach;
    assert WasPending(mid, cb.call) <==> WasPending(h, cb.call) && cb.call !in hit;
  }

  lemma SettledInTurn(h: Hub, mid: Hub, r: Hub, hit: set<nat>, more: set<nat>)
    requires SettledBy(h, mid, hit) && SettledBy(mid, r, more)
    ensures SettledBy(h, r, hit + more)
  {
    ShapesInTurn(h, mid, r);
    assert PhasesSettled(h, r, hit + more);
    hide SameShape, PhasesSettled, SettledBy, WasPending;
    assert CallbacksDropped(h, r, hit + more) by {
      forall a, cb | a in h.attachments
        ensures (cb in r.attachments[a].onDetach
                 <==> cb in h.attachments[a].onDetach && !(WasPending(h, cb.call) && cb.call in hit + more))
      {
        DroppedInTurn(h, mid, r, hit, more, a, cb);
      }
    }
  }

  lemma SettleDropsCallbacks(h: Hub, call: nat, outcome: Option<Outcome>)
    requires OwnCallbacks(h) && WasPending(h, call)
    ensures var r := AfterSettle(h, call, outcome);
      SameShape(h, r) && CallbacksDropped(h, r, {call}) && r.interrupted == h.interrupted
      && r.calls == h.calls[call := h.calls[call].(phase := Settled(outcome))]
  {
    var c := h.calls[call];
    var settled := h.(calls := h.calls[call := c.(phase := Settled(outcome))]);
    UnregisterEffect(settled, c.target, TargetGone(call));
    var mid := Unregistered(settled, c.target, TargetGone(call));
    UnregisterEffect(mid, c.requester, RequesterGone(call));
    hide Unregistered;
  }

  lemma SettleEffect(h: Hub, call: nat, outcome: Option<Outcome>)
    requires OwnCallbacks(h)
    ensures var r := AfterSettle(h, call, outcome);
      SettledBy(h, r, {call}) && r.interrupted == h.interrupted
      && (WasPending(h, call) ==> r.calls[call].phase == Settled(outcome))
  {
    if WasPending(h, call) {
      SettleDropsCallbacks(h, call, outcome);
      hide Unregistered;
    }
  }

  lemma SettledKeepsOwn(h: Hub, r: Hub, hit: set<nat>)
    requires OwnCallbacks(h) && SettledBy(h, r, hit)
    ensures OwnCallbacks(r)
  {
  }

  /** A call ends for a callback's own reason: a gone requester gives it up and tells the target to stop. */
  ghost predicate GivenUpBy(h: Hub, r: Hub, cbs: seq<Callback>)
    requires SameShape(h, r)
  {
    && h.interrupted <= r.interrupted
    && (forall c :: c in r.interrupted <==> c in h.interrupted || RequesterGone(c) in cbs)
    && (forall c <- h.calls | r.calls[c].phase == Settled(None) && WasPending(h, c) ::
          RequesterGone(c) in cbs && c in r.interrupted)
    && (forall c <- h.calls | r.calls[c].phase.Settled? && r.calls[c].phase.outcome.Some? && WasPending(h, c) ::
          TargetGone(c) in cbs && r.calls[c].phase.outcome == Some(GONE))
  }

  lemma TargetGoneEffect(h: Hub, call: nat)
    requires OwnCallbacks(h)
    ensures var r := AfterCallback(h, TargetGone(call)); SettledBy(h, r, {call}) && GivenUpBy(h, r, [TargetGone(call)])
  {
    SettleEffect(h, call, Some(GONE));
    hide AfterSettle, SameShape, CallbacksDropped, OwnCallbacks;
  }

  lemma MarkingSettlesNothing(h: Hub, call: nat)
    requires OwnCallbacks(h)
    ensures var marked := h.(interrupted := h.interrupted + {call}); OwnCallbacks(marked) && SettledBy(h, marked, {})
  {
  }

  lemma RequesterGoneEffect(h: Hub, call: nat)
    requires OwnCallbacks(h)
    ensures var r := AfterCallback(h, RequesterGone(call)); SettledBy(h, r, {call}) && GivenUpBy(h, r, [RequesterGone(call)])
  {
    var marked := h.(interrupted := h.interrupted + {call});
    MarkingSettlesNothing(h, call);
    SettleEffect(marked, call, None);
    SettledInTurn(h, marked, AfterSettle(marked, call, None), {}, {call});
    assert {} + {call} == {call};
    hide AfterSettle, SameShape, CallbacksDropped, OwnCallbacks;
  }

  lemma CallbackEffect(h: Hub, callback: Callback)
    requires OwnCallbacks(h)
    ensures var r := AfterCallback(h, callback);
      SettledBy(h, r, {callback.call}) && GivenUpBy(h, r, [callback])
  {
    hide *;
    match callback
    case TargetGone(call) => TargetGoneEffect(h, call);
    case RequesterGone(call) => RequesterGoneEffect(h, call);
  }

  lemma GivenUpInTurn(h: Hub, mid: Hub, r: Hub, cbs: seq<Callback>, last: Callback)
    requires SettledBy(h, mid, CallsOf(cbs)) && GivenUpBy(h, mid, cbs)
    requires SettledBy(mid, r, {last.call}) && GivenUpBy(mid, r, [last])
    ensures SameShape(h, r) && GivenUpBy(h, r, cbs + [last])
  {
    forall c <- h.calls | r.calls[c].phase == Settled(None) && WasPending(h, c)
      ensures RequesterGone(c) in cbs + [last] && c in r.interrupted
    {
      if !WasPending(mid, c) {
        assert r.calls[c].phase == mid.calls[c].phase;
      }
    }
    forall c <- h.calls | r.calls[c].phase.Settled? && r.calls[c].phase.outcome.Some? && WasPending(h, c)
      ensures TargetGone(c) in cbs + [last] && r.calls[c].phase.outcome == Some(GONE)
    {
      if !WasPending(mid, c) {
        assert r.calls[c].phase == mid.calls[c].phase;
      }
    }
  }

  /** Running a list of detach callbacks settles exactly the pending calls it mentions. */
  lemma {:induction false} CallbacksEffect(h: Hub, cbs: seq<Callback>)
    requires OwnCallbacks(h)
    ensures var r := AfterCallbacks(h, cbs); SettledBy(h, r, CallsOf(cbs)) && GivenUpBy(h, r, cbs)
  {
    if |cbs| > 0 {
      hide AfterCallback, SameShape, CallbacksDropped, PhasesSettled, OwnCallbacks, GivenUpBy;
      var rest := cbs[..|cbs| - 1];
      var last := cbs[|cbs| - 1];
      CallbacksEffect(h, rest);
      var mid := AfterCallbacks(h, rest);
      SettledKeepsOwn(h, mid, CallsOf(rest));
      CallbackEffect(mid, last);
      SettledInTurn(h, mid, AfterCallback(mid, last), CallsOf(rest), {last.call});
      GivenUpInTurn(h, mid, AfterCallback(mid, last), rest, last);
      assert cbs == rest + [last];
      assert CallsOf(cbs) == CallsOf(rest) + {last.call};
    }
  }

  // ---- Every step keeps the invariant

  /** How one step moves a call: it settles once, then is answered or not, once. */
  predicate Advances(before: Phase, after: Phase) {
    before == after || (before.Pending? && after.Settled?)
    || (before.Settled? && after.Done? && (after.answered ==> before.outcome.Some?))
  }

  /** Ids are never reused, the ends of a call never change, and calls only advance. */
  ghost predicate Later(h: Hub, r: Hub) {
    && h.nextRequestId <= r.nextRequestId
    && h.attachments.Keys <= r.attachments.Keys && h.calls.Keys <= r.calls.Keys
    && (forall a <- r.attachments | a !in h.attachments :: h.nextRequestId <= a)
    && (forall c <- r.calls | c !in h.calls :: h.nextRequestId <= c)
    && (forall a <- h.attachments | IsAttached(r, a) :: IsAttached(h, a))
    && (forall c <- h.calls :: SameEnds(h.calls[c], r.calls[c]))
    && (forall a <- h.attachments :: r.attachments[a].workspace == h.attachments[a].workspace)
  }

  ghost predicate CallsAdvance(h: Hub, r: Hub) {
    forall c <- h.calls | c in r.calls :: Advances(h.calls[c].phase, r.calls[c].phase)
  }

  ghost predicate Directory(h: Hub) {
    OneWayInverse(h) && KnownAreCurrent(h)
  }

  /** All unsettled calls but those in `hit` are watched at both ends. */
  ghost predicate WatchedExcept(h: Hub, hit: set<nat>) {
    forall c <- h.calls | h.calls[c].phase.Pending? && c !in hit ::
      Watched(h, c, TargetGone(c)) && Watched(h, c, RequesterGone(c))
  }

  lemma SettledKeepsShape(h: Hub, r: Hub)
    requires SameShape(h, r)
    ensures Numbered(h) ==> Numbered(r)
    ensures Directory(h) ==> Directory(r)
    ensures Later(h, r)
  {
  }

  lemma SettledKeepsCallbacks(h: Hub, r: Hub, hit: set<nat>)
    requires OwnCallbacks(h) && OnlyPendingCallbacks(h) && SettledBy(h, r, hit)
    ensures OwnCallbacks(r) && OnlyPendingCallbacks(r)
  {
  }

  lemma SettledAreWatched(h: Hub, r: Hub, hit: set<nat>)
    requires OwnCallbacks(h) && SettledBy(h, r, hit) && WatchedExcept(h, hit)
    ensures PendingAreWatched(r)
  {
    forall c <- r.calls | r.calls[c].phase.Pending?
      ensures Watched(r, c, TargetGone(c)) && Watched(r, c, RequesterGone(c))
    {
      assert h.calls[c].phase.Pending? && c !in hit;
      assert Watched(h, c, TargetGone(c)) && Watched(h, c, RequesterGone(c));
    }
  }

  lemma SettledAdvances(h: Hub, r: Hub, hit: set<nat>)
    requires SettledBy(h, r, hit)
    ensures CallsAdvance(h, r)
  {
  }

  lemma SettledGiveUp(h: Hub, r: Hub, hit: set<nat>)
    requires SettledBy(h, r, hit) && UnansweredHaveGone(h) && h.interrupted <= r.interrupted
    requires forall c <- h.calls | WasPending(h, c) && r.calls[c].phase == Settled(None) ::
      !IsAttached(h, h.calls[c].requester) && c in r.interrupted
    ensures UnansweredHaveGone(r)
  {
    forall c <- r.calls | Unwanted(r.calls[c].phase) ensures !IsAttached(r, r.calls[c].requester) {
      if !WasPending(h, c) {
        assert Unwanted(h.calls[c].phase);
      }
    }
  }

  lemma AnswerGivesNothingUp(h: Hub, r: Hub, call: nat, outcome: Outcome)
    requires SettledBy(h, r, {call}) && UnansweredHaveGone(h) && h.interrupted == r.interrupted
    requires WasPending(h, call) ==> r.calls[call].phase == Settled(Some(outcome))
    ensures UnansweredHaveGone(r)
  {
    assert forall c <- h.calls | WasPending(h, c) && r.calls[c].phase == Settled(None) :: c == call;
    hide UnansweredHaveGone;
    SettledGiveUp(h, r, {call});
  }

  lemma SettleKeepsInv(h: Hub, call: nat, outcome: Outcome)
    requires Inv(h)
    ensures var r := AfterSettle(h, call, Some(outcome)); Inv(r) && Later(h, r) && CallsAdvance(h, r)
  {
    var r := AfterSettle(h, call, Some(outcome));
    hide AfterSettle, SameShape, CallbacksDropped, PhasesSettled, OwnCallbacks, OnlyPendingCallbacks, Numbered,
         UnansweredHaveGone, OneWayInverse, KnownAreCurrent, Later, CallsAdvance, Watched, IsAttached, WasPending;
    SettleEffect(h, call, Some(outcome));
    SettledKeepsShape(h, r);
    SettledKeepsCallbacks(h, r, {call});
    SettledAreWatched(h, r, {call});
    SettledAdvances(h, r, {call});
    AnswerGivesNothingUp(h, r, call, outcome);
  }

  function Leaving(h: Hub, a: Id): Hub
    requires IsAttached(h, a)
  {
    h.(attached := h.attached - {h.attachments[a].workspace})
  }

  lemma EmptyOrInhabited(callbacks: seq<Callback>)
    ensures callbacks == [] || exists cb :: cb in callbacks
  {
    if |callbacks| > 0 {
      assert callbacks[0] in callbacks;
    }
  }

  lemma RunningEmptiesTheList(h: Hub, a: Id, r: Hub, hit: set<nat>)
    requires OnlyPendingCallbacks(h) && a in h.attachments && SettledBy(h, r, hit)
    requires forall cb <- h.attachments[a].onDetach :: cb.call in hit
    ensures r.attachments[a].onDetach == []
  {
    assert SameShape(h, r) && a in r.attachments;
    forall cb ensures cb !in r.attachments[a].onDetach {
      assert cb in r.attachments[a].onDetach
             <==> cb in h.attachments[a].onDetach && !(WasPending(h, cb.call) && cb.call in hit);
      if cb in h.attachments[a].onDetach {
        assert WasPending(h, cb.call) && cb.call in hit;
      }
    }
    EmptyOrInhabited(r.attachments[a].onDetach);
  }

  /** Every callback of a detaching helper is for a call it takes part in, so running them empties its list. */
  lemma DetachOnlyRunsCallbacks(h: Hub, a: Id)
    requires OwnCallbacks(h) && OnlyPendingCallbacks(h) && IsAttached(h, a)
    ensures AfterDetach(h, a) == AfterCallbacks(Leaving(h, a), h.attachments[a].onDetach)
  {
    var cbs := h.attachments[a].onDetach;
    var run := AfterCallbacks(Leaving(h, a), cbs);
    CallbacksEffect(Leaving(h, a), cbs);
    RunningEmptiesTheList(Leaving(h, a), a, run, CallsOf(cbs));
    hide AfterCallbacks, OwnCallbacks, OnlyPendingCallbacks, CallbacksDropped, PhasesSettled;
    assert run.attachments[a := run.attachments[a].(onDetach := [])] == run.attachments;
  }

  lemma LeavingKeepsInv(h: Hub, a: Id)
    requires Inv(h) && IsAttached(h, a)
    ensures var left := Leaving(h, a);
      Numbered(left) && OwnCallbacks(left) && OnlyPendingCallbacks(left) && UnansweredHaveGone(left) && Directory(left)
      && !IsAttached(left, a)
  {
  }

  lemma LeavingIsLater(h: Hub, a: Id, r: Hub)
    requires IsAttached(h, a) && Later(Leaving(h, a), r) && CallsAdvance(Leaving(h, a), r)
    ensures Later(h, r) && CallsAdvance(h, r)
  {
  }

  lemma LeavingHitsItsCalls(h: Hub, a: Id)
    requires Inv(h) && IsAttached(h, a)
    ensures WatchedExcept(Leaving(h, a), CallsOf(h.attachments[a].onDetach))
  {
    var left := Leaving(h, a);
    var hit := CallsOf(h.attachments[a].onDetach);
    forall c <- left.calls | left.calls[c].phase.Pending? && c !in hit
      ensures Watched(left, c, TargetGone(c)) && Watched(left, c, RequesterGone(c))
    {
      assert Watched(h, c, TargetGone(c)) && Watched(h, c, RequesterGone(c));
      assert TargetGone(c) !in h.attachments[a].onDetach && RequesterGone(c) !in h.attachments[a].onDetach;
    }
  }

  lemma DetachGivesUpItsOwn(left: Hub, r: Hub, a: Id, cbs: seq<Callback>)
    requires OwnCallbacks(left) && a in left.attachments && left.attachments[a].onDetach == cbs && !IsAttached(left, a)
    requires SettledBy(left, r, CallsOf(cbs)) && GivenUpBy(left, r, cbs) && UnansweredHaveGone(left)
    ensures UnansweredHaveGone(r)
  {
    assert forall c <- left.calls | WasPending(left, c) && r.calls[c].phase == Settled(None) ::
        left.calls[c].requester == a;
    hide OwnCallbacks, CallbacksDropped, PhasesSettled, UnansweredHaveGone, IsAttached;
    SettledGiveUp(left, r, CallsOf(cbs));
  }

  lemma SameShapeSamePeople(h: Hub, r: Hub, a: Id)
    requires SameShape(h, r)
    ensures IsAttached(r, a) <==> IsAttached(h, a)
  {
  }

  lemma DetachKeepsInv(h: Hub, a: Id)
    requires Inv(h)
    ensures var r := AfterDetach(h, a); Inv(r) && Later(h, r) && CallsAdvance(h, r) && !IsAttached(r, a)
  {
    if !IsAttached(h, a) {
      return;
    }
    var left := Leaving(h, a);
    var cbs := h.attachments[a].onDetach;
    var r := AfterCallbacks(left, cbs);
    DetachOnlyRunsCallbacks(h, a);
    LeavingKeepsInv(h, a);
    LeavingHitsItsCalls(h, a);
    hide AfterDetach, AfterCallbacks, SameShape, CallbacksDropped, PhasesSettled, OwnCallbacks, OnlyPendingCallbacks,
         Numbered, UnansweredHaveGone, OneWayInverse, KnownAreCurrent, Later, CallsAdvance, Watched, IsAttached,
         WatchedExcept, GivenUpBy, CallsOf, Leaving;
    CallbacksEffect(left, cbs);
    SettledKeepsShape(left, r);
    SettledKeepsCallbacks(left, r, CallsOf(cbs));
    SettledAreWatched(left, r, CallsOf(cbs));
    SettledAdvances(left, r, CallsOf(cbs));
    DetachGivesUpItsOwn(left, r, a, cbs);
    LeavingIsLater(h, a, r);
    SameShapeSamePeople(left, r, a);
  }

  lemma JoinKeepsDirectory(h: Hub, workspace: string, environment: string)
    requires Numbered(h) && Directory(h) && workspace !in h.attached
    ensures Directory(AfterAttach(h, workspace, environment))
  {
  }

  lemma JoinKeepsCalls(h: Hub, workspace: string, environment: string)
    requires Inv(h) && workspace !in h.attached
    ensures var r := AfterAttach(h, workspace, environment);
      Numbered(r) && UnansweredHaveGone(r)
  {
  }

  lemma JoinKeepsCallbacks(h: Hub, workspace: string, environment: string)
    requires Inv(h) && workspace !in h.attached
    ensures var r := AfterAttach(h, workspace, environment); OwnCallbacks(r) && OnlyPendingCallbacks(r)
  {
  }

  lemma JoinKeepsWatch(h: Hub, workspace: string, environment: string)
    requires Inv(h) && workspace !in h.attached
    ensures var r := AfterAttach(h, workspace, environment);
      PendingAreWatched(r) && Later(h, r) && CallsAdvance(h, r)
  {
    var r := AfterAttach(h, workspace, environment);
    forall c <- r.calls | r.calls[c].phase.Pending?
      ensures Watched(r, c, TargetGone(c)) && Watched(r, c, RequesterGone(c))
    {
      assert Watched(h, c, TargetGone(c)) && Watched(h, c, RequesterGone(c));
    }
  }

  /** A workspace that is attached is detached first, so attaching always joins a vacant place. */
  lemma AttachIsDetachThenJoin(h: Hub, workspace: string, environment: string)
    requires Inv(h)
    ensures var freed := if workspace in h.attached then AfterDetach(h, h.attached[workspace]) else h;
      AfterAttach(h, workspace, environment) == AfterAttach(freed, workspace, environment) && workspace !in freed.attached
      && Inv(freed) && Later(h, freed) && CallsAdvance(h, freed)
  {
    if workspace in h.attached {
      var a := h.attached[workspace];
      DetachKeepsInv(h, a);
      DetachOnlyRunsCallbacks(h, a);
      CallbacksEffect(Leaving(h, a), h.attachments[a].onDetach);
      hide AfterDetach, AfterCallbacks;
    }
  }

  lemma LaterThanItself(h: Hub)
    ensures Later(h, h)
  {
  }

  lemma LaterInTurn(h: Hub, mid: Hub, r: Hub)
    requires Later(h, mid) && Later(mid, r)
    ensures Later(h, r)
  {
  }

  predicate SameCalls(h: Hub, r: Hub) {
    r.calls == h.calls
  }

  lemma AttachKeepsInv(h: Hub, workspace: string, environment: string)
    requires Inv(h)
    ensures var r := AfterAttach(h, workspace, environment); Inv(r) && Later(h, r) && CallsAdvance(h, r)
  {
    var freed := if workspace in h.attached then AfterDetach(h, h.attached[workspace]) else h;
    var r := AfterAttach(freed, workspace, environment);
    assert SameCalls(freed, r) by {
      AttachIsDetachThenJoin(h, workspace, environment);
    }
    hide AfterAttach, AfterDetach, OwnCallbacks, OnlyPendingCallbacks, Numbered, PendingAreWatched, UnansweredHaveGone,
         OneWayInverse, KnownAreCurrent, Later;
    AttachIsDetachThenJoin(h, workspace, environment);
    JoinKeepsDirectory(freed, workspace, environment);
    JoinKeepsCalls(freed, workspace, environment);
    JoinKeepsCallbacks(freed, workspace, environment);
    JoinKeepsWatch(freed, workspace, environment);
    LaterInTurn(h, freed, r);
  }

  ghost predicate SamePeople(h: Hub, r: Hub) {
    && r.attached == h.attached && r.interrupted == h.interrupted && r.replies == h.replies
    && r.workspaceByEnvironment == h.workspaceByEnvironment && r.environmentByWorkspace == h.environmentByWorkspace
    && r.attachments.Keys == h.attachments.Keys
    && (forall a <- h.attachments :: r.attachments[a].workspace == h.attachments[a].workspace
                                     && r.attachments[a].environment == h.attachments[a].environment)
  }

  ghost predicate CallbackAdded(h: Hub, r: Hub, a: Id, callback: Callback)
    requires SamePeople(h, r)
  {
    forall x <- h.attachments, cb :: (cb in r.attachments[x].onDetach
      <==> cb in h.attachments[x].onDetach || (x == a && cb == callback))
  }

  lemma RegisterEffect(h: Hub, a: Id, callback: Callback)
    ensures var r := Registered(h, a, callback);
      SamePeople(h, r) && CallbackAdded(h, r, a, callback) && r.calls == h.calls && r.nextRequestId == h.nextRequestId
  {
    if a in h.attachments {
      var r := Registered(h, a, callback);
      assert r.attachments[a].onDetach == h.attachments[a].onDetach + [callback];
    }
  }

  ghost predicate CallAdded(h: Hub, r: Hub, requester: Id, request: string, target: Id) {
    r.calls == h.calls[h.nextRequestId := Call(requester, request, target, Pending)] && r.nextRequestId == h.nextRequestId + 1
  }

  ghost predicate BothEndsAdded(h: Hub, r: Hub, requester: Id, target: Id)
    requires SamePeople(h, r)
  {
    var id := h.nextRequestId;
    forall x <- h.attachments, cb :: (cb in r.attachments[x].onDetach
      <==> cb in h.attachments[x].onDetach || (x == target && cb == TargetGone(id))
           || (x == requester && cb == RequesterGone(id)))
  }

  lemma CallIsAdded(h: Hub, requester: Id, request: string, target: Id)
    ensures var added := WithCall(h, requester, request, target);
      SamePeople(h, added) && CallAdded(h, added, requester, request, target) && added.attachments == h.attachments
  {
  }

  lemma InvokeEffect(h: Hub, requester: Id, request: string, target: Id)
    ensures var r := AfterInvoke(h, requester, request, target);
      SamePeople(h, r) && CallAdded(h, r, requester, request, target) && BothEndsAdded(h, r, requester, target)
  {
    hide WithCall, Registered;
    var id, added := h.nextRequestId, WithCall(h, requester, request, target);
    CallIsAdded(h, requester, request, target);
    RegisterEffect(added, target, TargetGone(id));
    RegisterEffect(Registered(added, target, TargetGone(id)), requester, RequesterGone(id));
  }

  lemma InvokeKeepsCallbacks(h: Hub, r: Hub, requester: Id, request: string, target: Id)
    requires Numbered(h) && OwnCallbacks(h) && OnlyPendingCallbacks(h)
    requires SamePeople(h, r) && CallAdded(h, r, requester, request, target) && BothEndsAdded(h, r, requester, target)
    ensures OwnCallbacks(r) && OnlyPendingCallbacks(r)
  {
    assert forall c <- h.calls :: c in r.calls && r.calls[c] == h.calls[c];
  }

  lemma InvokeKeepsShape(h: Hub, r: Hub, requester: Id, request: string, target: Id)
    requires Numbered(h) && requester in h.attachments && target in h.attachments
    requires SamePeople(h, r) && CallAdded(h, r, requester, request, target)
    ensures Numbered(r) && (Directory(h) ==> Directory(r)) && Later(h, r) && CallsAdvance(h, r)
  {
    assert forall c <- h.calls :: c in r.calls && r.calls[c] == h.calls[c];
  }

  lemma InvokeGivesNothingUp(h: Hub, r: Hub, requester: Id, request: string, target: Id)
    requires Numbered(h) && UnansweredHaveGone(h) && SamePeople(h, r) && CallAdded(h, r, requester, request, target)
    ensures UnansweredHaveGone(r)
  {
    assert forall c <- h.calls :: c in r.calls && r.calls[c] == h.calls[c];
  }

  lemma InvokeKeepsWatch(h: Hub, r: Hub, requester: Id, request: string, target: Id)
    requires Numbered(h) && PendingAreWatched(h) && IsAttached(h, requester) && IsAttached(h, target)
    requires SamePeople(h, r) && CallAdded(h, r, requester, request, target) && BothEndsAdded(h, r, requester, target)
    ensures PendingAreWatched(r)
  {
    forall c <- r.calls | r.calls[c].phase.Pending?
      ensures Watched(r, c, TargetGone(c)) && Watched(r, c, RequesterGone(c))
    {
      if c != h.nextRequestId {
        assert Watched(h, c, TargetGone(c)) && Watched(h, c, RequesterGone(c));
      }
    }
  }

  lemma InvokeKeepsInv(h: Hub, requester: Id, request: string, target: Id)
    requires Inv(h) && IsAttached(h, requester) && IsAttached(h, target)
    ensures var r := AfterInvoke(h, requester, request, target); Inv(r) && Later(h, r) && CallsAdvance(h, r)
  {
    hide AfterInvoke, OwnCallbacks, OnlyPendingCallbacks, Numbered, PendingAreWatched, UnansweredHaveGone,
         OneWayInverse, KnownAreCurrent, Later, CallsAdvance, SamePeople, CallAdded, BothEndsAdded;
    var r := AfterInvoke(h, requester, request, target);
    InvokeEffect(h, requester, request, target);
    InvokeKeepsCallbacks(h, r, requester, request, target);
    InvokeKeepsShape(h, r, requester, request, target);
    InvokeGivesNothingUp(h, r, requester, request, target);
    InvokeKeepsWatch(h, r, requester, request, target);
  }

  /** The same people with the same callbacks, and the same calls waiting between the same ends. */
  ghost predicate SameWatch(h: Hub, r: Hub) {
    && r.attached == h.attached && r.attachments == h.attachments && r.calls.Keys == h.calls.Keys
    && r.workspaceByEnvironment == h.workspaceByEnvironment && r.environmentByWorkspace == h.environmentByWorkspace
    && forall c <- h.calls :: SameEnds(h.calls[c], r.calls[c]) && r.calls[c].phase.Pending? == h.calls[c].phase.Pending?
  }

  lemma SameWatchKeepsCallbacks(h: Hub, r: Hub)
    requires SameWatch(h, r) && OwnCallbacks(h) && OnlyPendingCallbacks(h) && PendingAreWatched(h)
    ensures OwnCallbacks(r) && OnlyPendingCallbacks(r) && PendingAreWatched(r)
  {
    forall c <- r.calls | r.calls[c].phase.Pending?
      ensures Watched(r, c, TargetGone(c)) && Watched(r, c, RequesterGone(c))
    {
      assert Watched(h, c, TargetGone(c)) && Watched(h, c, RequesterGone(c));
    }
  }

  lemma SameWatchKeepsShape(h: Hub, r: Hub)
    requires SameWatch(h, r) && Numbered(h) && Directory(h) && h.nextRequestId <= r.nextRequestId
    ensures Numbered(r) && Directory(r) && Later(h, r)
  {
  }

  lemma TalkKeepsWatch(h: Hub, r: Hub)
    requires UnansweredHaveGone(h) && r == h.(nextRequestId := r.nextRequestId, replies := r.replies)
    ensures SameWatch(h, r) && UnansweredHaveGone(r) && CallsAdvance(h, r)
  {
  }

  /** What is only said to a helper keeps the invariant. */
  lemma TalkKeepsInv(h: Hub, r: Hub)
    requires Inv(h) && r == h.(nextRequestId := r.nextRequestId, replies := r.replies) && h.nextRequestId <= r.nextRequestId
    ensures Inv(r) && Later(h, r) && CallsAdvance(h, r)
  {
    hide OwnCallbacks, OnlyPendingCallbacks, PendingAreWatched, Numbered, OneWayInverse, KnownAreCurrent, UnansweredHaveGone, Later,
         SameWatch, CallsAdvance;
    TalkKeepsWatch(h, r);
    SameWatchKeepsCallbacks(h, r);
    SameWatchKeepsShape(h, r);
  }

  lemma ReplyKeepsInv(h: Hub, requester: Id)
    requires Inv(h)
    ensures var r := AfterReply(h, requester); Inv(r) && Later(h, r) && CallsAdvance(h, r)
  {
    hide Inv, Later, CallsAdvance;
    TalkKeepsInv(h, AfterReply(h, requester));
  }

  lemma AnswerKeepsInv(h: Hub, requester: Id, request: string, outcome: Outcome)
    requires Inv(h)
    ensures var r := AfterAnswer(h, requester, request, outcome); Inv(r) && Later(h, r) && CallsAdvance(h, r)
  {
    hide Inv, Later, CallsAdvance;
    TalkKeepsInv(h, AfterAnswer(h, requester, request, outcome));
  }

  lemma ResumeKeepsWatch(h: Hub, call: nat)
    requires Enabled(h, Resumes(call))
    ensures SameWatch(h, AfterResume(h, call)) && h.nextRequestId <= AfterResume(h, call).nextRequestId
  {
  }

  lemma ResumeAdvances(h: Hub, call: nat)
    requires Inv(h) && Enabled(h, Resumes(call))
    ensures CallsAdvance(h, AfterResume(h, call))
  {
  }

  lemma ResumeGivesNothingUp(h: Hub, call: nat)
    requires Inv(h) && Enabled(h, Resumes(call))
    ensures UnansweredHaveGone(AfterResume(h, call))
  {
  }

  lemma ResumeKeepsInv(h: Hub, call: nat)
    requires Inv(h) && Enabled(h, Resumes(call))
    ensures var r := AfterResume(h, call); Inv(r) && Later(h, r) && CallsAdvance(h, r)
  {
    hide OwnCallbacks, OnlyPendingCallbacks, PendingAreWatched, Numbered, UnansweredHaveGone, Later, CallsAdvance,
         OneWayInverse, KnownAreCurrent, AfterResume;
    ResumeKeepsWatch(h, call);
    SameWatchKeepsCallbacks(h, AfterResume(h, call));
    SameWatchKeepsShape(h, AfterResume(h, call));
    ResumeAdvances(h, call);
    ResumeGivesNothingUp(h, call);
  }

  lemma {:induction false} StepKeepsInv(h: Hub, e: Event)
    requires Inv(h) && Enabled(h, e)
    ensures Inv(Step(h, e)) && Later(h, Step(h, e)) && CallsAdvance(h, Step(h, e))
  {
    match e
    case HelperAttaches(workspace, environment) =>
      AttachKeepsInv(h, workspace, environment);
    case HelperGoes(a) =>
      DetachKeepsInv(h, a);
    case CallArrives(requester, request, environment, links) =>
      match RouteOf(h, links, h.attachments[requester].workspace, environment) {
        case To(target) =>
          InvokeKeepsInv(h, requester, request, target);
        case Refused(_) =>
          AnswerKeepsInv(h, requester, request, RefusalOutcome(RouteOf(h, links, h.attachments[requester].workspace, environment).refusal));
      }
    case OtherReply(requester) =>
      ReplyKeepsInv(h, requester);
    case ExitArrives(call, outcome) =>
      SettleKeepsInv(h, call, outcome);
    case SendFails(call) =>
      SettleKeepsInv(h, call, GONE);
    case Resumes(call) =>
      ResumeKeepsInv(h, call);
  }

  // ---- Whole runs

  lemma {:induction false} RunKeepsInv(h: Hub, es: seq<Event>)
    requires Inv(h) && Possible(h, es)
    ensures Inv(Run(h, es)) && Later(h, Run(h, es))
    decreases |es|
  {
    hide Inv, Step, Later, Enabled;
    if |es| == 0 {
      LaterThanItself(h);
    } else {
      StepKeepsInv(h, es[0]);
      RunKeepsInv(Step(h, es[0]), es[1..]);
      LaterInTurn(h, Step(h, es[0]), Run(h, es));
    }
  }

  lemma UnsettledCallsAreWatched(es: seq<Event>, call: nat)
    requires Possible(Initial, es) && WasPending(Run(Initial, es), call)
    ensures var h := Run(Initial, es); var c := h.calls[call];
      IsAttached(h, c.requester) && IsAttached(h, c.target)
      && TargetGone(call) in h.attachments[c.target].onDetach
      && RequesterGone(call) in h.attachments[c.requester].onDetach
  {
    RunKeepsInv(Initial, es);
    var h := Run(Initial, es);
    assert Watched(h, call, TargetGone(call)) && Watched(h, call, RequesterGone(call));
  }

  /** The first settlement is the only one, and the answer is sent or dropped for good. */
  lemma {:induction false} SettlesOnce(h: Hub, es: seq<Event>, call: nat)
    requires Inv(h) && Possible(h, es) && call in h.calls && !h.calls[call].phase.Pending?
    ensures call in Run(h, es).calls
    ensures var before, after := h.calls[call].phase, Run(h, es).calls[call].phase;
      before == after || (before.Settled? && after.Done? && (after.answered ==> before.outcome.Some?))
    decreases |es|
  {
    if |es| > 0 {
      StepKeepsInv(h, es[0]);
      hide Inv, Step;
      SettlesOnce(Step(h, es[0]), es[1..], call);
    }
  }

  function Answers(es: seq<Event>, call: nat): nat {
    if es == [] then 0 else (if es[0] == Resumes(call) then 1 else 0) + Answers(es[1..], call)
  }

  lemma {:induction false} AnsweredAtMostOnce(h: Hub, es: seq<Event>, call: nat)
    requires Inv(h) && Possible(h, es)
    ensures Answers(es, call) <= 1
    ensures call in h.calls && h.calls[call].phase.Done? ==> Answers(es, call) == 0
    decreases |es|
  {
    if |es| > 0 {
      hide Inv, Step, Later;
      StepKeepsInv(h, es[0]);
      if es[0] == Resumes(call) {
        ResumingEnds(h, call);
      }
      AnsweredAtMostOnce(Step(h, es[0]), es[1..], call);
    }
  }

  lemma ResumingEnds(h: Hub, call: nat)
    requires Enabled(h, Resumes(call))
    ensures call in h.calls && h.calls[call].phase.Settled?
    ensures call in Step(h, Resumes(call)).calls && Step(h, Resumes(call)).calls[call].phase.Done?
  {
  }

  /** A call stays without an answer only because the helper that asked went away, and it never comes back. */
  lemma UnansweredOnlyIfRequesterGone(es: seq<Event>, call: nat, later: seq<Event>)
    requires Possible(Initial, es) && Possible(Run(Initial, es), later)
    requires var h := Run(Initial, es); call in h.calls && Unwanted(h.calls[call].phase)
    ensures !IsAttached(Run(Run(Initial, es), later), Run(Initial, es).calls[call].requester)
    ensures Run(Initial, es).calls[call].phase == Settled(None) ==> call in Run(Initial, es).interrupted
  {
    RunKeepsInv(Initial, es);
    RunKeepsInv(Run(Initial, es), later);
  }

  /** Detaching ends exactly the helper's own calls: the ones it was running fail, the ones it asked for stop. */
  lemma DetachEndsItsCalls(h: Hub, a: Id, call: nat)
    requires Inv(h) && IsAttached(h, a) && WasPending(h, call)
    ensures var c, r := h.calls[call], AfterDetach(h, a);
      call in r.calls && (r.calls[call].phase.Pending? <==> c.requester != a && c.target != a)
      && (c.target == a && c.requester != a ==> r.calls[call].phase == Settled(Some(GONE)))
      && (c.requester == a && c.target != a ==> r.calls[call].phase == Settled(None) && call in r.interrupted)
  {
    var left, cbs := Leaving(h, a), h.attachments[a].onDetach;
    var r := AfterCallbacks(left, cbs);
    DetachOnlyRunsCallbacks(h, a);
    CallbacksEffect(left, cbs);
    hide AfterDetach, AfterCallbacks;
    assert Watched(h, call, TargetGone(call)) && Watched(h, call, RequesterGone(call));
    assert WasPending(left, call);
    assert r.calls[call].phase == Settled(None) ==> RequesterGone(call) in cbs;
  }

  // ---- The directory of environments

  lemma DirectoryIsInjective(es: seq<Event>, w: string, x: string)
    requires Possible(Initial, es)
    requires var h := Run(Initial, es);
      w in h.environmentByWorkspace && x in h.environmentByWorkspace
      && h.environmentByWorkspace[w] == h.environmentByWorkspace[x]
    ensures w == x
  {
    RunKeepsInv(Initial, es);
  }

  /** A call is only ever run on an attached helper that a link leads to. */
  lemma CallsFollowLinks(es: seq<Event>, links: set<(string, string)>, from: string, environment: string)
    requires Possible(Initial, es) && RouteOf(Run(Initial, es), links, from, environment).To?
    ensures var h := Run(Initial, es);
      var target := RouteOf(h, links, from, environment).target;
      IsAttached(h, target) && (from, h.attachments[target].workspace) in links
      && h.workspaceByEnvironment[environment] == h.attachments[target].workspace
  {
    RunKeepsInv(Initial, es);
  }

  /** Where a connected workspace is. */
  function Whereabouts(h: Hub, workspace: string): Option<string> {
    if workspace in h.attached && h.attached[workspace] in h.attachments
    then Some(h.attachments[h.attached[workspace]].environment) else None
  }

  /** Nobody has moved, though some may have gone. */
  ghost predicate NobodyMoved(h: Hub, r: Hub) {
    && r.workspaceByEnvironment == h.workspaceByEnvironment
    && forall w :: Whereabouts(r, w).None? || Whereabouts(r, w) == Whereabouts(h, w)
  }

  lemma SameShapeMovesNobody(h: Hub, r: Hub)
    requires SameShape(h, r)
    ensures NobodyMoved(h, r)
  {
  }

  lemma DetachMovesNobody(h: Hub, a: Id)
    requires Inv(h)
    ensures NobodyMoved(h, AfterDetach(h, a))
  {
    if IsAttached(h, a) {
      var cbs := h.attachments[a].onDetach;
      DetachOnlyRunsCallbacks(h, a);
      CallbacksEffect(Leaving(h, a), cbs);
      SameShapeMovesNobody(Leaving(h, a), AfterCallbacks(Leaving(h, a), cbs));
      hide AfterDetach, AfterCallbacks, SameShape, CallbacksDropped, PhasesSettled, GivenUpBy;
    }
  }

  lemma InvokeMovesNobody(h: Hub, requester: Id, request: string, target: Id)
    ensures NobodyMoved(h, AfterInvoke(h, requester, request, target))
  {
    InvokeEffect(h, requester, request, target);
    hide AfterInvoke, CallAdded, BothEndsAdded;
  }

  lemma OtherStepsMoveNobody(h: Hub, e: Event)
    requires Inv(h) && Enabled(h, e) && !e.HelperAttaches?
    ensures NobodyMoved(h, Step(h, e))
  {
    match e
    case HelperGoes(a) =>
      DetachMovesNobody(h, a);
    case CallArrives(requester, request, environment, links) =>
      if RouteOf(h, links, h.attachments[requester].workspace, environment).To? {
        InvokeMovesNobody(h, requester, request, RouteOf(h, links, h.attachments[requester].workspace, environment).target);
      }
      hide AfterInvoke, RouteOf;
    case ExitArrives(call, outcome) =>
      SettleEffect(h, call, Some(outcome));
      SameShapeMovesNobody(h, Step(h, e));
      hide AfterSettle;
    case SendFails(call) =>
      CallbackEffect(h, TargetGone(call));
      SameShapeMovesNobody(h, Step(h, e));
      hide AfterCallback;
    case _ =>
  }

  /** One workspace has moved to an environment, and the environment to it. */
  ghost predicate OnlyMoved(h: Hub, r: Hub, workspace: string, environment: string) {
    && r.workspaceByEnvironment == h.workspaceByEnvironment[environment := workspace]
    && Whereabouts(r, workspace) == Some(environment)
    && forall w | w != workspace :: Whereabouts(r, w).None? || Whereabouts(r, w) == Whereabouts(h, w)
  }

  lemma JoinMovesOne(freed: Hub, workspace: string, environment: string)
    requires Numbered(freed) && workspace !in freed.attached
    ensures OnlyMoved(freed, AfterAttach(freed, workspace, environment), workspace, environment)
  {
  }

  lemma MovedInTurn(h: Hub, freed: Hub, r: Hub, workspace: string, environment: string)
    requires NobodyMoved(h, freed) && OnlyMoved(freed, r, workspace, environment)
    ensures OnlyMoved(h, r, workspace, environment)
  {
    hide Whereabouts;
  }

  lemma AttachMovesOne(h: Hub, workspace: string, environment: string)
    requires Inv(h)
    ensures OnlyMoved(h, AfterAttach(h, workspace, environment), workspace, environment)
  {
    AttachIsDetachThenJoin(h, workspace, environment);
    var freed := h;
    if workspace in h.attached {
      DetachMovesNobody(h, h.attached[workspace]);
      freed := AfterDetach(h, h.attached[workspace]);
    }
    assert NobodyMoved(h, freed) && Numbered(freed);
    hide *;
    JoinMovesOne(freed, workspace, environment);
    MovedInTurn(h, freed, AfterAttach(freed, workspace, environment), workspace, environment);
  }

  /** The workspace that last attached under an environment. */
  function LastOwner(es: seq<Event>, environment: string): Option<string> {
    if es == [] then None
    else
      var last := es[|es| - 1];
      if last.HelperAttaches? && last.environment == environment then Some(last.workspace)
      else LastOwner(es[..|es| - 1], environment)
  }

  /** The environment that a workspace last attached under. */
  function LastEnvironment(es: seq<Event>, workspace: string): Option<string> {
    if es == [] then None
    else
      var last := es[|es| - 1];
      if last.HelperAttaches? && last.workspace == workspace then Some(last.environment)
      else LastEnvironment(es[..|es| - 1], workspace)
  }

  lemma {:induction false} LastStep(h: Hub, es: seq<Event>)
    requires Possible(h, es) && |es| > 0
    ensures var n := |es| - 1;
      Possible(h, es[..n]) && Enabled(Run(h, es[..n]), es[n]) && Run(h, es) == Step(Run(h, es[..n]), es[n])
    decreases |es|
  {
    hide Step, Enabled;
    var n := |es| - 1;
    if n > 0 {
      LastStep(Step(h, es[0]), es[1..]);
      assert es[..n][1..] == es[1..][..n - 1] && es[..n][0] == es[0];
    } else {
      assert es[1..] == [] && es[..0] == [];
    }
  }

  /** The table of environments is a record of who attached last, and connected workspaces are where they last attached. */
  ghost predicate FollowsHistory(h: Hub, es: seq<Event>) {
    && (forall environment :: environment in h.workspaceByEnvironment <==> LastOwner(es, environment).Some?)
    && (forall environment <- h.workspaceByEnvironment ::
          LastOwner(es, environment) == Some(h.workspaceByEnvironment[environment]))
    && (forall w :: Whereabouts(h, w).None? || Whereabouts(h, w) == LastEnvironment(es, w))
  }

  lemma HistoryStays(h: Hub, r: Hub, es: seq<Event>)
    requires |es| > 0 && !es[|es| - 1].HelperAttaches? && FollowsHistory(h, es[..|es| - 1]) && NobodyMoved(h, r)
    ensures FollowsHistory(r, es)
  {
    hide Whereabouts;
  }

  lemma HistoryGrows(h: Hub, r: Hub, es: seq<Event>)
    requires |es| > 0 && es[|es| - 1].HelperAttaches? && FollowsHistory(h, es[..|es| - 1])
    requires OnlyMoved(h, r, es[|es| - 1].workspace, es[|es| - 1].environment)
    ensures FollowsHistory(r, es)
  {
    hide Whereabouts;
  }

  lemma NoHistoryYet()
    ensures FollowsHistory(Initial, [])
  {
  }

  lemma {:induction false} DirectoryFollowsHistory(es: seq<Event>)
    requires Possible(Initial, es)
    ensures FollowsHistory(Run(Initial, es), es)
  {
    if |es| == 0 {
      NoHistoryYet();
      assert Run(Initial, es) == Initial;
    } else {
      var n := |es| - 1;
      var e := es[n];
      LastStep(Initial, es);
      var h := Run(Initial, es[..n]);
      hide *;
      DirectoryFollowsHistory(es[..n]);
      HistoryInv(es[..n]);
      if e.HelperAttaches? {
        AttachMovesOne(h, e.workspace, e.environment);
        AttachIsStep(h, e);
        HistoryGrows(h, Step(h, e), es);
      } else {
        OtherStepsMoveNobody(h, e);
        HistoryStays(h, Step(h, e), es);
      }
    }
  }

  lemma HistoryInv(es: seq<Event>)
    requires Possible(Initial, es)
    ensures Inv(Run(Initial, es))
  {
    RunKeepsInv(Initial, es);
  }

  lemma AttachIsStep(h: Hub, e: Event)
    requires e.HelperAttaches?
    ensures Enabled(h, e) && Step(h, e) == AfterAttach(h, e.workspace, e.environment)
  {
  }

  /** The workspaces that the links can list: those that have attached, and whose environments no other has attached under
      since. */
  predicate IsListed(es: seq<Event>, w: string) {
    es != []
    && var before, last := es[..|es| - 1], es[|es| - 1];
       if last.HelperAttaches? then last.workspace == w || (IsListed(before, w) && LastOwner(before, last.environment) != Some(w))
       else IsListed(before, w)
  }

  lemma OtherStepsListTheSame(h: Hub, e: Event)
    requires Inv(h) && Enabled(h, e) && !e.HelperAttaches?
    ensures Step(h, e).environmentByWorkspace == h.environmentByWorkspace
  {
    match e
    case HelperGoes(a) => DetachListsTheSame(h, a);
    case CallArrives(requester, request, environment, links) =>
      match RouteOf(h, links, h.attachments[requester].workspace, environment) {
        case To(target) =>
          InvokeEffect(h, requester, request, target);
          hide AfterInvoke;
        case Refused(_) =>
      }
    case ExitArrives(call, outcome) =>
      SettleEffect(h, call, Some(outcome));
      hide AfterSettle;
    case SendFails(call) =>
      SettleEffect(h, call, Some(GONE));
      hide AfterSettle;
    case _ =>
  }

  lemma DetachListsTheSame(h: Hub, a: Id)
    requires Inv(h)
    ensures AfterDetach(h, a).environmentByWorkspace == h.environmentByWorkspace
    ensures AfterDetach(h, a).workspaceByEnvironment == h.workspaceByEnvironment
  {
    if IsAttached(h, a) {
      DetachOnlyRunsCallbacks(h, a);
      CallbacksEffect(Leaving(h, a), h.attachments[a].onDetach);
    }
    hide AfterDetach, AfterCallbacks;
  }

  lemma AttachLists(h: Hub, workspace: string, environment: string, w: string)
    requires Inv(h)
    ensures w in AfterAttach(h, workspace, environment).environmentByWorkspace
            <==> w == workspace
                 || (w in h.environmentByWorkspace
                     && !(environment in h.workspaceByEnvironment && h.workspaceByEnvironment[environment] == w))
  {
    if workspace in h.attached {
      DetachListsTheSame(h, h.attached[workspace]);
    }
    hide AfterDetach, Inv;
  }

  lemma {:induction false} ListedAsTold(es: seq<Event>, w: string)
    requires Possible(Initial, es)
    ensures w in Run(Initial, es).environmentByWorkspace <==> IsListed(es, w)
  {
    if |es| > 0 {
      var before, e := es[..|es| - 1], es[|es| - 1];
      LastStep(Initial, es);
      var h := Run(Initial, before);
      hide Possible, Run, Inv, Enabled, FollowsHistory, LastOwner;
      ListedAsTold(before, w);
      HistoryInv(before);
      if e.HelperAttaches? {
        DirectoryFollowsHistory(before);
        OwnersAreRecorded(h, before, e.environment);
        AttachLists(h, e.workspace, e.environment, w);
      } else {
        OtherStepsListTheSame(h, e);
        hide Step;
      }
    }
  }

  lemma OwnersAreRecorded(h: Hub, es: seq<Event>, environment: string)
    requires FollowsHistory(h, es)
    ensures environment in h.workspaceByEnvironment <==> LastOwner(es, environment).Some?
    ensures environment in h.workspaceByEnvironment ==> LastOwner(es, environment) == Some(h.workspaceByEnvironment[environment])
  {
  }

  /** Which way a call takes, told from who attached under which environment: to the environment's last owner if a link leads
      there and it is connected, and otherwise to the refusal that says why not. A caller whose links include a workspace that
      is not listed is told to try again when nobody has attached under the environment yet. */
  lemma RoutesAreAsTold(es: seq<Event>, links: set<(string, string)>, from: string, environment: string)
    requires Possible(Initial, es)
    ensures
      var h := Run(Initial, es);
      RouteOf(h, links, from, environment)
      == match LastOwner(es, environment)
         case None =>
           Refused(if exists link <- links :: link.0 == from && !IsListed(es, link.1) then NotSeenYet else NotLinked)
         case Some(to) =>
           if (from, to) !in links then Refused(NotLinked)
           else if to !in h.attached then Refused(NotConnected) else To(h.attached[to])
  {
    var h := Run(Initial, es);
    DirectoryFollowsHistory(es);
    OwnersAreRecorded(h, es, environment);
    forall link | link in links ensures link.1 in h.environmentByWorkspace <==> IsListed(es, link.1) {
      ListedAsTold(es, link.1);
    }
    hide Possible, Run, IsListed, LastOwner, FollowsHistory;
  }

  /** In every run, a call goes to the workspace that last attached under the environment it names, and reaches that
      environment exactly when this workspace has not attached under another one since. */
  lemma ReachesTheNamedEnvironmentExactlyWhenItsOwnerStayed(es: seq<Event>, links: set<(string, string)>, from: string,
                                                            environment: string)
    requires Possible(Initial, es) && RouteOf(Run(Initial, es), links, from, environment).To?
    ensures var h := Run(Initial, es); var target := RouteOf(h, links, from, environment).target;
      target in h.attachments && LastOwner(es, environment) == Some(h.attachments[target].workspace)
      && (h.attachments[target].environment == environment
          <==> LastEnvironment(es, h.attachments[target].workspace) == Some(environment))
  {
    RunKeepsInv(Initial, es);
    DirectoryFollowsHistory(es);
    var h := Run(Initial, es);
    var w := h.workspaceByEnvironment[environment];
    hide Run, Possible, LastOwner, LastEnvironment;
    assert w in h.attached && Whereabouts(h, w) == LastEnvironment(es, w);
  }

  /** A workspace that came back under a new environment still receives the calls for its old one. */
  lemma OldEnvironmentStillReachesItsWorkspace()
    ensures var es := [HelperAttaches("a", "old"), HelperAttaches("a", "new")];
      Possible(Initial, es)
      && (var h := Run(Initial, es); var route := RouteOf(h, {("b", "a")}, "b", "old");
          route.To? && h.attachments[route.target].environment == "new")
  {
    var h := Step(Initial, HelperAttaches("a", "old"));
    var r := Step(h, HelperAttaches("a", "new"));
    assert Possible(r, []) && Run(r, []) == r;
    assert [HelperAttaches("a", "old"), HelperAttaches("a", "new")][1..] == [HelperAttaches("a", "new")];
    assert [HelperAttaches("a", "new")][1..] == [];
  }

  /** A newcomer pushes out of the directory exactly the workspace that last claimed its environment. */
  lemma AttachForgetsExactlyTheFormerOwner(h: Hub, workspace: string, environment: string, other: string)
    requires Inv(h) && other != workspace && other in h.environmentByWorkspace
    ensures other in AfterAttach(h, workspace, environment).environmentByWorkspace
            <==> !(environment in h.workspaceByEnvironment && h.workspaceByEnvironment[environment] == other)
  {
    if workspace in h.attached {
      var a := h.attached[workspace];
      DetachOnlyRunsCallbacks(h, a);
      CallbacksEffect(Leaving(h, a), h.attachments[a].onDetach);
      hide AfterDetach, AfterCallbacks;
    }
  }

  /** So a connected workspace that nobody replaced can vanish from the links that are listed. */
  lemma ConnectedWorkspaceCanGoUnlisted()
    ensures var es := [HelperAttaches("a", "old"), HelperAttaches("a", "new"), HelperAttaches("b", "old")];
      Possible(Initial, es)
      && (var h := Run(Initial, es);
          "a" in h.attached && h.attached["a"] in h.attachments && h.attachments[h.attached["a"]].environment == "new"
          && "new" in h.workspaceByEnvironment && h.workspaceByEnvironment["new"] == "a"
          && "a" !in h.environmentByWorkspace)
  {
    var e, f, g := HelperAttaches("a", "old"), HelperAttaches("a", "new"), HelperAttaches("b", "old");
    var h := Step(Step(Initial, e), f);
    var r := Step(h, g);
    assert Possible(r, []) && Run(r, []) == r;
    assert [g][1..] == [] && [f, g][1..] == [g] && [e, f, g][1..] == [f, g];
    assert Possible(h, [g]) && Run(h, [g]) == r;
  }

  // ---- What becomes of a call, told from the events since it was made

  /** A call and its ends. A link joins two different workspaces, so the ends differ. */
  datatype Ends = Ends(call: nat, requester: Id, from: string, target: Id, to: string)

  ghost predicate AreEnds(h: Hub, w: Ends) {
    && w.call in h.calls && h.calls[w.call].requester == w.requester && h.calls[w.call].target == w.target
    && w.requester in h.attachments && h.attachments[w.requester].workspace == w.from
    && w.target in h.attachments && h.attachments[w.target].workspace == w.to
    && w.from != w.to
  }

  /** An attachment ends when its helper goes or another one takes its workspace's place. */
  predicate Leaves(e: Event, a: Id, workspace: string) {
    (e.HelperGoes? && e.a == a) || (e.HelperAttaches? && e.workspace == workspace)
  }

  /** What one event decides about a call that waits. */
  function Decision(e: Event, w: Ends): Option<Option<Outcome>> {
    if e.ExitArrives? && e.call == w.call then Some(Some(e.outcome))
    else if e == SendFails(w.call) || Leaves(e, w.target, w.to) then Some(Some(GONE))
    else if Leaves(e, w.requester, w.from) then Some(None)
    else None
  }

  function FirstDecision(es: seq<Event>, w: Ends): Option<Option<Outcome>> {
    if es == [] then None
    else if Decision(es[0], w).Some? then Decision(es[0], w)
    else FirstDecision(es[1..], w)
  }

  /** The requester leaves before the caller resumes. */
  predicate LeavesWaiting(es: seq<Event>, w: Ends) {
    es != [] && es[0] != Resumes(w.call) && (Leaves(es[0], w.requester, w.from) || LeavesWaiting(es[1..], w))
  }

  function PhaseAfter(es: seq<Event>, w: Ends): Phase {
    match FirstDecision(es, w)
    case None => Pending
    case Some(outcome) =>
      if Resumes(w.call) in es then Done(outcome.Some? && !LeavesWaiting(es, w)) else Settled(outcome)
  }

  lemma EndsStay(h: Hub, e: Event, w: Ends)
    requires Inv(h) && Enabled(h, e) && AreEnds(h, w)
    ensures AreEnds(Step(h, e), w)
  {
    StepKeepsInv(h, e);
    hide Inv, Step, Enabled, CallsAdvance;
  }

  function Decided(decision: Option<Option<Outcome>>): Phase {
    match decision
    case None => Pending
    case Some(outcome) => Settled(outcome)
  }

  lemma GoingDecides(h: Hub, a: Id, w: Ends)
    requires Inv(h) && AreEnds(h, w) && WasPending(h, w.call)
    ensures var r := AfterDetach(h, a);
      w.call in r.calls && r.calls[w.call].phase == Decided(Decision(HelperGoes(a), w))
  {
    assert Watched(h, w.call, TargetGone(w.call)) && Watched(h, w.call, RequesterGone(w.call));
    if IsAttached(h, a) {
      DetachEndsItsCalls(h, a, w.call);
    }
    hide Inv, AfterDetach;
  }

  lemma JoinKeepsPhases(h: Hub, workspace: string, environment: string)
    requires workspace !in h.attached
    ensures AfterAttach(h, workspace, environment).calls == h.calls
  {
  }

  lemma PendingEndsAreAttached(h: Hub, w: Ends)
    requires Inv(h) && AreEnds(h, w) && WasPending(h, w.call)
    ensures IsAttached(h, w.requester) && IsAttached(h, w.target)
    ensures w.to in h.attached && h.attached[w.to] == w.target && w.from in h.attached && h.attached[w.from] == w.requester
  {
    assert Watched(h, w.call, TargetGone(w.call)) && Watched(h, w.call, RequesterGone(w.call));
  }

  lemma ReplacingDecides(h: Hub, workspace: string, environment: string, w: Ends)
    requires Inv(h) && AreEnds(h, w) && WasPending(h, w.call)
    ensures var r := AfterAttach(h, workspace, environment);
      w.call in r.calls && r.calls[w.call].phase == Decided(Decision(HelperAttaches(workspace, environment), w))
  {
    hide Inv, AfterAttach, AfterDetach, Later, CallsAdvance, IsAttached;
    AttachIsDetachThenJoin(h, workspace, environment);
    if workspace in h.attached {
      var a := h.attached[workspace];
      GoingDecides(h, a, w);
      PlacesDiffer(h, workspace, w);
      JoinKeepsPhases(AfterDetach(h, a), workspace, environment);
    } else {
      PendingEndsAreAttached(h, w);
      JoinKeepsPhases(h, workspace, environment);
    }
  }

  lemma PlacesDiffer(h: Hub, workspace: string, w: Ends)
    requires Inv(h) && AreEnds(h, w) && WasPending(h, w.call) && workspace in h.attached
    ensures h.attached[workspace] == w.target <==> workspace == w.to
    ensures h.attached[workspace] == w.requester <==> workspace == w.from
  {
    PendingEndsAreAttached(h, w);
  }

  /** While a call waits, each event decides about it as told. */
  lemma StepDecides(h: Hub, e: Event, w: Ends)
    requires Inv(h) && Enabled(h, e) && AreEnds(h, w) && WasPending(h, w.call)
    ensures var r := Step(h, e); w.call in r.calls && r.calls[w.call].phase == Decided(Decision(e, w))
  {
    hide Inv, AfterAttach, AfterDetach, AfterSettle, AfterCall;
    match e
    case HelperAttaches(workspace, environment) => ReplacingDecides(h, workspace, environment, w);
    case HelperGoes(a) => GoingDecides(h, a, w);
    case CallArrives(requester, request, environment, links) =>
      CallLeavesOthers(h, requester, request, environment, links, w.call);
    case ExitArrives(call, outcome) => SettlingDecides(h, call, outcome, w);
    case SendFails(call) => SettlingDecides(h, call, GONE, w);
    case Resumes(call) =>
    case OtherReply(requester) =>
  }

  lemma SettlingDecides(h: Hub, call: nat, outcome: Outcome, w: Ends)
    requires Inv(h) && AreEnds(h, w) && WasPending(h, w.call)
    ensures var r := AfterSettle(h, call, Some(outcome));
      w.call in r.calls && r.calls[w.call].phase == if call == w.call then Settled(Some(outcome)) else Pending
  {
    SettleEffect(h, call, Some(outcome));
    hide AfterSettle, CallbacksDropped, Inv;
  }

  lemma CallLeavesOthers(h: Hub, requester: Id, request: string, environment: string, links: set<(string, string)>, call: nat)
    requires Inv(h) && requester in h.attachments && call in h.calls
    ensures var r := AfterCall(h, links, requester, request, environment); call in r.calls && r.calls[call] == h.calls[call]
  {
    match RouteOf(h, links, h.attachments[requester].workspace, environment)
    case To(target) =>
      InvokeEffect(h, requester, request, target);
      hide AfterInvoke;
    case Refused(_) =>
  }

  lemma GoneWhenLeaving(h: Hub, e: Event, a: Id)
    requires Inv(h) && Enabled(h, e) && a in h.attachments && Leaves(e, a, h.attachments[a].workspace)
    ensures !IsAttached(Step(h, e), a)
  {
    match e
    case HelperGoes(_) => DetachKeepsInv(h, a);
    case HelperAttaches(workspace, environment) => ReplacedIsGone(h, workspace, environment, a);
  }

  lemma ReplacedIsGone(h: Hub, workspace: string, environment: string, a: Id)
    requires Inv(h) && a in h.attachments && h.attachments[a].workspace == workspace
    ensures !IsAttached(AfterAttach(h, workspace, environment), a)
  {
    AttachIsDetachThenJoin(h, workspace, environment);
    var freed := if workspace in h.attached then AfterDetach(h, h.attached[workspace]) else h;
    assert a in freed.attachments && freed.attachments[a].workspace == workspace && a < freed.nextRequestId;
    JoinTakesThePlace(freed, workspace, environment);
  }

  lemma JoinTakesThePlace(h: Hub, workspace: string, environment: string)
    requires workspace !in h.attached
    ensures var r := AfterAttach(h, workspace, environment);
      workspace in r.attached && r.attached[workspace] == h.nextRequestId
      && r.attachments == h.attachments[h.nextRequestId := Attachment(workspace, environment, [])]
      && (forall x | x != workspace :: (x in r.attached <==> x in h.attached)
                                       && (x in h.attached ==> r.attached[x] == h.attached[x]))
  {
  }

  lemma DetachLeavesOthers(h: Hub, a: Id, b: Id)
    requires Inv(h) && IsAttached(h, b) && a != b
    ensures IsAttached(AfterDetach(h, a), b)
  {
    if IsAttached(h, a) {
      DetachOnlyRunsCallbacks(h, a);
      CallbacksEffect(Leaving(h, a), h.attachments[a].onDetach);
      SameShapeSamePeople(Leaving(h, a), AfterDetach(h, a), b);
    }
    hide AfterDetach, AfterCallbacks;
  }

  lemma StaysUnlessLeaving(h: Hub, e: Event, a: Id)
    requires Inv(h) && Enabled(h, e) && IsAttached(h, a) && !Leaves(e, a, h.attachments[a].workspace)
    ensures IsAttached(Step(h, e), a)
  {
    match e
    case HelperGoes(b) => DetachLeavesOthers(h, b, a);
    case HelperAttaches(workspace, environment) => OthersStayAttached(h, workspace, environment, a);
    case CallArrives(requester, request, environment, links) =>
      match RouteOf(h, links, h.attachments[requester].workspace, environment) {
        case To(target) =>
          InvokeEffect(h, requester, request, target);
          hide AfterInvoke;
        case Refused(_) =>
      }
    case ExitArrives(call, outcome) =>
      SettleEffect(h, call, Some(outcome));
      hide AfterSettle;
    case SendFails(call) =>
      SettleEffect(h, call, Some(GONE));
      hide AfterSettle;
    case _ =>
  }

  lemma OthersStayAttached(h: Hub, workspace: string, environment: string, a: Id)
    requires Inv(h) && IsAttached(h, a) && h.attachments[a].workspace != workspace
    ensures IsAttached(AfterAttach(h, workspace, environment), a)
  {
    AttachIsDetachThenJoin(h, workspace, environment);
    var freed := if workspace in h.attached then AfterDetach(h, h.attached[workspace]) else h;
    if workspace in h.attached {
      DetachLeavesOthers(h, h.attached[workspace], a);
    }
    assert IsAttached(freed, a) && a < freed.nextRequestId && freed.attachments[a].workspace == h.attachments[a].workspace;
    JoinTakesThePlace(freed, workspace, environment);
    hide AfterAttach, AfterDetach, Inv;
  }

  lemma OthersLeaveSettled(h: Hub, e: Event, call: nat)
    requires Inv(h) && Enabled(h, e) && !e.Resumes? && call in h.calls && h.calls[call].phase.Settled?
    ensures call in Step(h, e).calls && Step(h, e).calls[call].phase == h.calls[call].phase
  {
    match e
    case HelperAttaches(workspace, environment) =>
      AttachIsDetachThenJoin(h, workspace, environment);
      if workspace in h.attached {
        DetachLeavesSettled(h, h.attached[workspace], call);
        JoinKeepsPhases(AfterDetach(h, h.attached[workspace]), workspace, environment);
      } else {
        JoinKeepsPhases(h, workspace, environment);
      }
    case HelperGoes(a) => DetachLeavesSettled(h, a, call);
    case CallArrives(requester, request, environment, links) =>
      CallLeavesOthers(h, requester, request, environment, links, call);
    case ExitArrives(c, outcome) => SettleEffect(h, c, Some(outcome));
    case SendFails(c) => SettleEffect(h, c, Some(GONE));
    case OtherReply(requester) =>
  }

  lemma DetachLeavesSettled(h: Hub, a: Id, call: nat)
    requires Inv(h) && call in h.calls && !h.calls[call].phase.Pending?
    ensures call in AfterDetach(h, a).calls && AfterDetach(h, a).calls[call].phase == h.calls[call].phase
  {
    if IsAttached(h, a) {
      DetachOnlyRunsCallbacks(h, a);
      CallbacksEffect(Leaving(h, a), h.attachments[a].onDetach);
      hide AfterDetach, AfterCallbacks;
    }
  }

  lemma ResumedIsDone(h: Hub, w: Ends)
    requires Enabled(h, Resumes(w.call)) && AreEnds(h, w)
    ensures var r := Step(h, Resumes(w.call));
      w.call in r.calls
      && r.calls[w.call].phase == Done(h.calls[w.call].phase.outcome.Some? && IsAttached(h, w.requester))
  {
  }

  lemma SettledStep(h: Hub, e: Event, w: Ends, outcome: Option<Outcome>)
    requires Inv(h) && Enabled(h, e) && AreEnds(h, w) && h.calls[w.call].phase == Settled(outcome)
    ensures var next := Step(h, e);
      Inv(next) && AreEnds(next, w)
      && next.calls[w.call].phase == (if e == Resumes(w.call) then Done(outcome.Some? && IsAttached(h, w.requester))
                                      else Settled(outcome))
      && (IsAttached(next, w.requester) <==> IsAttached(h, w.requester) && !Leaves(e, w.requester, w.from))
  {
    hide Inv, Step, IsAttached, Later, CallsAdvance;
    StepKeepsInv(h, e);
    EndsStay(h, e, w);
    StaysExactlyUnlessLeaving(h, e, w);
    if e == Resumes(w.call) {
      ResumedIsDone(h, w);
    } else if e.Resumes? {
      OtherResumeLeavesIt(h, e, w.call);
    } else {
      OthersLeaveSettled(h, e, w.call);
    }
  }

  lemma OtherResumeLeavesIt(h: Hub, e: Event, call: nat)
    requires Enabled(h, e) && e.Resumes? && e.call != call && call in h.calls
    ensures call in Step(h, e).calls && Step(h, e).calls[call] == h.calls[call]
  {
  }

  /** Once settled, a call waits for its caller to resume, who answers if the requester is still there. */
  lemma {:induction false} SettledWaitsForItsCaller(h: Hub, es: seq<Event>, w: Ends, outcome: Option<Outcome>)
    requires Inv(h) && Possible(h, es) && AreEnds(h, w) && h.calls[w.call].phase == Settled(outcome)
    ensures w.call in Run(h, es).calls
    ensures Run(h, es).calls[w.call].phase ==
      if Resumes(w.call) in es then Done(outcome.Some? && IsAttached(h, w.requester) && !LeavesWaiting(es, w))
      else Settled(outcome)
    decreases |es|
  {
    if |es| > 0 {
      var e, next := es[0], Step(h, es[0]);
      assert Enabled(h, e) && Possible(next, es[1..]) && Run(h, es) == Run(next, es[1..]);
      assert Resumes(w.call) in es <==> e == Resumes(w.call) || Resumes(w.call) in es[1..];
      hide Inv, Step, IsAttached, Enabled, Possible, Run, Leaves;
      SettledStep(h, e, w, outcome);
      if e == Resumes(w.call) {
        SettlesOnce(next, es[1..], w.call);
      } else {
        SettledWaitsForItsCaller(next, es[1..], w, outcome);
      }
    }
  }

  lemma StaysExactlyUnlessLeaving(h: Hub, e: Event, w: Ends)
    requires Inv(h) && Enabled(h, e) && AreEnds(h, w)
    ensures IsAttached(Step(h, e), w.requester) <==> IsAttached(h, w.requester) && !Leaves(e, w.requester, w.from)
  {
    StepKeepsInv(h, e);
    if Leaves(e, w.requester, w.from) {
      GoneWhenLeaving(h, e, w.requester);
    } else if IsAttached(h, w.requester) {
      StaysUnlessLeaving(h, e, w.requester);
    }
    hide Inv, Step;
  }

  lemma WaitingStep(h: Hub, e: Event, w: Ends)
    requires Inv(h) && Enabled(h, e) && AreEnds(h, w) && WasPending(h, w.call)
    ensures var next := Step(h, e);
      Inv(next) && AreEnds(next, w) && e != Resumes(w.call) && next.calls[w.call].phase == Decided(Decision(e, w))
      && (IsAttached(next, w.requester) <==> !Leaves(e, w.requester, w.from))
  {
    assert e != Resumes(w.call);
    hide Inv, Step, IsAttached, Later, CallsAdvance, Enabled;
    StepKeepsInv(h, e);
    EndsStay(h, e, w);
    StepDecides(h, e, w);
    PendingEndsAreAttached(h, w);
    StaysExactlyUnlessLeaving(h, e, w);
  }

  lemma PhaseAfterFirst(es: seq<Event>, w: Ends)
    requires |es| > 0 && es[0] != Resumes(w.call)
    ensures
      PhaseAfter(es, w)
      == match Decision(es[0], w)
         case None => PhaseAfter(es[1..], w)
         case Some(outcome) =>
           if Resumes(w.call) in es[1..]
           then Done(outcome.Some? && !Leaves(es[0], w.requester, w.from) && !LeavesWaiting(es[1..], w)) else Settled(outcome)
  {
    assert Resumes(w.call) in es <==> Resumes(w.call) in es[1..];
    hide Leaves;
    assert Decision(es[0], w).None? ==> !Leaves(es[0], w.requester, w.from);
    hide Decision;
  }

  lemma {:induction false} WaitingGetsTheFirstDecision(h: Hub, es: seq<Event>, w: Ends)
    requires Inv(h) && Possible(h, es) && AreEnds(h, w) && WasPending(h, w.call)
    ensures w.call in Run(h, es).calls && Run(h, es).calls[w.call].phase == PhaseAfter(es, w)
    decreases |es|
  {
    if |es| > 0 {
      var e, next := es[0], Step(h, es[0]);
      assert Enabled(h, e) && Possible(next, es[1..]) && Run(h, es) == Run(next, es[1..]);
      hide Inv, Step, IsAttached, Enabled, Possible, Run, PhaseAfter, Decision, Leaves, LeavesWaiting, FirstDecision;
      WaitingStep(h, e, w);
      PhaseAfterFirst(es, w);
      if Decision(e, w).None? {
        WaitingGetsTheFirstDecision(next, es[1..], w);
      } else {
        SettledWaitsForItsCaller(next, es[1..], w, Decision(e, w).value);
      }
    }
  }

  lemma {:induction false} RequesterWaits(h: Hub, es: seq<Event>, w: Ends)
    requires Inv(h) && Possible(h, es) && AreEnds(h, w) && Resumes(w.call) !in es
    ensures IsAttached(Run(h, es), w.requester) <==> IsAttached(h, w.requester) && !LeavesWaiting(es, w)
    decreases |es|
  {
    if |es| > 0 {
      var e, next := es[0], Step(h, es[0]);
      assert Enabled(h, e) && Possible(next, es[1..]) && Run(h, es) == Run(next, es[1..]);
      assert e in es && Resumes(w.call) !in es[1..];
      hide Inv, Step, IsAttached, Enabled, Possible, Run, Later, CallsAdvance, Leaves;
      StepKeepsInv(h, e);
      EndsStay(h, e, w);
      StaysExactlyUnlessLeaving(h, e, w);
      RequesterWaits(next, es[1..], w);
    }
  }

  /** In every run, a call that is passed on waits on the helper that its environment leads to, and ends as the first event
      says that decides about it: with what its target answers, with a failure if the target goes first or cannot be reached,
      and with no answer if its requester goes first. */
  lemma CallGetsTheFirstDecision(before: seq<Event>, call: Event, after: seq<Event>, w: Ends)
    requires Possible(Initial, before) && call.CallArrives? && Enabled(Run(Initial, before), call)
    requires Possible(Step(Run(Initial, before), call), after)
    requires
      var h := Run(Initial, before);
      && h.attachments[call.requester].workspace == w.from && call.requester == w.requester
      && RouteOf(h, call.links, w.from, call.environment) == To(w.target)
      && w.target in h.attachments && h.attachments[w.target].workspace == w.to && w.from != w.to && w.call == h.nextRequestId
    ensures
      var t := Run(Step(Run(Initial, before), call), after);
      w.call in t.calls && t.calls[w.call] == Call(w.requester, call.request, w.target, PhaseAfter(after, w))
  {
    hide *;
    HistoryInv(before);
    CallIsMade(Run(Initial, before), call, w);
    var next := Step(Run(Initial, before), call);
    WaitingIsPending(next, call.request, w);
    WaitingGetsTheFirstDecision(next, after, w);
    RunKeepsEnds(next, after, w.call, call.request, w);
  }

  ghost predicate IsMade(h: Hub, request: string, w: Ends) {
    Inv(h) && AreEnds(h, w) && h.calls[w.call] == Call(w.requester, request, w.target, Pending) && IsAttached(h, w.requester)
  }

  lemma WaitingIsPending(h: Hub, request: string, w: Ends)
    requires IsMade(h, request, w)
    ensures Inv(h) && AreEnds(h, w) && WasPending(h, w.call) && IsAttached(h, w.requester)
  {
  }

  lemma CallIsMade(h: Hub, call: Event, w: Ends)
    requires Inv(h) && call.CallArrives? && Enabled(h, call) && h.attachments[call.requester].workspace == w.from
    requires call.requester == w.requester && RouteOf(h, call.links, w.from, call.environment) == To(w.target)
    requires w.target in h.attachments && h.attachments[w.target].workspace == w.to && w.from != w.to && w.call == h.nextRequestId
    ensures IsMade(Step(h, call), call.request, w)
  {
    StepKeepsInv(h, call);
    InvokeEffect(h, w.requester, call.request, w.target);
    hide Inv, AfterInvoke, RouteOf, Later, CallsAdvance;
  }

  lemma RunKeepsEnds(h: Hub, es: seq<Event>, call: nat, request: string, w: Ends)
    requires IsMade(h, request, w) && Possible(h, es) && call == w.call
    ensures call in Run(h, es).calls
    ensures var c := Run(h, es).calls[call]; c == Call(w.requester, request, w.target, c.phase)
  {
    RunKeepsInv(h, es);
  }

  // ---- What the helpers are answered

  /** The calls' answers come from two places: a refusal at once, and a settled call when its caller resumes. */
  lemma RepliesAreAnswers(h: Hub, e: Event)
    requires Inv(h) && Enabled(h, e)
    ensures Step(h, e).replies == h.replies + ReplyAt(h, e)
  {
    match e
    case HelperAttaches(workspace, environment) =>
      AttachIsDetachThenJoin(h, workspace, environment);
      if workspace in h.attached { DetachRepliesNothing(h, h.attached[workspace]); }
      hide AfterDetach;
    case HelperGoes(a) => DetachRepliesNothing(h, a);
    case CallArrives(requester, request, environment, links) =>
      match RouteOf(h, links, h.attachments[requester].workspace, environment) {
        case To(target) => InvokeEffect(h, requester, request, target);
        case Refused(_) =>
      }
    case ExitArrives(call, outcome) => SettleEffect(h, call, Some(outcome));
    case SendFails(call) => SettleEffect(h, call, Some(GONE));
    case _ =>
  }

  lemma DetachRepliesNothing(h: Hub, a: Id)
    requires Inv(h)
    ensures AfterDetach(h, a).replies == h.replies
  {
    if IsAttached(h, a) {
      DetachOnlyRunsCallbacks(h, a);
      CallbacksEffect(Leaving(h, a), h.attachments[a].onDetach);
    }
    hide AfterDetach, AfterCallbacks;
  }

  /** A caller can tell the refusals apart, and from a target that went away. */
  lemma RefusalsDiffer(x: Refusal, y: Refusal)
    ensures RefusalOutcome(x) == RefusalOutcome(y) ==> x == y
    ensures RefusalOutcome(x).Failure? && RefusalOutcome(x) != GONE && GONE.Failure?
  {
    assert "has not connected yet"[0] == 'h' && "is not linked"[0] == 'i' && "is not connected"[0] == 'i';
    assert "is not linked"[7] == 'l' && "is not connected"[7] == 'c' && "disconnected before it answered"[0] == 'd';
  }

  function ReplyAt(h: Hub, e: Event): seq<Reply>
    requires Enabled(h, e)
  {
    match e
    case CallArrives(requester, request, environment, links) =>
      var route := RouteOf(h, links, h.attachments[requester].workspace, environment);
      if route.Refused? then [ReplyTo(requester, request, RefusalOutcome(route.refusal))] else []
    case Resumes(call) =>
      var c := h.calls[call];
      if c.phase.outcome.Some? && IsAttached(h, c.requester)
      then [ReplyTo(c.requester, c.request, c.phase.outcome.value)] else []
    case _ => []
  }

  /** The answer to a call that was passed on is the first decision's, sent once to its own requester under its own id. */
  lemma AnswerIsTheFirstDecision(before: seq<Event>, call: Event, after: seq<Event>, w: Ends)
    requires Possible(Initial, before) && call.CallArrives? && Enabled(Run(Initial, before), call)
    requires Possible(Step(Run(Initial, before), call), after)
    requires Enabled(Run(Step(Run(Initial, before), call), after), Resumes(w.call))
    requires
      var h := Run(Initial, before);
      && h.attachments[call.requester].workspace == w.from && call.requester == w.requester
      && RouteOf(h, call.links, w.from, call.environment) == To(w.target)
      && w.target in h.attachments && h.attachments[w.target].workspace == w.to && w.from != w.to && w.call == h.nextRequestId
    ensures
      var t := Run(Step(Run(Initial, before), call), after);
      var decision := FirstDecision(after, w);
      decision.Some?
      && Step(t, Resumes(w.call)).replies
         == t.replies + if decision.value.Some? && !LeavesWaiting(after, w)
                        then [ReplyTo(w.requester, call.request, decision.value.value)] else []
  {
    var next := Step(Run(Initial, before), call);
    hide *;
    CallGetsTheFirstDecision(before, call, after, w);
    HistoryInv(before);
    CallIsMade(Run(Initial, before), call, w);
    WaitingIsPending(next, call.request, w);
    AnswerIsSent(next, after, call.request, w);
  }

  lemma SettledIsDecided(es: seq<Event>, w: Ends)
    requires PhaseAfter(es, w).Settled?
    ensures Resumes(w.call) !in es && FirstDecision(es, w).Some? && PhaseAfter(es, w) == Settled(FirstDecision(es, w).value)
  {
    hide FirstDecision;
  }

  lemma AnswerIsSent(h: Hub, es: seq<Event>, request: string, w: Ends)
    requires Inv(h) && AreEnds(h, w) && IsAttached(h, w.requester) && Possible(h, es) && Enabled(Run(h, es), Resumes(w.call))
    requires Run(h, es).calls[w.call] == Call(w.requester, request, w.target, PhaseAfter(es, w))
    ensures FirstDecision(es, w).Some?
    ensures var t, decision := Run(h, es), FirstDecision(es, w);
      Step(t, Resumes(w.call)).replies
      == t.replies + if decision.value.Some? && !LeavesWaiting(es, w)
                     then [ReplyTo(w.requester, request, decision.value.value)] else []
  {
    hide Inv, AreEnds, IsAttached, Run, Possible, Step, PhaseAfter, FirstDecision, LeavesWaiting;
    SettledIsDecided(es, w);
    RunKeepsInv(h, es);
    RequesterWaits(h, es, w);
    RepliesAreAnswers(Run(h, es), Resumes(w.call));
  }

  // ---- Which targets are told to stop

  lemma GoingInterrupts(h: Hub, a: Id, w: Ends)
    requires Inv(h) && AreEnds(h, w)
    ensures w.call in AfterDetach(h, a).interrupted
            <==> w.call in h.interrupted || (WasPending(h, w.call) && Decision(HelperGoes(a), w) == Some(None))
  {
    if IsAttached(h, a) {
      var cbs := h.attachments[a].onDetach;
      DetachOnlyRunsCallbacks(h, a);
      CallbacksEffect(Leaving(h, a), cbs);
      RequesterIsWatched(h, a, w);
    } else if WasPending(h, w.call) {
      PendingEndsAreAttached(h, w);
    }
    hide AfterDetach, AfterCallbacks, Inv;
  }

  lemma RequesterIsWatched(h: Hub, a: Id, w: Ends)
    requires Inv(h) && AreEnds(h, w) && IsAttached(h, a)
    ensures RequesterGone(w.call) in h.attachments[a].onDetach <==> WasPending(h, w.call) && w.requester == a
    ensures w.requester == a ==> w.target != a
  {
    if WasPending(h, w.call) {
      assert Watched(h, w.call, RequesterGone(w.call));
    }
  }

  lemma StepInterrupts(h: Hub, e: Event, w: Ends)
    requires Inv(h) && Enabled(h, e) && AreEnds(h, w)
    ensures w.call in Step(h, e).interrupted
            <==> w.call in h.interrupted || (WasPending(h, w.call) && Decision(e, w) == Some(None))
  {
    hide Inv, AfterDetach, AfterSettle;
    match e
    case HelperAttaches(workspace, environment) =>
      if workspace in h.attached {
        GoingInterrupts(h, h.attached[workspace], w);
        if WasPending(h, w.call) { PlacesDiffer(h, workspace, w); }
      } else if WasPending(h, w.call) {
        PendingEndsAreAttached(h, w);
      }
    case HelperGoes(a) => GoingInterrupts(h, a, w);
    case CallArrives(requester, request, environment, links) =>
      match RouteOf(h, links, h.attachments[requester].workspace, environment) {
        case To(target) =>
          InvokeEffect(h, requester, request, target);
          hide AfterInvoke;
        case Refused(_) =>
      }
    case ExitArrives(call, outcome) => SettleInterruptsNothing(h, call, outcome);
    case SendFails(call) => SettleInterruptsNothing(h, call, GONE);
    case _ =>
  }

  lemma SettleInterruptsNothing(h: Hub, call: nat, outcome: Outcome)
    requires Inv(h)
    ensures AfterSettle(h, call, Some(outcome)).interrupted == h.interrupted
  {
    SettleEffect(h, call, Some(outcome));
  }

  lemma {:induction false} SettledIsNotInterrupted(h: Hub, es: seq<Event>, w: Ends)
    requires Inv(h) && Possible(h, es) && AreEnds(h, w) && !WasPending(h, w.call)
    ensures w.call in Run(h, es).interrupted <==> w.call in h.interrupted
    decreases |es|
  {
    if |es| > 0 {
      var e, next := es[0], Step(h, es[0]);
      assert Enabled(h, e) && Possible(next, es[1..]) && Run(h, es) == Run(next, es[1..]);
      StepKeepsInv(h, e);
      assert !WasPending(next, w.call);
      hide Inv, Step, Enabled, Possible, Run, Decision;
      EndsStay(h, e, w);
      StepInterrupts(h, e, w);
      SettledIsNotInterrupted(next, es[1..], w);
    }
  }

  /** The target of a call is told to stop exactly when the requester's leaving decides about it. */
  lemma {:induction false} InterruptedExactlyWhenGivenUp(h: Hub, es: seq<Event>, w: Ends)
    requires Inv(h) && Possible(h, es) && AreEnds(h, w) && WasPending(h, w.call)
    ensures w.call in Run(h, es).interrupted <==> w.call in h.interrupted || FirstDecision(es, w) == Some(None)
    decreases |es|
  {
    if |es| > 0 {
      var e, next := es[0], Step(h, es[0]);
      assert Enabled(h, e) && Possible(next, es[1..]) && Run(h, es) == Run(next, es[1..]);
      hide Inv, Step, Enabled, Possible, Run, Decision;
      WaitingStep(h, e, w);
      StepInterrupts(h, e, w);
      if Decision(e, w).None? {
        InterruptedExactlyWhenGivenUp(next, es[1..], w);
      } else {
        SettledIsNotInterrupted(next, es[1..], w);
      }
    }
  }
}
