/** The bridge that carries one browser session after another over a single workspace helper,
    renaming request ids both ways (apps/coder-gateway/src/rpcBridge.ts). */
module RpcBridge {
  import opened Options
  import Decimals

  /** A JSON request id; a number is given by the text JavaScript prints for it. */
  datatype RequestId = Text(text: string) | Number(text: string)

  function RequestKey(id: RequestId): string {
    (if id.Text? then "string:" else "number:") + id.text
  }

  function HelperId(n: nat): string {
    "browser:" + Decimals.Print(n)
  }

  lemma RequestKeyIsInjective(x: RequestId, y: RequestId)
    requires RequestKey(x) == RequestKey(y)
    ensures x == y
  {
    assert RequestKey(x)[7..] == x.text && RequestKey(y)[7..] == y.text;
    assert RequestKey(x)[0] == RequestKey(y)[0];
  }

  lemma HelperIdIsInjective(m: nat, n: nat)
    requires HelperId(m) == HelperId(n)
    ensures m == n
  {
    assert HelperId(m)[8..] == Decimals.Print(m) && HelperId(n)[8..] == Decimals.Print(n);
    Decimals.PrintIsInjective(m, n);
  }

  // ---- Envelopes

  type Body = string

  datatype BrowserMessage =
    | Request(id: RequestId, rpc: string, body: Body)
    | Reference(tag: string, requestId: RequestId, body: Body)
    | Ping(body: Body)

  datatype ToHelper =
    | HelperRequest(id: string, rpc: string, body: Body)
    | HelperReference(tag: string, requestId: string, body: Body)
    | HelperPing(body: Body)

  /** What a helper sends, and what a browser receives: the same envelope under another id. */
  datatype FromHelper =
    | Chunk(requestId: RequestId, body: Body)
    | Exit(requestId: RequestId, body: Body)
    | Other(tag: string, body: Body)

  // ---- The bridge's state and its atomic steps

  datatype Session = Session(id: nat, browserRequests: map<string, string>)

  datatype Route = Route(sessionId: nat, browserRequestId: RequestId, browserRequestKey: string)

  datatype Bridge = Bridge(
    nextSessionId: nat,
    nextHelperRequestId: nat,
    activeSession: Option<Session>,
    helperRequests: map<string, Route>)

  datatype BrowserOutcome = Delivered | Ignored | NotAttached | ReusedId | HelperDisconnected | Detached

  predicate IsActive(b: Bridge, sessionId: nat) {
    b.activeSession.Some? && b.activeSession.value.id == sessionId
  }

  function AfterAttach(b: Bridge): Bridge
    requires b.activeSession.None?
  {
    b.(nextSessionId := b.nextSessionId + 1, activeSession := Some(Session(b.nextSessionId, map[])))
  }

  function AfterDetach(b: Bridge, sessionId: nat): Bridge {
    if IsActive(b, sessionId) then b.(activeSession := None) else b
  }

  /** The unanswered helper ids of a session among the first `n`, oldest first. */
  function Unanswered(b: Bridge, sessionId: nat, n: nat): seq<string> {
    if n == 0 then []
    else
      Unanswered(b, sessionId, n - 1)
      + (if HelperId(n - 1) in b.helperRequests && b.helperRequests[HelperId(n - 1)].sessionId == sessionId
         then [HelperId(n - 1)] else [])
  }

  /** The requests that a session leaves unanswered when it detaches. */
  function LeftBy(b: Bridge, sessionId: nat): seq<string> {
    if IsActive(b, sessionId) then Unanswered(b, sessionId, b.nextHelperRequestId) else []
  }

  function AfterRequest(b: Bridge, id: RequestId): Bridge
    requires b.activeSession.Some?
  {
    var active := b.activeSession.value;
    var helperId := HelperId(b.nextHelperRequestId);
    b.(nextHelperRequestId := b.nextHelperRequestId + 1,
       activeSession := Some(active.(browserRequests := active.browserRequests[RequestKey(id) := helperId])),
       helperRequests := b.helperRequests[helperId := Route(active.id, id, RequestKey(id))])
  }

  /** The next state, what the session is told, and what the helper is sent. A failed send leaves
      the state as it was and delivers nothing. */
  function BrowserStep(b: Bridge, sessionId: nat, m: BrowserMessage, sendOk: bool)
    : (Bridge, BrowserOutcome, seq<ToHelper>)
  {
    if !IsActive(b, sessionId) then (b, NotAttached, [])
    else
      var active := b.activeSession.value;
      match m
      case Ping(body) => if sendOk then (b, Delivered, [HelperPing(body)]) else (b, HelperDisconnected, [])
      case Request(id, rpc, body) =>
        if RequestKey(id) in active.browserRequests then (b, ReusedId, [])
        else if sendOk then
          (AfterRequest(b, id), Delivered, [HelperRequest(HelperId(b.nextHelperRequestId), rpc, body)])
        else (b, HelperDisconnected, [])
      case Reference(tag, requestId, body) =>
        var key := RequestKey(requestId);
        if key !in active.browserRequests || active.browserRequests[key] !in b.helperRequests then
          (b, Ignored, [])
        else if sendOk then (b, Delivered, [HelperReference(tag, active.browserRequests[key], body)])
        else (b, HelperDisconnected, [])
  }

  /** The next state and the frame that reaches the active session's transport, if any. */
  function HelperStep(b: Bridge, m: FromHelper, transportOpen: bool): (Bridge, Option<FromHelper>) {
    if m.Other? then
      (b, if b.activeSession.Some? && transportOpen then Some(m) else None)
    else if m.requestId.text !in b.helperRequests then
      (b, None)
    else
      var route := b.helperRequests[m.requestId.text];
      var frame := m.(requestId := route.browserRequestId);
      var next :=
        if m.Chunk? then b
        else
          b.(helperRequests := b.helperRequests - {m.requestId.text},
             activeSession :=
               if IsActive(b, route.sessionId) then
                 Some(b.activeSession.value.(
                   browserRequests := b.activeSession.value.browserRequests - {route.browserRequestKey}))
               else b.activeSession);
      (next, if IsActive(b, route.sessionId) && transportOpen then Some(frame) else None)
  }

  class WorkspaceRpcBridge {
    var nextSessionId: nat
    var nextHelperRequestId: nat
    var activeSession: Option<Session>
    var helperRequests: map<string, Route>

    function View(): Bridge
      reads this
    {
      Bridge(nextSessionId, nextHelperRequestId, activeSession, helperRequests)
    }

    constructor ()
      ensures View() == Bridge(0, 0, None, map[])
    {
      nextSessionId, nextHelperRequestId, activeSession, helperRequests := 0, 0, None, map[];
    }

    /** None is the conflict with a session that is still attached. */
    method Attach() returns (session: Option<nat>)
      modifies this
      ensures session.None? <==> old(activeSession).Some?
      ensures View() == if session.Some? then AfterAttach(old(View())) else old(View())
      ensures session.Some? ==> session.value == old(nextSessionId)
    {
      if activeSession.Some? {
        return None;
      }
      session := Some(nextSessionId);
      activeSession := Some(Session(nextSessionId, map[]));
      nextSessionId := nextSessionId + 1;
    }

    /** `sendable` counts the interrupts that reach the helper before a send fails. */
    method Detach(sessionId: nat, sendable: nat) returns (interrupted: seq<string>, helperFailed: bool, watch: bool)
      modifies this
      ensures View() == AfterDetach(old(View()), sessionId)
      ensures
        var ids := LeftBy(old(View()), sessionId);
        && interrupted == FirstOf(ids, sendable)
        && helperFailed == (sendable < |ids|)
        && watch == (ids != [])
    {
      interrupted, helperFailed, watch := [], false, false;
      if !(activeSession.Some? && activeSession.value.id == sessionId) {
        return;
      }
      var requests: seq<string> := [];
      for n := 0 to nextHelperRequestId
        invariant requests == Unanswered(View(), sessionId, n)
      {
        if HelperId(n) in helperRequests && helperRequests[HelperId(n)].sessionId == sessionId {
          requests := requests + [HelperId(n)];
        }
      }
      var sent := 0;
      while sent < |requests| && sent < sendable
        invariant sent <= |requests| && sent <= sendable
        invariant interrupted == requests[..sent]
      {
        interrupted := interrupted + [requests[sent]];
        sent := sent + 1;
      }
      helperFailed := sent < |requests|;
      watch := requests != [];
      activeSession := None;
    }

    method ReceiveBrowser(sessionId: nat, m: BrowserMessage, sendOk: bool)
      returns (outcome: BrowserOutcome, sent: seq<ToHelper>)
      modifies this
      ensures (View(), outcome, sent) == BrowserStep(old(View()), sessionId, m, sendOk)
    {
      sent := [];
      if !(activeSession.Some? && activeSession.value.id == sessionId) {
        return NotAttached, [];
      }
      var active := activeSession.value;
      match m {
        case Ping(body) =>
          if sendOk {
            sent := [HelperPing(body)];
          }
        case Request(id, rpc, body) =>
          var key := RequestKey(id);
          if key in active.browserRequests {
            return ReusedId, [];
          }
          if sendOk {
            var helperId := HelperId(nextHelperRequestId);
            helperRequests := helperRequests[helperId := Route(sessionId, id, key)];
            activeSession := Some(active.(browserRequests := active.browserRequests[key := helperId]));
            nextHelperRequestId := nextHelperRequestId + 1;
            sent := [HelperRequest(helperId, rpc, body)];
          }
        case Reference(tag, requestId, body) =>
          var key := RequestKey(requestId);
          if key !in active.browserRequests {
            return Ignored, [];
          }
          var helperId := active.browserRequests[key];
          if helperId !in helperRequests {
            return Ignored, [];
          }
          if sendOk {
            sent := [HelperReference(tag, helperId, body)];
          }
      }
      outcome := if sendOk then Delivered else HelperDisconnected;
    }

    method ReceiveHelper(m: FromHelper, transportOpen: bool) returns (delivered: Option<FromHelper>)
      modifies this
      ensures (View(), delivered) == HelperStep(old(View()), m, transportOpen)
    {
      if m.Other? {
        return if activeSession.Some? && transportOpen then Some(m) else None;
      }
      var helperId := m.requestId.text;
      if helperId !in helperRequests {
        return None;
      }
      var route := helperRequests[helperId];
      var owned := activeSession.Some? && activeSession.value.id == route.sessionId;
      if m.Exit? {
        helperRequests := helperRequests - {helperId};
        if owned {
          var active := activeSession.value;
          activeSession := Some(active.(browserRequests := active.browserRequests - {route.browserRequestKey}));
        }
      }
      if !owned || !transportOpen {
        return None;
      }
      delivered := Some(m.(requestId := route.browserRequestId));
    }

    /** The check that runs some time after a session left requests unanswered: it looks for a route of the session, and
        in whatever run the bridge has come through, finds one exactly if a request it accepted has had no Exit. */
    method NeedsHelperClosed(sessionId: nat, ghost s: System) returns (close: bool)
      requires Inv(s) && s.bridge == View()
      ensures close <==> exists n | 0 <= n < |s.accepted| :: s.accepted[n].sessionId == sessionId && n !in s.answered
    {
      RoutesAreTheUnanswered(s, sessionId);
      var left := helperRequests.Keys;
      while left != {}
        invariant left <= helperRequests.Keys
        invariant forall h <- helperRequests.Keys - left :: helperRequests[h].sessionId != sessionId
        decreases |left|
      {
        var h :| h in left;
        if helperRequests[h].sessionId == sessionId {
          return true;
        }
        left := left - {h};
      }
      close := false;
    }
  }

  // ---- Runs of the bridge between browsers and a helper

  datatype Accepted = Accepted(sessionId: nat, id: RequestId, rpc: string, body: Body)

  /** What reached a session's transport, with the helper's own frame that it came from. */
  datatype Delivery = Delivery(sessionId: nat, frame: FromHelper, sent: FromHelper)

  /** The bridge with its history: the accepted requests (the n-th became `HelperId(n)`), those
      whose Exit has come, the sessions whose transport closed, every delivered frame, and all that the helper was sent. */
  datatype System = System(
    bridge: Bridge,
    accepted: seq<Accepted>,
    answered: set<nat>,
    closed: set<nat>,
    log: seq<Delivery>,
    sent: seq<ToHelper>)

  /** A browser's Eof and the end of its socket detach alike; `sendable` counts the interrupts that reach the helper. A send
      to the browser that throws is its transport closing just before the frame. */
  datatype Event =
    | AttachSession
    | DetachSession(sessionId: nat, sendable: nat)
    | TransportCloses(sessionId: nat)
    | BrowserSends(sessionId: nat, message: BrowserMessage, sendOk: bool)
    | HelperSends(frame: FromHelper)

  const Initial := System(Bridge(0, 0, None, map[]), [], {}, {}, [], [])

  function Interrupts(ids: seq<string>): seq<ToHelper> {
    seq(|ids|, i requires 0 <= i < |ids| => HelperReference("Interrupt", ids[i], ""))
  }

  function FirstOf<T>(xs: seq<T>, n: nat): seq<T> {
    if n < |xs| then xs[..n] else xs
  }

  predicate IsFor(m: FromHelper, n: nat) {
    !m.Other? && m.requestId.text == HelperId(n)
  }

  predicate Accepts(b: Bridge, sessionId: nat, m: BrowserMessage, sendOk: bool) {
    m.Request? && BrowserStep(b, sessionId, m, sendOk).1 == Delivered
  }

  function Step(s: System, e: Event): System {
    match e
    case AttachSession => if s.bridge.activeSession.None? then s.(bridge := AfterAttach(s.bridge)) else s
    case DetachSession(id, sendable) =>
      s.(bridge := AfterDetach(s.bridge, id), sent := s.sent + Interrupts(FirstOf(LeftBy(s.bridge, id), sendable)))
    case TransportCloses(id) => s.(closed := s.closed + {id})
    case BrowserSends(id, m, sendOk) =>
      s.(bridge := BrowserStep(s.bridge, id, m, sendOk).0,
         sent := s.sent + BrowserStep(s.bridge, id, m, sendOk).2,
         accepted := match m
           case Request(requestId, rpc, body) =>
             if Accepts(s.bridge, id, m, sendOk) then s.accepted + [Accepted(id, requestId, rpc, body)] else s.accepted
           case _ => s.accepted)
    case HelperSends(m) =>
      var open := s.bridge.activeSession.Some? && s.bridge.activeSession.value.id !in s.closed;
      var (next, delivered) := HelperStep(s.bridge, m, open);
      s.(bridge := next,
         answered := if m.Exit? then s.answered + (set n | 0 <= n < |s.accepted| && IsFor(m, n)) else s.answered,
         log := if delivered.Some? && s.bridge.activeSession.Some?
                then s.log + [Delivery(s.bridge.activeSession.value.id, delivered.value, m)] else s.log)
  }

  function Run(s: System, es: seq<Event>): System
    decreases |es|
  {
    if es == [] then s else Run(Step(s, es[0]), es[1..])
  }

  // ---- The invariant

  predicate RouteOf(s: System, h: string, n: nat)
    requires h in s.bridge.helperRequests
  {
    && n < |s.accepted| && h == HelperId(n)
    && s.bridge.helperRequests[h]
       == Route(s.accepted[n].sessionId, s.accepted[n].id, RequestKey(s.accepted[n].id))
  }

  /** Requests are numbered as they are accepted, and routed until answered. */
  ghost predicate Numbered(s: System) {
    && |s.accepted| == s.bridge.nextHelperRequestId
    && (forall n <- s.answered :: n < |s.accepted|)
    && (forall n | 0 <= n < |s.accepted| ::
          && s.accepted[n].sessionId < s.bridge.nextSessionId
          && (n !in s.answered <==> HelperId(n) in s.bridge.helperRequests))
    && (forall h <- s.bridge.helperRequests :: exists n: nat :: RouteOf(s, h, n))
  }

  /** A session's own table and its routes are inverse to each other. */
  ghost predicate Inverse(b: Bridge, active: Session) {
    && (forall key <- active.browserRequests ::
          var h := active.browserRequests[key];
          && h in b.helperRequests
          && b.helperRequests[h].sessionId == active.id
          && b.helperRequests[h].browserRequestKey == key)
    && (forall h <- b.helperRequests | b.helperRequests[h].sessionId == active.id ::
          var key := b.helperRequests[h].browserRequestKey;
          key in active.browserRequests && active.browserRequests[key] == h)
  }

  ghost predicate Inv(s: System) {
    && Numbered(s)
    && (s.bridge.activeSession.Some? ==>
          && s.bridge.activeSession.value.id < s.bridge.nextSessionId
          && Inverse(s.bridge, s.bridge.activeSession.value))
  }

  lemma NewHelperIdIsFresh(s: System)
    requires Numbered(s)
    ensures HelperId(|s.accepted|) !in s.bridge.helperRequests
    ensures forall n | 0 <= n < |s.accepted| :: HelperId(n) != HelperId(|s.accepted|)
  {
    forall n | 0 <= n < |s.accepted| ensures HelperId(n) != HelperId(|s.accepted|) {
      if HelperId(n) == HelperId(|s.accepted|) { HelperIdIsInjective(n, |s.accepted|); }
    }
  }

  lemma RequestIsNumbered(s: System, id: nat, m: BrowserMessage)
    requires Inv(s) && Accepts(s.bridge, id, m, true)
    ensures var t := Step(s, BrowserSends(id, m, true)); var h := HelperId(|s.accepted|);
      |t.accepted| == t.bridge.nextHelperRequestId == |s.accepted| + 1 && t.answered == s.answered
      && t.accepted == s.accepted + [Accepted(id, m.id, m.rpc, m.body)] && t.bridge.nextSessionId == s.bridge.nextSessionId
      && id < t.bridge.nextSessionId
      && t.bridge.helperRequests == s.bridge.helperRequests[h := Route(id, m.id, RequestKey(m.id))]
  {
    hide Inverse, RouteOf;
  }

  lemma RequestKeepsNumbered(s: System, id: nat, m: BrowserMessage)
    requires Inv(s) && Accepts(s.bridge, id, m, true)
    ensures Numbered(Step(s, BrowserSends(id, m, true)))
  {
    NewHelperIdIsFresh(s);
    RequestIsNumbered(s, id, m);
    RequestKeepsRoutes(s, id, m);
    assert Numbered(s);
    hide RouteOf, Inverse, Inv, Step, Accepts, HelperId, RequestKey;
  }

  lemma RequestKeepsRoutes(s: System, id: nat, m: BrowserMessage)
    requires Inv(s) && Accepts(s.bridge, id, m, true)
    ensures var t := Step(s, BrowserSends(id, m, true));
      forall h <- t.bridge.helperRequests :: exists n: nat :: RouteOf(t, h, n)
  {
    var t := Step(s, BrowserSends(id, m, true));
    forall h <- t.bridge.helperRequests ensures exists n: nat :: RouteOf(t, h, n) {
      if h == HelperId(|s.accepted|) {
        assert RouteOf(t, h, |s.accepted|);
      } else {
        var n: nat :| RouteOf(s, h, n);
        assert RouteOf(t, h, n);
      }
    }
  }

  lemma RequestKeepsInverse(s: System, id: nat, m: BrowserMessage)
    requires Inv(s) && Accepts(s.bridge, id, m, true)
    ensures Inverse(AfterRequest(s.bridge, m.id), AfterRequest(s.bridge, m.id).activeSession.value)
  {
    NewHelperIdIsFresh(s);
  }

  lemma FrameKeepsNumbered(s: System, m: FromHelper)
    requires Numbered(s)
    ensures Numbered(Step(s, HelperSends(m)))
  {
    var t := Step(s, HelperSends(m));
    forall n | 0 <= n < |s.accepted| ensures n !in t.answered <==> HelperId(n) in t.bridge.helperRequests {
      if m.Exit? && m.requestId.text in s.bridge.helperRequests && m.requestId.text == HelperId(n) {
        assert IsFor(m, n);
      }
    }
    forall h <- t.bridge.helperRequests ensures exists n: nat :: RouteOf(t, h, n) {
      var n: nat :| RouteOf(s, h, n);
      assert RouteOf(t, h, n);
    }
  }

  lemma ForgettingKeepsInverse(b: Bridge, c: Bridge, active: Session, h: string)
    requires Inverse(b, active) && h in b.helperRequests
    requires c.helperRequests == b.helperRequests - {h}
    ensures
      var route := b.helperRequests[h];
      var left := if route.sessionId == active.id
                  then active.(browserRequests := active.browserRequests - {route.browserRequestKey}) else active;
      Inverse(c, left)
  {
  }

  lemma FrameKeepsInverse(s: System, m: FromHelper)
    requires Inv(s) && s.bridge.activeSession.Some?
    ensures var b := Step(s, HelperSends(m)).bridge;
      && b.activeSession.Some? && b.activeSession.value.id == s.bridge.activeSession.value.id
      && Inverse(b, b.activeSession.value)
  {
    var b := Step(s, HelperSends(m)).bridge;
    if m.Exit? && m.requestId.text in s.bridge.helperRequests {
      ForgettingKeepsInverse(s.bridge, b, s.bridge.activeSession.value, m.requestId.text);
    } else {
      assert b == s.bridge;
    }
  }

  lemma SameRoutesKeepNumbered(s: System, t: System)
    requires Numbered(s) && t.accepted == s.accepted && t.answered == s.answered
    requires t.bridge.helperRequests == s.bridge.helperRequests
    requires t.bridge.nextHelperRequestId == s.bridge.nextHelperRequestId
    requires s.bridge.nextSessionId <= t.bridge.nextSessionId
    ensures Numbered(t)
  {
    forall h <- t.bridge.helperRequests ensures exists n: nat :: RouteOf(t, h, n) {
      var n: nat :| RouteOf(s, h, n);
      assert RouteOf(t, h, n);
    }
  }

  lemma SendKeepsInv(s: System, id: nat, m: BrowserMessage, sendOk: bool)
    requires Inv(s)
    ensures Inv(Step(s, BrowserSends(id, m, sendOk)))
  {
    if Accepts(s.bridge, id, m, sendOk) {
      RequestKeepsNumbered(s, id, m);
      RequestKeepsInverse(s, id, m);
    } else {
      SameRoutesKeepNumbered(s, Step(s, BrowserSends(id, m, sendOk)));
    }
  }

  lemma StepKeepsInv(s: System, e: Event)
    requires Inv(s)
    ensures Inv(Step(s, e))
  {
    match e {
      case BrowserSends(id, m, sendOk) => SendKeepsInv(s, id, m, sendOk);
      case HelperSends(m) =>
        FrameKeepsNumbered(s, m);
        if s.bridge.activeSession.Some? { FrameKeepsInverse(s, m); }
      case _ => SameRoutesKeepNumbered(s, Step(s, e));
    }
  }

  lemma {:induction false} RunKeepsInv(s: System, es: seq<Event>)
    requires Inv(s)
    ensures Inv(Run(s, es))
    decreases |es|
  {
    if es != [] {
      StepKeepsInv(s, es[0]);
      RunKeepsInv(Step(s, es[0]), es[1..]);
    }
  }

  // ---- What every run keeps

  /** In every reachable state the active session's table and its routes are mutually inverse, so
      a reference to one of its requests always finds that request's route. */
  lemma TablesAreInverse(es: seq<Event>, key: string, h: string)
    requires Run(Initial, es).bridge.activeSession.Some?
    ensures
      var b := Run(Initial, es).bridge;
      var active := b.activeSession.value;
      && ((key in active.browserRequests && active.browserRequests[key] == h)
          <==> (h in b.helperRequests && b.helperRequests[h].sessionId == active.id
                && b.helperRequests[h].browserRequestKey == key))
      && (key in active.browserRequests ==> active.browserRequests[key] in b.helperRequests)
  {
    RunKeepsInv(Initial, es);
  }

  /** The unanswered requests of a session among the first `k` accepted. */
  function Open(accepted: seq<Accepted>, answered: set<nat>, sessionId: nat, k: nat): seq<nat>
    requires k <= |accepted|
  {
    if k == 0 then []
    else
      Open(accepted, answered, sessionId, k - 1)
      + (if accepted[k - 1].sessionId == sessionId && k - 1 !in answered then [k - 1] else [])
  }

  function HelperIds(ns: seq<nat>): seq<string> {
    seq(|ns|, i requires 0 <= i < |ns| => HelperId(ns[i]))
  }

  /** A detach interrupts exactly the session's accepted and unanswered requests, oldest first. */
  lemma {:induction false} DetachInterruptsTheUnanswered(s: System, sessionId: nat, k: nat)
    requires Inv(s) && k <= |s.accepted|
    ensures Unanswered(s.bridge, sessionId, k) == HelperIds(Open(s.accepted, s.answered, sessionId, k))
  {
    if k > 0 {
      DetachInterruptsTheUnanswered(s, sessionId, k - 1);
      if HelperId(k - 1) in s.bridge.helperRequests { OwnerOf(s, k - 1); }
    }
  }

  lemma OwnerOf(s: System, n: nat)
    requires Inv(s) && n < |s.accepted| && HelperId(n) in s.bridge.helperRequests
    ensures RouteOf(s, HelperId(n), n)
  {
    var k: nat :| RouteOf(s, HelperId(n), k);
    HelperIdIsInjective(n, k);
  }

  /** Whatever a browser can tell: the frames that reached a session under one request id. */
  function Received(log: seq<Delivery>, sessionId: nat, key: string): seq<Delivery> {
    if log == [] then []
    else
      var d := log[|log| - 1];
      Received(log[..|log| - 1], sessionId, key)
      + (if d.sessionId == sessionId && !d.frame.Other? && RequestKey(d.frame.requestId) == key then [d] else [])
  }

  /** Everything that was ever delivered of the n-th request's frames, to whomever and under whatever id. */
  function DeliveredFor(log: seq<Delivery>, n: nat): seq<Delivery> {
    if log == [] then []
    else
      var d := log[|log| - 1];
      DeliveredFor(log[..|log| - 1], n) + (if IsFor(d.sent, n) then [d] else [])
  }

  predicate EndsSession(e: Event, sessionId: nat) {
    match e
    case DetachSession(id, _) => id == sessionId
    case TransportCloses(id) => id == sessionId
    case _ => false
  }

  predicate IsExitFor(e: Event, n: nat) {
    e.HelperSends? && e.frame.Exit? && IsFor(e.frame, n)
  }

  /** The helper's frames for the n-th request, in order. */
  function Frames(es: seq<Event>, n: nat): seq<FromHelper> {
    if es == [] then []
    else (if es[0].HelperSends? && IsFor(es[0].frame, n) then [es[0].frame] else []) + Frames(es[1..], n)
  }

  /** What the session should see of that request: its frames under the browser's own id, up to
      and including the first Exit, and nothing after a detach or the transport closing. */
  function Expected(es: seq<Event>, n: nat, request: Accepted): seq<Delivery> {
    if es == [] || EndsSession(es[0], request.sessionId) then []
    else if es[0].HelperSends? && IsFor(es[0].frame, n) then
      [Delivery(request.sessionId, es[0].frame.(requestId := request.id), es[0].frame)]
      + (if es[0].frame.Exit? then [] else Expected(es[1..], n, request))
    else Expected(es[1..], n, request)
  }

  function Renamed(frames: seq<FromHelper>, request: Accepted): seq<Delivery>
    requires forall f <- frames :: !f.Other?
  {
    seq(|frames|, i requires 0 <= i < |frames| =>
      assert frames[i] in frames;
      Delivery(request.sessionId, frames[i].(requestId := request.id), frames[i]))
  }

  lemma {:induction false} ExpectedIsPrefixUpToExit(es: seq<Event>, n: nat, request: Accepted)
    ensures forall f <- Frames(es, n) :: !f.Other?
    ensures
      var k := |Expected(es, n, request)|;
      && k <= |Frames(es, n)|
      && Expected(es, n, request) == Renamed(Frames(es, n)[..k], request)
      && forall i | 0 <= i < k - 1 :: Frames(es, n)[i].Chunk?
  {
    if es != [] {
      ExpectedIsPrefixUpToExit(es[1..], n, request);
      if EndsSession(es[0], request.sessionId) {
        assert Frames(es, n)[..0] == [];
      } else if es[0].HelperSends? && IsFor(es[0].frame, n) {
        var k := |Expected(es, n, request)|;
        assert Frames(es, n)[..k] == [es[0].frame] + Frames(es[1..], n)[..k - 1];
      }
    }
  }

  ghost predicate Ended(s: System, sessionId: nat) {
    sessionId < s.bridge.nextSessionId && (IsActive(s.bridge, sessionId) ==> sessionId in s.closed)
  }

  lemma EndedStaysEnded(s: System, e: Event, sessionId: nat, key: string)
    requires Ended(s, sessionId)
    ensures Ended(Step(s, e), sessionId)
    ensures Received(Step(s, e).log, sessionId, key) == Received(s.log, sessionId, key)
  {
    var t := Step(s, e);
    if t.log != s.log {
      assert t.log[..|t.log| - 1] == s.log;
    }
  }

  lemma {:induction false} EndedSessionHearsNothing(s: System, es: seq<Event>, sessionId: nat, key: string)
    requires Ended(s, sessionId)
    ensures Received(Run(s, es).log, sessionId, key) == Received(s.log, sessionId, key)
    decreases |es|
  {
    if es != [] {
      EndedStaysEnded(s, es[0], sessionId, key);
      EndedSessionHearsNothing(Step(s, es[0]), es[1..], sessionId, key);
    }
  }

  /** A frame of another request never arrives under the id of an open one. */
  lemma OtherFramesArriveElsewhere(s: System, n: nat, m: FromHelper)
    requires Inv(s) && n < |s.accepted| && n !in s.answered && IsActive(s.bridge, s.accepted[n].sessionId)
    requires !IsFor(m, n)
    ensures
      var key := RequestKey(s.accepted[n].id);
      var sessionId := s.accepted[n].sessionId;
      Received(Step(s, HelperSends(m)).log, sessionId, key) == Received(s.log, sessionId, key)
  {
    var t := Step(s, HelperSends(m));
    if t.log != s.log && !m.Other? {
      var k: nat :| RouteOf(s, m.requestId.text, k);
      OwnerOf(s, n);
      assert t.log[..|t.log| - 1] == s.log;
      assert RequestKey(s.accepted[k].id) != RequestKey(s.accepted[n].id);
    } else if t.log != s.log {
      assert t.log[..|t.log| - 1] == s.log;
    }
  }

  lemma OwnFrameArrives(s: System, n: nat, m: FromHelper)
    requires Inv(s) && n < |s.accepted| && n !in s.answered && IsFor(m, n)
    requires IsActive(s.bridge, s.accepted[n].sessionId) && s.accepted[n].sessionId !in s.closed
    ensures
      var request := s.accepted[n];
      Received(Step(s, HelperSends(m)).log, request.sessionId, RequestKey(request.id))
      == Received(s.log, request.sessionId, RequestKey(request.id))
         + [Delivery(request.sessionId, m.(requestId := request.id), m)]
      && DeliveredFor(Step(s, HelperSends(m)).log, n)
         == DeliveredFor(s.log, n) + [Delivery(request.sessionId, m.(requestId := request.id), m)]
  {
    OwnerOf(s, n);
    var t := Step(s, HelperSends(m));
    assert t.log[..|t.log| - 1] == s.log;
  }

  lemma OpenRequestStaysOpen(s: System, n: nat, e: Event)
    requires Inv(s) && n < |s.accepted| && n !in s.answered
    requires IsActive(s.bridge, s.accepted[n].sessionId) && s.accepted[n].sessionId !in s.closed
    requires !EndsSession(e, s.accepted[n].sessionId) && !IsExitFor(e, n)
    ensures
      var t := Step(s, e);
      && n < |t.accepted| && t.accepted[n] == s.accepted[n] && n !in t.answered
      && IsActive(t.bridge, s.accepted[n].sessionId) && s.accepted[n].sessionId !in t.closed
      && (!e.HelperSends? ==> t.log == s.log)
  {
  }

  /** While a request is unanswered, its session receives under its id exactly what it should. */
  lemma {:induction false} OpenRequestReceivesItsFrames(s: System, n: nat, es: seq<Event>)
    requires Inv(s) && n < |s.accepted| && n !in s.answered
    requires IsActive(s.bridge, s.accepted[n].sessionId) && s.accepted[n].sessionId !in s.closed
    requires forall i | 0 <= i < |es| - 1 :: !IsExitFor(es[i], n)
    ensures
      var request := s.accepted[n];
      Received(Run(s, es).log, request.sessionId, RequestKey(request.id))
      == Received(s.log, request.sessionId, RequestKey(request.id)) + Expected(es, n, request)
    decreases |es|
  {
    hide Inv, Step, Received, DeliveredFor, IsActive, Ended, IsOver;
    var request := s.accepted[n];
    if es != [] {
      var e, t := es[0], Step(s, es[0]);
      StepKeepsInv(s, e);
      if EndsSession(e, request.sessionId) {
        EndingEnds(s, e, n);
        EndedSessionHearsNothing(t, es[1..], request.sessionId, RequestKey(request.id));
      } else if IsExitFor(e, n) {
        OwnFrameArrives(s, n, e.frame);
        assert es[1..] == [];
      } else {
        OpenRequestStaysOpen(s, n, e);
        if e.HelperSends? {
          if IsFor(e.frame, n) { OwnFrameArrives(s, n, e.frame); } else { OtherFramesArriveElsewhere(s, n, e.frame); }
        }
        OpenRequestReceivesItsFrames(t, n, es[1..]);
      }
    }
  }

  lemma OtherFramesAreNotIts(s: System, n: nat, m: FromHelper)
    requires !IsFor(m, n)
    ensures DeliveredFor(Step(s, HelperSends(m)).log, n) == DeliveredFor(s.log, n)
  {
    var t := Step(s, HelperSends(m));
    if t.log != s.log {
      assert t.log[..|t.log| - 1] == s.log;
    }
  }

  /** Answered, or its session is gone. */
  ghost predicate IsOver(s: System, n: nat) {
    n < |s.accepted| && (n in s.answered || Ended(s, s.accepted[n].sessionId))
  }

  lemma OverStaysOver(s: System, e: Event, n: nat)
    requires Inv(s) && IsOver(s, n)
    ensures IsOver(Step(s, e), n) && DeliveredFor(Step(s, e).log, n) == DeliveredFor(s.log, n)
  {
    EndedStaysOver(s, e, n);
    if e.HelperSends? {
      if IsFor(e.frame, n) {
        if HelperId(n) in s.bridge.helperRequests { OwnerOf(s, n); }
      } else {
        OtherFramesAreNotIts(s, n, e.frame);
      }
    }
  }

  lemma EndedStaysOver(s: System, e: Event, n: nat)
    requires IsOver(s, n)
    ensures IsOver(Step(s, e), n)
  {
    if Ended(s, s.accepted[n].sessionId) { EndedStaysEnded(s, e, s.accepted[n].sessionId, ""); }
  }

  lemma {:induction false} OverHearsNothing(s: System, es: seq<Event>, n: nat)
    requires Inv(s) && IsOver(s, n)
    ensures DeliveredFor(Run(s, es).log, n) == DeliveredFor(s.log, n)
    decreases |es|
  {
    if es != [] {
      OverStaysOver(s, es[0], n);
      StepKeepsInv(s, es[0]);
      OverHearsNothing(Step(s, es[0]), es[1..], n);
    }
  }

  /** However a run goes on, what is ever delivered of an open request's frames is exactly what its session should get. */
  lemma {:induction false} OpenRequestIsServedExactly(s: System, n: nat, es: seq<Event>)
    requires Inv(s) && n < |s.accepted| && n !in s.answered
    requires IsActive(s.bridge, s.accepted[n].sessionId) && s.accepted[n].sessionId !in s.closed
    ensures DeliveredFor(Run(s, es).log, n) == DeliveredFor(s.log, n) + Expected(es, n, s.accepted[n])
    decreases |es|
  {
    hide Inv, Step, Received, DeliveredFor, IsActive, Ended, IsOver;
    var request := s.accepted[n];
    if es != [] {
      var e, t := es[0], Step(s, es[0]);
      StepKeepsInv(s, e);
      if EndsSession(e, request.sessionId) {
        EndingEnds(s, e, n);
        OverHearsNothing(t, es[1..], n);
      } else if IsExitFor(e, n) {
        OwnFrameArrives(s, n, e.frame);
        ExitAnswers(s, e.frame, n);
        OverHearsNothing(t, es[1..], n);
      } else {
        OpenRequestStaysOpen(s, n, e);
        if e.HelperSends? {
          if IsFor(e.frame, n) { OwnFrameArrives(s, n, e.frame); } else { OtherFramesAreNotIts(s, n, e.frame); }
        }
        OpenRequestIsServedExactly(t, n, es[1..]);
      }
    }
  }

  lemma EndingEnds(s: System, e: Event, n: nat)
    requires Inv(s) && n < |s.accepted| && EndsSession(e, s.accepted[n].sessionId)
    ensures IsOver(Step(s, e), n) && Ended(Step(s, e), s.accepted[n].sessionId) && Step(s, e).log == s.log
  {
  }

  lemma ExitAnswers(s: System, m: FromHelper, n: nat)
    requires Inv(s) && n < |s.accepted| && m.Exit? && IsFor(m, n)
    ensures IsOver(Step(s, HelperSends(m)), n)
  {
  }

  lemma {:induction false} NothingWasSentYet(s: System, es: seq<Event>, n: nat)
    requires Inv(s) && n >= |Run(s, es).accepted| && DeliveredFor(s.log, n) == []
    ensures DeliveredFor(Run(s, es).log, n) == []
    decreases |es|
  {
    hide Inv, Step, DeliveredFor;
    if es != [] {
      StepKeepsInv(s, es[0]);
      AcceptedGrows(s, es[0]);
      AcceptedOnlyGrows(Step(s, es[0]), es[1..]);
      UnacceptedIsNotRouted(s, es[0], n);
      NothingWasSentYet(Step(s, es[0]), es[1..], n);
    }
  }

  lemma AcceptedGrows(s: System, e: Event)
    ensures |s.accepted| <= |Step(s, e).accepted|
  {
  }

  lemma {:induction false} AcceptedOnlyGrows(s: System, es: seq<Event>)
    ensures |s.accepted| <= |Run(s, es).accepted|
    decreases |es|
  {
    hide Step;
    if es != [] {
      AcceptedGrows(s, es[0]);
      AcceptedOnlyGrows(Step(s, es[0]), es[1..]);
    }
  }

  lemma UnacceptedIsNotRouted(s: System, e: Event, n: nat)
    requires Inv(s) && n >= |Step(s, e).accepted| && n >= |s.accepted|
    ensures DeliveredFor(Step(s, e).log, n) == DeliveredFor(s.log, n)
  {
    if e.HelperSends? && IsFor(e.frame, n) {
      if HelperId(n) in s.bridge.helperRequests {
        var k: nat :| RouteOf(s, HelperId(n), k);
        HelperIdIsInjective(n, k);
      }
    } else if e.HelperSends? {
      OtherFramesAreNotIts(s, n, e.frame);
    }
  }

  lemma AcceptedIsOpen(s: System, sessionId: nat, m: BrowserMessage, sendOk: bool)
    requires Inv(s) && Accepts(s.bridge, sessionId, m, sendOk)
    ensures var n, t := |s.accepted|, Step(s, BrowserSends(sessionId, m, sendOk));
      n < |t.accepted| && t.accepted[n] == Accepted(sessionId, m.id, m.rpc, m.body) && n !in t.answered && t.log == s.log
      && t.closed == s.closed && IsActive(t.bridge, sessionId)
      && (sessionId in s.closed ==> Ended(t, sessionId) && IsOver(t, n))
  {
  }

  /** In every run, whatever comes before and after: of an accepted request's frames exactly the expected ones are ever
      delivered, to its own session and under its own id; and as long as the id is not reused after an Exit, they are all
      that the session receives under that id. */
  lemma SessionReceivesExactlyItsFrames(before: seq<Event>, request: Event, after: seq<Event>)
    requires request.BrowserSends?
    requires Accepts(Run(Initial, before).bridge, request.sessionId, request.message, request.sendOk)
    ensures
      var s := Run(Initial, before);
      var n, key := |s.accepted|, RequestKey(request.message.id);
      var t := Run(Step(s, request), after);
      var expected := if request.sessionId in s.closed then []
                      else Expected(after, n, Accepted(request.sessionId, request.message.id, request.message.rpc, request.message.body));
      && DeliveredFor(t.log, n) == expected
      && ((forall i | 0 <= i < |after| - 1 :: !IsExitFor(after[i], n)) ==>
            Received(t.log, request.sessionId, key) == Received(s.log, request.sessionId, key) + expected)
  {
    var s := Run(Initial, before);
    var n := |s.accepted|;
    RunKeepsInv(Initial, before);
    StepKeepsInv(s, request);
    NothingWasSentYet(Initial, before, n);
    var t := Step(s, request);
    AcceptedIsOpen(s, request.sessionId, request.message, request.sendOk);
    hide Inv, Step, Received, DeliveredFor, Ended, Accepts, Expected, IsOver;
    if request.sessionId in s.closed {
      EndedSessionHearsNothing(t, after, request.sessionId, RequestKey(request.message.id));
      OverHearsNothing(t, after, n);
    } else {
      OpenRequestIsServedExactly(t, n, after);
      if forall i | 0 <= i < |after| - 1 :: !IsExitFor(after[i], n) {
        OpenRequestReceivesItsFrames(t, n, after);
      }
    }
  }

  /** A frame that is delivered goes to the session that made the request, while it is attached,
      under that request's own id: no later session ever sees it. */
  lemma FramesReachOnlyTheirOwner(es: seq<Event>, m: FromHelper)
    requires !m.Other? && Step(Run(Initial, es), HelperSends(m)).log != Run(Initial, es).log
    ensures
      var s := Run(Initial, es);
      exists n | 0 <= n < |s.accepted| ::
        && IsFor(m, n) && n !in s.answered && IsActive(s.bridge, s.accepted[n].sessionId)
        && Step(s, HelperSends(m)).log
           == s.log + [Delivery(s.accepted[n].sessionId, m.(requestId := s.accepted[n].id), m)]
  {
    RunKeepsInv(Initial, es);
    var s := Run(Initial, es);
    var n: nat :| RouteOf(s, m.requestId.text, n);
    assert IsFor(m, n);
  }

  /** A session has a route exactly when it left a request unanswered. */
  lemma RoutesAreTheUnanswered(s: System, sessionId: nat)
    requires Inv(s)
    ensures
      (exists h <- s.bridge.helperRequests :: s.bridge.helperRequests[h].sessionId == sessionId)
      <==> exists n | 0 <= n < |s.accepted| :: s.accepted[n].sessionId == sessionId && n !in s.answered
  {
    if h :| h in s.bridge.helperRequests && s.bridge.helperRequests[h].sessionId == sessionId {
      var n: nat :| RouteOf(s, h, n);
      assert s.accepted[n].sessionId == sessionId && n !in s.answered;
    }
    if n: nat :| n < |s.accepted| && s.accepted[n].sessionId == sessionId && n !in s.answered {
      OwnerOf(s, n);
    }
  }

  // ---- What the events alone say

  /** How many sessions have been attached, and which one is. */
  function Sessions(es: seq<Event>): (nat, Option<nat>) {
    if es == [] then (0, None)
    else
      var (count, attached) := Sessions(es[..|es| - 1]);
      match es[|es| - 1]
      case AttachSession => if attached.None? then (count + 1, Some(count)) else (count, attached)
      case DetachSession(id, _) => (count, if attached == Some(id) then None else attached)
      case _ => (count, attached)
  }

  /** The latest of a session's own requests under an id, if it still waits for its answer. */
  function WaitingUnder(asked: seq<Accepted>, answered: set<nat>, sessionId: nat, id: RequestId): (n: Option<nat>)
    ensures n.Some? ==> n.value < |asked|
  {
    if asked == [] then None
    else
      var last := |asked| - 1;
      if asked[last].sessionId == sessionId && asked[last].id == id && last !in answered then Some(last)
      else WaitingUnder(asked[..last], answered, sessionId, id)
  }

  /** The requests that were accepted: asked by the attached session, under an id that none of its own waits under, and sent
      to the helper. */
  function Asked(es: seq<Event>): seq<Accepted> {
    if es == [] then []
    else
      var before, e := es[..|es| - 1], es[|es| - 1];
      if e.BrowserSends? && e.message.Request? && e.sendOk && Sessions(before).1 == Some(e.sessionId)
         && WaitingUnder(Asked(before), Answered(before), e.sessionId, e.message.id).None?
      then Asked(before) + [Accepted(e.sessionId, e.message.id, e.message.rpc, e.message.body)]
      else Asked(before)
  }

  /** The requests that the helper has answered with an Exit. */
  function Answered(es: seq<Event>): set<nat> {
    if es == [] then {}
    else
      var before, e := es[..|es| - 1], es[|es| - 1];
      if e.HelperSends? && e.frame.Exit?
      then Answered(before) + (set n | 0 <= n < |Asked(before)| && IsFor(e.frame, n)) else Answered(before)
  }

  /** What the helper is sent at an event: an interrupt for each request that a leaving session has waiting, oldest first, as
      far as sending works; and what the attached session sends, with a request under the next number and a reference under
      that of the request it means. */
  function Forwarded(es: seq<Event>, e: Event): seq<ToHelper> {
    match e
    case DetachSession(id, sendable) =>
      if Sessions(es).1 == Some(id)
      then Interrupts(FirstOf(HelperIds(Open(Asked(es), Answered(es), id, |Asked(es)|)), sendable)) else []
    case BrowserSends(id, m, sendOk) =>
      if Sessions(es).1 != Some(id) || !sendOk then []
      else
        (match m
         case Ping(body) => [HelperPing(body)]
         case Request(requestId, rpc, body) =>
           if WaitingUnder(Asked(es), Answered(es), id, requestId).Some? then []
           else [HelperRequest(HelperId(|Asked(es)|), rpc, body)]
         case Reference(tag, requestId, body) =>
           var n := WaitingUnder(Asked(es), Answered(es), id, requestId);
           if n.Some? then [HelperReference(tag, HelperId(n.value), body)] else [])
    case _ => []
  }

  function Sent(es: seq<Event>): seq<ToHelper> {
    if es == [] then [] else Sent(es[..|es| - 1]) + Forwarded(es[..|es| - 1], es[|es| - 1])
  }

  /** What a browser's envelope is answered with. */
  function Answer(es: seq<Event>, sessionId: nat, m: BrowserMessage, sendOk: bool): BrowserOutcome {
    if Sessions(es).1 != Some(sessionId) then NotAttached
    else if m.Request? && WaitingUnder(Asked(es), Answered(es), sessionId, m.id).Some? then ReusedId
    else if m.Reference? && WaitingUnder(Asked(es), Answered(es), sessionId, m.requestId).None? then Ignored
    else if sendOk then Delivered else HelperDisconnected
  }

  /** What the attached session hears of a helper's frame: its own requests' frames under its own ids, and frames that are
      for no request, while its transport is open. */
  function Heard(es: seq<Event>, m: FromHelper): seq<Delivery> {
    var attached := Sessions(es).1;
    if attached.None? || HasClosed(es, attached.value) then []
    else DeliveredTo(attached.value, Asked(es), Answered(es), m)
  }

  function DeliveredTo(sessionId: nat, asked: seq<Accepted>, answered: set<nat>, m: FromHelper): seq<Delivery> {
    if m.Other? then [Delivery(sessionId, m, m)]
    else
      var n := WaitingFor(asked, answered, m);
      if n.Some? && asked[n.value].sessionId == sessionId
      then [Delivery(sessionId, m.(requestId := asked[n.value].id), m)] else []
  }

  /** The request that a frame is for, if it still waits for its answer. */
  function WaitingFor(asked: seq<Accepted>, answered: set<nat>, m: FromHelper): (n: Option<nat>)
    ensures n.Some? ==> n.value < |asked|
  {
    if asked == [] then None
    else
      var last := |asked| - 1;
      if IsFor(m, last) && last !in answered then Some(last) else WaitingFor(asked[..last], answered, m)
  }

  function Log(es: seq<Event>): seq<Delivery> {
    if es == [] then []
    else
      var before, e := es[..|es| - 1], es[|es| - 1];
      Log(before) + if e.HelperSends? then Heard(before, e.frame) else []
  }

  function SessionsOf(b: Bridge): (nat, Option<nat>) {
    (b.nextSessionId, if b.activeSession.Some? then Some(b.activeSession.value.id) else None)
  }

  predicate HasClosed(es: seq<Event>, id: nat) {
    exists i :: 0 <= i < |es| && es[i] == TransportCloses(id)
  }

  ghost predicate Agrees(s: System, es: seq<Event>) {
    && SessionsOf(s.bridge) == Sessions(es)
    && s.accepted == Asked(es) && s.answered == Answered(es) && s.sent == Sent(es) && s.log == Log(es)
    && forall id :: id in s.closed <==> HasClosed(es, id)
  }

  lemma {:induction false} WaitingUnderIsFound(asked: seq<Accepted>, answered: set<nat>, sessionId: nat, id: RequestId)
    ensures var n := WaitingUnder(asked, answered, sessionId, id);
      if n.Some? then asked[n.value].sessionId == sessionId && asked[n.value].id == id && n.value !in answered
      else forall k | 0 <= k < |asked| :: !(asked[k].sessionId == sessionId && asked[k].id == id && k !in answered)
  {
    if asked != [] {
      var last := |asked| - 1;
      WaitingUnderIsFound(asked[..last], answered, sessionId, id);
      assert forall k | 0 <= k < last :: asked[..last][k] == asked[k];
    }
  }

  lemma {:induction false} WaitingForIsFound(asked: seq<Accepted>, answered: set<nat>, m: FromHelper)
    ensures var n := WaitingFor(asked, answered, m);
      if n.Some? then IsFor(m, n.value) && n.value !in answered
      else forall k | 0 <= k < |asked| :: !(IsFor(m, k) && k !in answered)
  {
    if asked != [] {
      WaitingForIsFound(asked[..|asked| - 1], answered, m);
    }
  }

  /** The active session's table is about its own requests that wait. */
  lemma TableIsWaiting(s: System, id: RequestId)
    requires Inv(s) && s.bridge.activeSession.Some?
    ensures
      var active := s.bridge.activeSession.value;
      var n := WaitingUnder(s.accepted, s.answered, active.id, id);
      if n.Some? then RequestKey(id) in active.browserRequests && active.browserRequests[RequestKey(id)] == HelperId(n.value)
                      && HelperId(n.value) in s.bridge.helperRequests
      else RequestKey(id) !in active.browserRequests
  {
    var active := s.bridge.activeSession.value;
    WaitingUnderIsFound(s.accepted, s.answered, active.id, id);
    var n := WaitingUnder(s.accepted, s.answered, active.id, id);
    if n.Some? {
      OwnerOf(s, n.value);
    } else if RequestKey(id) in active.browserRequests {
      var k: nat :| RouteOf(s, active.browserRequests[RequestKey(id)], k);
      RequestKeyIsInjective(id, s.accepted[k].id);
    }
  }

  /** A browser's envelope is answered, and passed on to the helper, as the events say. */
  lemma BrowserIsAnsweredAsTold(s: System, es: seq<Event>, sessionId: nat, m: BrowserMessage, sendOk: bool)
    requires Inv(s) && Agrees(s, es)
    ensures var r := BrowserStep(s.bridge, sessionId, m, sendOk);
      r.1 == Answer(es, sessionId, m, sendOk) && r.2 == Forwarded(es, BrowserSends(sessionId, m, sendOk))
  {
    assert |s.accepted| == s.bridge.nextHelperRequestId;
    if s.bridge.activeSession.Some? {
      if m.Request? { TableIsWaiting(s, m.id); }
      if m.Reference? { TableIsWaiting(s, m.requestId); }
    }
    hide Inv, RequestKey, Sessions, Asked, Answered, Log, Sent, HasClosed, WaitingUnder, AfterRequest;
  }

  /** A frame is routed exactly when it is for a request that waits for its answer. */
  lemma RouteIsWaiting(s: System, m: FromHelper)
    requires Inv(s) && !m.Other?
    ensures var n := WaitingFor(s.accepted, s.answered, m);
      if n.Some? then m.requestId.text in s.bridge.helperRequests && RouteOf(s, m.requestId.text, n.value)
      else m.requestId.text !in s.bridge.helperRequests
  {
    WaitingForIsFound(s.accepted, s.answered, m);
    var n := WaitingFor(s.accepted, s.answered, m);
    if n.Some? {
      OwnerOf(s, n.value);
    } else if m.requestId.text in s.bridge.helperRequests {
      var k: nat :| RouteOf(s, m.requestId.text, k);
      assert IsFor(m, k);
    }
  }

  lemma FrameIsDelivered(s: System, m: FromHelper)
    requires Inv(s)
    ensures Step(s, HelperSends(m)).log ==
      if s.bridge.activeSession.None? || s.bridge.activeSession.value.id in s.closed then s.log
      else s.log + DeliveredTo(s.bridge.activeSession.value.id, s.accepted, s.answered, m)
  {
    if !m.Other? {
      RouteIsWaiting(s, m);
    }
    hide Inv, WaitingFor;
  }

  /** What reaches the attached session of a helper's frame. */
  lemma FrameIsHeardAsTold(s: System, es: seq<Event>, m: FromHelper)
    requires Inv(s) && Agrees(s, es)
    ensures Step(s, HelperSends(m)).log == s.log + Heard(es, m)
  {
    FrameIsDelivered(s, m);
    hide Inv, HasClosed, Sessions, Asked, Answered, Log, Sent, DeliveredTo, Step;
  }

  lemma DetachInterruptsAsTold(s: System, es: seq<Event>, sessionId: nat, sendable: nat)
    requires Inv(s) && Agrees(s, es)
    ensures Step(s, DetachSession(sessionId, sendable)).sent == s.sent + Forwarded(es, DetachSession(sessionId, sendable))
  {
    if IsActive(s.bridge, sessionId) {
      DetachInterruptsTheUnanswered(s, sessionId, |s.accepted|);
    }
  }

  lemma OneMore(es: seq<Event>, e: Event)
    ensures (es + [e])[..|es + [e]| - 1] == es && (es + [e])[|es + [e]| - 1] == e
    ensures Sent(es + [e]) == Sent(es) + Forwarded(es, e)
    ensures e.AttachSession? || e.TransportCloses? || e.HelperSends? ==> Forwarded(es, e) == []
    ensures Log(es + [e]) == Log(es) + if e.HelperSends? then Heard(es, e.frame) else []
    ensures forall id :: HasClosed(es + [e], id) <==> e == TransportCloses(id) || HasClosed(es, id)
  {
  }

  lemma OneMoreSession(es: seq<Event>, e: Event)
    ensures Sessions(es + [e]) ==
      var (count, attached) := Sessions(es);
      match e
      case AttachSession => if attached.None? then (count + 1, Some(count)) else (count, attached)
      case DetachSession(id, _) => (count, if attached == Some(id) then None else attached)
      case _ => (count, attached)
  {
    OneMore(es, e);
  }

  lemma OneMoreAsked(es: seq<Event>, e: Event)
    ensures Asked(es + [e]) ==
      if e.BrowserSends? && e.message.Request? && Answer(es, e.sessionId, e.message, e.sendOk) == Delivered
      then Asked(es) + [Accepted(e.sessionId, e.message.id, e.message.rpc, e.message.body)] else Asked(es)
    ensures Answered(es + [e]) ==
      if e.HelperSends? && e.frame.Exit? then Answered(es) + (set n | 0 <= n < |Asked(es)| && IsFor(e.frame, n))
      else Answered(es)
  {
    OneMore(es, e);
  }

  lemma BrowserStepChanges(s: System, id: nat, m: BrowserMessage, sendOk: bool)
    ensures var t := Step(s, BrowserSends(id, m, sendOk)); var r := BrowserStep(s.bridge, id, m, sendOk);
      SessionsOf(t.bridge) == SessionsOf(s.bridge) && t.answered == s.answered && t.log == s.log && t.closed == s.closed
      && t.sent == s.sent + r.2
      && t.accepted == if m.Request? && r.1 == Delivered then s.accepted + [Accepted(id, m.id, m.rpc, m.body)] else s.accepted
  {
  }

  lemma FrameChanges(s: System, m: FromHelper)
    ensures var t := Step(s, HelperSends(m));
      SessionsOf(t.bridge) == SessionsOf(s.bridge) && t.accepted == s.accepted && t.closed == s.closed && t.sent == s.sent
      && t.answered == if m.Exit? then s.answered + (set n | 0 <= n < |s.accepted| && IsFor(m, n)) else s.answered
  {
  }

  lemma SessionStepChanges(s: System, e: Event)
    requires !e.BrowserSends? && !e.HelperSends?
    ensures var t, (count, attached) := Step(s, e), SessionsOf(s.bridge);
      t.accepted == s.accepted && t.answered == s.answered && t.log == s.log
      && t.closed == (if e.TransportCloses? then s.closed + {e.sessionId} else s.closed)
      && (!e.DetachSession? ==> t.sent == s.sent)
      && SessionsOf(t.bridge) ==
         match e
         case AttachSession => if attached.None? then (count + 1, Some(count)) else (count, attached)
         case DetachSession(id, _) => (count, if attached == Some(id) then None else attached)
         case _ => (count, attached)
  {
  }

  lemma StepAgrees(s: System, es: seq<Event>, e: Event)
    requires Inv(s) && Agrees(s, es)
    ensures Agrees(Step(s, e), es + [e])
  {
    hide Inv, Step, BrowserStep, HelperStep, SessionsOf, Sessions, Asked, Answered, Sent, Log, Heard, Answer, Forwarded;
    hide HasClosed, IsFor;
    OneMore(es, e);
    OneMoreSession(es, e);
    OneMoreAsked(es, e);
    match e {
      case BrowserSends(id, m, sendOk) =>
        BrowserIsAnsweredAsTold(s, es, id, m, sendOk);
        BrowserStepChanges(s, id, m, sendOk);
      case HelperSends(m) =>
        FrameIsHeardAsTold(s, es, m);
        FrameChanges(s, m);
      case DetachSession(id, sendable) =>
        SessionStepChanges(s, e);
        DetachInterruptsAsTold(s, es, id, sendable);
      case _ =>
        SessionStepChanges(s, e);
    }
  }

  lemma {:induction false} RunAppends(s: System, es: seq<Event>, e: Event)
    ensures Run(s, es + [e]) == Step(Run(s, es), e)
    decreases |es|
  {
    if es == [] {
      assert Run(Step(s, e), []) == Step(s, e);
    } else {
      assert (es + [e])[1..] == es[1..] + [e];
      RunAppends(Step(s, es[0]), es[1..], e);
    }
  }

  /** In every run, who is attached, which requests were accepted and answered, all that the helper was sent, and all that
      any session heard, are what the events alone say. */
  lemma {:induction false} EveryRunIsAsTold(es: seq<Event>)
    ensures Agrees(Run(Initial, es), es)
  {
    if es != [] {
      var before, e := es[..|es| - 1], es[|es| - 1];
      EveryRunIsAsTold(before);
      RunKeepsInv(Initial, before);
      StepAgrees(Run(Initial, before), before, e);
      RunAppends(Initial, before, e);
      assert before + [e] == es;
    }
  }

  /** The requests among what the helper was sent. */
  function Requests(sent: seq<ToHelper>): seq<ToHelper> {
    if sent == [] then []
    else
      var last := sent[|sent| - 1];
      Requests(sent[..|sent| - 1]) + if last.HelperRequest? then [last] else []
  }

  function UnderTheirNumbers(asked: seq<Accepted>): seq<ToHelper> {
    seq(|asked|, n requires 0 <= n < |asked| => HelperRequest(HelperId(n), asked[n].rpc, asked[n].body))
  }

  lemma {:induction false} RequestsAdd(xs: seq<ToHelper>, ys: seq<ToHelper>)
    ensures Requests(xs + ys) == Requests(xs) + Requests(ys)
  {
    if ys == [] {
      assert xs + ys == xs;
    } else {
      var n := |ys| - 1;
      assert (xs + ys)[..|xs + ys| - 1] == xs + ys[..n];
      RequestsAdd(xs, ys[..n]);
    }
  }

  lemma {:induction false} NoRequestsAmong(xs: seq<ToHelper>)
    requires forall x <- xs :: !x.HelperRequest?
    ensures Requests(xs) == []
  {
    if xs != [] {
      NoRequestsAmong(xs[..|xs| - 1]);
    }
  }

  lemma OneMoreRequest(es: seq<Event>, e: Event)
    ensures var asked, more, r := Asked(es), Asked(es + [e]), Requests(Forwarded(es, e));
      if |more| == |asked| then more == asked && r == []
      else e.BrowserSends? && e.message.Request?
           && more == asked + [Accepted(e.sessionId, e.message.id, e.message.rpc, e.message.body)]
           && r == [HelperRequest(HelperId(|asked|), e.message.rpc, e.message.body)]
  {
    OneMoreAsked(es, e);
    NoRequestsAmong([]);
    hide Asked, Answered, Sessions;
    if e.DetachSession? {
      NoRequestsAmong(Forwarded(es, e));
    }
  }

  lemma OneMoreUnderItsNumber(asked: seq<Accepted>, a: Accepted)
    ensures UnderTheirNumbers(asked + [a]) == UnderTheirNumbers(asked) + [HelperRequest(HelperId(|asked|), a.rpc, a.body)]
  {
  }

  lemma SentRequestsOneMore(es: seq<Event>, e: Event)
    requires Requests(Sent(es)) == UnderTheirNumbers(Asked(es))
    ensures Requests(Sent(es + [e])) == UnderTheirNumbers(Asked(es + [e]))
  {
    hide *;
    OneMore(es, e);
    OneMoreRequest(es, e);
    RequestsAdd(Sent(es), Forwarded(es, e));
    if |Asked(es + [e])| != |Asked(es)| {
      OneMoreUnderItsNumber(Asked(es), Accepted(e.sessionId, e.message.id, e.message.rpc, e.message.body));
    }
  }

  lemma {:induction false} SentRequests(es: seq<Event>)
    ensures Requests(Sent(es)) == UnderTheirNumbers(Asked(es))
  {
    if es == [] {
      assert Requests([]) == [] && UnderTheirNumbers([]) == [];
    } else {
      SentRequests(es[..|es| - 1]);
      SentRequestsOneMore(es[..|es| - 1], es[|es| - 1]);
      assert es[..|es| - 1] + [es[|es| - 1]] == es;
    }
  }

  /** The requests that the helper is sent are, in order, the accepted ones, the n-th under the n-th helper id with its own
      method and body. */
  lemma AcceptedRequestsReachTheHelper(es: seq<Event>)
    ensures Run(Initial, es).accepted == Asked(es)
    ensures Requests(Run(Initial, es).sent) == UnderTheirNumbers(Asked(es))
  {
    EveryRunIsAsTold(es);
    SentRequests(es);
  }

  /** A reference is passed on, with its tag and body, under the helper id of the one request that its own session has waiting
      under the id it names; without one it is dropped. */
  lemma ReferencesNameTheirRequest(es: seq<Event>, sessionId: nat, tag: string, id: RequestId, body: Body, n: nat)
    requires Sessions(es).1 == Some(sessionId)
    ensures
      var e := BrowserSends(sessionId, Reference(tag, id, body), true);
      var more := Run(Initial, es + [e]).sent;
      && (n < |Asked(es)| && Asked(es)[n].sessionId == sessionId && Asked(es)[n].id == id && n !in Answered(es)
          ==> more == Run(Initial, es).sent + [HelperReference(tag, HelperId(n), body)])
      && ((forall k | 0 <= k < |Asked(es)| :: !(Asked(es)[k].sessionId == sessionId && Asked(es)[k].id == id && k !in Answered(es)))
          ==> more == Run(Initial, es).sent)
  {
    var e := BrowserSends(sessionId, Reference(tag, id, body), true);
    var s := Run(Initial, es);
    EveryRunIsAsTold(es);
    EveryRunIsAsTold(es + [e]);
    OneMore(es, e);
    RunKeepsInv(Initial, es);
    WaitingUnderIsFound(Asked(es), Answered(es), sessionId, id);
    TableIsWaiting(s, id);
    var found := WaitingUnder(Asked(es), Answered(es), sessionId, id);
    if n < |Asked(es)| && Asked(es)[n].sessionId == sessionId && Asked(es)[n].id == id && n !in Answered(es) {
      OwnerOf(s, n);
      HelperIdIsInjective(found.value, n);
    }
  }
}
