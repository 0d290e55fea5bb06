/** A workspace helper's side of the hub: requests that wait for the gateway's subscription to answer them
    (apps/server/src/coderHub.ts). */
module HelperHub {
  import opened Options

  datatype Kind = CallKind | LinksKind

  datatype Reply = CallReply(outcome: string) | LinksReply(links: seq<string>)

  datatype Failure = NoGateway | ShuttingDown

  /** How a request's deferred answer was settled. */
  datatype Settlement = Answered(reply: Reply) | Failed(reason: Failure)

  /** What the caller of a request gets. */
  datatype Result = Success(reply: Reply) | Refused(reason: Failure) | WrongKind | TimedOut | Interrupted

  /** A late request was registered with a subscription that had ended since the request had looked it up. */
  datatype Request = Request(
    kind: Kind, generation: nat, late: bool, deferred: Option<Settlement>, result: Option<Result>)

  datatype Subscriber = Subscriber(queue: seq<nat>, pending: set<nat>, ended: bool)

  /** Subscribers and requests outlive their time in the hub's own tables: closures hold on to them. */
  datatype Hub = Hub(
    current: Option<nat>,
    subscribers: map<nat, Subscriber>,
    pending: set<nat>,
    requests: map<nat, Request>,
    nextId: nat,
    nextGeneration: nat,
    closed: bool)

  const Initial := Hub(None, map[], {}, map[], 0, 0, false)

  predicate IsOpen(h: Hub, id: nat) {
    id in h.requests && h.requests[id].deferred.None? && h.requests[id].result.None?
  }

  predicate IsUnfinished(h: Hub, id: nat) {
    id in h.requests && h.requests[id].result.None?
  }

  // ---- The hub's atomic steps

  /** A deferred answer keeps its first settlement. */
  function Settled(r: Request, settlement: Settlement): Request {
    if r.deferred.None? then r.(deferred := Some(settlement)) else r
  }

  function AfterFail(h: Hub, ids: set<nat>, reason: Failure): Hub {
    h.(pending := h.pending - ids,
       requests := map id <- h.requests ::
         if id in ids && id in h.pending then Settled(h.requests[id], Failed(reason)) else h.requests[id])
  }

  function AfterEnd(h: Hub, g: nat): Hub {
    if g in h.subscribers then h.(subscribers := h.subscribers[g := h.subscribers[g].(ended := true)]) else h
  }

  function PendingOf(h: Hub, g: nat): set<nat> {
    if g in h.subscribers then h.subscribers[g].pending else {}
  }

  /** The subscriber that loses its place has its stream ended and its requests failed. */
  function AfterLoss(h: Hub, g: nat): Hub {
    AfterFail(AfterEnd(h, g), PendingOf(h, g), NoGateway)
  }

  function AfterSubscribe(h: Hub): Hub {
    var g := h.nextGeneration;
    var taken := h.(nextGeneration := g + 1, current := Some(g), subscribers := h.subscribers[g := Subscriber([], {}, false)]);
    if h.current.Some? then AfterLoss(taken, h.current.value) else taken
  }

  function AfterStreamEnds(h: Hub, g: nat): Hub {
    if h.current == Some(g) then AfterLoss(h.(current := None), g) else h
  }

  function AfterClose(h: Hub): Hub {
    var left := h.(closed := true, current := None);
    var ended := if h.current.Some? then AfterEnd(left, h.current.value) else left;
    AfterFail(ended, ended.pending, ShuttingDown)
  }

  /** Registers with the subscription that was looked up; a queue that has ended takes nothing more. */
  function AfterRegister(h: Hub, kind: Kind, g: nat): Hub
    requires g in h.subscribers
  {
    var id, s := h.nextId, h.subscribers[g];
    h.(nextId := id + 1, pending := h.pending + {id},
       requests := h.requests[id := Request(kind, g, h.current != Some(g), None, None)],
       subscribers := h.subscribers[g := s.(queue := if s.ended then s.queue else s.queue + [id], pending := s.pending + {id})])
  }

  /** A request that is not switched out between its lookup and registering. */
  function AfterRequest(h: Hub, kind: Kind): Hub
    requires h.current.Some? ==> h.current.value in h.subscribers
  {
    if h.closed || h.current.None? then h else AfterRegister(h, kind, h.current.value)
  }

  function AfterReply(h: Hub, id: nat, reply: Reply): Hub {
    if id in h.pending && id in h.requests
    then h.(requests := h.requests[id := Settled(h.requests[id], Answered(reply))])
    else h
  }

  /** The caller stops waiting, whatever the reason, and the request is forgotten. */
  function AfterFinish(h: Hub, id: nat, result: Result): Hub
    requires IsUnfinished(h, id)
  {
    var r := h.requests[id];
    var done := h.(pending := h.pending - {id}, requests := h.requests[id := r.(result := Some(result))]);
    if r.generation in h.subscribers then
      var s := h.subscribers[r.generation];
      done.(subscribers := h.subscribers[r.generation := s.(pending := s.pending - {id})])
    else done
  }

  function Read(kind: Kind, settlement: Settlement): Result {
    match settlement
    case Failed(reason) => Refused(reason)
    case Answered(reply) =>
      if kind.CallKind? == reply.CallReply? then Success(reply) else WrongKind
  }

  lemma FailNone(h: Hub, reason: Failure)
    ensures AfterFail(h, {}, reason) == h
  {
    assert AfterFail(h, {}, reason).requests == h.requests;
  }

  lemma FailOneMore(h: Hub, ids: set<nat>, id: nat, reason: Failure)
    requires id !in ids
    ensures var mid := AfterFail(h, ids, reason);
      AfterFail(h, ids + {id}, reason)
      == if id !in mid.pending then mid
         else if id !in mid.requests then mid.(pending := mid.pending - {id})
         else mid.(pending := mid.pending - {id}, requests := mid.requests[id := Settled(mid.requests[id], Failed(reason))])
  {
    var mid := AfterFail(h, ids, reason);
    var r := AfterFail(h, ids + {id}, reason);
    assert r.pending == mid.pending - {id};
    if id in mid.pending && id in mid.requests {
      assert r.requests == mid.requests[id := Settled(mid.requests[id], Failed(reason))];
    } else {
      assert r.requests == mid.requests;
    }
  }

  class CoderHub {
    var hub: Hub

    constructor ()
      ensures hub == Initial
    {
      hub := Initial;
    }

    method FailPending(ids: set<nat>, reason: Failure)
      modifies this
      ensures hub == AfterFail(old(hub), ids, reason)
    {
      hide AfterFail;
      ghost var begun := hub;
      var todo := ids;
      FailNone(hub, reason);
      assert ids - todo == {};
      while todo != {}
        invariant todo <= ids && hub == AfterFail(begun, ids - todo, reason)
        decreases |todo|
      {
        var id :| id in todo;
        FailOneMore(begun, ids - todo, id, reason);
        assert ids - todo + {id} == ids - (todo - {id});
        todo := todo - {id};
        if id in hub.pending {
          hub := hub.(pending := hub.pending - {id});
          if id in hub.requests {
            hub := hub.(requests := hub.requests[id := Settled(hub.requests[id], Failed(reason))]);
          }
        }
      }
      assert ids - todo == ids;
    }

    method EndQueue(g: nat)
      modifies this
      ensures hub == AfterEnd(old(hub), g)
    {
      if g in hub.subscribers {
        hub := hub.(subscribers := hub.subscribers[g := hub.subscribers[g].(ended := true)]);
      }
    }

    method Outbox() returns (g: nat)
      modifies this
      ensures hub == AfterSubscribe(old(hub)) && hub.current == Some(g)
    {
      g := hub.nextGeneration;
      var previous := hub.current;
      hub := hub.(nextGeneration := g + 1, current := Some(g), subscribers := hub.subscribers[g := Subscriber([], {}, false)]);
      if previous.Some? {
        var waiting := PendingOf(hub, previous.value);
        EndQueue(previous.value);
        FailPending(waiting, NoGateway);
      }
    }

    method StreamEnds(g: nat)
      modifies this
      ensures hub == AfterStreamEnds(old(hub), g)
    {
      if hub.current == Some(g) {
        hub := hub.(current := None);
        var waiting := PendingOf(hub, g);
        EndQueue(g);
        FailPending(waiting, NoGateway);
      }
    }

    method Close()
      modifies this
      ensures hub == AfterClose(old(hub))
    {
      var previous := hub.current;
      hub := hub.(closed := true, current := None);
      if previous.Some? {
        EndQueue(previous.value);
      }
      FailPending(hub.pending, ShuttingDown);
    }

    /** The rest of a request, once it has its id: by now the subscription may be another one. */
    method Register(id: nat, kind: Kind, g: nat)
      requires g in hub.subscribers && hub.nextId == id + 1
      modifies this
      ensures hub == AfterRegister(old(hub).(nextId := id), kind, g)
    {
      var late := hub.current != Some(g);
      hub := hub.(pending := hub.pending + {id}, requests := hub.requests[id := Request(kind, g, late, None, None)]);
      var s := hub.subscribers[g];
      hub := hub.(subscribers := hub.subscribers[g := s.(pending := s.pending + {id})]);
      s := hub.subscribers[g];
      if !s.ended {
        hub := hub.(subscribers := hub.subscribers[g := s.(queue := s.queue + [id])]);
      }
    }

    method Ask(kind: Kind) returns (refused: Option<Failure>)
      requires hub.current.Some? ==> hub.current.value in hub.subscribers
      modifies this
      ensures hub == AfterRequest(old(hub), kind)
      ensures refused == if old(hub).closed then Some(ShuttingDown)
                         else if old(hub).current.None? then Some(NoGateway) else None
    {
      if hub.closed {
        return Some(ShuttingDown);
      }
      if hub.current.None? {
        return Some(NoGateway);
      }
      var id, g := hub.nextId, hub.current.value;
      hub := hub.(nextId := id + 1);
      Register(id, kind, g);
      refused := None;
    }

    method ReceiveReply(id: nat, reply: Reply)
      modifies this
      ensures hub == AfterReply(old(hub), id, reply)
    {
      if id in hub.pending && id in hub.requests {
        hub := hub.(requests := hub.requests[id := Settled(hub.requests[id], Answered(reply))]);
      }
    }

    method Finish(id: nat, result: Result)
      requires IsUnfinished(hub, id)
      modifies this
      ensures hub == AfterFinish(old(hub), id, result)
    {
      var g := hub.requests[id].generation;
      hub := hub.(pending := hub.pending - {id});
      if g in hub.subscribers {
        var s := hub.subscribers[g];
        hub := hub.(subscribers := hub.subscribers[g := s.(pending := s.pending - {id})]);
      }
      hub := hub.(requests := hub.requests[id := hub.requests[id].(result := Some(result))]);
    }
  }

  // ---- Runs

  datatype Event =
    | Subscribes
    | StreamEnds(generation: nat)
    | Closes
    | Registers(kind: Kind, generation: nat)
    | ReplyArrives(id: nat, reply: Reply)
    | Wakes(id: nat)
    | TimesOut(id: nat)
    | IsInterrupted(id: nat)

  predicate Enabled(h: Hub, e: Event) {
    match e
    // The request looked the subscription up while it was the current one of an open hub.
    case Registers(_, g) => g in h.subscribers && (h.closed ==> h.current != Some(g))
    case Closes => !h.closed
    case Wakes(id) => IsUnfinished(h, id) && h.requests[id].deferred.Some?
    case TimesOut(id) => IsUnfinished(h, id)
    case IsInterrupted(id) => IsUnfinished(h, id)
    case _ => true
  }

  function Step(h: Hub, e: Event): Hub
    requires Enabled(h, e)
  {
    match e
    case Subscribes => AfterSubscribe(h)
    case StreamEnds(g) => AfterStreamEnds(h, g)
    case Closes => AfterClose(h)
    case Registers(kind, g) => AfterRegister(h, kind, g)
    case ReplyArrives(id, reply) => AfterReply(h, id, reply)
    case Wakes(id) => AfterFinish(h, id, Read(h.requests[id].kind, h.requests[id].deferred.value))
    case TimesOut(id) => AfterFinish(h, id, TimedOut)
    case IsInterrupted(id) => AfterFinish(h, id, Interrupted)
  }

  predicate Possible(h: Hub, es: seq<Event>)
    decreases |es|
  {
    es == [] || (Enabled(h, es[0]) && Possible(Step(h, es[0]), es[1..]))
  }

  function Run(h: Hub, es: seq<Event>): Hub
    requires Possible(h, es)
    decreases |es|
  {
    if es == [] then h else Run(Step(h, es[0]), es[1..])
  }

  // ---- What every run keeps

  ghost predicate Numbered(h: Hub) {
    && (forall id <- h.requests :: id < h.nextId && h.requests[id].generation in h.subscribers)
    && (forall g <- h.subscribers :: g < h.nextGeneration)
    && (forall g <- h.subscribers :: h.subscribers[g].ended <==> h.current != Some(g))
    && (h.current.Some? ==> h.current.value in h.subscribers)
  }

  predicate WaitsOn(h: Hub, id: nat, g: Option<nat>) {
    IsOpen(h, id) && g == Some(h.requests[id].generation) && id in PendingOf(h, h.requests[id].generation)
  }

  /** Every request that still waits for its answer waits on the current subscription, in an open hub, unless it was late. */
  ghost predicate OpenAreCurrent(h: Hub) {
    forall id <- h.requests | IsOpen(h, id) ::
      id in h.pending && if h.requests[id].late then h.current != Some(h.requests[id].generation)
                         else WaitsOn(h, id, h.current) && !h.closed
  }

  /** Only late requests still wait. */
  ghost predicate OnlyLateWait(h: Hub) {
    forall id <- h.requests | IsOpen(h, id) :: h.requests[id].late
  }

  ghost predicate PendingAreUnfinished(h: Hub) {
    && (forall id <- h.pending :: IsUnfinished(h, id))
    && (forall g <- h.subscribers, id <- h.subscribers[g].pending ::
          id in h.requests && h.requests[id].generation == g && h.requests[id].result.None?)
  }

  predicate Increasing(ids: seq<nat>) {
    forall i, j | 0 <= i < j < |ids| :: ids[i] < ids[j]
  }

  /** Each request that was not late was queued once, on the subscription of its generation, in the order of asking. */
  ghost predicate QueuedOnce(h: Hub) {
    && (forall g <- h.subscribers, id <- h.subscribers[g].queue :: id in h.requests && h.requests[id].generation == g)
    && (forall id <- h.requests :: h.requests[id].generation in h.subscribers
          && (!h.requests[id].late ==> id in h.subscribers[h.requests[id].generation].queue))
    && (forall g <- h.subscribers :: Increasing(h.subscribers[g].queue))
  }

  ghost predicate Inv(h: Hub) {
    Numbered(h) && OpenAreCurrent(h) && PendingAreUnfinished(h) && QueuedOnce(h)
  }

  ghost predicate Books(h: Hub) {
    Numbered(h) && QueuedOnce(h)
  }

  ghost predicate Waiting(h: Hub) {
    OpenAreCurrent(h) && PendingAreUnfinished(h)
  }

  /** The same requests, queued as before; only their progress may differ. */
  ghost predicate SameRequests(h: Hub, r: Hub) {
    && r.requests.Keys == h.requests.Keys && r.nextId == h.nextId
    && (forall id <- h.requests :: r.requests[id].generation == h.requests[id].generation
                                   && r.requests[id].kind == h.requests[id].kind && r.requests[id].late == h.requests[id].late)
    && (forall g <- h.subscribers :: g in r.subscribers && r.subscribers[g].queue == h.subscribers[g].queue)
    && (forall g <- r.subscribers | g !in h.subscribers :: r.subscribers[g].queue == [])
  }

  lemma SameRequestsKeepQueues(h: Hub, r: Hub)
    requires SameRequests(h, r) && QueuedOnce(h)
    ensures QueuedOnce(r)
  {
  }

  lemma FailKeepsRequests(h: Hub, ids: set<nat>, reason: Failure)
    ensures var r := AfterFail(h, ids, reason);
      SameRequests(h, r) && r.subscribers == h.subscribers && r.current == h.current
      && r.nextGeneration == h.nextGeneration && r.closed == h.closed && r.pending == h.pending - ids
      && (forall id <- h.requests :: r.requests[id].result == h.requests[id].result)
      && (forall id <- h.requests :: IsOpen(r, id) <==> IsOpen(h, id) && !(id in ids && id in h.pending))
  {
  }

  lemma SameRequestsInTurn(h: Hub, mid: Hub, r: Hub)
    requires SameRequests(h, mid) && SameRequests(mid, r)
    ensures SameRequests(h, r)
  {
  }

  lemma LossKeepsBooks(h: Hub, g: nat)
    ensures SameRequests(h, AfterLoss(h, g))
    ensures QueuedOnce(h) ==> QueuedOnce(AfterLoss(h, g))
  {
    FailKeepsRequests(AfterEnd(h, g), PendingOf(h, g), NoGateway);
    hide AfterFail;
    if QueuedOnce(h) {
      SameRequestsKeepQueues(h, AfterLoss(h, g));
    }
  }

  /** All that wait in an open hub wait on this subscription, except late ones, which it does not know. */
  ghost predicate OthersAreLate(h: Hub, g: nat) {
    forall id <- h.requests | IsOpen(h, id) ::
      id in h.pending && if h.requests[id].late then h.requests[id].generation != g else WaitsOn(h, id, Some(g))
  }

  /** Ending a subscription leaves none of its requests waiting, and touches no late one. */
  lemma LossKeepsWaiting(h: Hub, g: nat)
    requires PendingAreUnfinished(h) && OthersAreLate(h, g)
    ensures var r := AfterLoss(h, g);
      PendingAreUnfinished(r)
      && (forall id <- r.requests | IsOpen(r, id) :: IsOpen(h, id) && r.requests[id].late && id in r.pending)
  {
    FailKeepsRequests(AfterEnd(h, g), PendingOf(h, g), NoGateway);
    hide AfterFail;
  }

  lemma LossKeepsNumbers(h: Hub, g: nat)
    ensures var r := AfterLoss(h, g);
      r.subscribers.Keys == h.subscribers.Keys && r.current == h.current && r.nextGeneration == h.nextGeneration
      && r.closed == h.closed && (forall x <- h.subscribers :: r.subscribers[x].ended <==> h.subscribers[x].ended || x == g)
      && (forall x <- h.subscribers :: r.subscribers[x].pending == h.subscribers[x].pending)
  {
    FailKeepsRequests(AfterEnd(h, g), PendingOf(h, g), NoGateway);
    hide AfterFail;
  }

  function Taken(h: Hub): Hub {
    h.(nextGeneration := h.nextGeneration + 1, current := Some(h.nextGeneration),
       subscribers := h.subscribers[h.nextGeneration := Subscriber([], {}, false)])
  }

  lemma LossKeepsInv(h: Hub, g: nat)
    requires QueuedOnce(h) && PendingAreUnfinished(h) && OthersAreLate(h, g)
    requires forall id <- h.requests | IsOpen(h, id) && h.requests[id].late :: h.current != Some(h.requests[id].generation)
    ensures var r := AfterLoss(h, g);
      QueuedOnce(r) && Waiting(r) && SameRequests(h, r) && OnlyLateWait(r)
  {
    LossKeepsBooks(h, g);
    LossKeepsWaiting(h, g);
    LossKeepsNumbers(h, g);
    hide AfterLoss, QueuedOnce, PendingAreUnfinished, PendingOf, WaitsOn;
  }

  lemma TakenKeepsRequests(h: Hub)
    requires Numbered(h)
    ensures SameRequests(h, Taken(h)) && Taken(h).pending == h.pending && Taken(h).requests == h.requests
    ensures forall id :: IsOpen(Taken(h), id) == IsOpen(h, id)
    ensures forall g <- h.subscribers :: PendingOf(Taken(h), g) == PendingOf(h, g)
    ensures forall id <- h.requests :: Taken(h).current != Some(h.requests[id].generation)
  {
  }

  lemma TakenKeepsWaiting(h: Hub)
    requires Numbered(h) && Waiting(h)
    ensures PendingAreUnfinished(Taken(h))
    ensures h.current.Some? ==> OthersAreLate(Taken(h), h.current.value)
    ensures h.current.None? ==> Waiting(Taken(h)) && OnlyLateWait(Taken(h))
  {
    assert h.nextGeneration !in h.subscribers;
  }

  lemma TakenKeepsQueues(h: Hub)
    requires Numbered(h) && QueuedOnce(h)
    ensures QueuedOnce(Taken(h))
  {
    TakenKeepsRequests(h);
    SameRequestsKeepQueues(h, Taken(h));
  }

  lemma SubscribeKeepsNumbers(h: Hub)
    requires Numbered(h)
    ensures Numbered(AfterSubscribe(h))
  {
    if h.current.Some? {
      LossKeepsBooks(Taken(h), h.current.value);
      LossKeepsNumbers(Taken(h), h.current.value);
      hide AfterLoss;
    }
  }

  /** Replacing a subscription, or losing it, leaves no request waiting. */
  lemma SubscribeKeepsInv(h: Hub)
    requires Inv(h)
    ensures var r := AfterSubscribe(h);
      Inv(r) && OnlyLateWait(r) && SameRequests(h, r)
  {
    TakenKeepsRequests(h);
    TakenKeepsWaiting(h);
    TakenKeepsQueues(h);
    SubscribeKeepsNumbers(h);
    if h.current.Some? {
      LossKeepsInv(Taken(h), h.current.value);
      hide AfterLoss, SameRequests, Numbered, QueuedOnce, OpenAreCurrent, PendingAreUnfinished, IsOpen, PendingOf,
           OnlyLateWait, OthersAreLate;
      SameRequestsInTurn(h, Taken(h), AfterLoss(Taken(h), h.current.value));
    }
  }

  lemma StreamEndsKeepsNumbers(h: Hub, g: nat)
    requires Numbered(h)
    ensures Numbered(AfterStreamEnds(h, g)) && SameRequests(h, AfterStreamEnds(h, g))
  {
    if h.current == Some(g) {
      LossKeepsBooks(h.(current := None), g);
      LossKeepsNumbers(h.(current := None), g);
      hide AfterLoss;
    }
  }

  lemma LeavingKeepsWaiting(h: Hub, g: nat)
    requires QueuedOnce(h) && Waiting(h) && h.current == Some(g)
    ensures var left := h.(current := None); QueuedOnce(left) && PendingAreUnfinished(left) && OthersAreLate(left, g)
  {
  }

  lemma StreamEndsKeepsInv(h: Hub, g: nat)
    requires Inv(h)
    ensures var r := AfterStreamEnds(h, g);
      Inv(r) && (h.current == Some(g) ==> OnlyLateWait(r)) && SameRequests(h, r)
  {
    var left := h.(current := None);
    StreamEndsKeepsNumbers(h, g);
    if h.current == Some(g) {
      LeavingKeepsWaiting(h, g);
      LossKeepsInv(left, g);
      hide AfterLoss, SameRequests, Numbered, QueuedOnce, OpenAreCurrent, PendingAreUnfinished, IsOpen, PendingOf,
           OnlyLateWait, OthersAreLate;
    }
  }

  lemma CloseKeepsNumbers(h: Hub)
    requires Numbered(h)
    ensures Numbered(AfterClose(h)) && SameRequests(h, AfterClose(h))
  {
    var left := h.(closed := true, current := None);
    var ended := if h.current.Some? then AfterEnd(left, h.current.value) else left;
    FailKeepsRequests(ended, ended.pending, ShuttingDown);
    hide AfterFail;
  }

  lemma CloseKeepsWaiting(h: Hub)
    requires Waiting(h) && Numbered(h)
    ensures Waiting(AfterClose(h)) && (forall id <- AfterClose(h).requests :: !IsOpen(AfterClose(h), id))
  {
    var left := h.(closed := true, current := None);
    var ended := if h.current.Some? then AfterEnd(left, h.current.value) else left;
    FailKeepsRequests(ended, ended.pending, ShuttingDown);
    hide AfterFail;
  }

  lemma CloseKeepsInv(h: Hub)
    requires Inv(h)
    ensures var r := AfterClose(h);
      Inv(r) && (forall id <- r.requests :: !IsOpen(r, id)) && SameRequests(h, r)
  {
    hide AfterClose, SameRequests, Numbered, QueuedOnce, OpenAreCurrent, PendingAreUnfinished, IsOpen;
    CloseKeepsNumbers(h);
    CloseKeepsWaiting(h);
    SameRequestsKeepQueues(h, AfterClose(h));
  }

  lemma AppendKeepsIncreasing(ids: seq<nat>, id: nat)
    requires Increasing(ids) && forall x <- ids :: x < id
    ensures Increasing(ids + [id])
  {
    assert forall i | 0 <= i < |ids| :: ids[i] in ids;
  }

  lemma QueueingKeepsQueues(h: Hub, r: Hub, g: nat, id: nat)
    requires QueuedOnce(h) && g in h.subscribers && id !in h.requests
    requires r.subscribers.Keys == h.subscribers.Keys && r.subscribers[g].queue == h.subscribers[g].queue + [id]
    requires forall x <- h.subscribers | x != g :: r.subscribers[x] == h.subscribers[x]
    requires r.requests.Keys == h.requests.Keys + {id} && r.requests[id].generation == g
    requires forall x <- h.requests :: r.requests[x] == h.requests[x]
    requires Increasing(r.subscribers[g].queue)
    ensures QueuedOnce(r)
  {
    hide Increasing;
  }

  lemma UnchangedQueuesKeep(h: Hub, r: Hub, g: nat, id: nat)
    requires QueuedOnce(h) && g in h.subscribers && id !in h.requests
    requires r.subscribers.Keys == h.subscribers.Keys
    requires forall x <- h.subscribers :: r.subscribers[x].queue == h.subscribers[x].queue
    requires r.requests.Keys == h.requests.Keys + {id} && r.requests[id].generation == g && r.requests[id].late
    requires forall x <- h.requests :: r.requests[x] == h.requests[x]
    ensures QueuedOnce(r)
  {
    hide Increasing;
  }

  lemma QueueIsBelowNextId(h: Hub, g: nat)
    requires Numbered(h) && QueuedOnce(h) && g in h.subscribers
    ensures forall x <- h.subscribers[g].queue :: x < h.nextId
  {
    forall x <- h.subscribers[g].queue ensures x < h.nextId {
      assert x in h.requests;
    }
  }

  lemma LateRegisterKeepsQueues(h: Hub, kind: Kind, g: nat)
    requires Numbered(h) && QueuedOnce(h) && g in h.subscribers && h.subscribers[g].ended
    ensures QueuedOnce(AfterRegister(h, kind, g))
  {
    hide Increasing, QueuedOnce;
    UnchangedQueuesKeep(h, AfterRegister(h, kind, g), g, h.nextId);
  }

  lemma RegisterKeepsQueues(h: Hub, kind: Kind, g: nat)
    requires Numbered(h) && QueuedOnce(h) && g in h.subscribers
    ensures QueuedOnce(AfterRegister(h, kind, g))
  {
    if h.subscribers[g].ended {
      LateRegisterKeepsQueues(h, kind, g);
    } else {
      QueueIsBelowNextId(h, g);
      AppendKeepsIncreasing(h.subscribers[g].queue, h.nextId);
      hide Increasing, QueuedOnce;
      QueueingKeepsQueues(h, AfterRegister(h, kind, g), g, h.nextId);
    }
  }

  lemma RegisterKeepsWaiting(h: Hub, kind: Kind, g: nat)
    requires Numbered(h) && Waiting(h) && Enabled(h, Registers(kind, g))
    ensures Waiting(AfterRegister(h, kind, g))
  {
  }

  lemma RegisterKeepsInv(h: Hub, kind: Kind, g: nat)
    requires Inv(h) && Enabled(h, Registers(kind, g))
    ensures Inv(AfterRegister(h, kind, g))
  {
    RegisterKeepsQueues(h, kind, g);
    RegisterKeepsWaiting(h, kind, g);
    hide QueuedOnce, OpenAreCurrent, PendingAreUnfinished;
  }

  lemma ReplyKeepsWaiting(h: Hub, id: nat, reply: Reply)
    requires Waiting(h)
    ensures Waiting(AfterReply(h, id, reply)) && SameRequests(h, AfterReply(h, id, reply))
  {
  }

  lemma ReplyKeepsInv(h: Hub, id: nat, reply: Reply)
    requires Inv(h)
    ensures Inv(AfterReply(h, id, reply)) && SameRequests(h, AfterReply(h, id, reply))
  {
    ReplyKeepsWaiting(h, id, reply);
    SameRequestsKeepQueues(h, AfterReply(h, id, reply));
    hide QueuedOnce, OpenAreCurrent, PendingAreUnfinished;
  }

  lemma FinishKeepsWaiting(h: Hub, id: nat, result: Result)
    requires Waiting(h) && IsUnfinished(h, id)
    ensures Waiting(AfterFinish(h, id, result)) && SameRequests(h, AfterFinish(h, id, result))
  {
  }

  lemma FinishKeepsNumbers(h: Hub, id: nat, result: Result)
    requires Numbered(h) && IsUnfinished(h, id)
    ensures Numbered(AfterFinish(h, id, result))
  {
  }

  lemma FinishKeepsInv(h: Hub, id: nat, result: Result)
    requires Inv(h) && IsUnfinished(h, id)
    ensures Inv(AfterFinish(h, id, result)) && SameRequests(h, AfterFinish(h, id, result))
  {
    FinishKeepsWaiting(h, id, result);
    FinishKeepsNumbers(h, id, result);
    hide AfterFinish, SameRequests, Numbered, QueuedOnce, OpenAreCurrent, PendingAreUnfinished;
    SameRequestsKeepQueues(h, AfterFinish(h, id, result));
  }

  /** How a step may move a request: its answer is settled once, its caller gets one result. */
  predicate Advances(before: Request, after: Request) {
    && after.kind == before.kind && after.generation == before.generation && after.late == before.late
    && (before.deferred.Some? ==> after.deferred == before.deferred)
    && (before.result.Some? ==> after == before)
  }

  ghost predicate RequestsAdvance(h: Hub, r: Hub) {
    forall id <- h.requests :: id in r.requests && Advances(h.requests[id], r.requests[id])
  }

  lemma FailAdvances(h: Hub, ids: set<nat>, reason: Failure)
    requires forall id <- h.pending :: IsUnfinished(h, id)
    ensures RequestsAdvance(h, AfterFail(h, ids, reason))
  {
  }

  lemma StepKeepsInv(h: Hub, e: Event)
    requires Inv(h) && Enabled(h, e)
    ensures Inv(Step(h, e))
  {
    match e
    case Subscribes => SubscribeKeepsInv(h);
    case StreamEnds(g) => StreamEndsKeepsInv(h, g);
    case Closes => CloseKeepsInv(h);
    case Registers(kind, g) => RegisterKeepsInv(h, kind, g);
    case ReplyArrives(id, reply) => ReplyKeepsInv(h, id, reply);
    case Wakes(id) => FinishKeepsInv(h, id, Read(h.requests[id].kind, h.requests[id].deferred.value));
    case TimesOut(id) => FinishKeepsInv(h, id, TimedOut);
    case IsInterrupted(id) => FinishKeepsInv(h, id, Interrupted);
  }

  lemma LossAdvances(h: Hub, left: Hub, g: nat)
    requires PendingAreUnfinished(h) && left.requests == h.requests && left.pending == h.pending
    ensures RequestsAdvance(h, AfterLoss(left, g))
  {
    FailAdvances(AfterEnd(left, g), PendingOf(left, g), NoGateway);
    hide AfterFail;
  }

  lemma FinishAdvances(h: Hub, id: nat, result: Result)
    requires IsUnfinished(h, id)
    ensures RequestsAdvance(h, AfterFinish(h, id, result))
  {
  }

  lemma RegisterAdvances(h: Hub, kind: Kind, g: nat)
    requires Numbered(h) && g in h.subscribers
    ensures RequestsAdvance(h, AfterRegister(h, kind, g))
  {
  }

  lemma QuietStepAdvances(h: Hub, e: Event)
    requires Enabled(h, e) && !e.Subscribes? && !e.StreamEnds? && !e.Closes?
    requires Numbered(h) && PendingAreUnfinished(h)
    ensures RequestsAdvance(h, Step(h, e))
  {
    hide AfterFinish, AfterRegister;
    match e
    case Registers(kind, g) => RegisterAdvances(h, kind, g);
    case Wakes(id) => FinishAdvances(h, id, Read(h.requests[id].kind, h.requests[id].deferred.value));
    case TimesOut(id) => FinishAdvances(h, id, TimedOut);
    case IsInterrupted(id) => FinishAdvances(h, id, Interrupted);
    case ReplyArrives(_, _) =>
  }

  lemma StepAdvances(h: Hub, e: Event)
    requires Inv(h) && Enabled(h, e)
    ensures RequestsAdvance(h, Step(h, e))
  {
    match e
    case Subscribes =>
      if h.current.Some? {
        LossAdvances(h, Taken(h), h.current.value);
      }
    case StreamEnds(g) =>
      LossAdvances(h, h.(current := None), g);
    case Closes =>
      var left := h.(closed := true, current := None);
      var ended := if h.current.Some? then AfterEnd(left, h.current.value) else left;
      FailAdvances(ended, ended.pending, ShuttingDown);
    case _ =>
      QuietStepAdvances(h, e);
  }

  lemma {:induction false} RunKeepsInv(h: Hub, es: seq<Event>)
    requires Inv(h) && Possible(h, es)
    ensures Inv(Run(h, es))
    decreases |es|
  {
    hide Inv, Step;
    if |es| > 0 {
      StepKeepsInv(h, es[0]);
      RunKeepsInv(Step(h, es[0]), es[1..]);
    }
  }

  // ---- Main results

  /** A request that still waits, waits on the gateway's current subscription, which has it queued, exactly unless it was
      late: then the subscription it was registered with has ended, and only a reply or the shutdown could still answer it. */
  lemma OpenRequestsWaitOnTheCurrentSubscription(es: seq<Event>, id: nat)
    requires Possible(Initial, es) && IsOpen(Run(Initial, es), id)
    ensures var h := Run(Initial, es); var g := h.requests[id].generation;
      id in h.pending && g in h.subscribers && (h.subscribers[g].ended <==> h.requests[id].late)
      && (h.current == Some(g) <==> !h.requests[id].late)
      && (!h.requests[id].late ==> !h.closed && id in h.subscribers[g].queue)
  {
    RunKeepsInv(Initial, es);
  }

  /** A request that is switched out after its lookup, while the gateway's subscription ends, is left waiting late. */
  lemma LateRequestStaysOpen() returns (es: seq<Event>)
    ensures Possible(Initial, es) && IsOpen(Run(Initial, es), 0)
    ensures var h := Run(Initial, es); h.requests[0].late && !h.closed && h.current.None?
  {
    es := [Subscribes, StreamEnds(0), Registers(CallKind, 0)];
    var h1 := Step(Initial, es[0]);
    var h2 := Step(h1, es[1]);
    var h3 := Step(h2, es[2]);
    assert h1.current == Some(0) && h1.subscribers[0] == Subscriber([], {}, false);
    assert h2.current.None? && h2.subscribers[0].ended;
    assert Run(h2, es[2..]) == Run(h3, es[3..]) == h3;
    assert es[1..][1..] == es[2..];
  }

  lemma {:induction false} RequestsOnlyAdvance(h: Hub, es: seq<Event>, id: nat)
    requires Inv(h) && Possible(h, es) && id in h.requests
    ensures id in Run(h, es).requests && Advances(h.requests[id], Run(h, es).requests[id])
    decreases |es|
  {
    hide Inv, Step;
    if |es| > 0 {
      StepKeepsInv(h, es[0]);
      StepAdvances(h, es[0]);
      RequestsOnlyAdvance(Step(h, es[0]), es[1..], id);
    }
  }

  /** What one event decides about a waiting request's answer: a late request is not told that its subscription is gone. */
  function Decision(e: Event, id: nat, generation: nat, late: bool): Option<Settlement> {
    match e
    case ReplyArrives(i, reply) => if i == id then Some(Answered(reply)) else None
    case Subscribes => if late then None else Some(Failed(NoGateway))
    case StreamEnds(g) => if g == generation && !late then Some(Failed(NoGateway)) else None
    case Closes => Some(Failed(ShuttingDown))
    case _ => None
  }

  /** The result that a settlement makes for the caller: a failure is passed on, and a reply must be of the kind asked for. */
  function ResultOf(kind: Kind, settlement: Settlement): Result {
    if settlement.Failed? then Refused(settlement.reason)
    else if (kind == CallKind && settlement.reply.CallReply?) || (kind == LinksKind && settlement.reply.LinksReply?)
    then Success(settlement.reply)
    else WrongKind
  }

  function Kept(settled: Option<Settlement>, decision: Option<Settlement>): Option<Settlement> {
    if settled.Some? then settled else decision
  }

  /** What the caller gets, told from the events alone: the first decision, unless it stops waiting before it wakes. */
  function Received(es: seq<Event>, id: nat, kind: Kind, generation: nat, late: bool, settled: Option<Settlement>)
    : Option<Result>
  {
    if es == [] then None
    else if es[0] == TimesOut(id) then Some(TimedOut)
    else if es[0] == IsInterrupted(id) then Some(Interrupted)
    else if es[0] == Wakes(id) && settled.Some? then Some(ResultOf(kind, settled.value))
    else Received(es[1..], id, kind, generation, late, Kept(settled, Decision(es[0], id, generation, late)))
  }

  predicate Finishes(e: Event, id: nat) {
    e == TimesOut(id) || e == IsInterrupted(id) || e == Wakes(id)
  }

  lemma OnlyFinishingGivesResults(h: Hub, e: Event, id: nat)
    requires Numbered(h) && Enabled(h, e) && id in h.requests && !Finishes(e, id)
    ensures id in Step(h, e).requests && Step(h, e).requests[id].result == h.requests[id].result
  {
  }

  lemma LossDecides(h: Hub, left: Hub, g: nat, id: nat)
    requires IsOpen(h, id) && id in h.pending && left.requests == h.requests && left.pending == h.pending
    ensures id in AfterLoss(left, g).requests
    ensures AfterLoss(left, g).requests[id].deferred == if id in PendingOf(left, g) then Some(Failed(NoGateway)) else None
  {
  }

  lemma OpenStep(h: Hub, e: Event, id: nat)
    requires Inv(h) && Enabled(h, e) && IsOpen(h, id) && !Finishes(e, id)
    ensures IsUnfinished(Step(h, e), id)
    ensures Step(h, e).requests[id].deferred == Decision(e, id, h.requests[id].generation, h.requests[id].late)
  {
    OnlyFinishingGivesResults(h, e, id);
    match e {
      case Subscribes =>
        if h.current.Some? { LossDecides(h, Taken(h), h.current.value, id); }
      case StreamEnds(g) => LossDecides(h, h.(current := None), g, id);
      case _ =>
    }
    hide QueuedOnce, AfterLoss;
  }

  lemma SettledStep(h: Hub, e: Event, id: nat)
    requires Inv(h) && Enabled(h, e) && IsUnfinished(h, id) && !IsOpen(h, id) && !Finishes(e, id)
    ensures IsUnfinished(Step(h, e), id) && Step(h, e).requests[id].deferred == h.requests[id].deferred
  {
    StepAdvances(h, e);
    OnlyFinishingGivesResults(h, e, id);
    hide Step, Numbered, PendingAreUnfinished, OpenAreCurrent, QueuedOnce;
  }

  lemma FinishStep(h: Hub, e: Event, id: nat)
    requires Enabled(h, e) && IsUnfinished(h, id) && Finishes(e, id)
    ensures var r := h.requests[id];
      id in Step(h, e).requests
      && Step(h, e).requests[id].result == Received([e], id, r.kind, r.generation, r.late, r.deferred)
      && Step(h, e).requests[id].result.Some?
  {
  }

  /** Every request gets exactly the result that the events say, whatever the order they come in. */
  lemma {:induction false} CallerGetsTheFirstDecision(h: Hub, es: seq<Event>, id: nat)
    requires Inv(h) && Possible(h, es) && IsUnfinished(h, id)
    ensures id in Run(h, es).requests
    ensures var r := h.requests[id];
      Run(h, es).requests[id].result == Received(es, id, r.kind, r.generation, r.late, r.deferred)
    decreases |es|
  {
    if |es| > 0 {
      assert es[0] == Wakes(id) ==> h.requests[id].deferred.Some?;
      hide Inv, Step, Enabled;
      var next := Step(h, es[0]);
      StepKeepsInv(h, es[0]);
      if Finishes(es[0], id) {
        FinishStep(h, es[0], id);
        RequestsOnlyAdvance(next, es[1..], id);
      } else {
        assert next.requests.Keys >= h.requests.Keys && Advances(h.requests[id], next.requests[id]) by {
          StepAdvances(h, es[0]);
        }
        if IsOpen(h, id) {
          OpenStep(h, es[0], id);
        } else {
          SettledStep(h, es[0], id);
        }
        CallerGetsTheFirstDecision(next, es[1..], id);
      }
    }
  }

  /** Asking a hub with a subscription registers a new open request with it, which waits in its queue; and without one it changes
      nothing. */
  lemma AskingRegisters(es: seq<Event>, kind: Kind)
    requires Possible(Initial, es)
    ensures
      var h := Run(Initial, es);
      (h.current.Some? ==> h.current.value in h.subscribers)
      && if h.closed || h.current.None? then AfterRequest(h, kind) == h
         else
           var g := h.current.value;
           var id, r := h.nextId, AfterRequest(h, kind);
           && Enabled(h, Registers(kind, g)) && r == Step(h, Registers(kind, g)) && id !in h.requests
           && IsOpen(r, id) && r.requests[id].kind == kind && r.requests[id].generation == g && !r.requests[id].late
           && r.subscribers[g].queue == h.subscribers[g].queue + [id]
  {
    RunKeepsInv(Initial, es);
    CurrentIsOpen(Run(Initial, es));
  }

  lemma CurrentIsOpen(h: Hub)
    requires Inv(h)
    ensures h.current.Some? ==> h.current.value in h.subscribers && !h.subscribers[h.current.value].ended
    ensures h.nextId !in h.requests
  {
  }

  /** Closing is for good: whoever finds the hub closed is refused, and on a closed hub only those wait who came late. */
  lemma {:induction false} ClosedAcceptsNothing(h: Hub, es: seq<Event>)
    requires Inv(h) && Possible(h, es) && h.closed
    ensures Run(h, es).closed && OnlyLateWait(Run(h, es))
    decreases |es|
  {
    if |es| > 0 {
      StepKeepsInv(h, es[0]);
      ClosedAcceptsNothing(Step(h, es[0]), es[1..]);
    }
  }

  /** Each request went to one subscription, once, after every request that was asked before it. */
  lemma EveryRequestIsQueuedOnce(es: seq<Event>, id: nat, g: nat, i: nat, j: nat)
    requires Possible(Initial, es) && id in Run(Initial, es).requests
    ensures var h := Run(Initial, es);
      h.requests[id].generation in h.subscribers
      && (!h.requests[id].late ==> id in h.subscribers[h.requests[id].generation].queue)
      && (g in h.subscribers && i < |h.subscribers[g].queue| && j < |h.subscribers[g].queue| ==>
            (h.subscribers[g].queue[i] == id ==> g == h.requests[id].generation)
            && (i < j ==> h.subscribers[g].queue[i] < h.subscribers[g].queue[j]))
  {
    RunKeepsInv(Initial, es);
    var h := Run(Initial, es);
    assert g in h.subscribers && i < |h.subscribers[g].queue| ==> h.subscribers[g].queue[i] in h.subscribers[g].queue;
  }
}
