/** One workspace's socket slot in the gateway's upgrade handler (apps/coder-gateway/src/server.ts): which browser
    socket may talk to the workspace, from its upgrade request to the end of its session. */
module UpgradeSlots {
  import opened Options

  /** Upgrade requests and bridges are named by numbers; each connection to the workspace has a bridge of its own. */
  type Id = nat

  datatype Phase =
    | Waiting                       // for the workspace's connection
    | Dropped                       // the browser went away while waiting
    | Refused                       // answered with an error, or given up
    | Open(bridge: Id)              // its socket is in the slot, its session is being attached
    | Attached(bridge: Id)
    | Unattached                    // the bridge refused the session
    | Silent                        // the browser ended the session and kept its socket
    | Detached                      // the session is closed, the slot not yet freed
    | Gone

  datatype Slot = Slot(
    upgrades: map<Id, Phase>,
    closed: set<Id>,
    pending: bool,
    socket: Option<Id>,
    active: map<Id, Id>)

  const Initial := Slot(map[], {}, false, None, map[])

  predicate InPhase(s: Slot, u: Id, phase: Phase) {
    u in s.upgrades && s.upgrades[u] == phase
  }

  function To(s: Slot, u: Id, phase: Phase): Slot {
    s.(upgrades := s.upgrades[u := phase])
  }

  /** A second upgrade conflicts with one that waits or has its socket in the slot. */
  function AfterRequest(s: Slot, u: Id): Slot {
    if s.pending || s.socket.Some? then To(s, u, Refused) else To(s, u, Waiting).(pending := true)
  }

  /** Only an upgrade that still waits takes its mark away. */
  function AfterCleanup(s: Slot, u: Id, phase: Phase): Slot {
    To(s, u, phase).(pending := if InPhase(s, u, Waiting) then false else s.pending)
  }

  function AfterConnection(s: Slot, u: Id, bridge: Id): Slot {
    if InPhase(s, u, Waiting) then AfterCleanup(s, u, Open(bridge)).(socket := Some(u)) else AfterCleanup(s, u, Refused)
  }

  /** The bridge takes one session at a time. */
  function AfterAttach(s: Slot, u: Id, bridge: Id): Slot {
    if bridge in s.active then To(s, u, Unattached) else To(s, u, Attached(bridge)).(active := s.active[bridge := u])
  }

  function AfterDetach(s: Slot, u: Id, bridge: Id): Slot {
    To(s, u, Detached).(active := if bridge in s.active && s.active[bridge] == u then s.active - {bridge} else s.active)
  }

  /** A browser's Eof detaches the session; the socket stays in the slot until it closes. */
  function AfterEof(s: Slot, u: Id, bridge: Id): Slot {
    To(s, u, Silent).(active := if bridge in s.active && s.active[bridge] == u then s.active - {bridge} else s.active)
  }

  function AfterRelease(s: Slot, u: Id): Slot {
    To(s, u, Gone).(socket := if s.socket == Some(u) then None else s.socket)
  }

  class UpgradeHandler {
    var slot: Slot

    constructor ()
      ensures slot == Initial
    {
      slot := Initial;
    }

    method Request(u: Id) returns (accepted: bool)
      modifies this
      ensures slot == AfterRequest(old(slot), u) && accepted == (!old(slot).pending && old(slot).socket.None?)
    {
      if slot.pending || slot.socket.Some? {
        slot := slot.(upgrades := slot.upgrades[u := Refused]);
        return false;
      }
      slot := slot.(pending := true);
      slot := slot.(upgrades := slot.upgrades[u := Waiting]);
      accepted := true;
    }

    method CleanUp(u: Id, phase: Phase)
      modifies this
      ensures slot == AfterCleanup(old(slot), u, phase)
    {
      if u in slot.upgrades && slot.upgrades[u] == Waiting {
        slot := slot.(pending := false);
      }
      slot := slot.(upgrades := slot.upgrades[u := phase]);
    }

    method Connected(u: Id, bridge: Id)
      modifies this
      ensures slot == AfterConnection(old(slot), u, bridge)
    {
      if u !in slot.upgrades || slot.upgrades[u] != Waiting {
        CleanUp(u, Refused);
        return;
      }
      CleanUp(u, Open(bridge));
      slot := slot.(socket := Some(u));
    }

    method AttachSession(u: Id, bridge: Id)
      modifies this
      ensures slot == AfterAttach(old(slot), u, bridge)
    {
      if bridge in slot.active {
        slot := slot.(upgrades := slot.upgrades[u := Unattached]);
        return;
      }
      slot := slot.(active := slot.active[bridge := u], upgrades := slot.upgrades[u := Attached(bridge)]);
    }

    method ReceiveEof(u: Id, bridge: Id)
      modifies this
      ensures slot == AfterEof(old(slot), u, bridge)
    {
      if bridge in slot.active && slot.active[bridge] == u {
        slot := slot.(active := slot.active - {bridge});
      }
      slot := slot.(upgrades := slot.upgrades[u := Silent]);
    }

    /** After the socket has closed: the session is closed first, then the slot is freed. */
    method EndSession(u: Id, bridge: Id)
      modifies this
      ensures slot == AfterRelease(AfterDetach(old(slot), u, bridge), u)
    {
      if bridge in slot.active && slot.active[bridge] == u {
        slot := slot.(active := slot.active - {bridge});
      }
      slot := slot.(upgrades := slot.upgrades[u := Detached]);
      if slot.socket == Some(u) {
        slot := slot.(socket := None);
      }
      slot := slot.(upgrades := slot.upgrades[u := Gone]);
    }
  }

  // ---- Runs

  datatype Event =
    | Requests(u: Id)
    | Drops(u: Id)
    | ConnectionFails(u: Id)
    | ConnectionReady(u: Id, bridge: Id)
    | HandshakeFails(u: Id)
    | Attaches(u: Id)
    | AttachFails(u: Id)
    | SaysEof(u: Id)
    | SocketCloses(u: Id)
    | Detaches(u: Id)
    | Releases(u: Id)

  predicate HasSocket(phase: Phase) {
    phase.Open? || phase.Attached? || phase.Unattached? || phase.Silent?
  }

  predicate Enabled(s: Slot, e: Event) {
    match e
    case Requests(u) => u !in s.upgrades
    case Drops(u) => InPhase(s, u, Waiting)
    case ConnectionFails(u) => InPhase(s, u, Waiting) || InPhase(s, u, Dropped)
    case ConnectionReady(u, _) => InPhase(s, u, Waiting) || InPhase(s, u, Dropped)
    case HandshakeFails(u) => InPhase(s, u, Waiting)
    case Attaches(u) => u in s.upgrades && s.upgrades[u].Open?
    case AttachFails(u) => u in s.upgrades && s.upgrades[u].Open?
    case SaysEof(u) => u in s.upgrades && s.upgrades[u].Attached?
    case SocketCloses(u) => u in s.upgrades && HasSocket(s.upgrades[u])
    case Detaches(u) => u in s.upgrades && u in s.closed && s.upgrades[u].Attached?
    case Releases(u) => u in s.upgrades && u in s.closed && (s.upgrades[u].Unattached? || s.upgrades[u].Silent? || s.upgrades[u].Detached?)
  }

  function Step(s: Slot, e: Event): Slot
    requires Enabled(s, e)
  {
    match e
    case Requests(u) => AfterRequest(s, u)
    case Drops(u) => AfterCleanup(s, u, Dropped)
    case ConnectionFails(u) => AfterCleanup(s, u, Refused)
    case ConnectionReady(u, bridge) => AfterConnection(s, u, bridge)
    case HandshakeFails(u) => AfterCleanup(s, u, Refused)
    case Attaches(u) => AfterAttach(s, u, s.upgrades[u].bridge)
    case AttachFails(u) => To(s, u, Unattached)
    case SaysEof(u) => AfterEof(s, u, s.upgrades[u].bridge)
    case SocketCloses(u) => s.(closed := s.closed + {u})
    case Detaches(u) => AfterDetach(s, u, s.upgrades[u].bridge)
    case Releases(u) => AfterRelease(s, u)
  }

  predicate Possible(s: Slot, es: seq<Event>)
    decreases |es|
  {
    es == [] || (Enabled(s, es[0]) && Possible(Step(s, es[0]), es[1..]))
  }

  function Run(s: Slot, es: seq<Event>): Slot
    requires Possible(s, es)
    decreases |es|
  {
    if es == [] then s else Run(Step(s, es[0]), es[1..])
  }

  predicate HoldsSlot(phase: Phase) {
    HasSocket(phase) || phase.Detached?
  }

  ghost predicate OneWaits(s: Slot) {
    && (s.pending ==> s.socket.None?)
    && (forall u <- s.upgrades :: s.upgrades[u] == Waiting ==> s.pending)
    && (forall u <- s.upgrades, v <- s.upgrades :: s.upgrades[u] == Waiting && s.upgrades[v] == Waiting ==> u == v)
  }

  ghost predicate OneInSlot(s: Slot) {
    && (forall u <- s.upgrades :: HoldsSlot(s.upgrades[u]) <==> s.socket == Some(u))
    && (s.socket.Some? ==> s.socket.value in s.upgrades)
  }

  ghost predicate ActiveAreAttached(s: Slot) {
    && (forall b <- s.active :: s.active[b] in s.upgrades && s.upgrades[s.active[b]] == Attached(b))
    && (forall u <- s.upgrades :: s.upgrades[u].Attached? ==>
          s.upgrades[u].bridge in s.active && s.active[s.upgrades[u].bridge] == u)
  }

  /** One upgrade waits or one socket is in the slot; whoever is attached holds the slot. */
  ghost predicate OneHolds(s: Slot) {
    OneWaits(s) && OneInSlot(s) && ActiveAreAttached(s)
  }

  ghost predicate SomeoneWaits(s: Slot) {
    exists u :: InPhase(s, u, Waiting)
  }

  ghost predicate Inv(s: Slot) {
    OneHolds(s) && (s.pending ==> SomeoneWaits(s))
  }

  lemma StepKeepsOneWaits(s: Slot, e: Event)
    requires OneHolds(s) && Enabled(s, e)
    ensures OneWaits(Step(s, e))
  {
    hide ActiveAreAttached;
  }

  lemma StepKeepsOneInSlot(s: Slot, e: Event)
    requires OneHolds(s) && Enabled(s, e)
    ensures OneInSlot(Step(s, e))
  {
    hide ActiveAreAttached;
  }

  lemma StepKeepsActive(s: Slot, e: Event)
    requires OneHolds(s) && Enabled(s, e)
    ensures ActiveAreAttached(Step(s, e))
  {
  }

  lemma StepKeepsOneHolds(s: Slot, e: Event)
    requires OneHolds(s) && Enabled(s, e)
    ensures OneHolds(Step(s, e))
  {
    hide OneWaits, OneInSlot, ActiveAreAttached, Step;
    StepKeepsOneWaits(s, e);
    StepKeepsOneInSlot(s, e);
    StepKeepsActive(s, e);
  }

  lemma StepKeepsSomeoneWaiting(s: Slot, e: Event)
    requires Inv(s) && Enabled(s, e) && Step(s, e).pending
    ensures SomeoneWaits(Step(s, e))
  {
    var t := Step(s, e);
    if s.pending {
      var u :| InPhase(s, u, Waiting);
      assert InPhase(t, u, Waiting);
    } else {
      assert InPhase(t, e.u, Waiting);
    }
  }

  lemma StepKeepsInv(s: Slot, e: Event)
    requires Inv(s) && Enabled(s, e)
    ensures Inv(Step(s, e))
  {
    hide OneHolds, SomeoneWaits, Step;
    StepKeepsOneHolds(s, e);
    if Step(s, e).pending {
      StepKeepsSomeoneWaiting(s, e);
    }
  }

  lemma {:induction false} RunKeepsInv(s: Slot, es: seq<Event>)
    requires Inv(s) && Possible(s, es)
    ensures Inv(Run(s, es))
    decreases |es|
  {
    hide Inv, Step, Enabled;
    if |es| > 0 {
      assert Enabled(s, es[0]);
      StepKeepsInv(s, es[0]);
      RunKeepsInv(Step(s, es[0]), es[1..]);
    }
  }

  // ---- Main results

  /** An attached session always has its socket in the slot, so a workspace has at most one. */
  lemma AttachedSessionsHoldTheSlot(es: seq<Event>, u: Id, bridge: Id)
    requires Possible(Initial, es) && InPhase(Run(Initial, es), u, Attached(bridge))
    ensures var s := Run(Initial, es);
      s.socket == Some(u) && !s.pending && bridge in s.active && s.active[bridge] == u
      && (forall v <- s.upgrades :: HoldsSlot(s.upgrades[v]) ==> v == u)
  {
    RunKeepsInv(Initial, es);
  }

  /** When the gateway attaches a session, its bridge has none: the attach never conflicts. */
  lemma AttachNeverConflicts(es: seq<Event>, u: Id)
    requires Possible(Initial, es) && Enabled(Run(Initial, es), Attaches(u))
    ensures var s := Run(Initial, es);
      s.upgrades[u].bridge !in s.active && InPhase(Step(s, Attaches(u)), u, Attached(s.upgrades[u].bridge))
  {
    RunKeepsInv(Initial, es);
  }

  /** An upgrade is turned away only while another one waits or holds the slot; otherwise it is accepted. */
  lemma ConflictOnlyWhileTaken(es: seq<Event>, u: Id)
    requires Possible(Initial, es) && Enabled(Run(Initial, es), Requests(u))
    ensures var s := Run(Initial, es);
      InPhase(Step(s, Requests(u)), u, Refused)
      <==> exists v :: InPhase(s, v, Waiting) || (v in s.upgrades && HoldsSlot(s.upgrades[v]))
  {
    RunKeepsInv(Initial, es);
    var s := Run(Initial, es);
    if s.socket.Some? {
      assert HoldsSlot(s.upgrades[s.socket.value]);
    }
  }

  // ---- What the events alone say

  /** Who has the slot: an upgrade that waits for the connection, or one whose socket is in it. */
  datatype Holder = Nobody | Waits(u: Id) | Has(u: Id)

  function HolderAfter(es: seq<Event>): Holder {
    if es == [] then Nobody
    else
      var before, e := HolderAfter(es[..|es| - 1]), es[|es| - 1];
      match e
      case Requests(u) => if before.Nobody? then Waits(u) else before
      case Drops(u) => if before == Waits(u) then Nobody else before
      case ConnectionFails(u) => if before == Waits(u) then Nobody else before
      case HandshakeFails(u) => if before == Waits(u) then Nobody else before
      case ConnectionReady(u, _) => if before == Waits(u) then Has(u) else before
      case Releases(u) => if before == Has(u) then Nobody else before
      case _ => before
  }

  /** The bridge of the connection that an upgrade got. */
  function BridgeOf(es: seq<Event>, u: Id): Option<Id> {
    if es == [] then None
    else if es[|es| - 1].ConnectionReady? && es[|es| - 1].u == u then Some(es[|es| - 1].bridge)
    else BridgeOf(es[..|es| - 1], u)
  }

  /** How far an upgrade has come: its own events decide, and whether the slot was free when it asked. */
  function PhaseAfter(es: seq<Event>, u: Id): Option<Phase> {
    if es == [] then None
    else
      var before, e := es[..|es| - 1], es[|es| - 1];
      if e.u != u then PhaseAfter(before, u)
      else
        (match e
         case Requests(_) => Some(if HolderAfter(before).Nobody? then Waiting else Refused)
         case Drops(_) => Some(Dropped)
         case ConnectionFails(_) => Some(Refused)
         case HandshakeFails(_) => Some(Refused)
         case ConnectionReady(_, bridge) => Some(if HolderAfter(before) == Waits(u) then Open(bridge) else Refused)
         case Attaches(_) => if BridgeOf(before, u).Some? then Some(Attached(BridgeOf(before, u).value)) else None
         case AttachFails(_) => Some(Unattached)
         case SaysEof(_) => Some(Silent)
         case SocketCloses(_) => PhaseAfter(before, u)
         case Detaches(_) => Some(Detached)
         case Releases(_) => Some(Gone))
  }

  ghost predicate HeldBy(s: Slot, holder: Holder) {
    match holder
    case Nobody => !s.pending && s.socket.None?
    case Waits(u) => s.pending && s.socket.None? && InPhase(s, u, Waiting)
    case Has(u) => !s.pending && s.socket == Some(u)
  }

  ghost predicate IsAsTold(s: Slot, es: seq<Event>, u: Id) {
    && (if u in s.upgrades then PhaseAfter(es, u) == Some(s.upgrades[u]) else PhaseAfter(es, u).None?)
    && (u in s.upgrades && s.upgrades[u].Open? ==> BridgeOf(es, u) == Some(s.upgrades[u].bridge))
  }

  lemma OneMore(es: seq<Event>, e: Event)
    ensures (es + [e])[..|es + [e]| - 1] == es && (es + [e])[|es + [e]| - 1] == e
  {
  }

  lemma StepHolds(s: Slot, es: seq<Event>, e: Event)
    requires Inv(s) && Enabled(s, e) && HeldBy(s, HolderAfter(es))
    ensures HeldBy(Step(s, e), HolderAfter(es + [e]))
  {
    OneMore(es, e);
    hide ActiveAreAttached;
  }

  lemma StepIsAsTold(s: Slot, es: seq<Event>, e: Event, u: Id)
    requires Inv(s) && Enabled(s, e) && HeldBy(s, HolderAfter(es)) && IsAsTold(s, es, u)
    ensures IsAsTold(Step(s, e), es + [e], u)
  {
    OneMore(es, e);
    if e.Attaches? {
      assert s.upgrades[e.u].bridge !in s.active;
    }
    hide HolderAfter;
  }

  lemma {:induction false} LastStep(s: Slot, es: seq<Event>)
    requires Possible(s, es) && |es| > 0
    ensures var n := |es| - 1;
      Possible(s, es[..n]) && Enabled(Run(s, es[..n]), es[n]) && Run(s, es) == Step(Run(s, es[..n]), es[n])
    decreases |es|
  {
    hide Step, Enabled;
    var n := |es| - 1;
    if n > 0 {
      LastStep(Step(s, es[0]), es[1..]);
      assert es[..n][1..] == es[1..][..n - 1] && es[..n][0] == es[0];
    } else {
      assert es[1..] == [] && es[..0] == [];
    }
  }

  lemma ReachableInv(es: seq<Event>)
    requires Possible(Initial, es)
    ensures Inv(Run(Initial, es))
  {
    RunKeepsInv(Initial, es);
  }

  /** In every run, who has the slot and how far each upgrade has come is what the events say: an upgrade is accepted exactly
      if nobody has the slot, gets in if it still waits when the connection is there, and is then attached to its bridge. */
  lemma {:induction false} EveryRunIsAsTold(es: seq<Event>, u: Id)
    requires Possible(Initial, es)
    ensures HeldBy(Run(Initial, es), HolderAfter(es)) && IsAsTold(Run(Initial, es), es, u)
  {
    if |es| > 0 {
      var n := |es| - 1;
      assert es[..n] + [es[n]] == es;
      LastStep(Initial, es);
      hide *;
      EveryRunIsAsTold(es[..n], u);
      ReachableInv(es[..n]);
      StepHolds(Run(Initial, es[..n]), es[..n], es[n]);
      StepIsAsTold(Run(Initial, es[..n]), es[..n], es[n], u);
    }
  }
}
