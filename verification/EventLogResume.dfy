/** Resuming a subscription from a client's cursor while the event log grows and is pruned
    (apps/server/src/ws.ts, with the pruning of apps/server/src/orchestration-v2/ProjectionMaintenance.ts). */
module EventLogResume {
  import opened Options

  /** A row of the log; pinned rows are of a kind that pruning never deletes. */
  datatype Row = Row(sequence: nat, stream: string, pinned: bool)

  /** The head of the log at some time: later passes prune up to it once it is old enough. */
  datatype Mark = Mark(through: nat, at: nat)

  /** A pass first takes the time, then measures the log, and only then publishes its boundary and prunes; next is the
      mark it leaves if it completes and the old one was due or missing. */
  datatype Pass = Started(at: nat) | Bounded(next: Mark) | Pruning(next: Mark, leavesMark: bool)

  /** appended is everything ever committed; rows is what is left of it. */
  datatype Store = Store(
    appended: seq<Row>,
    rows: set<Row>,
    published: set<Row>,
    prunedThrough: nat,
    mark: Option<Mark>,
    pass: Option<Pass>,
    clock: nat)

  /** How long events are kept at least, in milliseconds: one day. */
  const RETAINED_EVENT_HISTORY: nat := 86_400_000

  /** A thread's own events, or those of the whole application shell. */
  datatype Scope = Thread(stream: string) | Shell

  predicate InScope(scope: Scope, row: Row) {
    scope.Shell? || row.stream == scope.stream
  }

  predicate InRange(scope: Scope, row: Row, after: nat, through: nat) {
    InScope(scope, row) && after < row.sequence <= through
  }

  /** What a reader of the range should get: every committed event of the scope, in order. */
  function Wanted(appended: seq<Row>, scope: Scope, after: nat, through: nat): seq<Row> {
    if appended == [] then []
    else
      var last := appended[|appended| - 1];
      var before := Wanted(appended[..|appended| - 1], scope, after, through);
      if InRange(scope, last, after, through) then before + [last] else before
  }

  // ---- The store

  predicate IsNewest(s: Store, row: Row) {
    forall other <- s.rows :: other.stream == row.stream ==> other.sequence <= row.sequence
  }

  function Appended(s: Store, stream: string, pinned: bool): Store {
    var row := Row(|s.appended| + 1, stream, pinned);
    s.(appended := s.appended + [row], rows := s.rows + {row})
  }

  predicate MarkIsDue(s: Store, now: nat) {
    s.mark.Some? && now - s.mark.value.at >= RETAINED_EVENT_HISTORY
  }

  function Min(x: nat, y: nat): nat {
    if x < y then x else y
  }

  function Max(x: nat, y: nat): nat {
    if x < y then y else x
  }

  /** A pass publishes how far it will prune before it deletes anything. */
  function PassBegun(s: Store, projected: nat): Store
    requires s.pass.Some? && s.pass.value.Bounded?
  {
    var next := s.pass.value.next;
    var due := MarkIsDue(s, next.at);
    s.(prunedThrough := if due then Max(Min(s.mark.value.through, projected), s.prunedThrough) else s.prunedThrough,
       pass := Some(Pruning(next, s.mark.None? || due)))
  }

  predicate IsPrunable(s: Store, row: Row) {
    s.pass.Some? && s.pass.value.Pruning? && row in s.rows && row.sequence <= s.prunedThrough && !row.pinned && !IsNewest(s, row)
  }

  function RowDeleted(s: Store, row: Row): Store {
    s.(rows := s.rows - {row})
  }

  /** A pass that has not measured the log yet took its time before what is committed meanwhile. */
  function EarliestStart(s: Store): nat {
    if s.pass.Some? && s.pass.value.Started? then s.pass.value.at else s.clock
  }

  function PassEnded(s: Store, completed: bool): Store
    requires s.pass.Some? && (completed ==> s.pass.value.Pruning?)
  {
    s.(mark := if completed && s.pass.value.leavesMark then Some(s.pass.value.next) else s.mark, pass := None)
  }

  predicate IsHighWater(s: Store, scope: Scope, high: nat) {
    && (forall row <- s.rows :: InScope(scope, row) ==> row.sequence <= high)
    && (high == 0 || exists row <- s.rows :: InScope(scope, row) && row.sequence == high)
  }

  predicate IsNext(s: Store, scope: Scope, row: Row, after: nat, through: nat) {
    && row in s.rows && InRange(scope, row, after, through)
    && (forall other <- s.rows :: InRange(scope, other, after, through) ==> row.sequence <= other.sequence)
  }

  predicate IsExhausted(s: Store, scope: Scope, after: nat, through: nat) {
    forall row <- s.rows :: !InRange(scope, row, after, through)
  }

  // ---- The subscription

  datatype Stage =
    | Begun
    | Measured(high: nat)
    | Reading(high: nat, position: nat, got: seq<Row>)
    | HasRead(high: nat, got: seq<Row>)
    | Snapshot
    | Replay(high: nat, got: seq<Row>)
    | Listening(high: nat, got: seq<Row>, live: seq<Row>)
    | CatchingUp(high: nat, got: seq<Row>, live: seq<Row>, latest: nat, position: nat, caught: seq<Row>)
    | Live(high: nat, got: seq<Row>, caught: seq<Row>, live: seq<Row>, latest: nat, end: End)

  /** The boundary and the time at which the tail had caught up. */
  datatype End = End(prunedThrough: nat, clock: nat)

  /** headThen remembers how long the log was when the high water was read, and since the earliest time that a pass which
      measures the log later can have taken. */
  datatype Subscription = Subscription(scope: Scope, cursor: nat, since: nat, headThen: nat)

  /** A cursor ahead of the log, or one that pruning may have overtaken, cannot be replayed from. */
  predicate MustSnapshot(scope: Scope, cursor: nat, high: nat, prunedThrough: nat) {
    cursor > high || (cursor < prunedThrough && (scope.Shell? || cursor < high))
  }

  function AfterCheck(sub: Subscription, high: nat, prunedThrough: nat): Stage {
    if MustSnapshot(sub.scope, sub.cursor, high, prunedThrough) then Snapshot else Reading(high, sub.cursor, [])
  }

  function AfterRecheck(sub: Subscription, high: nat, got: seq<Row>, prunedThrough: nat): Stage {
    if MustSnapshot(sub.scope, sub.cursor, high, prunedThrough) then Snapshot else Replay(high, got)
  }

  function Heard(scope: Scope, live: seq<Row>, above: nat, row: Row): seq<Row> {
    if InScope(scope, row) && row.sequence > above then live + [row] else live
  }

  /** A listening subscription keeps what is published from now on, above what it reads or has read itself. */
  function AfterHearing(scope: Scope, stage: Stage, row: Row): Stage {
    match stage
    case Listening(high, got, live) => Listening(high, got, Heard(scope, live, high, row))
    case CatchingUp(high, got, live, latest, position, caught) =>
      CatchingUp(high, got, Heard(scope, live, latest, row), latest, position, caught)
    case Live(high, got, caught, live, latest, end) =>
      Live(high, got, caught, Heard(scope, live, latest, row), latest, end)
    case _ => stage
  }

  /** What was kept before the tail's own high water was known is filtered again when it is delivered. */
  function Above(rows: seq<Row>, through: nat): seq<Row> {
    if rows == [] then []
    else
      var last := rows[|rows| - 1];
      Above(rows[..|rows| - 1], through) + if last.sequence > through then [last] else []
  }

  /** Everything the client receives, in order. */
  function Delivered(stage: Stage): seq<Row>
    requires stage.Live?
  {
    stage.got + stage.caught + stage.live
  }

  /** Rows of the range, in order. */
  predicate IsPage(scope: Scope, rows: seq<Row>, after: nat, through: nat) {
    && (forall row <- rows :: InRange(scope, row, after, through))
    && (forall i, j | 0 <= i < j < |rows| :: rows[i].sequence < rows[j].sequence)
  }

  lemma PageGrows(scope: Scope, rows: seq<Row>, after: nat, through: nat, row: Row)
    requires IsPage(scope, rows, after, through) && InRange(scope, row, through, row.sequence) && after <= through
    ensures IsPage(scope, rows + [row], after, row.sequence)
  {
    assert forall i | 0 <= i < |rows| :: InRange(scope, rows[i], after, through);
    assert forall other <- rows + [row] :: other in rows || other == row;
  }

  /** The reading side of one subscription; what it reads of the store is handed to it. */
  class ResumingSubscription {
    const scope: Scope
    const cursor: nat
    var stage: Stage

    constructor (scope: Scope, cursor: nat)
      ensures this.scope == scope && this.cursor == cursor && stage == Begun
    {
      this.scope := scope;
      this.cursor := cursor;
      stage := Begun;
    }

    method Check(sub: Subscription, high: nat, prunedThrough: nat)
      requires stage == Measured(high) && sub.scope == scope && sub.cursor == cursor
      modifies this
      ensures stage == AfterCheck(sub, high, prunedThrough)
    {
      if cursor > high || (scope.Thread? && cursor < high && cursor < prunedThrough)
         || (scope.Shell? && cursor < prunedThrough) {
        stage := Snapshot;
        return;
      }
      stage := Reading(high, cursor, []);
    }

    /** Takes a page of the range's rows; what has been taken stays in order and within the range. */
    method TakeRows(rows: seq<Row>)
      requires stage.Reading? && cursor <= stage.position <= stage.high && IsPage(scope, rows, stage.position, stage.high)
      requires IsPage(scope, stage.got, cursor, stage.position)
      modifies this
      ensures stage.Reading? && stage.high == old(stage).high && stage.got == old(stage).got + rows
      ensures old(stage).position <= stage.position <= stage.high && IsPage(scope, stage.got, cursor, stage.position)
    {
      ghost var before := stage;
      for i := 0 to |rows|
        invariant stage.Reading? && stage.high == before.high && stage.got == before.got + rows[..i]
        invariant stage.position == if i == 0 then before.position else rows[i - 1].sequence
        invariant before.position <= stage.position <= stage.high && IsPage(scope, stage.got, cursor, stage.position)
      {
        assert rows[i] in rows;
        PageGrows(scope, stage.got, cursor, stage.position, rows[i]);
        stage := Reading(stage.high, rows[i].sequence, stage.got + [rows[i]]);
      }
    }

    method Recheck(sub: Subscription, prunedThrough: nat)
      requires stage.HasRead? && cursor <= stage.high && sub.scope == scope && sub.cursor == cursor
      modifies this
      ensures stage == AfterRecheck(sub, old(stage).high, old(stage).got, prunedThrough)
    {
      if cursor < prunedThrough && (scope.Shell? || cursor < stage.high) {
        stage := Snapshot;
        return;
      }
      stage := Replay(stage.high, stage.got);
    }
  }

  // ---- Runs: the store and one subscription, interleaved

  datatype System = System(store: Store, sub: Subscription, stage: Stage)

  datatype Event =
    | Append(stream: string, pinned: bool)
    | Publish(row: Row)
    | Tick(elapsed: nat)
    | StartPass
    | MeasureLog
    | BeginPass(projected: nat)
    | DeleteRow(row: Row)
    | EndPass(completed: bool)
    | ReadHighWater(high: nat)
    | Check
    | GiveUp
    | ReadRow(row: Row)
    | FinishReading
    | Recheck
    | Listen
    | ReadLatest(latest: nat)
    | CatchUpRow(row: Row)
    | FinishCatchingUp

  predicate Enabled(y: System, e: Event) {
    var s, sub, g := y.store, y.sub, y.stage;
    match e
    case Append(_, _) => true
    case Publish(row) => row in s.appended && row !in s.published
    case Tick(_) => true
    case StartPass => s.pass.None?
    case MeasureLog => s.pass.Some? && s.pass.value.Started?
    case BeginPass(_) => s.pass.Some? && s.pass.value.Bounded?
    case DeleteRow(row) => IsPrunable(s, row)
    case EndPass(completed) => s.pass.Some? && (completed ==> s.pass.value.Pruning?)
    case ReadHighWater(high) => g.Begun? && IsHighWater(s, sub.scope, high)
    case Check => g.Measured?
    case GiveUp => g.Measured? || g.Reading? || g.HasRead? || g.Replay?
    case ReadRow(row) => g.Reading? && IsNext(s, sub.scope, row, g.position, g.high)
    case FinishReading => g.Reading? && IsExhausted(s, sub.scope, g.position, g.high)
    case Recheck => g.HasRead?
    case Listen => g.Replay?
    case ReadLatest(latest) => g.Listening? && IsHighWater(s, sub.scope, latest)
    case CatchUpRow(row) => g.CatchingUp? && IsNext(s, sub.scope, row, g.position, g.latest)
    case FinishCatchingUp => g.CatchingUp? && IsExhausted(s, sub.scope, g.position, g.latest)
  }

  function Step(y: System, e: Event): System
    requires Enabled(y, e)
  {
    var s, sub, g := y.store, y.sub, y.stage;
    match e
    case Append(stream, pinned) => y.(store := Appended(s, stream, pinned))
    case Publish(row) => System(s.(published := s.published + {row}), sub, AfterHearing(sub.scope, g, row))
    case Tick(elapsed) => y.(store := s.(clock := s.clock + elapsed))
    case StartPass => y.(store := s.(pass := Some(Started(s.clock))))
    case MeasureLog => y.(store := s.(pass := Some(Bounded(Mark(|s.appended|, s.pass.value.at)))))
    case BeginPass(projected) => y.(store := PassBegun(s, projected))
    case DeleteRow(row) => y.(store := RowDeleted(s, row))
    case EndPass(completed) => y.(store := PassEnded(s, completed))
    case ReadHighWater(high) =>
      System(s, sub.(since := EarliestStart(s), headThen := |s.appended|), Measured(high))
    case Check => y.(stage := AfterCheck(sub, g.high, s.prunedThrough))
    case GiveUp => y.(stage := Snapshot)
    case ReadRow(row) => y.(stage := Reading(g.high, row.sequence, g.got + [row]))
    case FinishReading => y.(stage := HasRead(g.high, g.got))
    case Recheck => y.(stage := AfterRecheck(sub, g.high, g.got, s.prunedThrough))
    case Listen => y.(stage := Listening(g.high, g.got, []))
    case ReadLatest(latest) => y.(stage := CatchingUp(g.high, g.got, g.live, Max(latest, g.high), g.high, []))
    case CatchUpRow(row) => y.(stage := CatchingUp(g.high, g.got, g.live, g.latest, row.sequence, g.caught + [row]))
    case FinishCatchingUp =>
      y.(stage := Live(g.high, g.got, g.caught, Above(g.live, g.latest), g.latest, End(s.prunedThrough, s.clock)))
  }

  predicate Possible(y: System, es: seq<Event>)
    decreases |es|
  {
    es == [] || (Enabled(y, es[0]) && Possible(Step(y, es[0]), es[1..]))
  }

  function Run(y: System, es: seq<Event>): System
    requires Possible(y, es)
    decreases |es|
  {
    if es == [] then y else Run(Step(y, es[0]), es[1..])
  }

  function Initial(scope: Scope, cursor: nat): System {
    System(Store([], {}, {}, 0, None, None, 0), Subscription(scope, cursor, 0, 0), Begun)
  }

  // ---- What every run keeps

  ghost predicate IsNumbered(appended: seq<Row>) {
    forall i | 0 <= i < |appended| :: appended[i].sequence == i + 1
  }

  ghost predicate HasNewer(rows: set<Row>, row: Row) {
    exists newer <- rows :: newer.stream == row.stream && row.sequence <= newer.sequence
  }

  /** Only rows at or below the published boundary are ever missing, and never the newest of a stream. */
  ghost predicate StoreInv(s: Store) {
    && IsNumbered(s.appended)
    && (forall row <- s.rows :: row in s.appended) && (forall row <- s.published :: row in s.appended)
    && (forall row <- s.appended :: row in s.rows || row.sequence <= s.prunedThrough)
    && (forall row <- s.appended :: HasNewer(s.rows, row))
    && (forall row <- s.appended :: row.pinned ==> row in s.rows)
  }

  /** Marks and boundaries never run ahead of the log. */
  predicate IsBounded(s: Store) {
    && s.prunedThrough <= |s.appended| && (s.mark.Some? ==> s.mark.value.through <= |s.appended| && s.mark.value.at <= s.clock)
    && (s.pass.Some? && !s.pass.value.Started? ==> s.pass.value.next.through <= |s.appended|)
    && (s.pass.Some? ==> (if s.pass.value.Started? then s.pass.value.at else s.pass.value.next.at) <= s.clock)
  }

  lemma MoreRowsKeepNewer(rows: set<Row>, row: Row, x: Row)
    requires HasNewer(rows, x) || x == row
    ensures HasNewer(rows + {row}, x)
  {
    if x == row {
      assert row in rows + {row};
    } else {
      var newer: Row :| newer in rows && newer.stream == x.stream && x.sequence <= newer.sequence;
      assert newer in rows + {row};
    }
  }

  lemma AppendKeepsStoreInv(s: Store, stream: string, pinned: bool)
    requires StoreInv(s)
    ensures StoreInv(Appended(s, stream, pinned))
  {
    var t := Appended(s, stream, pinned);
    assert IsNumbered(t.appended);
    hide HasNewer, IsNumbered;
    forall x <- t.appended ensures HasNewer(t.rows, x) {
      MoreRowsKeepNewer(s.rows, t.appended[|s.appended|], x);
    }
  }

  lemma DeleteKeepsNewer(s: Store, row: Row, best: Row, x: Row)
    requires best in s.rows && best.stream == row.stream && best.sequence > row.sequence && HasNewer(s.rows, x)
    ensures HasNewer(RowDeleted(s, row).rows, x)
  {
    var newer: Row :| newer in s.rows && newer.stream == x.stream && x.sequence <= newer.sequence;
    assert (if newer == row then best else newer) in RowDeleted(s, row).rows;
  }

  lemma DeleteKeepsStoreInv(s: Store, row: Row)
    requires StoreInv(s) && IsPrunable(s, row)
    ensures StoreInv(RowDeleted(s, row))
  {
    hide HasNewer, IsNumbered;
    var t := RowDeleted(s, row);
    assert exists best :: best in s.rows && best.stream == row.stream && best.sequence > row.sequence;
    hide IsNewest;
    var best: Row :| best in s.rows && best.stream == row.stream && best.sequence > row.sequence;
    forall x <- t.appended ensures HasNewer(t.rows, x) {
      DeleteKeepsNewer(s, row, best, x);
    }
  }

  // ---- What a reader should get

  lemma {:induction false} WantedIsStable(appended: seq<Row>, row: Row, scope: Scope, after: nat, through: nat)
    requires row.sequence > through
    ensures Wanted(appended + [row], scope, after, through) == Wanted(appended, scope, after, through)
  {
    assert (appended + [row])[..|appended|] == appended;
  }

  lemma {:induction false} WantedOfEmptyRange(appended: seq<Row>, scope: Scope, after: nat, through: nat)
    requires forall row <- appended :: !InRange(scope, row, after, through)
    ensures Wanted(appended, scope, after, through) == []
  {
    if |appended| > 0 {
      WantedOfEmptyRange(appended[..|appended| - 1], scope, after, through);
    }
  }

  /** If one row of the scope lies in the range between, it is the last one wanted. */
  lemma {:induction false} WantedWithNext(appended: seq<Row>, scope: Scope, after: nat, position: nat, row: Row)
    requires IsNumbered(appended) && row in appended && after <= position < row.sequence && InScope(scope, row)
    requires forall x <- appended | InRange(scope, x, position, row.sequence) :: x == row
    ensures Wanted(appended, scope, after, row.sequence) == Wanted(appended, scope, after, position) + [row]
  {
    var n := |appended| - 1;
    assert appended == appended[..n] + [appended[n]];
    if appended[n] == row {
      SameWanted(appended[..n], scope, after, position, row.sequence);
    } else {
      assert row in appended[..n];
      WantedWithNext(appended[..n], scope, after, position, row);
      assert appended[n].sequence > row.sequence;
    }
  }

  /** Nothing of the scope in between, nothing more to want. */
  lemma {:induction false} SameWanted(appended: seq<Row>, scope: Scope, after: nat, position: nat, through: nat)
    requires after <= position <= through && forall x <- appended :: !InRange(scope, x, position, through)
    ensures Wanted(appended, scope, after, through) == Wanted(appended, scope, after, position)
  {
    if |appended| > 0 {
      SameWanted(appended[..|appended| - 1], scope, after, position, through);
    }
  }

  lemma {:induction false} WantedIsInRange(appended: seq<Row>, scope: Scope, after: nat, through: nat)
    ensures forall x :: x in Wanted(appended, scope, after, through) <==> x in appended && InRange(scope, x, after, through)
  {
    if |appended| > 0 {
      WantedIsInRange(appended[..|appended| - 1], scope, after, through);
      assert appended == appended[..|appended| - 1] + [appended[|appended| - 1]];
    }
  }

  ghost predicate NoneMissing(s: Store, scope: Scope, after: nat, through: nat) {
    forall x <- s.appended | InRange(scope, x, after, through) :: x in s.rows
  }

  lemma SequencesAreUnique(appended: seq<Row>, x: Row, y: Row)
    requires IsNumbered(appended) && x in appended && y in appended && x.sequence == y.sequence
    ensures x == y
  {
  }

  lemma NextExtends(s: Store, scope: Scope, base: nat, position: nat, through: nat, row: Row)
    requires StoreInv(s) && NoneMissing(s, scope, position, through) && base <= position
    requires IsNext(s, scope, row, position, through)
    ensures Wanted(s.appended, scope, base, row.sequence) == Wanted(s.appended, scope, base, position) + [row]
  {
    hide HasNewer, IsNumbered;
    assert row in s.appended;
    forall x <- s.appended | InRange(scope, x, position, row.sequence) ensures x == row {
      assert InRange(scope, x, position, through) && x in s.rows;
      SequencesAreUnique(s.appended, x, row);
    }
    WantedWithNext(s.appended, scope, base, position, row);
  }

  lemma ExhaustedEnds(s: Store, scope: Scope, base: nat, position: nat, through: nat)
    requires NoneMissing(s, scope, position, through) && IsExhausted(s, scope, position, through) && base <= position <= through
    ensures Wanted(s.appended, scope, base, through) == Wanted(s.appended, scope, base, position)
  {
    SameWanted(s.appended, scope, base, position, through);
  }

  /** The newest row of every stream survives, so the high water that is read is the true one. */
  lemma HighWaterIsTrue(s: Store, scope: Scope, high: nat)
    requires StoreInv(s) && IsHighWater(s, scope, high)
    ensures high <= |s.appended| && forall x <- s.appended | InScope(scope, x) :: x.sequence <= high
  {
    if high > 0 {
      var row: Row :| row in s.rows && InScope(scope, row) && row.sequence == high;
      assert row in s.appended;
    }
    forall x <- s.appended | InScope(scope, x) ensures x.sequence <= high {
      assert HasNewer(s.rows, x);
    }
  }

  /** A snapshot is not called for, so no row that the replay needs can have been pruned. */
  predicate Kept(s: Store, sub: Subscription, high: nat) {
    !MustSnapshot(sub.scope, sub.cursor, high, s.prunedThrough)
  }

  lemma KeptMeansNoneMissing(s: Store, sub: Subscription, high: nat)
    requires StoreInv(s) && Kept(s, sub, high)
    ensures sub.cursor <= high && NoneMissing(s, sub.scope, sub.cursor, high)
  {
  }

  /** Within the retained history, pruning stays below the log as it was when the high water was read. */
  predicate IsTimely(s: Store, sub: Subscription) {
    && sub.since <= s.clock
    && (s.mark.Some? ==> s.mark.value.through <= sub.headThen || s.mark.value.at >= sub.since)
    && (s.pass.Some? ==> match s.pass.value
                         case Started(at) => sub.since <= at
                         case Bounded(next) => next.through <= sub.headThen || next.at >= sub.since
                         case Pruning(next, _) => next.through <= sub.headThen || next.at >= sub.since)
    && (s.prunedThrough <= sub.headThen || s.clock >= sub.since + RETAINED_EVENT_HISTORY)
  }

  ghost predicate CoversScope(s: Store, sub: Subscription, high: nat) {
    && high <= |s.appended| && sub.headThen <= |s.appended|
    && (forall x <- s.appended | InScope(sub.scope, x) && x.sequence <= sub.headThen :: x.sequence <= high)
  }

  ghost predicate NoRepeats(rows: seq<Row>) {
    forall i, j | 0 <= i < j < |rows| :: rows[i] != rows[j]
  }

  /** What was kept of the published rows is of the scope and above a position, each once. */
  ghost predicate KeptOnce(s: Store, sub: Subscription, live: seq<Row>, above: nat) {
    NoRepeats(live) && forall x <- live :: x in s.published && InScope(sub.scope, x) && x.sequence > above
  }

  /** Everything of the scope that came after the tail's own high water and was published has been heard. */
  ghost predicate HasHeard(s: Store, sub: Subscription, live: seq<Row>, latest: nat) {
    forall x <- s.published | InScope(sub.scope, x) && x.sequence > latest :: x in live
  }

  /** The tail's range is empty, or the boundary has not come past what the scope had when the high water was read. */
  predicate TailIsKept(prunedThrough: nat, sub: Subscription, high: nat, latest: nat) {
    latest == high || prunedThrough <= high || prunedThrough <= sub.headThen
  }

  ghost predicate HasReplay(s: Store, sub: Subscription, high: nat, got: seq<Row>) {
    sub.cursor <= high && CoversScope(s, sub, high) && got == Wanted(s.appended, sub.scope, sub.cursor, high)
  }

  ghost predicate StageInv(s: Store, sub: Subscription, stage: Stage) {
    match stage
    case Begun => true
    case Snapshot => true
    case Measured(high) => CoversScope(s, sub, high)
    case Reading(high, position, got) =>
      CoversScope(s, sub, high) && sub.cursor <= position <= high
      && (Kept(s, sub, high) ==> got == Wanted(s.appended, sub.scope, sub.cursor, position))
    case HasRead(high, got) =>
      CoversScope(s, sub, high) && (Kept(s, sub, high) ==> got == Wanted(s.appended, sub.scope, sub.cursor, high))
    case Replay(high, got) => HasReplay(s, sub, high, got)
    case Listening(high, got, live) => HasReplay(s, sub, high, got) && KeptOnce(s, sub, live, high)
    case CatchingUp(high, got, live, latest, position, caught) =>
      HasReplay(s, sub, high, got) && HasHeard(s, sub, live, latest) && KeptOnce(s, sub, live, high)
      && high <= position <= latest <= |s.appended|
      && (TailIsKept(s.prunedThrough, sub, high, latest) ==> caught == Wanted(s.appended, sub.scope, high, position))
    case Live(high, got, caught, live, latest, end) =>
      HasReplay(s, sub, high, got) && HasHeard(s, sub, live, latest) && KeptOnce(s, sub, live, latest)
      && high <= latest <= |s.appended|
      && (end.prunedThrough <= sub.headThen || end.clock >= sub.since + RETAINED_EVENT_HISTORY)
      && (TailIsKept(end.prunedThrough, sub, high, latest) ==> caught == Wanted(s.appended, sub.scope, high, latest))
  }

  ghost predicate Inv(y: System) {
    StoreInv(y.store) && IsBounded(y.store) && (!y.stage.Begun? ==> IsTimely(y.store, y.sub))
    && StageInv(y.store, y.sub, y.stage)
  }

  // ---- Every step keeps the invariant

  lemma StableRanges(s: Store, stream: string, pinned: bool, scope: Scope, after: nat, through: nat)
    requires through <= |s.appended|
    ensures Wanted(Appended(s, stream, pinned).appended, scope, after, through) == Wanted(s.appended, scope, after, through)
  {
    WantedIsStable(s.appended, Row(|s.appended| + 1, stream, pinned), scope, after, through);
  }

  lemma AppendKeepsCover(s: Store, sub: Subscription, stream: string, pinned: bool, high: nat)
    requires CoversScope(s, sub, high)
    ensures CoversScope(Appended(s, stream, pinned), sub, high) && high <= |s.appended|
  {
  }

  lemma AppendKeepsHeard(s: Store, sub: Subscription, stream: string, pinned: bool, live: seq<Row>, latest: nat)
    ensures HasHeard(Appended(s, stream, pinned), sub, live, latest) == HasHeard(s, sub, live, latest)
    ensures forall above :: KeptOnce(Appended(s, stream, pinned), sub, live, above) == KeptOnce(s, sub, live, above)
  {
  }

  lemma AppendKeepsReplay(s: Store, sub: Subscription, stream: string, pinned: bool, high: nat, got: seq<Row>)
    requires HasReplay(s, sub, high, got)
    ensures HasReplay(Appended(s, stream, pinned), sub, high, got)
  {
    AppendKeepsCover(s, sub, stream, pinned, high);
    StableRanges(s, stream, pinned, sub.scope, sub.cursor, high);
    hide Wanted;
  }

  lemma AppendKeepsStage(s: Store, sub: Subscription, stage: Stage, stream: string, pinned: bool)
    requires StageInv(s, sub, stage)
    ensures StageInv(Appended(s, stream, pinned), sub, stage)
  {
    hide Wanted, CoversScope, HasReplay, HasHeard, KeptOnce;
    var c, scope := sub.cursor, sub.scope;
    match stage
    case Measured(high) =>
      AppendKeepsCover(s, sub, stream, pinned, high);
    case Reading(high, position, _) =>
      AppendKeepsCover(s, sub, stream, pinned, high);
      StableRanges(s, stream, pinned, scope, c, position);
    case HasRead(high, _) =>
      AppendKeepsCover(s, sub, stream, pinned, high);
      StableRanges(s, stream, pinned, scope, c, high);
    case Replay(high, got) =>
      AppendKeepsReplay(s, sub, stream, pinned, high, got);
    case Listening(high, got, live) =>
      AppendKeepsReplay(s, sub, stream, pinned, high, got);
      AppendKeepsHeard(s, sub, stream, pinned, live, high);
    case CatchingUp(high, got, live, latest, position, _) =>
      AppendKeepsReplay(s, sub, stream, pinned, high, got);
      StableRanges(s, stream, pinned, scope, high, position);
      AppendKeepsHeard(s, sub, stream, pinned, live, latest);
    case Live(high, got, _, live, latest, _) =>
      AppendKeepsReplay(s, sub, stream, pinned, high, got);
      StableRanges(s, stream, pinned, scope, high, latest);
      AppendKeepsHeard(s, sub, stream, pinned, live, latest);
    case _ =>
  }

  /** Steps of the store that append nothing and publish nothing only move the boundary up and the clock on. */
  predicate OnlyPrunes(s: Store, t: Store) {
    t.appended == s.appended && t.published == s.published && s.prunedThrough <= t.prunedThrough && s.clock <= t.clock
  }

  predicate IsMaintenance(e: Event) {
    e.Tick? || e.StartPass? || e.MeasureLog? || e.BeginPass? || e.EndPass? || e.DeleteRow?
  }

  lemma PruningKeepsStage(s: Store, t: Store, sub: Subscription, stage: Stage)
    requires StageInv(s, sub, stage) && OnlyPrunes(s, t)
    ensures StageInv(t, sub, stage)
  {
    hide Wanted;
  }

  lemma SameRowsKeepStoreInv(s: Store, t: Store)
    requires StoreInv(s) && OnlyPrunes(s, t) && t.rows == s.rows
    ensures StoreInv(t)
  {
    hide IsNumbered, HasNewer;
  }

  lemma ClockAndPassesKeepBounds(y: System, e: Event)
    requires IsBounded(y.store) && Enabled(y, e) && IsMaintenance(e)
    ensures IsBounded(Step(y, e).store) && OnlyPrunes(y.store, Step(y, e).store)
  {
  }

  lemma ClockAndPassesStayTimely(y: System, e: Event)
    requires IsTimely(y.store, y.sub)
    requires IsBounded(y.store) && Enabled(y, e) && IsMaintenance(e)
    ensures IsTimely(Step(y, e).store, y.sub)
  {
  }

  /** A pass moves the boundary only up to a mark that is a day old, never back, and never past what has been projected; and it
      moves it as far as that. */
  lemma BoundaryMovesExactly(y: System, projected: nat)
    requires Enabled(y, BeginPass(projected))
    ensures
      var s, t := y.store, Step(y, BeginPass(projected)).store;
      var due := s.mark.Some? && s.pass.value.next.at - s.mark.value.at >= 24 * 60 * 60 * 1000;
      && s.prunedThrough <= t.prunedThrough
      && (!due ==> t.prunedThrough == s.prunedThrough)
      && (due ==> (t.prunedThrough == s.prunedThrough || (t.prunedThrough <= projected && t.prunedThrough <= s.mark.value.through))
                  && (s.mark.value.through <= t.prunedThrough || projected <= t.prunedThrough))
  {
  }

  lemma StoreStepKeepsInv(y: System, e: Event)
    requires Inv(y) && Enabled(y, e) && IsMaintenance(e)
    ensures Inv(Step(y, e))
  {
    hide StageInv, StoreInv, IsTimely, IsBounded, HasNewer;
    ClockAndPassesKeepBounds(y, e);
    PruningKeepsStage(y.store, Step(y, e).store, y.sub, y.stage);
    if e.DeleteRow? {
      DeleteKeepsStoreInv(y.store, e.row);
    } else {
      SameRowsKeepStoreInv(y.store, Step(y, e).store);
    }
    if !y.stage.Begun? {
      ClockAndPassesStayTimely(y, e);
    }
  }

  lemma AppendKeepsInv(y: System, stream: string, pinned: bool)
    requires Inv(y)
    ensures Inv(Step(y, Append(stream, pinned)))
  {
    hide StageInv, StoreInv;
    AppendKeepsStoreInv(y.store, stream, pinned);
    AppendKeepsStage(y.store, y.sub, y.stage, stream, pinned);
  }

  lemma PublishKeepsStore(s: Store, row: Row)
    requires StoreInv(s) && row in s.appended
    ensures StoreInv(s.(published := s.published + {row}))
  {
    hide IsNumbered, HasNewer;
  }

  lemma PublishKeepsHeard(s: Store, sub: Subscription, live: seq<Row>, latest: nat, row: Row)
    requires HasHeard(s, sub, live, latest)
    ensures HasHeard(s.(published := s.published + {row}), sub, Heard(sub.scope, live, latest, row), latest)
  {
  }

  lemma PublishKeepsOnce(s: Store, sub: Subscription, live: seq<Row>, above: nat, through: nat, row: Row)
    requires KeptOnce(s, sub, live, above) && row !in s.published && above <= through
    ensures KeptOnce(s.(published := s.published + {row}), sub, Heard(sub.scope, live, through, row), above)
  {
    assert row !in live;
  }

  lemma PublishKeepsCover(s: Store, sub: Subscription, row: Row)
    ensures forall high :: CoversScope(s.(published := s.published + {row}), sub, high) == CoversScope(s, sub, high)
  {
  }

  lemma PublishKeepsInv(y: System, row: Row)
    requires Inv(y) && Enabled(y, Publish(row))
    ensures Inv(Step(y, Publish(row)))
  {
    var s, sub := y.store, y.sub;
    hide Wanted, StoreInv, HasHeard, KeptOnce, CoversScope, TailIsKept, Heard;
    PublishKeepsStore(s, row);
    PublishKeepsCover(s, sub, row);
    match y.stage
    case Listening(high, _, live) =>
      PublishKeepsOnce(s, sub, live, high, high, row);
    case CatchingUp(high, _, live, latest, _, _) =>
      PublishKeepsHeard(s, sub, live, latest, row);
      PublishKeepsOnce(s, sub, live, high, latest, row);
    case Live(_, _, _, live, latest, _) =>
      PublishKeepsHeard(s, sub, live, latest, row);
      PublishKeepsOnce(s, sub, live, latest, latest, row);
    case _ =>
  }

  lemma ReadHighWaterKeepsInv(y: System, high: nat)
    requires Inv(y) && Enabled(y, ReadHighWater(high))
    ensures Inv(Step(y, ReadHighWater(high)))
  {
    hide StoreInv, IsHighWater;
    HighWaterIsTrue(y.store, y.sub.scope, high);
  }

  lemma ChecksKeepInv(y: System, e: Event)
    requires Inv(y) && Enabled(y, e) && (e.Check? || e.GiveUp? || e.Recheck? || e.Listen?)
    ensures Inv(Step(y, e))
  {
    hide StoreInv, CoversScope, IsTimely;
    var position := y.sub.cursor;
    WantedOfNothing(y.store.appended, y.sub.scope, position);
    hide Wanted;
  }

  lemma WantedOfNothing(appended: seq<Row>, scope: Scope, position: nat)
    ensures Wanted(appended, scope, position, position) == []
  {
    WantedOfEmptyRange(appended, scope, position, position);
  }

  lemma ReadRowKeepsInv(y: System, row: Row)
    requires Inv(y) && Enabled(y, ReadRow(row))
    ensures Inv(Step(y, ReadRow(row)))
  {
    hide StoreInv, CoversScope, IsTimely, Wanted, Kept;
    var s, sub, g := y.store, y.sub, y.stage;
    if Kept(s, sub, g.high) {
      KeptMeansNoneMissing(s, sub, g.high);
      NextExtends(s, sub.scope, sub.cursor, g.position, g.high, row);
    }
  }

  lemma FinishReadingKeepsInv(y: System)
    requires Inv(y) && Enabled(y, FinishReading)
    ensures Inv(Step(y, FinishReading))
  {
    hide StoreInv, CoversScope, IsTimely, Wanted, Kept;
    var s, sub, g := y.store, y.sub, y.stage;
    if Kept(s, sub, g.high) {
      KeptMeansNoneMissing(s, sub, g.high);
      ExhaustedEnds(s, sub.scope, sub.cursor, g.position, g.high);
    }
  }

  lemma ReplayIsInLog(s: Store, sub: Subscription, high: nat, got: seq<Row>)
    requires HasReplay(s, sub, high, got)
    ensures high <= |s.appended|
  {
    hide Wanted;
  }

  lemma NothingCameLater(s: Store, sub: Subscription, live: seq<Row>, latest: nat, through: nat)
    requires StoreInv(s) && latest <= through && forall x <- s.appended | InScope(sub.scope, x) :: x.sequence <= latest
    ensures HasHeard(s, sub, live, through)
  {
    hide IsNumbered, HasNewer;
  }

  lemma ReadLatestKeepsInv(y: System, latest: nat)
    requires Inv(y) && Enabled(y, ReadLatest(latest))
    ensures Inv(Step(y, ReadLatest(latest)))
  {
    hide StoreInv, IsTimely, Wanted, IsHighWater, HasReplay, HasHeard, KeptOnce;
    var high := y.stage.high;
    HighWaterIsTrue(y.store, y.sub.scope, latest);
    WantedOfNothing(y.store.appended, y.sub.scope, high);
    ReplayIsInLog(y.store, y.sub, high, y.stage.got);
    NothingCameLater(y.store, y.sub, y.stage.live, latest, Max(latest, high));
  }

  /** What pruning may have taken, the tail's scope had already before the high water that the tail starts from. */
  lemma TailMissesNothing(s: Store, sub: Subscription, high: nat, through: nat)
    requires StoreInv(s) && CoversScope(s, sub, high) && TailIsKept(s.prunedThrough, sub, high, through)
    ensures NoneMissing(s, sub.scope, high, through)
  {
  }

  lemma CatchUpRowKeepsInv(y: System, row: Row)
    requires Inv(y) && Enabled(y, CatchUpRow(row))
    ensures Inv(Step(y, CatchUpRow(row)))
  {
    hide StoreInv, CoversScope, Wanted, HasHeard, KeptOnce, TailIsKept;
    var s, sub, g := y.store, y.sub, y.stage;
    if TailIsKept(s.prunedThrough, sub, g.high, g.latest) {
      TailMissesNothing(s, sub, g.high, g.latest);
      NextExtends(s, sub.scope, g.high, g.position, g.latest, row);
    }
  }

  lemma {:induction false} AboveKeepsTheRest(rows: seq<Row>, through: nat)
    ensures forall x :: x in Above(rows, through) <==> x in rows && x.sequence > through
    ensures NoRepeats(rows) ==> NoRepeats(Above(rows, through))
  {
    if |rows| > 0 {
      AboveKeepsTheRest(rows[..|rows| - 1], through);
      assert rows == rows[..|rows| - 1] + [rows[|rows| - 1]];
    }
  }

  lemma FilteringKeepsLive(s: Store, sub: Subscription, live: seq<Row>, high: nat, latest: nat)
    requires KeptOnce(s, sub, live, high) && HasHeard(s, sub, live, latest)
    ensures KeptOnce(s, sub, Above(live, latest), latest) && HasHeard(s, sub, Above(live, latest), latest)
  {
    AboveKeepsTheRest(live, latest);
    hide NoRepeats;
  }

  lemma FinishCatchingUpKeepsInv(y: System)
    requires Inv(y) && Enabled(y, FinishCatchingUp)
    ensures Inv(Step(y, FinishCatchingUp))
  {
    hide StoreInv, CoversScope, Wanted, HasHeard, KeptOnce, TailIsKept;
    var s, sub, g := y.store, y.sub, y.stage;
    FilteringKeepsLive(s, sub, g.live, g.high, g.latest);
    if TailIsKept(s.prunedThrough, sub, g.high, g.latest) {
      TailMissesNothing(s, sub, g.high, g.latest);
      ExhaustedEnds(s, sub.scope, g.high, g.position, g.latest);
    }
  }

  lemma StepKeepsInv(y: System, e: Event)
    requires Inv(y) && Enabled(y, e)
    ensures Inv(Step(y, e))
  {
    hide Inv;
    match e
    case Append(stream, pinned) => AppendKeepsInv(y, stream, pinned);
    case Publish(row) => PublishKeepsInv(y, row);
    case Tick(_) => StoreStepKeepsInv(y, e);
    case StartPass => StoreStepKeepsInv(y, e);
    case MeasureLog => StoreStepKeepsInv(y, e);
    case BeginPass(_) => StoreStepKeepsInv(y, e);
    case DeleteRow(_) => StoreStepKeepsInv(y, e);
    case EndPass(_) => StoreStepKeepsInv(y, e);
    case ReadHighWater(high) => ReadHighWaterKeepsInv(y, high);
    case Check => ChecksKeepInv(y, e);
    case GiveUp => ChecksKeepInv(y, e);
    case ReadRow(row) => ReadRowKeepsInv(y, row);
    case FinishReading => FinishReadingKeepsInv(y);
    case Recheck => ChecksKeepInv(y, e);
    case Listen => ChecksKeepInv(y, e);
    case ReadLatest(latest) => ReadLatestKeepsInv(y, latest);
    case CatchUpRow(row) => CatchUpRowKeepsInv(y, row);
    case FinishCatchingUp => FinishCatchingUpKeepsInv(y);
  }

  lemma {:induction false} RunKeepsInv(y: System, es: seq<Event>)
    requires Inv(y) && Possible(y, es)
    ensures Inv(Run(y, es))
    decreases |es|
  {
    hide Inv, Step, Enabled;
    if |es| > 0 {
      assert Enabled(y, es[0]);
      StepKeepsInv(y, es[0]);
      RunKeepsInv(Step(y, es[0]), es[1..]);
    }
  }

  // ---- Main results

  /** A subscription that chose replay has read every committed event after the cursor, in order. */
  lemma ReplayIsComplete(scope: Scope, cursor: nat, es: seq<Event>)
    requires Possible(Initial(scope, cursor), es) && Run(Initial(scope, cursor), es).stage.Replay?
    ensures var y := Run(Initial(scope, cursor), es);
      y.sub.scope == scope && y.sub.cursor == cursor && cursor <= y.stage.high
      && y.stage.got == Wanted(y.store.appended, scope, cursor, y.stage.high)
  {
    RunKeepsInv(Initial(scope, cursor), es);
    SameSubscription(Initial(scope, cursor), es);
    hide Run, Possible, Wanted, StoreInv, CoversScope, IsTimely, IsBounded;
  }

  /** The client claims to have seen more than there is: its cursor is beyond every event of the scope. */
  predicate IsAhead(appended: seq<Row>, scope: Scope, cursor: nat) {
    cursor > 0 && forall row <- appended :: InScope(scope, row) ==> row.sequence < cursor
  }

  predicate HasLater(appended: seq<Row>, scope: Scope, cursor: nat) {
    exists row <- appended :: InScope(scope, row) && row.sequence > cursor
  }

  /** A snapshot is chosen exactly if the cursor was beyond the log when that was measured, or if pruning has come past it
      since, unless it is a thread's and the thread had nothing after it; and after the read, exactly if pruning has come past
      it in the meantime. In every other case the client is served from its cursor. */
  lemma SnapshotsExactlyWhenOvertaken(measured: System, high: nat, y: System)
    requires Inv(measured) && Enabled(measured, ReadHighWater(high)) && y.sub.scope == measured.sub.scope && y.sub.cursor == measured.sub.cursor
    ensures
      var scope, cursor, appended := y.sub.scope, y.sub.cursor, measured.store.appended;
      var overtaken := cursor < y.store.prunedThrough && (scope.Shell? || HasLater(appended, scope, cursor));
      && (y.stage == Measured(high) ==>
            Step(y, Check).stage == if IsAhead(appended, scope, cursor) || overtaken then Snapshot else Reading(high, cursor, []))
      && (y.stage.HasRead? && y.stage.high == high && cursor <= high ==>
            Step(y, Recheck).stage == if overtaken then Snapshot else Replay(high, y.stage.got))
  {
    HighWaterTells(measured.store, measured.sub.scope, high, y.sub.cursor);
    hide Inv, Enabled, IsAhead, HasLater, StoreInv, IsHighWater;
    ChecksDecide(y, high);
  }

  lemma ChecksDecide(y: System, high: nat)
    ensures y.stage == Measured(high) ==>
              Enabled(y, Check)
              && Step(y, Check).stage
                 == if MustSnapshot(y.sub.scope, y.sub.cursor, high, y.store.prunedThrough) then Snapshot
                    else Reading(high, y.sub.cursor, [])
    ensures y.stage.HasRead? && y.stage.high == high ==>
              Enabled(y, Recheck)
              && Step(y, Recheck).stage
                 == if MustSnapshot(y.sub.scope, y.sub.cursor, high, y.store.prunedThrough) then Snapshot
                    else Replay(high, y.stage.got)
  {
    hide MustSnapshot;
  }

  lemma HighWaterTells(s: Store, scope: Scope, high: nat, cursor: nat)
    requires StoreInv(s) && IsHighWater(s, scope, high)
    ensures IsAhead(s.appended, scope, cursor) <==> cursor > high
    ensures HasLater(s.appended, scope, cursor) <==> cursor < high
  {
    HighWaterIsTrue(s, scope, high);
    HighWaterIsInLog(s, scope, high);
    hide StoreInv, IsHighWater, InScope;
  }

  lemma HighWaterIsInLog(s: Store, scope: Scope, high: nat)
    requires StoreInv(s) && IsHighWater(s, scope, high)
    ensures high > 0 ==> exists row <- s.appended :: InScope(scope, row) && row.sequence == high
  {
    if high > 0 {
      var row: Row :| row in s.rows && InScope(scope, row) && row.sequence == high;
      assert row in s.appended;
    }
  }

  lemma {:induction false} SameSubscription(y: System, es: seq<Event>)
    requires Possible(y, es)
    ensures Run(y, es).sub.scope == y.sub.scope && Run(y, es).sub.cursor == y.sub.cursor
    decreases |es|
  {
    if |es| > 0 {
      SameSubscription(Step(y, es[0]), es[1..]);
    }
  }

  lemma {:induction false} WantedOnce(appended: seq<Row>, scope: Scope, after: nat, through: nat, row: Row)
    requires IsNumbered(appended)
    ensures multiset(Wanted(appended, scope, after, through))[row]
            == if row in appended && InRange(scope, row, after, through) then 1 else 0
  {
    if |appended| > 0 {
      var n := |appended| - 1;
      assert appended == appended[..n] + [appended[n]];
      assert appended[n] !in appended[..n];
      WantedOnce(appended[..n], scope, after, through, row);
    }
  }

  lemma {:induction false} NoRepeatsMeansOnce(rows: seq<Row>, row: Row)
    requires NoRepeats(rows)
    ensures multiset(rows)[row] == if row in rows then 1 else 0
  {
    if |rows| > 0 {
      var n := |rows| - 1;
      assert rows == rows[..n] + [rows[n]];
      assert rows[n] !in rows[..n];
      NoRepeatsMeansOnce(rows[..n], row);
    }
  }

  /** What lies up to a position and what lies after it are together what lies in the whole range. */
  lemma {:induction false} WantedJoins(appended: seq<Row>, scope: Scope, after: nat, position: nat, through: nat)
    requires IsNumbered(appended) && after <= position <= through
    ensures Wanted(appended, scope, after, position) + Wanted(appended, scope, position, through)
            == Wanted(appended, scope, after, through)
  {
    if |appended| > 0 {
      var n := |appended| - 1;
      assert appended == appended[..n] + [appended[n]];
      WantedJoins(appended[..n], scope, after, position, through);
      if appended[n].sequence <= position {
        WantedOfEmptyRange(appended[..n], scope, position, through);
      }
    }
  }

  /** The tail had nothing to read, or pruning had not come past the high water, or the retained day was not over. */
  predicate CaughtUpSafely(sub: Subscription, g: Stage)
    requires g.Live?
  {
    g.latest == g.high || g.end.prunedThrough <= g.high || g.end.clock < sub.since + RETAINED_EVENT_HISTORY
  }

  /** The client is owed what has been committed after its cursor, except what is still to be published. */
  predicate IsOwed(y: System, row: Row)
    requires y.stage.Live?
  {
    && row in y.store.appended && InScope(y.sub.scope, row) && row.sequence > y.sub.cursor
    && (row.sequence <= y.stage.latest || row in y.store.published)
  }

  lemma LiveIsOwedAbove(y: System, row: Row)
    requires Inv(y) && y.stage.Live?
    ensures row in y.stage.live <==> IsOwed(y, row) && row.sequence > y.stage.latest
  {
    hide Wanted, NoRepeats, IsNumbered, HasNewer, TailIsKept, IsTimely, IsBounded;
  }

  lemma LiveIsDeliveredOnce(y: System, row: Row)
    requires Inv(y) && y.stage.Live? && CaughtUpSafely(y.sub, y.stage)
    ensures y.stage.got + y.stage.caught == Wanted(y.store.appended, y.sub.scope, y.sub.cursor, y.stage.latest)
    ensures multiset(Delivered(y.stage))[row] == if IsOwed(y, row) then 1 else 0
  {
    var s, sub, g := y.store, y.sub, y.stage;
    LiveIsOwedAbove(y, row);
    hide IsNumbered, CoversScope, IsTimely, HasHeard, NoRepeats;
    WantedJoins(s.appended, sub.scope, sub.cursor, g.high, g.latest);
    WantedOnce(s.appended, sub.scope, sub.cursor, g.latest, row);
    NoRepeatsMeansOnce(g.live, row);
    hide Wanted;
    assert Delivered(g) == (g.got + g.caught) + g.live;
  }

  /** Replay, then catch-up, then what is heard live: every event after the cursor that is committed and published is
      delivered exactly once, and nothing else is, provided the tail caught up safely. */
  lemma ReplayAndTailHaveNoGap(scope: Scope, cursor: nat, es: seq<Event>, row: Row)
    requires Possible(Initial(scope, cursor), es)
    requires var y := Run(Initial(scope, cursor), es); y.stage.Live? && CaughtUpSafely(y.sub, y.stage)
    ensures var y := Run(Initial(scope, cursor), es); var g := y.stage;
      && y.sub.scope == scope && y.sub.cursor == cursor
      && g.got + g.caught == Wanted(y.store.appended, scope, cursor, g.latest)
      && (row in g.live ==> row.sequence > g.latest)
      && multiset(Delivered(g))[row] == if IsOwed(y, row) then 1 else 0
  {
    RunKeepsInv(Initial(scope, cursor), es);
    SameSubscription(Initial(scope, cursor), es);
    var y := Run(Initial(scope, cursor), es);
    hide Run, Possible, Inv;
    LiveIsDeliveredOnce(y, row);
    LiveIsOwedAbove(y, row);
  }

  /** The check that the replay makes after its read would make the catch-up complete too, in every run. */
  lemma RecheckedCatchUpIsComplete(scope: Scope, cursor: nat, es: seq<Event>)
    requires Possible(Initial(scope, cursor), es)
    requires var y := Run(Initial(scope, cursor), es);
      y.stage.CatchingUp? && Enabled(y, FinishCatchingUp)
      && (y.stage.latest == y.stage.high || y.store.prunedThrough <= y.stage.high)
    ensures var y := Run(Initial(scope, cursor), es);
      y.stage.caught == Wanted(y.store.appended, scope, y.stage.high, y.stage.latest)
  {
    RunKeepsInv(Initial(scope, cursor), es);
    SameSubscription(Initial(scope, cursor), es);
    hide *;
    SafeCatchUpIsComplete(Run(Initial(scope, cursor), es));
  }

  lemma SafeCatchUpIsComplete(y: System)
    requires Inv(y) && y.stage.CatchingUp? && Enabled(y, FinishCatchingUp)
    requires y.stage.latest == y.stage.high || y.store.prunedThrough <= y.stage.high
    ensures y.stage.caught == Wanted(y.store.appended, y.sub.scope, y.stage.high, y.stage.latest)
  {
    hide StoreInv, CoversScope, Wanted, HasHeard, KeptOnce, IsTimely, IsBounded;
    var s, sub, g := y.store, y.sub, y.stage;
    TailMissesNothing(s, sub, g.high, g.latest);
    ExhaustedEnds(s, sub.scope, g.high, g.position, g.latest);
  }

  // ---- When the catch-up can miss an event

  /** Some way of going on ends with the tail caught up and an event of its range lost. */
  ghost predicate CanMiss(y: System)
    requires y.stage.CatchingUp?
  {
    exists es, row :: Possible(y, es) && HasMissed(Run(y, es), row)
  }

  ghost predicate HasMissed(y: System, row: Row) {
    && y.stage.Live? && row in y.store.appended && InRange(y.sub.scope, row, y.stage.high, y.stage.latest)
    && row !in y.stage.caught
  }

  /** An event of the tail's range has been passed over, or waits to be read and is of a kind that pruning deletes. */
  predicate IsAtRisk(y: System, row: Row)
    requires y.stage.CatchingUp?
  {
    && row in y.store.appended && InRange(y.sub.scope, row, y.stage.high, y.stage.latest) && row !in y.stage.caught
    && (row.sequence <= y.stage.position || !row.pinned)
  }

  /** Pinned rows stay, so what waits to be read will be read. */
  ghost predicate NothingAtRisk(y: System) {
    match y.stage
    case CatchingUp(_, _, _, latest, position, _) =>
      position <= latest <= |y.store.appended| && forall row :: !IsAtRisk(y, row)
    case Live(_, _, _, _, latest, _) => latest <= |y.store.appended| && forall row :: !HasMissed(y, row)
    case _ => false
  }

  lemma OnlyTheNextIsPassed(s: Store, scope: Scope, row: Row, position: nat, through: nat, x: Row)
    requires StoreInv(s) && IsNext(s, scope, row, position, through)
    requires x in s.appended && x.pinned && InRange(scope, x, position, row.sequence)
    ensures x == row
  {
    hide HasNewer, IsNumbered;
    SequencesAreUnique(s.appended, x, row);
  }

  lemma ReadingPutsNoneAtRisk(y: System, row: Row, z: System, x: Row)
    requires y.stage.CatchingUp? && StoreInv(y.store) && Enabled(y, CatchUpRow(row)) && z == Step(y, CatchUpRow(row))
    requires !IsAtRisk(y, x)
    ensures !IsAtRisk(z, x)
  {
    var s, g := y.store, y.stage;
    NextIsInRange(y, row);
    if x in s.appended && x.pinned && InRange(y.sub.scope, x, g.position, row.sequence) {
      OnlyTheNextIsPassed(s, y.sub.scope, row, g.position, g.latest, x);
    }
    hide StoreInv, IsNext, Step, Enabled;
    assert forall other <- g.caught :: other in g.caught + [row];
  }

  lemma ReadingLeavesNothingAtRisk(y: System, row: Row)
    requires Inv(y) && NothingAtRisk(y) && Enabled(y, CatchUpRow(row))
    ensures NothingAtRisk(Step(y, CatchUpRow(row)))
  {
    var z := Step(y, CatchUpRow(row));
    NextIsInRange(y, row);
    hide StoreInv, IsTimely, StageInv, IsBounded, IsNext, Step, IsAtRisk, Enabled;
    forall x ensures !IsAtRisk(z, x) {
      ReadingPutsNoneAtRisk(y, row, z, x);
    }
  }

  lemma NextIsInRange(y: System, row: Row)
    requires y.stage.CatchingUp? && Enabled(y, CatchUpRow(row))
    ensures row.sequence <= y.stage.latest
    ensures var g := y.stage;
      Step(y, CatchUpRow(row)) == y.(stage := CatchingUp(g.high, g.got, g.live, g.latest, row.sequence, g.caught + [row]))
  {
  }

  lemma FinishingMissesNothing(y: System)
    requires Inv(y) && NothingAtRisk(y) && Enabled(y, FinishCatchingUp)
    ensures NothingAtRisk(Step(y, FinishCatchingUp))
  {
    hide HasNewer, IsTimely, StageInv, IsBounded, Above, IsNumbered;
    forall x ensures !HasMissed(Step(y, FinishCatchingUp), x) {
      assert !IsAtRisk(y, x);
    }
  }

  lemma AppendsAbove(s: Store, stream: string, pinned: bool, through: nat)
    requires through <= |s.appended|
    ensures |Appended(s, stream, pinned).appended| > |s.appended|
    ensures forall x <- Appended(s, stream, pinned).appended | x.sequence <= through :: x in s.appended
  {
  }

  lemma AppendingLeavesNothingAtRisk(y: System, stream: string, pinned: bool)
    requires Inv(y) && NothingAtRisk(y)
    ensures NothingAtRisk(Step(y, Append(stream, pinned)))
  {
    var z := Step(y, Append(stream, pinned));
    hide Inv;
    AppendsAbove(y.store, stream, pinned, y.stage.latest);
    hide Appended;
    if y.stage.CatchingUp? {
      forall x ensures !IsAtRisk(z, x) {
        assert !IsAtRisk(y, x);
      }
    } else {
      forall x ensures !HasMissed(z, x) {
        assert !HasMissed(y, x);
      }
    }
  }

  lemma OtherStepsLeaveNothingAtRisk(y: System, e: Event)
    requires NothingAtRisk(y) && Enabled(y, e) && (e.Publish? || IsMaintenance(e))
    ensures NothingAtRisk(Step(y, e))
  {
    hide Heard;
    var z := Step(y, e);
    if y.stage.CatchingUp? {
      forall x ensures !IsAtRisk(z, x) {
        assert !IsAtRisk(y, x);
      }
    } else {
      forall x ensures !HasMissed(z, x) {
        assert !HasMissed(y, x);
      }
    }
  }

  lemma StepLeavesNothingAtRisk(y: System, e: Event)
    requires Inv(y) && NothingAtRisk(y) && Enabled(y, e)
    ensures NothingAtRisk(Step(y, e))
  {
    if e.Append? {
      AppendingLeavesNothingAtRisk(y, e.stream, e.pinned);
    } else if e.CatchUpRow? {
      ReadingLeavesNothingAtRisk(y, e.row);
    } else if e.FinishCatchingUp? {
      FinishingMissesNothing(y);
    } else {
      assert e.Publish? || IsMaintenance(e);
      hide Inv, NothingAtRisk;
      OtherStepsLeaveNothingAtRisk(y, e);
    }
  }

  lemma {:induction false} RunLeavesNothingAtRisk(y: System, es: seq<Event>)
    requires Inv(y) && NothingAtRisk(y) && Possible(y, es)
    ensures NothingAtRisk(Run(y, es))
    decreases |es|
  {
    hide Inv, Step, Enabled, NothingAtRisk;
    if |es| > 0 {
      assert Enabled(y, es[0]);
      StepKeepsInv(y, es[0]);
      StepLeavesNothingAtRisk(y, es[0]);
      RunLeavesNothingAtRisk(Step(y, es[0]), es[1..]);
    }
  }

  lemma {:induction false} Extend(y: System, es: seq<Event>, e: Event)
    requires Possible(y, es) && Enabled(Run(y, es), e)
    ensures Possible(y, es + [e]) && Run(y, es + [e]) == Step(Run(y, es), e)
    decreases |es|
  {
    if |es| == 0 {
      assert [e][1..] == [];
      assert es + [e] == [e];
    } else {
      Extend(Step(y, es[0]), es[1..], e);
      assert (es + [e])[1..] == es[1..] + [e];
    }
  }

  ghost predicate Reaches(y: System, es: seq<Event>, z: System) {
    Possible(y, es) && Run(y, es) == z
  }

  lemma Go(y: System, es: seq<Event>, z: System, e: Event) returns (longer: seq<Event>, next: System)
    requires Reaches(y, es, z) && Enabled(z, e)
    ensures Reaches(y, longer, next) && next == Step(z, e)
  {
    Extend(y, es, e);
    longer, next := es + [e], Step(z, e);
  }

  lemma ReachedIsRun(y: System, es: seq<Event>, z: System)
    requires Reaches(y, es, z)
    ensures Possible(y, es) && Run(y, es) == z
  {
  }

  lemma NextExists(s: Store, scope: Scope, after: nat, through: nat) returns (next: Row)
    requires !IsExhausted(s, scope, after, through)
    ensures IsNext(s, scope, next, after, through)
  {
    next :| next in s.rows && InRange(scope, next, after, through);
    while !IsNext(s, scope, next, after, through)
      invariant next in s.rows && InRange(scope, next, after, through)
      decreases next.sequence
    {
      var earlier :| earlier in s.rows && InRange(scope, earlier, after, through) && earlier.sequence < next.sequence;
      next := earlier;
    }
  }

  /** An event that has been passed over, or is no longer there, stays missed: the tail reads what is left and ends. */
  lemma {:induction false} GoesOnWithout(start: System, es: seq<Event>, y: System, row: Row) returns (longer: seq<Event>)
    requires Reaches(start, es, y) && y.stage.CatchingUp? && y.stage.position <= y.stage.latest
    requires row in y.store.appended && InRange(y.sub.scope, row, y.stage.high, y.stage.latest) && row !in y.stage.caught
    requires row.sequence <= y.stage.position || row !in y.store.rows
    ensures Possible(start, longer) && HasMissed(Run(start, longer), row)
    decreases y.stage.latest - y.stage.position
  {
    hide Reaches, Run, Possible, Above;
    var s, g := y.store, y.stage;
    if IsExhausted(s, y.sub.scope, g.position, g.latest) {
      var z;
      longer, z := Go(start, es, y, FinishCatchingUp);
      ReachedIsRun(start, longer, z);
    } else {
      var next := NextExists(s, y.sub.scope, g.position, g.latest);
      var more, z := Go(start, es, y, CatchUpRow(next));
      longer := GoesOnWithout(start, more, z, row);
    }
  }

  /** Nothing but the store has changed. */
  predicate StoreOnly(y: System, z: System) {
    z.sub == y.sub && z.stage == y.stage
  }

  /** A later event of the same stream leaves it no longer the newest. */
  lemma Outdate(start: System, es: seq<Event>, y: System, row: Row) returns (longer: seq<Event>, z: System)
    requires Reaches(start, es, y) && Inv(y) && row in y.store.rows
    ensures Reaches(start, longer, z) && Inv(z) && StoreOnly(y, z) && z.store.pass.None?
    ensures y.store.appended <= z.store.appended && row in z.store.rows && !IsNewest(z.store, row)
  {
    hide Reaches, Inv;
    longer, z := es, y;
    if z.store.pass.Some? {
      StepKeepsInv(z, EndPass(false));
      longer, z := Go(start, longer, z, EndPass(false));
    }
    StepKeepsInv(z, Append(row.stream, false));
    var newer := Row(|z.store.appended| + 1, row.stream, false);
    assert row.sequence < newer.sequence by {
      RowIsInLog(z, row);
    }
    longer, z := Go(start, longer, z, Append(row.stream, false));
    assert newer in z.store.rows;
  }

  lemma RowIsInLog(y: System, row: Row)
    requires Inv(y) && row in y.store.rows
    ensures row in y.store.appended && row.sequence <= |y.store.appended|
  {
    hide HasNewer, StageInv, IsTimely, IsBounded;
  }

  /** A pass a day later finds any mark due. */
  lemma StartLater(start: System, es: seq<Event>, y: System) returns (longer: seq<Event>, z: System)
    requires Reaches(start, es, y) && IsBounded(y.store) && y.store.pass.None?
    ensures Reaches(start, longer, z) && StoreOnly(y, z)
    ensures z.store == y.store.(clock := y.store.clock + RETAINED_EVENT_HISTORY,
                                pass := Some(Bounded(Mark(|y.store.appended|, y.store.clock + RETAINED_EVENT_HISTORY))))
    ensures y.store.mark.Some? ==> MarkIsDue(z.store, z.store.clock)
  {
    hide Reaches;
    longer, z := Go(start, es, y, Tick(RETAINED_EVENT_HISTORY));
    longer, z := Go(start, longer, z, StartPass);
    longer, z := Go(start, longer, z, MeasureLog);
  }

  /** Two passes, each a day after what came before, prune through the whole log. */
  lemma PruneEverything(start: System, es: seq<Event>, y: System) returns (longer: seq<Event>, z: System)
    requires Reaches(start, es, y) && IsBounded(y.store) && y.store.pass.None?
    ensures Reaches(start, longer, z) && StoreOnly(y, z)
    ensures z.store.appended == y.store.appended && z.store.rows == y.store.rows && z.store.prunedThrough >= |y.store.appended|
    ensures z.store.pass.Some? && z.store.pass.value.Pruning?
  {
    hide Reaches;
    var n := |y.store.appended|;
    longer, z := StartLater(start, es, y);
    longer, z := Go(start, longer, z, BeginPass(0));
    longer, z := Go(start, longer, z, EndPass(true));
    assert z.store.mark == Some(Mark(n, z.store.clock));
    longer, z := StartLater(start, longer, z);
    longer, z := Go(start, longer, z, BeginPass(n));
  }

  lemma PruneAway(start: System, es: seq<Event>, y: System, row: Row) returns (longer: seq<Event>, z: System)
    requires Reaches(start, es, y) && Inv(y) && row in y.store.rows && !row.pinned
    ensures Reaches(start, longer, z) && StoreOnly(y, z) && y.store.appended <= z.store.appended && row !in z.store.rows
  {
    longer, z := Outdate(start, es, y, row);
    RowIsInLog(z, row);
    hide Reaches, StoreInv, StageInv, IsTimely;
    longer, z := PruneEverything(start, longer, z);
    longer, z := Go(start, longer, z, DeleteRow(row));
  }

  lemma AtRiskCanBeMissed(y: System, row: Row)
    requires Inv(y) && y.stage.CatchingUp? && IsAtRisk(y, row)
    ensures CanMiss(y)
  {
    assert Reaches(y, [], y);
    assert y.stage.position <= y.stage.latest;
    hide Reaches, Inv;
    var es, z := [], y;
    if row.sequence > y.stage.position && row in y.store.rows {
      es, z := PruneAway(y, es, y, row);
    }
    es := GoesOnWithout(y, es, z, row);
    assert Possible(y, es) && HasMissed(Run(y, es), row);
  }

  /** The tail's own catch-up is not checked against pruning. Time being unbounded, from any reachable state of it an event
      can still be lost exactly if one has been passed over already or one that pruning deletes still waits to be read. */
  lemma CatchUpCanMissExactlyWhatIsAtRisk(scope: Scope, cursor: nat, es: seq<Event>)
    requires Possible(Initial(scope, cursor), es) && Run(Initial(scope, cursor), es).stage.CatchingUp?
    ensures var y := Run(Initial(scope, cursor), es); CanMiss(y) <==> exists row :: IsAtRisk(y, row)
  {
    RunKeepsInv(Initial(scope, cursor), es);
    var y := Run(Initial(scope, cursor), es);
    assert y.stage.latest <= |y.store.appended| && y.stage.position <= y.stage.latest;
    hide Initial, Inv, Run, Possible, IsAtRisk, HasMissed;
    if row :| IsAtRisk(y, row) {
      AtRiskCanBeMissed(y, row);
    } else {
      forall more, row | Possible(y, more) ensures !HasMissed(Run(y, more), row) {
        RunLeavesNothingAtRisk(y, more);
      }
    }
  }

  // ---- Why the second check and the time limit are needed

  const First := Row(1, "t", false)
  const Second := Row(2, "t", false)
  const Start := Initial(Thread("t"), 0)

  /** A log with two events of one thread, a mark at its head that has come due, and a subscription from the start. */
  lemma TwoOldEvents() returns (es: seq<Event>)
    ensures Reaches(Start, es,
      System(Store([First, Second], {First, Second}, {}, 0, Some(Mark(2, 0)), None, RETAINED_EVENT_HISTORY),
             Subscription(Thread("t"), 0, RETAINED_EVENT_HISTORY, 2), Measured(2)))
  {
    var z := Start;
    es := [];
    assert Reaches(Start, es, z);
    hide Reaches, Wanted;
    es, z := Go(Start, es, z, Append("t", false));
    es, z := Go(Start, es, z, Append("t", false));
    assert z.store.appended == [First, Second] && z.store.rows == {First, Second};
    es, z := Go(Start, es, z, StartPass);
    es, z := Go(Start, es, z, MeasureLog);
    es, z := Go(Start, es, z, BeginPass(0));
    es, z := Go(Start, es, z, EndPass(true));
    es, z := Go(Start, es, z, Tick(RETAINED_EVENT_HISTORY));
    assert Second in z.store.rows;
    es, z := Go(Start, es, z, ReadHighWater(2));
  }

  lemma BothAreWanted()
    ensures Wanted([First, Second], Thread("t"), 0, 2) != [Second]
  {
    WantedIsInRange([First, Second], Thread("t"), 0, 2);
    assert First in [First, Second] && First !in [Second];
  }

  /** The first check passes, then a pass publishes its boundary and deletes the first event. */
  lemma FirstPruned() returns (es: seq<Event>, y: System)
    ensures Reaches(Start, es, y) && y.store.appended == [First, Second] && y.store.rows == {Second}
    ensures y.store.prunedThrough == 2 && y.sub.scope == Thread("t") && y.sub.cursor == 0 && y.stage == Reading(2, 0, [])
  {
    es := TwoOldEvents();
    y := System(Store([First, Second], {First, Second}, {}, 0, Some(Mark(2, 0)), None, RETAINED_EVENT_HISTORY),
                Subscription(Thread("t"), 0, RETAINED_EVENT_HISTORY, 2), Measured(2));
    hide Reaches, Wanted;
    es, y := Go(Start, es, y, Check);
    es, y := Go(Start, es, y, StartPass);
    es, y := Go(Start, es, y, MeasureLog);
    es, y := Go(Start, es, y, BeginPass(2));
    assert Second in y.store.rows;
    es, y := Go(Start, es, y, DeleteRow(First));
    assert y.store.rows == {Second};
  }

  /** Pruning between the first check and the read can lose an event; only the second check turns it into a snapshot. */
  lemma PruningDuringTheReadIsCaught() returns (es: seq<Event>, y: System)
    ensures Reaches(Start, es, y) && y.stage.HasRead?
    ensures y.stage.got != Wanted(y.store.appended, Thread("t"), 0, y.stage.high)
    ensures Enabled(y, Recheck) && Step(y, Recheck).stage == Snapshot
  {
    es, y := FirstPruned();
    hide Reaches, Wanted;
    es, y := Go(Start, es, y, ReadRow(Second));
    es, y := Go(Start, es, y, FinishReading);
    BothAreWanted();
  }

  lemma EmptyReplay() returns (es: seq<Event>)
    ensures Reaches(Start, es, System(Start.store, Subscription(Thread("t"), 0, 0, 0), Replay(0, [])))
  {
    var z := Start;
    es := [];
    assert Reaches(Start, es, z);
    hide Reaches, Wanted;
    es, z := Go(Start, es, z, ReadHighWater(0));
    es, z := Go(Start, es, z, Check);
    es, z := Go(Start, es, z, FinishReading);
    es, z := Go(Start, es, z, Recheck);
  }

  /** An empty log is replayed at once; a day later two events have come and the first pass has left its mark. */
  lemma TailOpensLate() returns (es: seq<Event>)
    ensures Reaches(Start, es,
      System(Store([First, Second], {First, Second}, {}, 0, Some(Mark(2, 0)), None, RETAINED_EVENT_HISTORY),
             Subscription(Thread("t"), 0, 0, 0), Replay(0, [])))
  {
    es := EmptyReplay();
    var z := System(Start.store, Subscription(Thread("t"), 0, 0, 0), Replay(0, []));
    hide Reaches, Wanted;
    es, z := Go(Start, es, z, Append("t", false));
    es, z := Go(Start, es, z, Append("t", false));
    assert z.store.appended == [First, Second] && z.store.rows == {First, Second};
    es, z := Go(Start, es, z, StartPass);
    es, z := Go(Start, es, z, MeasureLog);
    es, z := Go(Start, es, z, BeginPass(0));
    es, z := Go(Start, es, z, EndPass(true));
    es, z := Go(Start, es, z, Tick(RETAINED_EVENT_HISTORY));
  }

  /** Before the tail is opened, a pass publishes its boundary and deletes the first event. */
  lemma PrunedBeforeTheTail() returns (es: seq<Event>, y: System)
    ensures Reaches(Start, es, y) && y.store.appended == [First, Second] && y.store.rows == {Second}
    ensures y.store.prunedThrough == 2 && y.store.published == {} && y.store.clock == RETAINED_EVENT_HISTORY
    ensures y.sub == Subscription(Thread("t"), 0, 0, 0) && y.stage == Replay(0, [])
  {
    es := TailOpensLate();
    y := System(Store([First, Second], {First, Second}, {}, 0, Some(Mark(2, 0)), None, RETAINED_EVENT_HISTORY),
                Subscription(Thread("t"), 0, 0, 0), Replay(0, []));
    hide Reaches, Wanted;
    es, y := Go(Start, es, y, StartPass);
    es, y := Go(Start, es, y, MeasureLog);
    es, y := Go(Start, es, y, BeginPass(2));
    assert Second in y.store.rows;
    es, y := Go(Start, es, y, DeleteRow(First));
    assert y.store.rows == {Second};
  }

  /** A run from the start in which the catch-up comes too late and loses an event. */
  lemma LateTailCanMissEvents() returns (es: seq<Event>, y: System)
    ensures Reaches(Start, es, y) && HasMissed(y, First) && First !in y.stage.got && First !in y.stage.live
    ensures !CaughtUpSafely(y.sub, y.stage)
  {
    es, y := PrunedBeforeTheTail();
    hide Reaches, Wanted, IsPrunable;
    es, y := Go(Start, es, y, Listen);
    es, y := Go(Start, es, y, ReadLatest(2));
    es, y := Go(Start, es, y, CatchUpRow(Second));
    es, y := Go(Start, es, y, FinishCatchingUp);
    assert First in y.store.appended;
  }
}
