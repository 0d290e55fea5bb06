/** Saving settings: their secrets move to the secret store, a failed save rolls the store back,
    and a later read puts the secrets back into their slots
    (apps/server/src/serverSettings.ts, apps/server/src/settingsSecrets.ts). */
module SettingsSecrets {
  import opened Options

  type Store = map<string, string>

  function Entry(store: Store, name: string): Option<string> {
    if name in store then Some(store[name]) else None
  }

  function Put(store: Store, name: string, entry: Option<string>): Store {
    if entry.Some? then store[name := entry.value] else store - {name}
  }

  // ---- Slots: the places of a settings value that hold a secret, in the order they are visited

  const REDACTED: string := "\U{2022}\U{2022}\U{2022}\U{2022}\U{2022}\U{2022}"

  /** A field is always sensitive and marks redaction by its text; an environment variable may be
      public and marks redaction beside its value. */
  datatype Slot =
    | Field(name: string, value: string)
    | Environment(name: string, value: string, valueRedacted: bool, isSensitive: bool)

  type Settings = seq<Slot>

  predicate Sensitive(s: Slot) {
    s.Field? || s.isSensitive
  }

  predicate Redacted(s: Slot) {
    if s.Field? then s.value == REDACTED else s.valueRedacted
  }

  /** The slot with what a mapping over the secrets returned for it. */
  function WithSecret(s: Slot, value: string, redacted: bool): Slot {
    match s
    case Field(name, _) => Field(name, if redacted then REDACTED else value)
    case Environment(name, _, _, sensitive) => Environment(name, value, redacted, sensitive)
  }

  // ---- Materializing

  function Materialized(store: Store, s: Slot): Slot {
    if Sensitive(s) && Redacted(s) then
      WithSecret(s, if s.name in store then store[s.name] else "", s.Environment?)
    else
      WithSecret(s, s.value, false)
  }

  function MaterializedAll(store: Store, settings: Settings): Settings {
    seq(|settings|, i requires 0 <= i < |settings| => Materialized(store, settings[i]))
  }

  // ---- Persisting

  datatype Change = Write(name: string, secret: string) | Remove(name: string)

  function Effect(change: Change): Option<string> {
    if change.Write? then Some(change.secret) else None
  }

  function ApplyAll(store: Store, changes: seq<Change>): Store {
    if changes == [] then store
    else
      var last := changes[|changes| - 1];
      Put(ApplyAll(store, changes[..|changes| - 1]), last.name, Effect(last))
  }

  /** The last slot of each name. */
  function ByName(settings: Settings): map<string, Slot> {
    if settings == [] then map[]
    else ByName(settings[..|settings| - 1])[settings[|settings| - 1].name := settings[|settings| - 1]]
  }

  /** A secret that the settings still carry in the open; it must move to the store. */
  function Inline(previous: map<string, Slot>, name: string): Option<string> {
    if name in previous && Sensitive(previous[name]) && !Redacted(previous[name]) && previous[name].value != ""
    then Some(previous[name].value) else None
  }

  /** What the slot's secret should become; None keeps what the store holds. */
  function NewSecret(previous: map<string, Slot>, s: Slot): Option<string> {
    if Redacted(s) then Inline(previous, s.name) else Some(s.value)
  }

  function PersistedSlot(previous: map<string, Slot>, s: Slot): Slot {
    if !Sensitive(s) then WithSecret(s, s.value, false)
    else WithSecret(s, "", NewSecret(previous, s) != Some(""))
  }

  function SlotChange(previous: map<string, Slot>, s: Slot): Option<Change> {
    if !Sensitive(s) then Some(Remove(s.name))
    else
      match NewSecret(previous, s)
      case None => None
      case Some(value) => Some(if value == "" then Remove(s.name) else Write(s.name, value))
  }

  /** The slots written to the settings file, the store changes, and the names that keep a secret. */
  datatype Plan = Plan(settings: Settings, changes: seq<Change>, kept: set<string>)

  function Persisted(previous: map<string, Slot>, next: Settings): Plan {
    if next == [] then Plan([], [], {})
    else
      var s := next[|next| - 1];
      var before := Persisted(previous, next[..|next| - 1]);
      var change := SlotChange(previous, s);
      Plan(before.settings + [PersistedSlot(previous, s)],
           before.changes + (if change.Some? then [change.value] else []),
           before.kept + (if change.None? || change.value.Write? then {s.name} else {}))
  }

  /** The effect of the last change of this name, if any change has it. */
  function LastEffect(changes: seq<Change>, name: string): Option<Option<string>> {
    if changes == [] then None
    else
      var last := changes[|changes| - 1];
      if last.name == name then Some(Effect(last)) else LastEffect(changes[..|changes| - 1], name)
  }

  predicate Mentions(changes: seq<Change>, name: string) {
    LastEffect(changes, name).Some?
  }

  /** The store changes followed by the removal of every sensitive secret that is gone. */
  function WithStale(previous: map<string, Slot>, plan: Plan, current: Settings): seq<Change> {
    if current == [] then plan.changes
    else
      var name := current[|current| - 1].name;
      var before := WithStale(previous, plan, current[..|current| - 1]);
      if name in previous && Sensitive(previous[name]) && name !in plan.kept && !Mentions(before, name)
      then before + [Remove(name)] else before
  }

  method CollectByName(settings: Settings) returns (previous: map<string, Slot>)
    ensures previous == ByName(settings)
  {
    previous := map[];
    for i := 0 to |settings|
      invariant previous == ByName(settings[..i])
    {
      assert settings[..i + 1][..i] == settings[..i];
      previous := previous[settings[i].name := settings[i]];
    }
    assert settings[..|settings|] == settings;
  }

  lemma OneMoreSlot(previous: map<string, Slot>, next: Settings, i: nat)
    requires i < |next|
    ensures var before, change := Persisted(previous, next[..i]), SlotChange(previous, next[i]);
      Persisted(previous, next[..i + 1])
      == Plan(before.settings + [PersistedSlot(previous, next[i])],
              before.changes + (if change.Some? then [change.value] else []),
              before.kept + (if change.None? || change.value.Write? then {next[i].name} else {}))
  {
    assert next[..i + 1][..i] == next[..i];
  }

  method PlanSlots(previous: map<string, Slot>, next: Settings)
    returns (settings: Settings, changes: seq<Change>, kept: set<string>)
    ensures Plan(settings, changes, kept) == Persisted(previous, next)
  {
    settings, changes, kept := [], [], {};
    assert Persisted(previous, []) == Plan([], [], {});
    hide Persisted;
    for i := 0 to |next|
      invariant Plan(settings, changes, kept) == Persisted(previous, next[..i])
    {
      var s := next[i];
      OneMoreSlot(previous, next, i);
      if !Sensitive(s) {
        changes := changes + [Remove(s.name)];
        settings := settings + [WithSecret(s, s.value, false)];
        continue;
      }
      var value := if Redacted(s) then Inline(previous, s.name) else Some(s.value);
      if value.None? {
        kept := kept + {s.name};
        settings := settings + [WithSecret(s, "", true)];
      } else if value.value == "" {
        changes := changes + [Remove(s.name)];
        settings := settings + [WithSecret(s, "", false)];
      } else {
        kept := kept + {s.name};
        changes := changes + [Write(s.name, value.value)];
        settings := settings + [WithSecret(s, "", true)];
      }
    }
    assert next[..|next|] == next;
  }

  method PersistSettingsSecrets(current: Settings, next: Settings) returns (settings: Settings, changes: seq<Change>)
    ensures settings == Persisted(ByName(current), next).settings
    ensures changes == WithStale(ByName(current), Persisted(ByName(current), next), current)
  {
    var previous := CollectByName(current);
    var kept;
    settings, changes, kept := PlanSlots(previous, next);
    ghost var plan := Persisted(previous, next);
    for i := 0 to |current|
      invariant changes == WithStale(previous, plan, current[..i])
    {
      var name := current[i].name;
      assert current[..i + 1][..i] == current[..i];
      if name in previous && Sensitive(previous[name]) && name !in kept && !Mentions(changes, name) {
        changes := changes + [Remove(name)];
      }
    }
    assert current[..|current|] == current;
  }

  // ---- The store, its faults, and the undo log

  /** A failing operation may have left anything at its own name. */
  datatype Fault = Works | Leaves(entry: Option<string>)

  datatype Undo = Undo(name: string, previous: Option<string>)

  function AfterOperation(store: Store, name: string, entry: Option<string>, fault: Fault): Store {
    Put(store, name, if fault.Works? then entry else fault.entry)
  }

  /** Undoing the log from its end; the operation for entry `i` meets the fault `faults[i]`. */
  function RolledBack(store: Store, applied: seq<Undo>, faults: seq<Fault>): Store
    requires |applied| <= |faults|
    decreases |applied|
  {
    if applied == [] then store
    else
      var n := |applied| - 1;
      RolledBack(AfterOperation(store, applied[n].name, applied[n].previous, faults[n]), applied[..n], faults)
  }

  predicate NoFaults(faults: seq<Fault>) {
    forall f <- faults :: f.Works?
  }

  /** The first time the log touches this name; it is the last of its entries to be undone. */
  predicate FirstTouch(applied: seq<Undo>, i: nat) {
    i < |applied| && forall j | 0 <= j < i :: applied[j].name != applied[i].name
  }

  lemma PutBack(store: Store, name: string, entry: Option<string>)
    ensures Put(Put(store, name, entry), name, Entry(store, name)) == store
  {
  }

  /** Logging the present entry before an operation undoes whatever the operation leaves. */
  lemma LoggingUndoes(store: Store, applied: seq<Undo>, faults: seq<Fault>, name: string, entry: Option<string>)
    requires |applied| < |faults| && NoFaults(faults)
    ensures RolledBack(Put(store, name, entry), applied + [Undo(name, Entry(store, name))], faults)
         == RolledBack(store, applied, faults)
  {
    PutBack(store, name, entry);
    var log := applied + [Undo(name, Entry(store, name))];
    assert log[..|applied|] == applied;
  }

  /** Each name goes back to its first logged value if that one undo works, whatever the others do. */
  lemma {:induction false} FirstTouchDecides(store: Store, applied: seq<Undo>, faults: seq<Fault>, i: nat)
    requires |applied| <= |faults| && FirstTouch(applied, i) && faults[i].Works?
    ensures Entry(RolledBack(store, applied, faults), applied[i].name) == applied[i].previous
    decreases |applied|
  {
    var n := |applied| - 1;
    var undone := AfterOperation(store, applied[n].name, applied[n].previous, faults[n]);
    if i < n {
      FirstTouchDecides(undone, applied[..n], faults, i);
    } else {
      UntouchedNamesStay(undone, applied[..n], faults, applied[i].name);
    }
  }

  lemma {:induction false} UntouchedNamesStay(store: Store, applied: seq<Undo>, faults: seq<Fault>, name: string)
    requires |applied| <= |faults| && !Logged(applied, name)
    ensures Entry(RolledBack(store, applied, faults), name) == Entry(store, name)
    decreases |applied|
  {
    if |applied| > 0 {
      var n := |applied| - 1;
      assert applied[n].name != name;
      assert !Logged(applied[..n], name) by { assert forall i | 0 <= i < n :: applied[..n][i] == applied[i]; }
      UntouchedNamesStay(AfterOperation(store, applied[n].name, applied[n].previous, faults[n]), applied[..n], faults, name);
    }
  }

  /** Every log entry that first touches a name holds what the store held before the log began. */
  predicate LogsBefore(before: Store, applied: seq<Undo>) {
    forall i | 0 <= i < |applied| && FirstTouch(applied, i) :: applied[i].previous == Entry(before, applied[i].name)
  }

  lemma EmptyLog(store: Store, faults: seq<Fault>)
    ensures RolledBack(store, [], faults) == store && LogsBefore(store, []) && OnlyLoggedChanged(store, store, [])
  {
  }

  /** The log follows the changes, up to the one that failed. */
  predicate LogOf(changes: seq<Change>, applied: seq<Undo>) {
    |applied| <= |changes| && forall i | 0 <= i < |applied| :: applied[i].name == changes[i].name
  }

  /** What a rollback restores even when some of its own operations fail. */
  ghost predicate RestoredUnlessFaulty(before: Store, after: Store, applied: seq<Undo>, faults: seq<Fault>)
    requires |applied| <= |faults|
  {
    && (forall i | 0 <= i < |applied| && FirstTouch(applied, i) && faults[i].Works? ::
          Entry(after, applied[i].name) == Entry(before, applied[i].name))
    && OnlyLoggedChanged(before, after, applied)
  }

  predicate Logged(applied: seq<Undo>, name: string) {
    exists i | 0 <= i < |applied| :: applied[i].name == name
  }

  ghost predicate OnlyLoggedChanged(before: Store, after: Store, applied: seq<Undo>) {
    forall name :: !Logged(applied, name) ==> Entry(after, name) == Entry(before, name)
  }

  lemma RollbackRestores(before: Store, store: Store, applied: seq<Undo>, faults: seq<Fault>)
    requires |applied| <= |faults| && LogsBefore(before, applied) && OnlyLoggedChanged(before, store, applied)
    ensures RestoredUnlessFaulty(before, RolledBack(store, applied, faults), applied, faults)
  {
    forall i | 0 <= i < |applied| && FirstTouch(applied, i) && faults[i].Works?
      ensures Entry(RolledBack(store, applied, faults), applied[i].name) == Entry(before, applied[i].name)
    {
      FirstTouchDecides(store, applied, faults, i);
    }
    var after := RolledBack(store, applied, faults);
    forall name | !Logged(applied, name) ensures Entry(after, name) == Entry(before, name) {
      UntouchedNamesStay(store, applied, faults, name);
    }
  }

  /** The operations' faults in one save: the reads that fail, the writes' and the undos' faults. */
  datatype Faults = Faults(failedReads: seq<bool>, operations: seq<Fault>, undos: seq<Fault>)

  predicate Covers(faults: Faults, n: nat) {
    n <= |faults.failedReads| && n <= |faults.operations| && n < |faults.undos|
  }

  class SettingsStore {
    var secrets: Store
    var file: Settings

    constructor (settings: Settings)
      ensures secrets == map[] && file == settings
    {
      secrets, file := map[], settings;
    }

    method Operate(name: string, entry: Option<string>, fault: Fault) returns (ok: bool)
      modifies this`secrets
      ensures ok == fault.Works? && secrets == AfterOperation(old(secrets), name, entry, fault)
    {
      ok := fault.Works?;
      var left := if ok then entry else fault.entry;
      if left.Some? {
        secrets := secrets[name := left.value];
      } else {
        secrets := secrets - {name};
      }
    }

    /** Undoes the log in reverse order; a failing undo is only logged. */
    method Rollback(applied: seq<Undo>, faults: seq<Fault>)
      requires |applied| <= |faults|
      modifies this`secrets
      ensures secrets == RolledBack(old(secrets), applied, faults)
    {
      var n := |applied|;
      assert applied[..n] == applied;
      while n > 0
        invariant 0 <= n <= |applied|
        invariant RolledBack(secrets, applied[..n], faults) == RolledBack(old(secrets), applied, faults)
      {
        assert applied[..n][..n - 1] == applied[..n - 1];
        n := n - 1;
        var ok := Operate(applied[n].name, applied[n].previous, faults[n]);
      }
    }

    /** Applies the changes in order; the first failure undoes them all. */
    method ApplyChanges(changes: seq<Change>, faults: Faults) returns (ok: bool, applied: seq<Undo>)
      requires Covers(faults, |changes|)
      modifies this`secrets
      ensures LogOf(changes, applied) && LogsBefore(old(secrets), applied)
      ensures ok ==> secrets == ApplyAll(old(secrets), changes) && OnlyLoggedChanged(old(secrets), secrets, applied)
      ensures ok ==> NoFaults(faults.undos) ==> RolledBack(secrets, applied, faults.undos) == old(secrets)
      ensures !ok ==> RestoredUnlessFaulty(old(secrets), secrets, applied, faults.undos)
      ensures !ok ==> NoFaults(faults.undos) ==> secrets == old(secrets)
    {
      hide RolledBack, LogsBefore, OnlyLoggedChanged, RestoredUnlessFaulty;
      ok, applied := true, [];
      EmptyLog(secrets, faults.undos);
      for i := 0 to |changes|
        invariant ok && |applied| == i && LogOf(changes, applied) && LogsBefore(old(secrets), applied)
        invariant secrets == ApplyAll(old(secrets), changes[..i])
        invariant NoFaults(faults.undos) ==> RolledBack(secrets, applied, faults.undos) == old(secrets)
        invariant OnlyLoggedChanged(old(secrets), secrets, applied)
      {
        var change := changes[i];
        assert changes[..i + 1][..i] == changes[..i];
        ok := !faults.failedReads[i];
        if ok {
          var previous := Entry(secrets, change.name);
          ghost var entry := if faults.operations[i].Works? then Effect(change) else faults.operations[i].entry;
          if NoFaults(faults.undos) { LoggingUndoes(secrets, applied, faults.undos, change.name, entry); }
          LoggingKeepsBefore(old(secrets), secrets, applied, Undo(change.name, previous));
          LoggingCoversChange(old(secrets), secrets, applied, change.name, previous, entry);
          applied := applied + [Undo(change.name, previous)];
          ok := Operate(change.name, Effect(change), faults.operations[i]);
        }
        if !ok {
          RollbackRestores(old(secrets), secrets, applied, faults.undos);
          Rollback(applied, faults.undos);
          return;
        }
      }
      assert changes[..|changes|] == changes;
    }

    /** Reads every redacted secret and puts it into its slot. */
    method Materialize(settings: Settings) returns (materialized: Settings)
      ensures materialized == MaterializedAll(secrets, settings)
    {
      var stored: map<string, string> := map[];
      for i := 0 to |settings|
        invariant forall k | 0 <= k < i && Sensitive(settings[k]) && Redacted(settings[k]) ::
          settings[k].name in stored
        invariant forall name <- stored :: stored[name] == if name in secrets then secrets[name] else ""
      {
        if Sensitive(settings[i]) && Redacted(settings[i]) {
          var value := Entry(secrets, settings[i].name);
          stored := stored[settings[i].name := if value.Some? then value.value else ""];
        }
      }
      materialized := [];
      for i := 0 to |settings|
        invariant |materialized| == i
        invariant forall k | 0 <= k < i :: materialized[k] == Materialized(secrets, settings[k])
      {
        var s := settings[i];
        var hidden := Sensitive(s) && Redacted(s);
        materialized := materialized + [
          WithSecret(s, if hidden then stored[s.name] else s.value, hidden && s.Environment?)];
      }
    }

    /** One save: apply the store changes, materialize, write the file; any failure undoes it. */
    method Save(next: Settings, faults: Faults, materializeFails: bool, writeFails: bool)
      returns (saved: Option<Settings>, ghost applied: seq<Undo>)
      requires Covers(faults, |file| + |next|)
      modifies this
      ensures saved.Some? ==>
        && file == Persisted(ByName(old(file)), next).settings
        && secrets == SavedStore(old(file), old(secrets), next)
        && saved.value == MaterializedAll(secrets, file)
      ensures saved.None? ==> file == old(file)
      ensures saved.None? ==> NoFaults(faults.undos) ==> secrets == old(secrets)
      ensures saved.None? ==>
        && LogOf(WithStale(ByName(old(file)), Persisted(ByName(old(file)), next), old(file)), applied)
        && |applied| <= |faults.undos|
        && RestoredUnlessFaulty(old(secrets), secrets, applied, faults.undos)
    {
      var settings, changes := PersistSettingsSecrets(file, next);
      PlanIsShort(ByName(file), next, file);
      var ok, undos := ApplyChanges(changes, faults);
      applied := undos;
      saved := None;
      if !ok {
        return;
      }
      if materializeFails {
        RollbackRestores(old(secrets), secrets, undos, faults.undos);
        Rollback(undos, faults.undos);
        return;
      }
      var materialized := Materialize(settings);
      if writeFails {
        RollbackRestores(old(secrets), secrets, undos, faults.undos);
        Rollback(undos, faults.undos);
        return;
      }
      file := settings;
      saved := Some(materialized);
    }
  }

  lemma LoggingKeepsBefore(before: Store, store: Store, applied: seq<Undo>, undo: Undo)
    requires LogsBefore(before, applied) && OnlyLoggedChanged(before, store, applied)
    requires undo.previous == Entry(store, undo.name)
    ensures LogsBefore(before, applied + [undo])
  {
    var log := applied + [undo];
    forall i | 0 <= i < |log| && FirstTouch(log, i) ensures log[i].previous == Entry(before, log[i].name) {
      if i < |applied| {
        assert FirstTouch(applied, i) by { assert forall j | 0 <= j < i :: log[j] == applied[j]; }
      } else {
        assert forall j | 0 <= j < i :: log[j] == applied[j];
        assert !Logged(applied, undo.name);
      }
    }
  }

  lemma LoggingCoversChange(before: Store, store: Store, applied: seq<Undo>, name: string,
                            previous: Option<string>, entry: Option<string>)
    requires OnlyLoggedChanged(before, store, applied)
    ensures OnlyLoggedChanged(before, Put(store, name, entry), applied + [Undo(name, previous)])
  {
    var log := applied + [Undo(name, previous)];
    forall other | !Logged(log, other) ensures Entry(Put(store, name, entry), other) == Entry(before, other) {
      assert log[|applied|].name != other;
      assert !Logged(applied, other) by { assert forall i | 0 <= i < |applied| :: applied[i] == log[i]; }
    }
  }

  lemma {:induction false} PlanIsShort(previous: map<string, Slot>, next: Settings, current: Settings)
    ensures |Persisted(previous, next).changes| <= |next|
    ensures |WithStale(previous, Persisted(previous, next), current)| <= |next| + |current|
    decreases |next| + |current|
  {
    if |current| > 0 {
      PlanIsShort(previous, next, current[..|current| - 1]);
    } else if |next| > 0 {
      PlanIsShort(previous, next[..|next| - 1], []);
    }
  }

  // ---- Read after write

  predicate Names(settings: Settings, name: string) {
    settings != [] && (settings[|settings| - 1].name == name || Names(settings[..|settings| - 1], name))
  }

  predicate DistinctNames(settings: Settings) {
    settings == [] || (!Names(settings[..|settings| - 1], settings[|settings| - 1].name)
                       && DistinctNames(settings[..|settings| - 1]))
  }

  lemma {:induction false} NamesEachSlot(settings: Settings, i: nat)
    requires i < |settings|
    ensures Names(settings, settings[i].name)
  {
    if i < |settings| - 1 { NamesEachSlot(settings[..|settings| - 1], i); }
  }

  lemma {:induction false} ByNameHoldsNames(settings: Settings, name: string)
    ensures name in ByName(settings) <==> Names(settings, name)
  {
    if |settings| > 0 { ByNameHoldsNames(settings[..|settings| - 1], name); }
  }

  /** The secret under a name that the settings carry in the open: the last slot of that name decides. */
  function InTheOpen(settings: Settings, name: string): Option<string> {
    if settings == [] then None
    else
      var last := settings[|settings| - 1];
      if last.name != name then InTheOpen(settings[..|settings| - 1], name)
      else if Sensitive(last) && !Redacted(last) && last.value != "" then Some(last.value) else None
  }

  lemma {:induction false} InlineIsInTheOpen(settings: Settings, name: string)
    ensures Inline(ByName(settings), name) == InTheOpen(settings, name)
  {
    if |settings| > 0 { InlineIsInTheOpen(settings[..|settings| - 1], name); }
  }

  /** What a reader should see in a slot after a save: a public value and a newly given secret as
      they are, and for the redaction marker the secret that the settings or the store held. */
  function Intended(current: Settings, store: Store, s: Slot): string {
    if !Sensitive(s) || !Redacted(s) then s.value
    else
      match InTheOpen(current, s.name)
      case Some(value) => value
      case None => if s.name in store then store[s.name] else ""
  }

  lemma {:induction false} LastEffectDecides(store: Store, changes: seq<Change>, name: string)
    ensures Entry(ApplyAll(store, changes), name)
         == match LastEffect(changes, name) case None => Entry(store, name) case Some(entry) => entry
  {
    if |changes| > 0 { LastEffectDecides(store, changes[..|changes| - 1], name); }
  }

  lemma LastEffectOfAppended(changes: seq<Change>, change: Change, name: string)
    ensures LastEffect(changes + [change], name)
         == if change.name == name then Some(Effect(change)) else LastEffect(changes, name)
  {
    assert (changes + [change])[..|changes|] == changes;
  }

  /** How one more slot changes the plan for a name. */
  lemma PlanStep(previous: map<string, Slot>, next: Settings, name: string)
    requires |next| > 0
    ensures
      var before, plan := Persisted(previous, next[..|next| - 1]), Persisted(previous, next);
      var s := next[|next| - 1];
      && LastEffect(plan.changes, name)
         == (match SlotChange(previous, s)
             case Some(change) => if s.name == name then Some(Effect(change)) else LastEffect(before.changes, name)
             case None => LastEffect(before.changes, name))
      && (name in plan.kept
          <==> (name in before.kept
                || (s.name == name && (SlotChange(previous, s).None? || SlotChange(previous, s).value.Write?))))
  {
    var before := Persisted(previous, next[..|next| - 1]);
    match SlotChange(previous, next[|next| - 1])
    case None => assert before.changes + [] == before.changes;
    case Some(change) => LastEffectOfAppended(before.changes, change, name);
  }

  lemma {:induction false} PlanSparesOthers(previous: map<string, Slot>, next: Settings, name: string)
    requires !Names(next, name)
    ensures !Mentions(Persisted(previous, next).changes, name) && name !in Persisted(previous, next).kept
  {
    if |next| > 0 {
      PlanStep(previous, next, name);
      PlanSparesOthers(previous, next[..|next| - 1], name);
    }
  }

  /** The last change that a slot of this name makes. */
  function LastChange(previous: map<string, Slot>, next: Settings, name: string): Option<Change> {
    if next == [] then None
    else
      var s := next[|next| - 1];
      if s.name == name && SlotChange(previous, s).Some? then SlotChange(previous, s)
      else LastChange(previous, next[..|next| - 1], name)
  }

  /** Of the slots that share a name, the last one that changes its secret decides the fate of the name. */
  lemma {:induction false} LastChangeDecides(previous: map<string, Slot>, next: Settings, name: string)
    ensures
      var plan, change := Persisted(previous, next), LastChange(previous, next, name);
      && LastEffect(plan.changes, name) == (if change.Some? then Some(Effect(change.value)) else None)
      && (Names(next, name) ==> name in plan.kept || Mentions(plan.changes, name))
  {
    if |next| > 0 {
      PlanStep(previous, next, name);
      LastChangeDecides(previous, next[..|next| - 1], name);
    }
  }

  lemma {:induction false} OwnChangeCounts(previous: map<string, Slot>, next: Settings, i: nat)
    requires i < |next| && SlotChange(previous, next[i]).Some?
    ensures LastChange(previous, next, next[i].name).Some?
  {
    hide SlotChange;
    if i < |next| - 1 { OwnChangeCounts(previous, next[..|next| - 1], i); }
  }

  lemma {:induction false} UnnamedIsUnchanged(previous: map<string, Slot>, next: Settings, name: string)
    requires !Names(next, name)
    ensures LastChange(previous, next, name).None?
  {
    if |next| > 0 { UnnamedIsUnchanged(previous, next[..|next| - 1], name); }
  }

  /** With distinct names, that is the slot itself. */
  lemma {:induction false} DistinctNamesChangeAlone(previous: map<string, Slot>, next: Settings, i: nat)
    requires DistinctNames(next) && i < |next|
    ensures LastChange(previous, next, next[i].name) == SlotChange(previous, next[i])
  {
    hide SlotChange;
    var n := |next| - 1;
    if i < n {
      NamesEachSlot(next[..n], i);
      DistinctNamesChangeAlone(previous, next[..n], i);
    } else {
      UnnamedIsUnchanged(previous, next[..n], next[n].name);
    }
  }

  lemma StaleStep(previous: map<string, Slot>, plan: Plan, current: Settings, name: string)
    requires |current| > 0
    ensures
      var before, after := WithStale(previous, plan, current[..|current| - 1]), WithStale(previous, plan, current);
      var last := current[|current| - 1].name;
      LastEffect(after, name)
      == if last == name && name in previous && Sensitive(previous[name]) && name !in plan.kept && !Mentions(before, name)
         then Some(None) else LastEffect(before, name)
  {
    var last := current[|current| - 1].name;
    LastEffectOfAppended(WithStale(previous, plan, current[..|current| - 1]), Remove(last), name);
  }

  /** Stale removal touches exactly the old sensitive names that the plan neither keeps nor changes. */
  lemma {:induction false} StaleDecides(previous: map<string, Slot>, plan: Plan, current: Settings, name: string)
    ensures LastEffect(WithStale(previous, plan, current), name)
         == if && Names(current, name) && name in previous && Sensitive(previous[name])
               && name !in plan.kept && !Mentions(plan.changes, name)
            then Some(None) else LastEffect(plan.changes, name)
  {
    if |current| > 0 {
      StaleStep(previous, plan, current, name);
      StaleDecides(previous, plan, current[..|current| - 1], name);
    }
  }

  lemma {:induction false} PersistedSlots(previous: map<string, Slot>, next: Settings)
    ensures |Persisted(previous, next).settings| == |next|
    ensures forall i | 0 <= i < |next| :: Persisted(previous, next).settings[i] == PersistedSlot(previous, next[i])
  {
    if |next| > 0 { PersistedSlots(previous, next[..|next| - 1]); }
  }

  /** The store after a successful save. */
  function SavedStore(current: Settings, store: Store, next: Settings): Store {
    ApplyAll(store, WithStale(ByName(current), Persisted(ByName(current), next), current))
  }

  /** The secret that a sensitive slot brings along or, being redacted, expects to find. */
  function Expected(current: Settings, store: Store, s: Slot): string {
    match NewSecret(ByName(current), s)
    case Some(value) => value
    case None => if s.name in store then store[s.name] else ""
  }

  /** The slot will read a secret from the store, and the last slot of its name to change it puts another one there. */
  predicate IsOverridden(current: Settings, store: Store, next: Settings, s: Slot) {
    var last := LastChange(ByName(current), next, s.name);
    && Sensitive(s) && NewSecret(ByName(current), s) != Some("")
    && last.Some? && (if last.value.Write? then last.value.secret else "") != Expected(current, store, s)
  }

  /** After a save a slot reads back as intended exactly unless it is overridden under its own name, and in any case the
      file holds no sensitive text but the marker. */
  lemma ReadsBackExactlyUnlessOverridden(current: Settings, store: Store, next: Settings, i: nat)
    requires i < |next|
    ensures
      var file := Persisted(ByName(current), next).settings;
      var read := MaterializedAll(SavedStore(current, store, next), file);
      && |file| == |next| && read[i].name == next[i].name
      && (read[i].value == Intended(current, store, next[i]) <==> !IsOverridden(current, store, next, next[i]))
      && (Sensitive(next[i]) ==> Sensitive(file[i]) && file[i].value in {"", REDACTED})
  {
    var previous := ByName(current);
    var plan := Persisted(previous, next);
    PersistedSlots(previous, next);
    NamesEachSlot(next, i);
    LastChangeDecides(previous, next, next[i].name);
    if SlotChange(previous, next[i]).Some? { OwnChangeCounts(previous, next, i); }
    StaleDecides(previous, plan, current, next[i].name);
    LastEffectDecides(store, WithStale(previous, plan, current), next[i].name);
    InlineIsInTheOpen(current, next[i].name);
    SlotReadsBack(current, store, SavedStore(current, store, next), next, next[i]);
  }

  lemma SlotReadsBack(current: Settings, store: Store, after: Store, next: Settings, s: Slot)
    requires Inline(ByName(current), s.name) == InTheOpen(current, s.name)
    requires
      var change := LastChange(ByName(current), next, s.name);
      (SlotChange(ByName(current), s).Some? ==> change.Some?)
      && Entry(after, s.name) == if change.Some? then Effect(change.value) else Entry(store, s.name)
    ensures
      var p := PersistedSlot(ByName(current), s);
      && Materialized(after, p).name == s.name
      && (Materialized(after, p).value == Intended(current, store, s) <==> !IsOverridden(current, store, next, s))
      && (Sensitive(s) ==> Sensitive(p) && p.value in {"", REDACTED})
  {
    hide LastChange, ByName, InTheOpen;
  }

  /** With distinct secret names every slot reads back as intended. */
  lemma ReadAfterWrite(current: Settings, store: Store, next: Settings, i: nat)
    requires DistinctNames(next) && i < |next|
    ensures
      var file := Persisted(ByName(current), next).settings;
      var read := MaterializedAll(SavedStore(current, store, next), file);
      && |file| == |next|
      && read[i].name == next[i].name && read[i].value == Intended(current, store, next[i])
      && (Sensitive(next[i]) ==> Sensitive(file[i]) && file[i].value in {"", REDACTED})
  {
    ReadsBackExactlyUnlessOverridden(current, store, next, i);
    DistinctNamesChangeAlone(ByName(current), next, i);
    hide LastChange, ByName, Persisted, MaterializedAll, SavedStore, Intended, DistinctNames;
  }

  /** A secret that the new settings no longer mention leaves the store, and no other entry moves. */
  lemma GoneSecretsAreRemoved(current: Settings, store: Store, next: Settings, name: string)
    requires !Names(next, name)
    ensures Entry(SavedStore(current, store, next), name)
         == if name in ByName(current) && Sensitive(ByName(current)[name]) then None else Entry(store, name)
  {
    var previous := ByName(current);
    var plan := Persisted(previous, next);
    PlanSparesOthers(previous, next, name);
    StaleDecides(previous, plan, current, name);
    ByNameHoldsNames(current, name);
    LastEffectDecides(store, WithStale(previous, plan, current), name);
  }

  // ---- What is in the store and in the file after a save

  /** What becomes of an entry under a slot of its name: a public or emptied slot removes it, the redaction marker keeps it
      unless the settings carry the secret in the open, and any other value replaces it. */
  function EntryUnder(current: Settings, s: Slot, entry: Option<string>): Option<string> {
    if !Sensitive(s) then None
    else if Redacted(s) && InTheOpen(current, s.name).None? then entry
    else
      var value := if Redacted(s) then InTheOpen(current, s.name).value else s.value;
      if value == "" then None else Some(value)
  }

  /** The same under all slots of that name, one after the other. */
  function EntryUnderAll(current: Settings, next: Settings, name: string, entry: Option<string>): Option<string> {
    if next == [] then entry
    else
      var s, before := next[|next| - 1], EntryUnderAll(current, next[..|next| - 1], name, entry);
      if s.name == name then EntryUnder(current, s, before) else before
  }

  lemma {:induction false} LastEffectIsUnderAll(current: Settings, next: Settings, name: string, entry: Option<string>)
    ensures
      var effect := LastEffect(Persisted(ByName(current), next).changes, name);
      EntryUnderAll(current, next, name, entry) == if effect.Some? then effect.value else entry
  {
    if |next| > 0 {
      LastEffectIsUnderAll(current, next[..|next| - 1], name, entry);
      InlineIsInTheOpen(current, name);
      PlanStep(ByName(current), next, name);
      hide Persisted, LastEffect, ByName, InTheOpen, Inline;
    }
  }

  /** The last slot of a name. */
  function LastSlot(settings: Settings, name: string): Option<Slot> {
    if settings == [] then None
    else if settings[|settings| - 1].name == name then Some(settings[|settings| - 1])
    else LastSlot(settings[..|settings| - 1], name)
  }

  lemma {:induction false} ByNameIsLast(settings: Settings, name: string)
    ensures LastSlot(settings, name) == if name in ByName(settings) then Some(ByName(settings)[name]) else None
  {
    if |settings| > 0 { ByNameIsLast(settings[..|settings| - 1], name); }
  }

  /** The store after a save, name by name: what the slots of the new settings make of it, and without any such slot nothing,
      if the old settings had a secret there, or else what it was. */
  lemma StoreAfterSave(current: Settings, store: Store, next: Settings, name: string)
    ensures Entry(SavedStore(current, store, next), name) ==
      if Names(next, name) then EntryUnderAll(current, next, name, Entry(store, name))
      else if LastSlot(current, name).Some? && Sensitive(LastSlot(current, name).value) then None
      else Entry(store, name)
  {
    ByNameIsLast(current, name);
    if Names(next, name) {
      var previous := ByName(current);
      LastEffectIsUnderAll(current, next, name, Entry(store, name));
      LastChangeDecides(previous, next, name);
      StaleDecides(previous, Persisted(previous, next), current, name);
      LastEffectDecides(store, WithStale(previous, Persisted(previous, next), current), name);
    } else {
      GoneSecretsAreRemoved(current, store, next, name);
    }
    hide Persisted, ByName, WithStale, LastEffect;
  }

  lemma {:induction false} UnnamedChangesNothing(current: Settings, next: Settings, name: string, entry: Option<string>)
    requires !Names(next, name)
    ensures EntryUnderAll(current, next, name, entry) == entry
  {
    if |next| > 0 { UnnamedChangesNothing(current, next[..|next| - 1], name, entry); }
  }

  lemma {:induction false} DistinctNamesCountAlone(current: Settings, next: Settings, i: nat, entry: Option<string>)
    requires DistinctNames(next) && i < |next|
    ensures EntryUnderAll(current, next, next[i].name, entry) == EntryUnder(current, next[i], entry)
  {
    var n := |next| - 1;
    hide EntryUnder;
    if i < n {
      NamesEachSlot(next[..n], i);
      DistinctNamesCountAlone(current, next[..n], i, entry);
    } else {
      UnnamedChangesNothing(current, next[..n], next[n].name, entry);
    }
  }

  /** With distinct names the store holds each sensitive slot's intended secret, nothing for a public or emptied slot, and for
      a redacted slot that the settings have no secret for what it held before. */
  lemma EntryAfterSave(current: Settings, store: Store, next: Settings, i: nat)
    requires DistinctNames(next) && i < |next|
    ensures
      var s := next[i];
      Entry(SavedStore(current, store, next), s.name) ==
      if !Sensitive(s) then None
      else if Redacted(s) && InTheOpen(current, s.name).None? then Entry(store, s.name)
      else if Intended(current, store, s) == "" then None
      else Some(Intended(current, store, s))
  {
    NamesEachSlot(next, i);
    StoreAfterSave(current, store, next, next[i].name);
    DistinctNamesCountAlone(current, next, i, Entry(store, next[i].name));
    hide SavedStore, EntryUnderAll, DistinctNames, Names, LastSlot, InTheOpen;
  }

  /** The file keeps every slot in its place; a sensitive one holds no more than the marker, which it has exactly if the slot
      had it or brought a secret along, and a public one its value. Reading the secrets back, from whatever store, changes no
      more than the values: a variable still says that its value is hidden. */
  lemma FileAfterSave(current: Settings, next: Settings, i: nat, store: Store)
    requires i < |next|
    ensures
      var file := Persisted(ByName(current), next).settings;
      && |file| == |next| && file[i].name == next[i].name && file[i].Field? == next[i].Field?
      && Sensitive(file[i]) == Sensitive(next[i])
      && (Redacted(file[i]) <==> Sensitive(next[i]) && (Redacted(next[i]) || next[i].value != ""))
      && file[i].value == (if !Sensitive(next[i]) then next[i].value
                           else if file[i].Field? && Redacted(file[i]) then REDACTED else "")
      && var read := MaterializedAll(store, file);
         |read| == |next| && read[i] == (if read[i].Field? then Field(file[i].name, read[i].value)
                                         else file[i].(value := read[i].value))
  {
    PersistedSlots(ByName(current), next);
    hide Persisted, ByName;
  }

  // ---- Where names are shared

  datatype Variable = Variable(name: string, value: string, redacted: bool, isSensitive: bool)

  /** The name of a provider instance's variable in the store; how its parts are encoded plays no part here. */
  function EnvironmentName(encode: string -> string, instance: string, variable: string): string {
    "provider-env-" + encode(instance) + "-" + encode(variable)
  }

  function EnvironmentSlots(encode: string -> string, instance: string, variables: seq<Variable>): Settings {
    seq(|variables|, i requires 0 <= i < |variables| =>
      Environment(EnvironmentName(encode, instance, variables[i].name), variables[i].value, variables[i].redacted,
                  variables[i].isSensitive))
  }

  /** A provider's environment may list a variable twice; then the two share a name and the first secret is lost. */
  lemma RepeatedVariableIsOverwritten(encode: string -> string, current: Settings, store: Store, instance: string,
                                      variable: string, first: string, second: string)
    requires first != "" && first != second
    ensures
      var next := EnvironmentSlots(encode, instance,
                                   [Variable(variable, first, false, true), Variable(variable, second, false, true)]);
      var file := Persisted(ByName(current), next).settings;
      && |file| == |next| == 2
      && MaterializedAll(SavedStore(current, store, next), file)[0].value != first
      && Intended(current, store, next[0]) == first
  {
    var next := EnvironmentSlots(encode, instance,
                                 [Variable(variable, first, false, true), Variable(variable, second, false, true)]);
    ReadsBackExactlyUnlessOverridden(current, store, next, 0);
    var previous := ByName(current);
    hide ByName, Persisted, MaterializedAll, SavedStore;
    assert SlotChange(previous, next[1]) == Some(if second == "" then Remove(next[0].name) else Write(next[0].name, second));
    assert LastChange(previous, next, next[0].name) == SlotChange(previous, next[1]);
    assert Expected(current, store, next[0]) == first && IsOverridden(current, store, next, next[0]);
  }
}
