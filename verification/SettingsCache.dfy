/** The cache of materialized settings, filled by readers that fetch secrets one at a time while
    writers change the store and may roll it back (apps/server/src/serverSettings.ts). */
module SettingsCache {
  import opened Options
  import opened SettingsSecrets

  /** Names one settings object: the cache compares objects, not contents. */
  type Source = nat

  datatype Cache = Cache(generation: nat, materialized: Option<(Source, Settings)>)

  function Invalidated(c: Cache): Cache {
    Cache(c.generation + 1, None)
  }

  /** A finished read is kept only if no secret write began or ended since it started. */
  function AfterRead(c: Cache, generation: nat, source: Source, value: Settings): Cache {
    if generation == c.generation then c.(materialized := Some((source, value))) else c
  }

  class MaterializedCache {
    var generation: nat
    var materialized: Option<(Source, Settings)>

    function View(): Cache
      reads this
    {
      Cache(generation, materialized)
    }

    constructor ()
      ensures View() == Cache(0, None)
    {
      generation, materialized := 0, None;
    }

    /** What a reader is served at once, whatever the readers and the writer around it have done: outside a secret-write
        section, and unless the files have been edited since, what reading every secret again would give. */
    method Lookup(source: Source, ghost s: System) returns (value: Option<Settings>)
      requires Inv(s) && s.cache == View()
      ensures value.Some? <==> IsHit(s.cache, source)
      ensures value.Some? && s.reloaded <= source && !s.writer.InSection? ==>
                source < |s.sources| && value.value == MaterializedAll(s.store, s.sources[source])
    {
      value := if materialized.Some? && materialized.value.0 == source then Some(materialized.value.1) else None;
    }

    method Invalidate()
      modifies this
      ensures View() == Invalidated(old(View()))
    {
      generation := generation + 1;
      materialized := None;
    }

    method FinishRead(started: nat, source: Source, value: Settings)
      modifies this
      ensures View() == AfterRead(old(View()), started, source, value)
    {
      if started == generation {
        materialized := Some((source, value));
      }
    }

    method Publish(source: Source, value: Settings)
      modifies this
      ensures View() == old(View()).(materialized := Some((source, value)))
    {
      materialized := Some((source, value));
    }
  }

  // ---- Readers and writers

  /** A read in flight: its settings object, the generation it started in, the secrets so far. */
  datatype Reader = Reader(source: Source, generation: nat, stored: Store)

  /** Where the one writer stands: changing secrets, then publishing the new settings object, then
      the value it materialized while it was still alone. */
  datatype Writer = Idle | InSection | Saved(next: Settings, value: Settings) | Published(value: Settings)

  /** A reload brings in settings and secrets that were edited outside; `reloaded` names the settings of the last one. */
  datatype System = System(
    sources: seq<Settings>,
    current: Source,
    reloaded: Source,
    store: Store,
    cache: Cache,
    writer: Writer,
    readers: map<nat, Reader>,
    nextReader: nat)

  datatype Event =
    | StartRead(source: Source)
    | ReadSecret(reader: nat, name: string)
    | FinishRead(reader: nat)
    | AbandonRead(reader: nat)
    | BeginSection
    | ChangeSecret(name: string, entry: Option<string>)
    | EndFailed
    | EndSaved(next: Settings)
    | PublishSettings
    | PublishCache
    | Reload(settings: Settings, store: Store)

  function StoredText(store: Store, name: string): string {
    if name in store then store[name] else ""
  }

  predicate Wanted(settings: Settings, name: string) {
    exists i | 0 <= i < |settings| :: Sensitive(settings[i]) && Redacted(settings[i]) && settings[i].name == name
  }

  predicate HasRead(settings: Settings, stored: Store) {
    forall i | 0 <= i < |settings| :: Sensitive(settings[i]) && Redacted(settings[i]) ==> settings[i].name in stored
  }

  predicate IsHit(c: Cache, source: Source) {
    c.materialized.Some? && c.materialized.value.0 == source
  }

  /** One writer at a time; a reload also waits for it and always makes a new settings object. A reader may come with
      settings that it got before a writer published newer ones. */
  predicate Enabled(s: System, e: Event) {
    match e
    case StartRead(source) => source < |s.sources| && !IsHit(s.cache, source)
    case ReadSecret(r, name) =>
      r in s.readers && s.readers[r].source < |s.sources| && Wanted(s.sources[s.readers[r].source], name)
    case FinishRead(r) =>
      r in s.readers && s.readers[r].source < |s.sources|
      && HasRead(s.sources[s.readers[r].source], s.readers[r].stored)
    case AbandonRead(r) => r in s.readers
    case BeginSection => s.writer.Idle?
    case ChangeSecret(_, _) => s.writer.InSection?
    case EndFailed => s.writer.InSection?
    case EndSaved(_) => s.writer.InSection?
    case PublishSettings => s.writer.Saved?
    case PublishCache => s.writer.Published?
    case Reload(_, _) => s.writer.Idle?
  }

  function Step(s: System, e: Event): System
    requires Enabled(s, e)
  {
    match e
    case StartRead(source) =>
      s.(readers := s.readers[s.nextReader := Reader(source, s.cache.generation, map[])],
         nextReader := s.nextReader + 1)
    case ReadSecret(r, name) =>
      var reader := s.readers[r];
      s.(readers := s.readers[r := reader.(stored := reader.stored[name := StoredText(s.store, name)])])
    case FinishRead(r) =>
      var reader := s.readers[r];
      var value := MaterializedAll(reader.stored, s.sources[reader.source]);
      s.(cache := AfterRead(s.cache, reader.generation, reader.source, value), readers := s.readers - {r})
    case AbandonRead(r) => s.(readers := s.readers - {r})
    case BeginSection => s.(cache := Invalidated(s.cache), writer := InSection)
    case ChangeSecret(name, entry) => s.(store := Put(s.store, name, entry))
    case EndFailed => s.(cache := Invalidated(s.cache), writer := Idle)
    case EndSaved(next) =>
      s.(cache := Invalidated(s.cache), writer := Saved(next, MaterializedAll(s.store, next)))
    case PublishSettings =>
      s.(sources := s.sources + [s.writer.next], current := |s.sources|, writer := Published(s.writer.value))
    case PublishCache =>
      s.(cache := s.cache.(materialized := Some((s.current, s.writer.value))), writer := Idle)
    case Reload(settings, store) =>
      s.(sources := s.sources + [settings], current := |s.sources|, reloaded := |s.sources|, store := store)
  }

  predicate Possible(s: System, es: seq<Event>)
    decreases |es|
  {
    es == [] || (Enabled(s, es[0]) && Possible(Step(s, es[0]), es[1..]))
  }

  function Run(s: System, es: seq<Event>): System
    requires Possible(s, es)
    decreases |es|
  {
    if es == [] then s else Run(Step(s, es[0]), es[1..])
  }

  // ---- The invariant

  /** What was read is what the store still holds. */
  predicate Agrees(stored: Store, store: Store) {
    forall name <- stored :: stored[name] == StoredText(store, name)
  }

  /** What this reader finishes with would be kept, and served. */
  predicate CanStillCache(s: System, r: nat)
    requires r in s.readers
  {
    !s.writer.InSection? && s.readers[r].generation == s.cache.generation && s.readers[r].source >= s.reloaded
  }

  ghost predicate Inv(s: System) {
    && s.reloaded <= s.current < |s.sources|
    && (s.cache.materialized.Some? ==> s.cache.materialized.value.0 < |s.sources|)
    && (forall r <- s.readers ::
          && r < s.nextReader
          && s.readers[r].source < |s.sources| && s.readers[r].generation <= s.cache.generation
          && (CanStillCache(s, r) ==> Agrees(s.readers[r].stored, s.store)))
    && (s.writer.Saved? ==> s.writer.value == MaterializedAll(s.store, s.writer.next))
    && (s.writer.Published? ==> s.writer.value == MaterializedAll(s.store, s.sources[s.current]))
    && (!s.writer.InSection? ==> FreshHit(s))
  }

  /** What the cache holds is what reading everything again would give. */
  ghost predicate FreshHit(s: System) {
    s.cache.materialized.Some? && s.cache.materialized.value.0 >= s.reloaded ==>
      var (source, value) := s.cache.materialized.value;
      source < |s.sources| && value == MaterializedAll(s.store, s.sources[source])
  }

  /** A complete set of agreeing reads materializes to the same settings as the store itself. */
  lemma AgreeingReadsMaterialize(stored: Store, store: Store, settings: Settings)
    requires Agrees(stored, store) && HasRead(settings, stored)
    ensures MaterializedAll(stored, settings) == MaterializedAll(store, settings)
  {
    forall i | 0 <= i < |settings| ensures Materialized(stored, settings[i]) == Materialized(store, settings[i]) {
      if Sensitive(settings[i]) && Redacted(settings[i]) {
        assert stored[settings[i].name] == StoredText(store, settings[i].name);
      }
    }
  }

  lemma StepKeepsInv(s: System, e: Event)
    requires Inv(s) && Enabled(s, e)
    ensures Inv(Step(s, e))
  {
    if e.FinishRead? {
      var reader := s.readers[e.reader];
      if CanStillCache(s, e.reader) {
        AgreeingReadsMaterialize(reader.stored, s.store, s.sources[reader.source]);
      }
    }
  }

  lemma {:induction false} RunKeepsInv(s: System, es: seq<Event>)
    requires Inv(s) && Possible(s, es)
    ensures Inv(Run(s, es))
    decreases |es|
  {
    if es != [] {
      StepKeepsInv(s, es[0]);
      RunKeepsInv(Step(s, es[0]), es[1..]);
    }
  }

  function Initial(settings: Settings, store: Store): System {
    System([settings], 0, 0, store, Cache(0, None), Idle, map[], 0)
  }

  /** In every run, outside a secret-write section, the cache is empty or holds a fresh materialization of its settings
      against the current store; only settings from before a reload may be outdated, and they are not the current ones. */
  lemma EveryServedValueIsFresh(settings: Settings, store: Store, es: seq<Event>)
    requires Possible(Initial(settings, store), es) && !Run(Initial(settings, store), es).writer.InSection?
    ensures
      var s := Run(Initial(settings, store), es);
      && s.reloaded <= s.current < |s.sources|
      && match s.cache.materialized
         case None => true
         case Some((source, value)) =>
           source < |s.sources| && (s.reloaded <= source ==> value == MaterializedAll(s.store, s.sources[source]))
  {
    RunKeepsInv(Initial(settings, store), es);
  }

  // ---- What is kept

  /** A secret-write section begins or ends. */
  predicate IsBoundary(e: Event) {
    e.BeginSection? || e.EndFailed? || e.EndSaved?
  }

  predicate HasBoundary(es: seq<Event>) {
    es != [] && (IsBoundary(es[0]) || HasBoundary(es[1..]))
  }

  ghost predicate ReadsFor(s: System, r: nat, source: Source, generation: nat) {
    r < s.nextReader && (r in s.readers ==> s.readers[r].source == source && s.readers[r].generation == generation)
  }

  lemma {:induction false} ReaderKeepsItsGeneration(s: System, es: seq<Event>, r: nat, source: Source, generation: nat)
    requires Possible(s, es) && ReadsFor(s, r, source, generation) && generation <= s.cache.generation
    ensures ReadsFor(Run(s, es), r, source, generation)
    ensures generation <= Run(s, es).cache.generation
    ensures Run(s, es).cache.generation == generation <==> s.cache.generation == generation && !HasBoundary(es)
    decreases |es|
  {
    if |es| > 0 {
      ReaderKeepsItsGeneration(Step(s, es[0]), es[1..], r, source, generation);
    }
  }

  /** A read that is finished is kept, and served from then on, exactly if no secret-write section has begun or ended since it
      started; otherwise it leaves the cache alone. */
  lemma ReadIsKeptExactlyWithoutBoundary(s: System, source: Source, es: seq<Event>)
    requires Inv(s) && Enabled(s, StartRead(source)) && Possible(Step(s, StartRead(source)), es)
    requires Enabled(Run(Step(s, StartRead(source)), es), FinishRead(s.nextReader))
    ensures
      var t := Run(Step(s, StartRead(source)), es);
      var after := Step(t, FinishRead(s.nextReader)).cache;
      if HasBoundary(es) then after == t.cache else after.generation == t.cache.generation && IsHit(after, source)
  {
    ReaderKeepsItsGeneration(Step(s, StartRead(source)), es, s.nextReader, source, s.cache.generation);
  }

  /** Saved settings are served from the cache as soon as they are published; and nothing but a boundary, another finished
      read or another publication takes what is served away. */
  lemma ServedUntilReplaced(s: System, e: Event)
    requires Inv(s) && Enabled(s, e)
    ensures e.PublishCache? ==> IsHit(Step(s, e).cache, s.current)
    ensures IsBoundary(e) ==> Step(s, e).cache.materialized.None?
    ensures !IsBoundary(e) && !e.FinishRead? && !e.PublishCache? ==> Step(s, e).cache == s.cache
  {
  }
}
