/** The browser snapshot store of src/lib/local-storage.ts: one localStorage key holding
    the JSON text of a (partial) SerializableAppState. The slot is modelled by what that
    text parses to, or by `Corrupt` when it does not parse. */
module LocalStorage {
  import opened Js
  import opened Fitness

  /** `Partial<SerializableAppState>` as a parsed object: `None` is an absent key. A key
      present with the value undefined is `Some(Undefined)` (only `loadedTemplateName`,
      an optional string, can hold it). */
  datatype PartialAppState = PartialAppState(
    selectedWeek: Option<int>,
    selectedDay: Option<int>,
    currentWorkout: Option<Workout>,
    loadedTemplateName: Option<Value>,
    initialTemplateWorkout: Option<Workout>,
    queuedWorkouts: Option<seq<QueuedWorkout>>)

  /** The contents of the key "fitnessFocusAppState". */
  datatype Slot = Empty | Corrupt | Stored(state: PartialAppState)

  /** `{}` */
  const NoKeys := PartialAppState(None, None, None, None, None, None)

  /** A complete SerializableAppState seen as an object of its keys. */
  function Whole(s: SerializableAppState): (p: PartialAppState)
    ensures p.selectedWeek.Some? && p.selectedDay.Some? && p.currentWorkout.Some? && p.initialTemplateWorkout.Some?
  {
    PartialAppState(Some(s.selectedWeek), Some(s.selectedDay), Some(s.currentWorkout),
                    Some(s.loadedTemplateName), Some(s.initialTemplateWorkout), s.queuedWorkouts)
  }

  /** `{ ...a, ...b }`: every key present in `b` wins, every other key of `a` is kept. */
  function Spread(a: PartialAppState, b: PartialAppState): (r: PartialAppState) {
    PartialAppState(
      if b.selectedWeek.Some? then b.selectedWeek else a.selectedWeek,
      if b.selectedDay.Some? then b.selectedDay else a.selectedDay,
      if b.currentWorkout.Some? then b.currentWorkout else a.currentWorkout,
      if b.loadedTemplateName.Some? then b.loadedTemplateName else a.loadedTemplateName,
      if b.initialTemplateWorkout.Some? then b.initialTemplateWorkout else a.initialTemplateWorkout,
      if b.queuedWorkouts.Some? then b.queuedWorkouts else a.queuedWorkouts)
  }

  function JsonQueue(q: seq<QueuedWorkout>): seq<QueuedWorkout> {
    seq(|q|, k requires 0 <= k < |q| => q[k].(workout := JsonWorkout(q[k].workout)))
  }

  /** `JSON.parse(JSON.stringify(p))`: a key whose value is undefined is dropped, NaN
      becomes null, the workouts are copied field by field. */
  function Stringify(p: PartialAppState): PartialAppState {
    PartialAppState(
      p.selectedWeek,
      p.selectedDay,
      if p.currentWorkout.Some? then Some(JsonWorkout(p.currentWorkout.value)) else None,
      if p.loadedTemplateName.Some? && p.loadedTemplateName.value != Undefined
        then Some(JsonValue(p.loadedTemplateName.value)) else None,
      if p.initialTemplateWorkout.Some? then Some(JsonWorkout(p.initialTemplateWorkout.value)) else None,
      if p.queuedWorkouts.Some? then Some(JsonQueue(p.queuedWorkouts.value)) else None)
  }

  /** What JSON text parses to: the serialisation of it changes nothing. */
  predicate JsonStable(p: PartialAppState) {
    Stringify(p) == p
  }

  /** A slot every write of this module can produce: stored content is parsed JSON. */
  predicate WellFormed(slot: Slot) {
    slot.Stored? ==> JsonStable(slot.state)
  }

  lemma JsonQueueIdempotent(q: seq<QueuedWorkout>)
    ensures JsonQueue(JsonQueue(q)) == JsonQueue(q)
  {
    forall k | 0 <= k < |q| ensures JsonQueue(JsonQueue(q))[k] == JsonQueue(q)[k] {
      JsonWorkoutIdempotent(q[k].workout);
    }
  }

  /** Serialising twice is serialising once: whatever was written reads back stable. */
  lemma StringifyStable(p: PartialAppState)
    ensures JsonStable(Stringify(p))
  {
    if p.currentWorkout.Some? {
      JsonWorkoutIdempotent(p.currentWorkout.value);
    }
    if p.initialTemplateWorkout.Some? {
      JsonWorkoutIdempotent(p.initialTemplateWorkout.value);
    }
    if p.queuedWorkouts.Some? {
      JsonQueueIdempotent(p.queuedWorkouts.value);
    }
  }

  // ---------------------------------------------------------------- specification

  /** What loadCurrentAppState returns for a slot. */
  function Loaded(slot: Slot): (r: Option<PartialAppState>)
    ensures r.Some? <==> slot.Stored?
  {
    if slot.Stored? then Some(slot.state) else None
  }

  /** The slot after loadCurrentAppState: unparsable content is removed. */
  function AfterLoad(slot: Slot): (r: Slot)
    ensures r != Corrupt
    ensures slot != Corrupt ==> r == slot
  {
    if slot.Corrupt? then Empty else slot
  }

  /** The slot after saveCurrentAppState(partial); `storageFull` makes `setItem` throw,
      which the function catches. */
  function AfterSave(slot: Slot, partial: PartialAppState, storageFull: bool): Slot {
    var existing := if slot.Stored? then slot.state else NoKeys;
    if storageFull then AfterLoad(slot) else Stored(Stringify(Spread(existing, partial)))
  }

  /** What getSyncQueue returns. */
  function SyncQueue(slot: Slot): (q: seq<QueuedWorkout>)
    ensures slot.Stored? && slot.state.queuedWorkouts.Some? ==> q == slot.state.queuedWorkouts.value
    ensures !slot.Stored? || slot.state.queuedWorkouts.None? ==> q == []
  {
    if slot.Stored? && slot.state.queuedWorkouts.Some? then slot.state.queuedWorkouts.value else []
  }

  /** The slot after clearSyncQueue. */
  function AfterClearQueue(slot: Slot, storageFull: bool): Slot {
    if slot.Stored? then AfterSave(slot, slot.state.(queuedWorkouts := Some([])), storageFull)
    else AfterLoad(slot)
  }

  // ---------------------------------------------------------------- properties

  /** Saving merges: the keys of the partial are written, every other stored key is kept. */
  lemma SaveMerges(p: PartialAppState, partial: PartialAppState)
    requires JsonStable(p)
    ensures var s := AfterSave(Stored(p), partial, false);
      && s.Stored?
      && (partial.queuedWorkouts.None? ==> s.state.queuedWorkouts == p.queuedWorkouts)
      && (partial.currentWorkout.None? ==> s.state.currentWorkout == p.currentWorkout)
      && (partial.initialTemplateWorkout.None? ==> s.state.initialTemplateWorkout == p.initialTemplateWorkout)
      && (partial.loadedTemplateName.None? ==> s.state.loadedTemplateName == p.loadedTemplateName)
      && (partial.selectedWeek.None? ==> s.state.selectedWeek == p.selectedWeek)
      && (partial.selectedDay.None? ==> s.state.selectedDay == p.selectedDay)
      && (partial.selectedWeek.Some? ==> s.state.selectedWeek == partial.selectedWeek)
      && (partial.selectedDay.Some? ==> s.state.selectedDay == partial.selectedDay)
      && (partial.currentWorkout.Some? ==> s.state.currentWorkout == Some(JsonWorkout(partial.currentWorkout.value)))
      && (partial.initialTemplateWorkout.Some? ==>
            s.state.initialTemplateWorkout == Some(JsonWorkout(partial.initialTemplateWorkout.value)))
      && (partial.queuedWorkouts.Some? ==> s.state.queuedWorkouts == Some(JsonQueue(partial.queuedWorkouts.value)))
      && (partial.loadedTemplateName.Some? && partial.loadedTemplateName.value != Undefined ==>
            s.state.loadedTemplateName == Some(JsonValue(partial.loadedTemplateName.value)))
  {
    assert Stringify(p) == p;
  }

  /** Saving a complete snapshot and loading gives back its JSON copy; the stored queue
      is kept when the snapshot has none. */
  lemma SaveWholeLoads(slot: Slot, s: SerializableAppState)
    ensures var r := Loaded(AfterSave(slot, Whole(s), false));
      && r.Some?
      && r.value.selectedWeek == Some(s.selectedWeek) && r.value.selectedDay == Some(s.selectedDay)
      && r.value.currentWorkout == Some(JsonWorkout(s.currentWorkout))
      && r.value.initialTemplateWorkout == Some(JsonWorkout(s.initialTemplateWorkout))
      && (s.loadedTemplateName != Undefined ==> r.value.loadedTemplateName == Some(JsonValue(s.loadedTemplateName)))
      && (s.loadedTemplateName == Undefined ==> r.value.loadedTemplateName == None)
      && (s.queuedWorkouts.Some? ==> r.value.queuedWorkouts == Some(JsonQueue(s.queuedWorkouts.value)))
      && (s.queuedWorkouts.None? && slot.Stored? ==> r.value.queuedWorkouts == Stringify(slot.state).queuedWorkouts)
  {
  }

  /** A key written as undefined is removed from the stored state. */
  lemma SaveUndefinedNameDropsKey(slot: Slot, partial: PartialAppState)
    requires partial.loadedTemplateName == Some(Undefined)
    ensures AfterSave(slot, partial, false).state.loadedTemplateName == None
  {
  }

  /** Saving over unparsable content stores exactly the partial, because the inner load
      answers null; when the write itself fails, the corrupt content is still gone. */
  lemma SaveOverCorrupt(partial: PartialAppState)
    ensures AfterSave(Corrupt, partial, false) == Stored(Stringify(partial))
    ensures AfterSave(Corrupt, partial, true) == Empty
  {
    assert Spread(NoKeys, partial) == partial;
  }

  /** A failed write leaves a readable slot as it was. */
  lemma FailedSaveKeepsSlot(slot: Slot, partial: PartialAppState)
    requires slot != Corrupt
    ensures AfterSave(slot, partial, true) == slot
  {
  }

  /** Saving the same partial twice stores the same as saving it once. */
  lemma SaveIdempotent(slot: Slot, partial: PartialAppState)
    ensures AfterSave(AfterSave(slot, partial, false), partial, false) == AfterSave(slot, partial, false)
  {
    var existing := if slot.Stored? then slot.state else NoKeys;
    var once := Stringify(Spread(existing, partial));
    StringifyStable(Spread(existing, partial));
    StringifyStable(Spread(once, partial));
    if partial.currentWorkout.Some? {
      JsonWorkoutIdempotent(partial.currentWorkout.value);
    }
    if partial.initialTemplateWorkout.Some? {
      JsonWorkoutIdempotent(partial.initialTemplateWorkout.value);
    }
    if partial.queuedWorkouts.Some? {
      JsonQueueIdempotent(partial.queuedWorkouts.value);
    }
  }

  /** Every write keeps the slot well formed. */
  lemma SaveWellFormed(slot: Slot, partial: PartialAppState, storageFull: bool)
    requires WellFormed(slot)
    ensures WellFormed(AfterSave(slot, partial, storageFull))
  {
    var existing := if slot.Stored? then slot.state else NoKeys;
    StringifyStable(Spread(existing, partial));
  }

  /** After a successful clearSyncQueue the queue reads back empty and every other key of
      the state is kept; with nothing stored nothing is written. */
  lemma ClearEmptiesQueue(slot: Slot)
    requires WellFormed(slot)
    ensures slot.Stored? ==> SyncQueue(AfterClearQueue(slot, false)) == []
    ensures slot.Stored? ==> AfterClearQueue(slot, false) == Stored(slot.state.(queuedWorkouts := Some([])))
    ensures !slot.Stored? ==> AfterClearQueue(slot, false) == Empty
  {
    if slot.Stored? {
      var p := slot.state;
      assert Spread(p, p.(queuedWorkouts := Some([]))) == p.(queuedWorkouts := Some([]));
      assert Stringify(p) == p;
    }
  }

  /** The store: one mutable localStorage slot. */
  class LocalStore {
    var slot: Slot

    predicate Valid()
      reads this
    {
      WellFormed(slot)
    }

    constructor (initial: Slot)
      requires WellFormed(initial)
      ensures Valid() && slot == initial
    {
      slot := initial;
    }

    /** loadCurrentAppState (src/lib/local-storage.ts:29-41). */
    method Load() returns (r: Option<PartialAppState>)
      requires Valid()
      modifies this
      ensures Valid()
      ensures r == Loaded(old(slot)) && slot == AfterLoad(old(slot))
    {
      match slot {
        case Empty =>
          r := None;
        case Corrupt =>
          slot := Empty;
          r := None;
        case Stored(p) =>
          r := Some(p);
      }
    }

    /** saveCurrentAppState (src/lib/local-storage.ts:13-23). */
    method Save(partial: PartialAppState, storageFull: bool)
      requires Valid()
      modifies this
      ensures Valid()
      ensures slot == AfterSave(old(slot), partial, storageFull)
    {
      var existing := Load();
      var base := if existing.Some? then existing.value else NoKeys;
      var newState := Spread(base, partial);
      if !storageFull {
        StringifyStable(newState);
        slot := Stored(Stringify(newState));
      }
    }

    /** getSyncQueue (src/lib/local-storage.ts:47-50). */
    method GetSyncQueue() returns (q: seq<QueuedWorkout>)
      requires Valid()
      modifies this
      ensures Valid()
      ensures q == SyncQueue(old(slot)) && slot == AfterLoad(old(slot))
    {
      var state := Load();
      q := if state.Some? && state.value.queuedWorkouts.Some? then state.value.queuedWorkouts.value else [];
    }

    /** clearSyncQueue (src/lib/local-storage.ts:55-60). */
    method ClearSyncQueue(storageFull: bool)
      requires Valid()
      modifies this
      ensures Valid()
      ensures slot == AfterClearQueue(old(slot), storageFull)
    {
      var state := Load();
      if state.Some? {
        Save(state.value.(queuedWorkouts := Some([])), storageFull);
      }
    }
  }
}
