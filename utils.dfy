/** The workout normaliser (src/lib/utils.ts): `processLoadedWorkout` coerces loosely
    typed exercise and set records into the shape the UI expects, and
    `processWorkoutForPersistence` applies the same coercions to a typed workout and
    returns a JSON copy of the result. `crypto.randomUUID()` is an oracle indexed by the
    position of the record whose id it fills. */
module Utils {
  import opened Js
  import opened Fitness

  /** A value that may or may not be an array (`Array.isArray`). */
  datatype Loose<T> = NotAnArray | AnArray(items: seq<T>)

  /** An exercise record as loaded: its `sets` may be anything. */
  datatype LooseExercise = LooseExercise(id: Value, name: Value, tool: Value, targetMuscleGroup: Value, sets: Loose<IndividualSet>)

  /** Where a fresh id is drawn: the id of exercise `exercise`, or of one of its sets. */
  datatype IdSite = ExerciseSite(exercise: nat) | SetSite(exercise: nat, setIndex: nat)

  type UuidOracle = IdSite -> Uuid

  // ---------------------------------------------------------------- canonical shape

  /** The shape `processLoadedWorkout` gives a set. */
  predicate CanonicalSet(s: IndividualSet) {
    && Truthy(s.id)
    && s.targetWeight.Str?
    && (s.targetReps == Undefined || s.targetReps.Num? || s.targetReps == NaN)
    && s.loggedWeight.Str?
    && (s.loggedReps == Str("") || s.loggedReps.Num? || s.loggedReps == NaN)
    && (Truthy(s.notes) || s.notes == Str(""))
    && (Truthy(s.isCompleted) || s.isCompleted == Bool(false))
  }

  predicate CanonicalExercise(ex: WorkoutExercise) {
    && Truthy(ex.id)
    && (Truthy(ex.tool) || ex.tool == Str(""))
    && (Truthy(ex.targetMuscleGroup) || ex.targetMuscleGroup == Str(""))
    && forall j :: 0 <= j < |ex.sets| ==> CanonicalSet(ex.sets[j])
  }

  predicate Canonical(w: Workout) {
    forall i :: 0 <= i < |w| ==> CanonicalExercise(w[i])
  }

  // ---------------------------------------------------------------- coercions

  /** The `loggedReps` coercion: blank when nullish or whitespace only, otherwise the
      number the trimmed text denotes (possibly NaN). */
  function LoggedRepsValue(v: Value): (r: Value)
    ensures r == Str("") <==> Nullish(v) || Trim(ToString(v)) == ""
    ensures r != Str("") ==> r == StringToNumber(Trim(ToString(v)))
  {
    if Nullish(v) || Trim(ToString(v)) == "" then Str("") else StringToNumber(Trim(ToString(v)))
  }

  /** The per-set coercion (src/lib/utils.ts:25-33). */
  function NormaliseSet(s: IndividualSet, freshId: Uuid): (r: IndividualSet)
    ensures CanonicalSet(r)
    ensures r.setNumber == s.setNumber
    ensures r.id == (if Truthy(s.id) then s.id else Str(freshId))
    ensures r.targetWeight == (if Nullish(s.targetWeight) then Str("") else Str(ToString(s.targetWeight)))
    ensures r.targetReps == (if Nullish(s.targetReps) then Undefined else ToNumber(s.targetReps))
    ensures r.loggedWeight == (if Nullish(s.loggedWeight) then Str("") else Str(ToString(s.loggedWeight)))
    ensures r.loggedReps == LoggedRepsValue(s.loggedReps)
    ensures r.notes == (if Truthy(s.notes) then s.notes else Str(""))
    ensures r.isCompleted == (if Truthy(s.isCompleted) then s.isCompleted else Bool(false))
  {
    s.(id := Or(s.id, Str(freshId)),
       targetWeight := if Nullish(s.targetWeight) then Str("") else Str(ToString(s.targetWeight)),
       targetReps := if Nullish(s.targetReps) then Undefined else ToNumber(s.targetReps),
       loggedWeight := if Nullish(s.loggedWeight) then Str("") else Str(ToString(s.loggedWeight)),
       loggedReps := LoggedRepsValue(s.loggedReps),
       notes := Or(s.notes, Str("")),
       isCompleted := Or(s.isCompleted, Bool(false)))
  }

  /** The per-exercise coercion, for exercise number `i` (src/lib/utils.ts:19-24). */
  function NormaliseExercise(ex: WorkoutExercise, i: nat, uuid: UuidOracle): (r: WorkoutExercise)
    ensures CanonicalExercise(r)
    ensures r.name == ex.name
    ensures r.id == (if Truthy(ex.id) then ex.id else Str(uuid(ExerciseSite(i))))
    ensures r.tool == (if Truthy(ex.tool) then ex.tool else Str(""))
    ensures r.targetMuscleGroup == (if Truthy(ex.targetMuscleGroup) then ex.targetMuscleGroup else Str(""))
    ensures |r.sets| == |ex.sets|
    ensures forall j :: 0 <= j < |ex.sets| ==> r.sets[j] == NormaliseSet(ex.sets[j], uuid(SetSite(i, j)))
  {
    var sets := seq(|ex.sets|, j requires 0 <= j < |ex.sets| => NormaliseSet(ex.sets[j], uuid(SetSite(i, j))));
    assert forall j :: 0 <= j < |sets| ==> sets[j] == NormaliseSet(ex.sets[j], uuid(SetSite(i, j)));
    assert forall j :: 0 <= j < |sets| ==> CanonicalSet(sets[j]);
    ex.(id := Or(ex.id, Str(uuid(ExerciseSite(i)))),
        tool := Or(ex.tool, Str("")),
        targetMuscleGroup := Or(ex.targetMuscleGroup, Str("")),
        sets := sets)
  }

  /** The exercise-by-exercise coercion of a typed workout (the `map` shared by both
      functions of utils.ts and by the page's populate handler). */
  function NormaliseExercises(w: Workout, uuid: UuidOracle): (r: Workout)
    ensures Canonical(r)
    ensures |r| == |w|
    ensures forall i :: 0 <= i < |w| ==> r[i] == NormaliseExercise(w[i], i, uuid)
  {
    seq(|w|, i requires 0 <= i < |w| => NormaliseExercise(w[i], i, uuid))
  }

  /** `{ ...ex, sets: Array.isArray(ex.sets) ? ex.sets : [] }` */
  function SetsOrEmpty(ex: LooseExercise): WorkoutExercise {
    WorkoutExercise(ex.id, ex.name, ex.tool, ex.targetMuscleGroup, if ex.sets.AnArray? then ex.sets.items else [])
  }

  /** processLoadedWorkout (src/lib/utils.ts:17-35). */
  function ProcessLoadedWorkout(w: Loose<LooseExercise>, uuid: UuidOracle): (r: Workout)
    ensures Canonical(r)
    ensures w.NotAnArray? ==> r == []
    ensures w.AnArray? ==> |r| == |w.items|
    ensures w.AnArray? ==> forall i :: 0 <= i < |w.items| ==>
              && r[i].name == w.items[i].name
              && (Truthy(w.items[i].id) ==> r[i].id == w.items[i].id)
              && |r[i].sets| == (if w.items[i].sets.AnArray? then |w.items[i].sets.items| else 0)
    ensures w.AnArray? ==> forall i, j :: 0 <= i < |w.items| && w.items[i].sets.AnArray? && 0 <= j < |w.items[i].sets.items| ==>
              && r[i].sets[j].setNumber == w.items[i].sets.items[j].setNumber
              && (Truthy(w.items[i].sets.items[j].id) ==> r[i].sets[j].id == w.items[i].sets.items[j].id)
    ensures w.AnArray? ==> forall i :: 0 <= i < |w.items| ==> r[i] == NormaliseExercise(SetsOrEmpty(w.items[i]), i, uuid)
  {
    if w.NotAnArray? then []
    else NormaliseExercises(seq(|w.items|, i requires 0 <= i < |w.items| => SetsOrEmpty(w.items[i])), uuid)
  }

  /** A typed workout seen as the loosely typed input of processLoadedWorkout. */
  function Loosen(w: Workout): Loose<LooseExercise> {
    AnArray(seq(|w|, i requires 0 <= i < |w| =>
      LooseExercise(w[i].id, w[i].name, w[i].tool, w[i].targetMuscleGroup, AnArray(w[i].sets))))
  }

  /** processWorkoutForPersistence (src/lib/utils.ts:42-59). */
  function ProcessWorkoutForPersistence(w: Workout, uuid: UuidOracle): (r: Workout)
    ensures NaNFree(r)
    ensures |r| == |w|
    ensures forall i :: 0 <= i < |w| ==> Truthy(r[i].id) && |r[i].sets| == |w[i].sets|
    ensures forall i, j :: 0 <= i < |w| && 0 <= j < |w[i].sets| ==> Truthy(r[i].sets[j].id)
  {
    JsonWorkoutCopy(NormaliseExercises(w, uuid));
    JsonWorkout(NormaliseExercises(w, uuid))
  }

  // ---------------------------------------------------------------- properties

  /** The `loggedReps` coercion leaves blank text, a number and NaN as they are: a
      number's decimal text reads back as the same number. */
  lemma LoggedRepsFixed(v: Value)
    requires v == Str("") || v.Num? || v == NaN
    ensures LoggedRepsValue(v) == v
  {
    if v.Num? {
      IntToStringRoundTrip(v.n);
      IntToStringShape(v.n);
      TrimUnpadded(IntToString(v.n));
    } else if v == NaN {
      assert Trim(ToString(v)) == "NaN";
    }
  }

  /** A canonical set is left as it is: ids are truthy, strings stay strings and numbers
      stay numbers. */
  lemma CanonicalSetFixed(s: IndividualSet, freshId: Uuid)
    requires CanonicalSet(s)
    ensures NormaliseSet(s, freshId) == s
  {
    LoggedRepsFixed(s.loggedReps);
  }

  lemma CanonicalExerciseFixed(ex: WorkoutExercise, i: nat, uuid: UuidOracle)
    requires CanonicalExercise(ex)
    ensures NormaliseExercise(ex, i, uuid) == ex
  {
    var r := NormaliseExercise(ex, i, uuid);
    forall j | 0 <= j < |ex.sets| ensures r.sets[j] == ex.sets[j] {
      CanonicalSetFixed(ex.sets[j], uuid(SetSite(i, j)));
    }
  }

  /** A canonical workout is a fixed point of the coercion, whatever ids the oracle offers. */
  lemma CanonicalFixedPoint(w: Workout, uuid: UuidOracle)
    requires Canonical(w)
    ensures NormaliseExercises(w, uuid) == w
  {
    forall i | 0 <= i < |w| ensures NormaliseExercises(w, uuid)[i] == w[i] {
      CanonicalExerciseFixed(w[i], i, uuid);
    }
  }

  /** Applying processLoadedWorkout to its own output changes nothing. */
  lemma ProcessLoadedIdempotent(w: Loose<LooseExercise>, uuid1: UuidOracle, uuid2: UuidOracle)
    ensures ProcessLoadedWorkout(Loosen(ProcessLoadedWorkout(w, uuid1)), uuid2) == ProcessLoadedWorkout(w, uuid1)
  {
    var r := ProcessLoadedWorkout(w, uuid1);
    LoosenTightens(r, uuid2);
    CanonicalFixedPoint(r, uuid2);
  }

  /** On a typed workout the `Array.isArray` guard never fires: processLoadedWorkout is
      the plain exercise-by-exercise coercion. */
  lemma LoosenTightens(w: Workout, uuid: UuidOracle)
    ensures ProcessLoadedWorkout(Loosen(w), uuid) == NormaliseExercises(w, uuid)
  {
    var items := Loosen(w).items;
    assert seq(|items|, i requires 0 <= i < |items| => SetsOrEmpty(items[i])) == w;
  }

  /** processWorkoutForPersistence is processLoadedWorkout followed by the JSON copy. */
  lemma PersistenceIsLoadedThenCopied(w: Workout, uuid: UuidOracle)
    ensures ProcessWorkoutForPersistence(w, uuid) == JsonWorkout(ProcessLoadedWorkout(Loosen(w), uuid))
  {
    LoosenTightens(w, uuid);
  }

  /** `loggedReps` comes out of processLoadedWorkout as NaN exactly when it is present and
      its text does not parse as a number, and the JSON copy of processWorkoutForPersistence
      then turns it into null. */
  lemma UnparsableRepsPersistAsNull(s: IndividualSet, freshId: Uuid)
    ensures NormaliseSet(s, freshId).loggedReps == NaN <==>
              !Nullish(s.loggedReps) && StringToNumber(Trim(ToString(s.loggedReps))) == NaN
    ensures NormaliseSet(s, freshId).loggedReps == NaN ==> JsonSet(NormaliseSet(s, freshId)).loggedReps == Null
  {
    if !Nullish(s.loggedReps) && StringToNumber(Trim(ToString(s.loggedReps))) == NaN {
      assert Trim(ToString(s.loggedReps)) != "";
    }
  }

  /** Text such as "abc" is one of them. */
  lemma LettersPersistAsNull(s: IndividualSet, freshId: Uuid)
    requires s.loggedReps == Str("abc")
    ensures JsonSet(NormaliseSet(s, freshId)).loggedReps == Null
  {
    assert Trim("abc") == "abc";
    UnparsableRepsPersistAsNull(s, freshId);
  }
}
