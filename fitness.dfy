/** The records of the workout logger (src/types/fitness.ts). Every field of a set or an
    exercise is kept as the JavaScript value it holds, because the normaliser and the
    editing handlers are written against loosely typed data; an optional field that is
    absent holds `Undefined`. */
module Fitness {
  import opened Js

  /** A value returned by `crypto.randomUUID()`: 36 characters, so never empty. */
  type Uuid = s: string | |s| == 36 witness "00000000-0000-0000-0000-000000000000"

  /** IndividualSet */
  datatype IndividualSet = IndividualSet(
    id: Value,
    setNumber: Value,
    targetWeight: Value,
    targetReps: Value,
    loggedWeight: Value,
    loggedReps: Value,
    isCompleted: Value,
    notes: Value)

  /** WorkoutExercise */
  datatype WorkoutExercise = WorkoutExercise(
    id: Value,
    name: Value,
    tool: Value,
    targetMuscleGroup: Value,
    sets: seq<IndividualSet>)

  /** A day's workout: the page's `currentWorkout` and `initialTemplateWorkout`. */
  type Workout = seq<WorkoutExercise>

  /** `keyof IndividualSet` */
  datatype SetField =
    | SetId | SetNumber | TargetWeight | TargetReps | LoggedWeight | LoggedReps | IsCompleted | Notes

  /** The keys of WorkoutExercise that hold a string or a number. */
  datatype ExerciseField = ExerciseId | Name | Tool | TargetMuscleGroup

  /** WorkoutTemplate */
  datatype WorkoutTemplate = WorkoutTemplate(id: string, name: string, dayIdentifier: int, exercises: Workout)

  /** LoggedSetDatabaseEntry: one row of the "Workout History" table as the client reads it.
      `setNumber` is the `SetNumber` key the page's prefill reads although the declared type
      lacks it; `targetGroup` is the declared `TargetGroup` key. */
  datatype HistoryEntry = HistoryEntry(
    id: int,
    week: int,
    day: int,
    targetGroup: Value,
    exercise: Value,
    weight: Value,
    reps: Value,
    completed: Value,
    tool: Value,
    setNumber: Value)

  /** LoggedSetInfo */
  datatype LoggedSetInfo = LoggedSetInfo(
    exerciseName: Value,
    tool: Value,
    setNumber: Value,
    weight: string,
    reps: string,
    notes: string,
    targetMuscleGroup: Value)

  /** WorkoutHistoryItem: one (week, day) session. */
  datatype WorkoutHistoryItem = WorkoutHistoryItem(
    id: string,
    date: string,
    week: int,
    day: int,
    workoutName: string,
    loggedSets: seq<LoggedSetInfo>)

  /** QueuedWorkout */
  datatype QueuedWorkout = QueuedWorkout(week: int, day: int, workout: Workout)

  /** SerializableAppState */
  datatype SerializableAppState = SerializableAppState(
    selectedWeek: int,
    selectedDay: int,
    currentWorkout: Workout,
    loadedTemplateName: Value,
    initialTemplateWorkout: Workout,
    queuedWorkouts: Option<seq<QueuedWorkout>>)

  function GetSetField(s: IndividualSet, f: SetField): Value {
    match f
    case SetId => s.id
    case SetNumber => s.setNumber
    case TargetWeight => s.targetWeight
    case TargetReps => s.targetReps
    case LoggedWeight => s.loggedWeight
    case LoggedReps => s.loggedReps
    case IsCompleted => s.isCompleted
    case Notes => s.notes
  }

  /** `{ ...s, [f]: v }` */
  function WithSetField(s: IndividualSet, f: SetField, v: Value): IndividualSet {
    match f
    case SetId => s.(id := v)
    case SetNumber => s.(setNumber := v)
    case TargetWeight => s.(targetWeight := v)
    case TargetReps => s.(targetReps := v)
    case LoggedWeight => s.(loggedWeight := v)
    case LoggedReps => s.(loggedReps := v)
    case IsCompleted => s.(isCompleted := v)
    case Notes => s.(notes := v)
  }

  function GetExerciseField(ex: WorkoutExercise, f: ExerciseField): Value {
    match f
    case ExerciseId => ex.id
    case Name => ex.name
    case Tool => ex.tool
    case TargetMuscleGroup => ex.targetMuscleGroup
  }

  /** `{ ...ex, [f]: v }` */
  function WithExerciseField(ex: WorkoutExercise, f: ExerciseField, v: Value): WorkoutExercise {
    match f
    case ExerciseId => ex.(id := v)
    case Name => ex.(name := v)
    case Tool => ex.(tool := v)
    case TargetMuscleGroup => ex.(targetMuscleGroup := v)
  }

  /** Writing one field of a set sets exactly that field. */
  lemma WithSetFieldFrame(s: IndividualSet, f: SetField, v: Value)
    ensures GetSetField(WithSetField(s, f, v), f) == v
    ensures forall g :: g != f ==> GetSetField(WithSetField(s, f, v), g) == GetSetField(s, g)
  {
  }

  /** Writing one field of an exercise sets exactly that field and keeps its sets. */
  lemma WithExerciseFieldFrame(ex: WorkoutExercise, f: ExerciseField, v: Value)
    ensures GetExerciseField(WithExerciseField(ex, f, v), f) == v
    ensures forall g :: g != f ==> GetExerciseField(WithExerciseField(ex, f, v), g) == GetExerciseField(ex, g)
    ensures WithExerciseField(ex, f, v).sets == ex.sets
  {
  }

  /** A workout after `JSON.parse(JSON.stringify(w))`. */
  function JsonSet(s: IndividualSet): IndividualSet {
    IndividualSet(JsonValue(s.id), JsonValue(s.setNumber), JsonValue(s.targetWeight), JsonValue(s.targetReps),
                  JsonValue(s.loggedWeight), JsonValue(s.loggedReps), JsonValue(s.isCompleted), JsonValue(s.notes))
  }

  function JsonExercise(ex: WorkoutExercise): WorkoutExercise {
    WorkoutExercise(JsonValue(ex.id), JsonValue(ex.name), JsonValue(ex.tool), JsonValue(ex.targetMuscleGroup),
                    seq(|ex.sets|, j requires 0 <= j < |ex.sets| => JsonSet(ex.sets[j])))
  }

  function JsonWorkout(w: Workout): Workout {
    seq(|w|, i requires 0 <= i < |w| => JsonExercise(w[i]))
  }

  /** No field of the workout holds NaN. */
  predicate NaNFree(w: Workout) {
    forall i, j :: 0 <= i < |w| && 0 <= j < |w[i].sets| ==>
      w[i].sets[j].loggedReps != NaN && w[i].sets[j].targetReps != NaN &&
      w[i].sets[j].setNumber != NaN && w[i].sets[j].id != NaN &&
      w[i].sets[j].targetWeight != NaN && w[i].sets[j].loggedWeight != NaN &&
      w[i].sets[j].isCompleted != NaN && w[i].sets[j].notes != NaN
  }

  /** The JSON deep copy keeps the shape and every value except NaN, which becomes null;
      a NaN-free workout is copied exactly. */
  lemma JsonWorkoutCopy(w: Workout)
    ensures |JsonWorkout(w)| == |w|
    ensures forall i :: 0 <= i < |w| ==> |JsonWorkout(w)[i].sets| == |w[i].sets|
    ensures NaNFree(JsonWorkout(w))
    ensures NaNFree(w) && (forall i :: 0 <= i < |w| ==>
              w[i].id != NaN && w[i].name != NaN && w[i].tool != NaN && w[i].targetMuscleGroup != NaN)
            ==> JsonWorkout(w) == w
  {
    if NaNFree(w) && (forall i :: 0 <= i < |w| ==>
              w[i].id != NaN && w[i].name != NaN && w[i].tool != NaN && w[i].targetMuscleGroup != NaN) {
      forall i | 0 <= i < |w| ensures JsonExercise(w[i]) == w[i] {
        assert forall j :: 0 <= j < |w[i].sets| ==> JsonSet(w[i].sets[j]) == w[i].sets[j];
      }
    }
  }

  /** Copying a copy gives the copy: after one round trip nothing holds NaN. */
  lemma JsonWorkoutIdempotent(w: Workout)
    ensures JsonWorkout(JsonWorkout(w)) == JsonWorkout(w)
  {
    JsonWorkoutCopy(w);
    JsonWorkoutCopy(JsonWorkout(w));
  }
}
