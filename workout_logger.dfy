/** The editing handlers of src/components/fitness/WorkoutLogger.tsx. The component
    holds the page's `currentWorkout` state cell; each handler copies the workout,
    changes one slot of the copy and writes the copy back. The new state each handler
    writes is specified by a function of the old state, and the properties of those
    functions are proved as lemmas. */
module WorkoutLogger {
  import opened Js
  import opened Fitness
  import opened Utils
  import Page

  // ================================================================ specification

  /** `handleExerciseDetailChange`'s new workout. */
  function ExerciseChanged(w: Workout, i: nat, f: ExerciseField, v: Value): Workout
    requires i < |w|
  {
    w[i := WithExerciseField(w[i], f, v)]
  }

  /** `handleSetChange`'s new workout. */
  function SetChanged(w: Workout, i: nat, j: nat, f: SetField, v: Value): Workout
    requires i < |w| && j < |w[i].sets|
  {
    w[i := w[i].(sets := w[i].sets[j := WithSetField(w[i].sets[j], f, v)])]
  }

  /** The set `handleAddSet` appends (src/components/fitness/WorkoutLogger.tsx:100-107):
      no target weight or reps, nothing logged. */
  function NewSet(id: Uuid, setNumber: int): IndividualSet {
    IndividualSet(Str(id), Num(setNumber), Undefined, Undefined, Str(""), Str(""), Bool(false), Str(""))
  }

  /** The exercise `handleAddExercise` appends (src/components/fitness/WorkoutLogger.tsx:66-78). */
  function NewExercise(exerciseId: Uuid, setId: Uuid): WorkoutExercise {
    WorkoutExercise(Str(exerciseId), Str("New Exercise"), Str(""), Undefined, [NewSet(setId, 1)])
  }

  function SetAdded(w: Workout, i: nat, setId: Uuid): Workout
    requires i < |w|
  {
    w[i := w[i].(sets := w[i].sets + [NewSet(setId, |w[i].sets| + 1)])]
  }

  /** `s.filter((_, i) => i !== k)` */
  function Without<T>(s: seq<T>, k: nat): (r: seq<T>)
    requires k < |s|
    ensures |r| == |s| - 1
    ensures forall m :: 0 <= m < |r| ==> r[m] == s[if m < k then m else m + 1]
  {
    s[..k] + s[k + 1..]
  }

  /** `sets.map((s, idx) => ({ ...s, setNumber: idx + 1 }))` */
  function Renumbered(sets: seq<IndividualSet>): (r: seq<IndividualSet>)
    ensures |r| == |sets|
    ensures forall k :: 0 <= k < |r| ==> r[k] == sets[k].(setNumber := Num(k + 1))
  {
    seq(|sets|, k requires 0 <= k < |sets| => sets[k].(setNumber := Num(k + 1)))
  }

  /** `handleRemoveExercise` as written: `None` when refused. When the filter empties the
      workout, the refill appends a new exercise to the workout captured before the
      removal (src/components/fitness/WorkoutLogger.tsx:79, 89-90), so the final state
      still holds the removed exercise. */
  function ExerciseRemoved(w: Workout, i: nat, exerciseId: Uuid, setId: Uuid): Option<Workout>
    requires i < |w|
  {
    if |w| <= 1 && |w[i].sets| <= 1 then None
    else
      var updated := Without(w, i);
      if |updated| == 0 then Some(w + [NewExercise(exerciseId, setId)]) else Some(updated)
  }

  /** `handleRemoveExercise` as its refill evidently intends: an emptied workout becomes a
      single new exercise. */
  function ExerciseRemovedIntended(w: Workout, i: nat, exerciseId: Uuid, setId: Uuid): Option<Workout>
    requires i < |w|
  {
    if |w| <= 1 && |w[i].sets| <= 1 then None
    else
      var updated := Without(w, i);
      if |updated| == 0 then Some([NewExercise(exerciseId, setId)]) else Some(updated)
  }

  /** `handleRemoveSet`: `None` when refused; removing an exercise's last set removes the
      exercise (src/components/fitness/WorkoutLogger.tsx:113-131). */
  function SetRemoved(w: Workout, i: nat, j: nat, exerciseId: Uuid, setId: Uuid): Option<Workout>
    requires i < |w| && j < |w[i].sets|
  {
    if |w[i].sets| <= 1 then
      if |w| == 1 then None else ExerciseRemoved(w, i, exerciseId, setId)
    else
      Some(w[i := w[i].(sets := Renumbered(Without(w[i].sets, j)))])
  }

  // ================================================================ the component

  /** The `currentWorkout` cell the handlers read and write. */
  class WorkoutEditor {
    var currentWorkout: Workout

    constructor (w: Workout)
      ensures currentWorkout == w
    {
      currentWorkout := w;
    }

    /** handleExerciseDetailChange (src/components/fitness/WorkoutLogger.tsx:45-51). */
    method HandleExerciseDetailChange(exerciseIndex: nat, field: ExerciseField, value: Value)
      requires exerciseIndex < |currentWorkout|
      modifies this
      ensures currentWorkout == ExerciseChanged(old(currentWorkout), exerciseIndex, field, value)
    {
      var updatedWorkout := currentWorkout;
      var exerciseToUpdate := WithExerciseField(updatedWorkout[exerciseIndex], field, value);
      updatedWorkout := updatedWorkout[exerciseIndex := exerciseToUpdate];
      currentWorkout := updatedWorkout;
    }

    /** handleSetChange (src/components/fitness/WorkoutLogger.tsx:53-63). */
    method HandleSetChange(exerciseIndex: nat, setIndex: nat, field: SetField, value: Value)
      requires exerciseIndex < |currentWorkout| && setIndex < |currentWorkout[exerciseIndex].sets|
      modifies this
      ensures currentWorkout == SetChanged(old(currentWorkout), exerciseIndex, setIndex, field, value)
    {
      var updatedWorkout := currentWorkout;
      var exerciseToUpdate := updatedWorkout[exerciseIndex];
      var sets := exerciseToUpdate.sets;
      var setToUpdate := WithSetField(sets[setIndex], field, value);
      sets := sets[setIndex := setToUpdate];
      exerciseToUpdate := exerciseToUpdate.(sets := sets);
      updatedWorkout := updatedWorkout[exerciseIndex := exerciseToUpdate];
      currentWorkout := updatedWorkout;
    }

    /** handleAddExercise (src/components/fitness/WorkoutLogger.tsx:65-80). */
    method HandleAddExercise(exerciseId: Uuid, setId: Uuid)
      modifies this
      ensures currentWorkout == old(currentWorkout) + [NewExercise(exerciseId, setId)]
    {
      var newExercise := NewExercise(exerciseId, setId);
      currentWorkout := currentWorkout + [newExercise];
    }

    /** handleRemoveExercise (src/components/fitness/WorkoutLogger.tsx:82-92); the refill
        appends to the workout captured when the handler was called. */
    method HandleRemoveExercise(exerciseIndex: nat, exerciseId: Uuid, setId: Uuid) returns (refused: bool)
      requires exerciseIndex < |currentWorkout|
      modifies this
      ensures var r := ExerciseRemoved(old(currentWorkout), exerciseIndex, exerciseId, setId);
              refused == r.None? && currentWorkout == (if r.None? then old(currentWorkout) else r.value)
    {
      var captured := currentWorkout;
      if |captured| <= 1 && |captured[exerciseIndex].sets| <= 1 {
        return true;
      }
      var updatedWorkout := Without(captured, exerciseIndex);
      currentWorkout := updatedWorkout;
      if |updatedWorkout| == 0 {
        currentWorkout := captured + [NewExercise(exerciseId, setId)];
      }
      refused := false;
    }

    /** handleAddSet (src/components/fitness/WorkoutLogger.tsx:94-111). */
    method HandleAddSet(exerciseIndex: nat, setId: Uuid)
      requires exerciseIndex < |currentWorkout|
      modifies this
      ensures currentWorkout == SetAdded(old(currentWorkout), exerciseIndex, setId)
    {
      var updatedWorkout := currentWorkout;
      var exerciseToUpdate := updatedWorkout[exerciseIndex];
      var newSetNumber := |exerciseToUpdate.sets| + 1;
      exerciseToUpdate := exerciseToUpdate.(sets := exerciseToUpdate.sets + [NewSet(setId, newSetNumber)]);
      updatedWorkout := updatedWorkout[exerciseIndex := exerciseToUpdate];
      currentWorkout := updatedWorkout;
    }

    /** handleRemoveSet (src/components/fitness/WorkoutLogger.tsx:113-131). */
    method HandleRemoveSet(exerciseIndex: nat, setIndex: nat, exerciseId: Uuid, setId: Uuid) returns (refused: bool)
      requires exerciseIndex < |currentWorkout| && setIndex < |currentWorkout[exerciseIndex].sets|
      modifies this
      ensures var r := SetRemoved(old(currentWorkout), exerciseIndex, setIndex, exerciseId, setId);
              refused == r.None? && currentWorkout == (if r.None? then old(currentWorkout) else r.value)
    {
      var updatedWorkout := currentWorkout;
      var exerciseToUpdate := updatedWorkout[exerciseIndex];
      if |exerciseToUpdate.sets| <= 1 {
        if |currentWorkout| == 1 {
          return true;
        }
        refused := HandleRemoveExercise(exerciseIndex, exerciseId, setId);
        return;
      }
      exerciseToUpdate := exerciseToUpdate.(sets := Renumbered(Without(exerciseToUpdate.sets, setIndex)));
      updatedWorkout := updatedWorkout[exerciseIndex := exerciseToUpdate];
      currentWorkout := updatedWorkout;
      refused := false;
    }
  }

  // ================================================================ properties

  /** A set edit changes exactly one field of one set: every other exercise, every other
      set and every other field keeps its value. */
  lemma SetChangeFrame(w: Workout, i: nat, j: nat, f: SetField, v: Value)
    requires i < |w| && j < |w[i].sets|
    ensures var r := SetChanged(w, i, j, f, v);
      && |r| == |w|
      && (forall k :: 0 <= k < |w| ==>
            |r[k].sets| == |w[k].sets| && r[k].(sets := w[k].sets) == w[k])
      && (forall k, m, g :: 0 <= k < |w| && 0 <= m < |w[k].sets| ==>
            GetSetField(r[k].sets[m], g) == (if k == i && m == j && g == f then v else GetSetField(w[k].sets[m], g)))
  {
    var r := SetChanged(w, i, j, f, v);
    WithSetFieldFrame(w[i].sets[j], f, v);
    forall k, m, g | 0 <= k < |w| && 0 <= m < |w[k].sets|
      ensures GetSetField(r[k].sets[m], g) == (if k == i && m == j && g == f then v else GetSetField(w[k].sets[m], g))
    {
      if k == i && m == j {
        WithSetFieldFrame(w[i].sets[j], f, v);
      }
    }
  }

  /** An exercise edit changes exactly one field of one exercise and no set. */
  lemma ExerciseChangeFrame(w: Workout, i: nat, f: ExerciseField, v: Value)
    requires i < |w|
    ensures var r := ExerciseChanged(w, i, f, v);
      && |r| == |w|
      && (forall k :: 0 <= k < |w| ==> r[k].sets == w[k].sets)
      && (forall k :: 0 <= k < |w| && k != i ==> r[k] == w[k])
      && (forall g :: GetExerciseField(r[i], g) == (if g == f then v else GetExerciseField(w[i], g)))
  {
    WithExerciseFieldFrame(w[i], f, v);
  }

  /** Adding a set appends one blank, uncompleted set numbered one past the old count;
      everything else is unchanged. */
  lemma AddSetAppends(w: Workout, i: nat, setId: Uuid)
    requires i < |w|
    ensures var r := SetAdded(w, i, setId);
      && |r| == |w|
      && (forall k :: 0 <= k < |w| && k != i ==> r[k] == w[k])
      && r[i].(sets := w[i].sets) == w[i]
      && |r[i].sets| == |w[i].sets| + 1
      && r[i].sets[..|w[i].sets|] == w[i].sets
      && r[i].sets[|w[i].sets|].setNumber == Num(|w[i].sets| + 1)
      && !Truthy(r[i].sets[|w[i].sets|].isCompleted)
      && r[i].sets[|w[i].sets|].loggedWeight == Str("") && r[i].sets[|w[i].sets|].loggedReps == Str("")
  {
    var r := SetAdded(w, i, setId);
    assert r[i].sets == w[i].sets + [NewSet(setId, |w[i].sets| + 1)];
  }

  /** Removing a set from an exercise with two or more deletes exactly that set and
      renumbers the rest 1..N-1 in their order; other exercises are untouched. */
  lemma RemoveSetRenumbers(w: Workout, i: nat, j: nat, exerciseId: Uuid, setId: Uuid)
    requires i < |w| && j < |w[i].sets| && |w[i].sets| >= 2
    ensures SetRemoved(w, i, j, exerciseId, setId).Some?
    ensures var r := SetRemoved(w, i, j, exerciseId, setId).value;
      && |r| == |w|
      && (forall k :: 0 <= k < |w| && k != i ==> r[k] == w[k])
      && r[i].(sets := w[i].sets) == w[i]
      && |r[i].sets| == |w[i].sets| - 1
      && (forall m :: 0 <= m < |r[i].sets| ==>
            r[i].sets[m] == w[i].sets[if m < j then m else m + 1].(setNumber := Num(m + 1)))
  {
  }

  /** The refusal rules of set removal: the only set of the only exercise stays; the
      only set of any other exercise takes its exercise with it. */
  lemma RemoveLastSetRules(w: Workout, i: nat, j: nat, exerciseId: Uuid, setId: Uuid)
    requires i < |w| && j < |w[i].sets| && |w[i].sets| == 1
    ensures |w| == 1 ==> SetRemoved(w, i, j, exerciseId, setId).None?
    ensures |w| > 1 ==> SetRemoved(w, i, j, exerciseId, setId) == Some(Without(w, i))
  {
  }

  /** Exercise removal is refused exactly for the last exercise with at most one set,
      otherwise removes exactly that index; no removal leaves the workout empty. */
  lemma RemoveExerciseRules(w: Workout, i: nat, exerciseId: Uuid, setId: Uuid)
    requires i < |w|
    ensures ExerciseRemoved(w, i, exerciseId, setId).None? <==> |w| == 1 && |w[i].sets| <= 1
    ensures |w| >= 2 ==> ExerciseRemoved(w, i, exerciseId, setId) == Some(Without(w, i))
    ensures ExerciseRemoved(w, i, exerciseId, setId).Some? ==> |ExerciseRemoved(w, i, exerciseId, setId).value| > 0
  {
  }

  /** No removal of a set or an exercise leaves the workout empty. */
  lemma RemovalNeverEmpties(w: Workout, i: nat, j: nat, exerciseId: Uuid, setId: Uuid)
    requires i < |w| && j < |w[i].sets|
    ensures SetRemoved(w, i, j, exerciseId, setId).Some? ==> |SetRemoved(w, i, j, exerciseId, setId).value| > 0
  {
    RemoveExerciseRules(w, i, exerciseId, setId);
  }

  /** Removing the exercise just added gives back the workout it was added to. */
  lemma AddThenRemoveExercise(w: Workout, exerciseId: Uuid, setId: Uuid, exerciseId2: Uuid, setId2: Uuid)
    requires |w| > 0
    ensures ExerciseRemoved(w + [NewExercise(exerciseId, setId)], |w|, exerciseId2, setId2) == Some(w)
  {
    assert Without(w + [NewExercise(exerciseId, setId)], |w|) == w;
  }

  /** On an exercise whose sets are numbered 1..N, removing the set just added gives back
      the workout it was added to. */
  lemma AddThenRemoveSet(w: Workout, i: nat, setId: Uuid, exerciseId2: Uuid, setId2: Uuid)
    requires i < |w| && |w[i].sets| >= 1
    requires forall m :: 0 <= m < |w[i].sets| ==> w[i].sets[m].setNumber == Num(m + 1)
    ensures SetRemoved(SetAdded(w, i, setId), i, |w[i].sets|, exerciseId2, setId2) == Some(w)
  {
    var a := SetAdded(w, i, setId);
    var kept := Renumbered(Without(a[i].sets, |w[i].sets|));
    assert |kept| == |w[i].sets|;
    forall m | 0 <= m < |kept| ensures kept[m] == w[i].sets[m] {
      assert a[i].sets[m] == w[i].sets[m];
    }
    assert kept == w[i].sets;
    assert a[i := a[i].(sets := kept)] == w;
  }

  /** A new exercise is, after the normaliser, exactly the page's default workout entry
      built from the same two ids. */
  lemma NewExerciseNormalisesToDefault(exerciseId: Uuid, setId: Uuid, uuid: UuidOracle)
    ensures NormaliseExercises([NewExercise(exerciseId, setId)], uuid) == Page.DefaultWorkout(exerciseId, setId)
  {
    var n := NormaliseExercise(NewExercise(exerciseId, setId), 0, uuid);
    assert |exerciseId| == 36 && |setId| == 36;
    assert Trim("") == "";
    var d := Page.DefaultWorkout(exerciseId, setId);
    assert n.sets[0] == NormaliseSet(NewSet(setId, 1), uuid(SetSite(0, 0))) == d[0].sets[0];
    assert n.sets == d[0].sets;
    assert NormaliseExercises([NewExercise(exerciseId, setId)], uuid)[0] == n == d[0];
  }

  // ================================================================ finding: the refill

  /** As written, removing the only exercise of a workout (allowed when it has two or more
      sets) leaves that exercise in place and appends a new one. */
  lemma RemoveOnlyExerciseKeepsIt(ex: WorkoutExercise, exerciseId: Uuid, setId: Uuid)
    requires |ex.sets| >= 2
    ensures ExerciseRemoved([ex], 0, exerciseId, setId) == Some([ex, NewExercise(exerciseId, setId)])
  {
    assert Without([ex], 0) == [];
    assert [ex] + [NewExercise(exerciseId, setId)] == [ex, NewExercise(exerciseId, setId)];
  }

  /** The intended removal deletes exactly the chosen exercise, refilling an emptied
      workout with one new exercise; it agrees with the code whenever two or more
      exercises remain to choose from. */
  lemma IntendedRemovalRemoves(w: Workout, i: nat, exerciseId: Uuid, setId: Uuid)
    requires i < |w|
    ensures ExerciseRemovedIntended(w, i, exerciseId, setId).None? <==> |w| == 1 && |w[i].sets| <= 1
    ensures var r := ExerciseRemovedIntended(w, i, exerciseId, setId);
      r.Some? ==>
        && (|w| == 1 ==> r.value == [NewExercise(exerciseId, setId)])
        && (|w| >= 2 ==> r.value == Without(w, i))
    ensures |w| >= 2 ==> ExerciseRemovedIntended(w, i, exerciseId, setId) == ExerciseRemoved(w, i, exerciseId, setId)
  {
  }
}
