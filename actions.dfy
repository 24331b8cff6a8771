/** The server actions of src/lib/actions.ts with the Supabase calls taken out: the
    grouping of "Templates" rows into exercises inside `loadWorkoutTemplate`, and the
    flattening of a workout into "Workout History" rows inside `logWorkout`. What the
    remote store answers is a parameter. */
module Actions {
  import opened Js
  import opened Fitness

  // ================================================================ loadWorkoutTemplate

  /** One row of the "Templates" query (`select('Exercise, Tool')`). */
  datatype TemplateRow = TemplateRow(exercise: Value, tool: Value)

  /** What the query answers: an error, or the rows (no data counts as no rows). */
  datatype TemplateQuery = QueryFailed | QueryRows(rows: seq<TemplateRow>)

  /** `${exerciseName}-${toolName || 'notool'}` */
  function ExerciseKey(row: TemplateRow): string {
    ToString(row.exercise) + "-" + (if Truthy(row.tool) then ToString(row.tool) else "notool")
  }

  /** The keys of `rows` in order of first appearance: the insertion order of `exercisesMap`. */
  function DistinctKeys(rows: seq<TemplateRow>): seq<string> {
    if rows == [] then []
    else
      var ks := DistinctKeys(rows[..|rows| - 1]);
      var k := ExerciseKey(rows[|rows| - 1]);
      if k in ks then ks else ks + [k]
  }

  /** No key is listed twice. */
  lemma {:induction false} DistinctKeysUnique(rows: seq<TemplateRow>)
    ensures forall a, b :: 0 <= a < b < |DistinctKeys(rows)| ==> DistinctKeys(rows)[a] != DistinctKeys(rows)[b]
  {
    if rows != [] {
      var ks := DistinctKeys(rows[..|rows| - 1]);
      DistinctKeysUnique(rows[..|rows| - 1]);
      var k := ExerciseKey(rows[|rows| - 1]);
      if k in ks {
        assert DistinctKeys(rows) == ks;
      } else {
        var ks' := ks + [k];
        assert DistinctKeys(rows) == ks';
        forall a, b | 0 <= a < b < |ks'| ensures ks'[a] != ks'[b] {
          assert ks'[a] == ks[a];
          if b == |ks| {
            assert ks'[b] == k && ks[a] in ks;
          } else {
            assert ks'[b] == ks[b];
          }
        }
      }
    }
  }

  /** A key is listed exactly when some row carries it. */
  lemma {:induction false} DistinctKeysMembers(rows: seq<TemplateRow>)
    ensures forall k :: k in DistinctKeys(rows) <==> exists r :: 0 <= r < |rows| && ExerciseKey(rows[r]) == k
  {
    if rows != [] {
      var p := rows[..|rows| - 1];
      var last := ExerciseKey(rows[|rows| - 1]);
      DistinctKeysMembers(p);
      forall k ensures k in DistinctKeys(rows) <==> exists r :: 0 <= r < |rows| && ExerciseKey(rows[r]) == k {
        if k in DistinctKeys(p) {
          var r :| 0 <= r < |p| && ExerciseKey(p[r]) == k;
          assert rows[r] == p[r];
        } else if k == last {
          assert ExerciseKey(rows[|rows| - 1]) == k;
        } else {
          forall r | 0 <= r < |rows| ensures ExerciseKey(rows[r]) != k {
            if r < |p| {
              assert rows[r] == p[r];
            }
          }
        }
      }
    }
  }

  /** How many rows carry key `k`. */
  function CountKey(rows: seq<TemplateRow>, k: string): nat {
    if rows == [] then 0
    else CountKey(rows[..|rows| - 1], k) + (if ExerciseKey(rows[|rows| - 1]) == k then 1 else 0)
  }

  /** The row that first carries key `k`. */
  function FirstWith(rows: seq<TemplateRow>, k: string): (f: nat)
    requires k in DistinctKeys(rows)
    ensures f < |rows| && ExerciseKey(rows[f]) == k
  {
    var p := rows[..|rows| - 1];
    if k in DistinctKeys(p) then
      var f := FirstWith(p, k);
      assert rows[f] == p[f];
      f
    else |rows| - 1
  }

  /** No row before FirstWith(rows, k) carries `k`. */
  lemma {:induction false} FirstWithIsFirst(rows: seq<TemplateRow>, k: string)
    requires k in DistinctKeys(rows)
    ensures forall r :: 0 <= r < FirstWith(rows, k) ==> ExerciseKey(rows[r]) != k
  {
    var p := rows[..|rows| - 1];
    if k in DistinctKeys(p) {
      FirstWithIsFirst(p, k);
      assert forall r :: 0 <= r < |p| ==> rows[r] == p[r];
    } else {
      DistinctKeysMembers(p);
      assert forall r :: 0 <= r < |p| ==> rows[r] == p[r];
    }
  }

  /** A set as loadWorkoutTemplate creates it: blank, uncompleted, numbered `n`. */
  predicate BlankTemplateSet(s: IndividualSet, n: nat) {
    && Truthy(s.id)
    && s.setNumber == Num(n)
    && s.targetWeight == Str("")
    && s.targetReps == Undefined
    && s.loggedWeight == Str("")
    && s.loggedReps == Str("")
    && s.isCompleted == Bool(false)
    && s.notes == Str("")
  }

  /** The exercise loadWorkoutTemplate builds for key `k`: named after the first row with
      that key, one blank set per row with the key, numbered 1, 2, ... in row order. */
  predicate GroupedExercise(rows: seq<TemplateRow>, k: string, ex: WorkoutExercise)
    requires k in DistinctKeys(rows)
  {
    var first := rows[FirstWith(rows, k)];
    && Truthy(ex.id)
    && ex.name == first.exercise
    && ex.tool == Or(first.tool, Str(""))
    && ex.targetMuscleGroup == Str("")
    && |ex.sets| == CountKey(rows, k)
    && forall j :: 0 <= j < |ex.sets| ==> BlankTemplateSet(ex.sets[j], j + 1)
  }

  /** The number of sets of a workout. */
  function TotalSets(w: Workout): nat {
    if w == [] then 0 else TotalSets(w[..|w| - 1]) + |w[|w| - 1].sets|
  }

  /** The sets held under the keys `order` of the map `m`. */
  function SumSets(order: seq<string>, m: map<string, WorkoutExercise>): nat
    requires forall k :: k in order ==> k in m
  {
    if order == [] then 0 else SumSets(order[..|order| - 1], m) + |m[order[|order| - 1]].sets|
  }

  /** One step of the `forEach`: the count of the new row's key grows by one, no other count changes. */
  lemma PrefixCount(rows: seq<TemplateRow>, i: nat, k': string)
    requires i < |rows|
    ensures CountKey(rows[..i + 1], k') == CountKey(rows[..i], k') + (if k' == ExerciseKey(rows[i]) then 1 else 0)
  {
    assert rows[..i + 1][..i] == rows[..i];
  }

  /** One step of the `forEach` keeps the exercise of a key the row does not carry. */
  lemma GroupedOther(rows: seq<TemplateRow>, i: nat, k': string, ex: WorkoutExercise)
    requires i < |rows| && k' in DistinctKeys(rows[..i]) && k' != ExerciseKey(rows[i])
    requires GroupedExercise(rows[..i], k', ex)
    ensures k' in DistinctKeys(rows[..i + 1]) && GroupedExercise(rows[..i + 1], k', ex)
  {
    var p, q := rows[..i], rows[..i + 1];
    assert q[..i] == p;
    PrefixCount(rows, i, k');
    assert q[FirstWith(q, k')] == p[FirstWith(p, k')];
  }

  /** One step of the `forEach` adds the next set to the exercise of a key seen before. */
  lemma GroupedAgain(rows: seq<TemplateRow>, i: nat, ex: WorkoutExercise, setId: Uuid)
    requires i < |rows| && ExerciseKey(rows[i]) in DistinctKeys(rows[..i])
    requires GroupedExercise(rows[..i], ExerciseKey(rows[i]), ex)
    ensures var k := ExerciseKey(rows[i]);
      k in DistinctKeys(rows[..i + 1]) &&
      GroupedExercise(rows[..i + 1], k, ex.(sets := ex.sets + [NewTemplateSet(setId, |ex.sets| + 1)]))
  {
    var p, q, k := rows[..i], rows[..i + 1], ExerciseKey(rows[i]);
    assert q[..i] == p;
    PrefixCount(rows, i, k);
    assert q[FirstWith(q, k)] == p[FirstWith(p, k)];
  }

  /** One step of the `forEach` opens the exercise of a key not seen before. */
  lemma GroupedFirst(rows: seq<TemplateRow>, i: nat, exId: Uuid, setId: Uuid)
    requires i < |rows| && ExerciseKey(rows[i]) !in DistinctKeys(rows[..i])
    ensures var k := ExerciseKey(rows[i]);
      k in DistinctKeys(rows[..i + 1]) &&
      GroupedExercise(rows[..i + 1], k, WorkoutExercise(Str(exId), rows[i].exercise, Or(rows[i].tool, Str("")), Str(""), [NewTemplateSet(setId, 1)]))
  {
    var p, q, k := rows[..i], rows[..i + 1], ExerciseKey(rows[i]);
    assert q[..i] == p;
    PrefixCount(rows, i, k);
    CountAbsent(p, k);
    assert FirstWith(q, k) == i;
    assert q[i] == rows[i];
  }

  /** Replacing the exercise under one key changes the sum by the difference of set counts. */
  lemma {:induction false} SumSetsUpdate(order: seq<string>, m: map<string, WorkoutExercise>, k: string, ex: WorkoutExercise)
    requires forall k' :: k' in order ==> k' in m
    requires forall a, b :: 0 <= a < b < |order| ==> order[a] != order[b]
    ensures k in order ==> SumSets(order, m[k := ex]) + |m[k].sets| == SumSets(order, m) + |ex.sets|
    ensures k !in order ==> SumSets(order, m[k := ex]) == SumSets(order, m)
  {
    if order != [] {
      var p := order[..|order| - 1];
      assert forall a, b :: 0 <= a < b < |p| ==> p[a] != p[b];
      assert k == order[|order| - 1] ==> k !in p;
      SumSetsUpdate(p, m, k, ex);
    }
  }

  lemma {:induction false} SumSetsIsTotal(order: seq<string>, m: map<string, WorkoutExercise>)
    requires forall k :: k in order ==> k in m
    ensures TotalSets(seq(|order|, e requires 0 <= e < |order| => m[order[e]])) == SumSets(order, m)
  {
    var w := seq(|order|, e requires 0 <= e < |order| => m[order[e]]);
    if order != [] {
      var p := order[..|order| - 1];
      SumSetsIsTotal(p, m);
      assert w[..|w| - 1] == seq(|p|, e requires 0 <= e < |p| => m[p[e]]);
    }
  }

  /** The set loadWorkoutTemplate pushes as set number `n` of an exercise. */
  function NewTemplateSet(id: Uuid, n: nat): (s: IndividualSet)
    ensures BlankTemplateSet(s, n)
  {
    IndividualSet(Str(id), Num(n), Str(""), Undefined, Str(""), Str(""), Bool(false), Str(""))
  }

  /** The state of the `forEach`: the keys of `exercisesMap` in insertion order, the map,
      and how many ids have been drawn. */
  datatype Grouping = Grouping(order: seq<string>, exercises: map<string, WorkoutExercise>, calls: nat)

  /** `if (!exercisesMap.has(exerciseKey)) exercisesMap.set(...)`: a new key opens an
      exercise with no sets, and one id is drawn for it. */
  function OpenIfNew(g: Grouping, row: TemplateRow, uuid: nat -> Uuid): (r: Grouping)
    ensures ExerciseKey(row) in r.exercises
  {
    var key := ExerciseKey(row);
    if key in g.exercises then g
    else Grouping(g.order + [key], g.exercises[key := WorkoutExercise(Str(uuid(g.calls)), row.exercise, Or(row.tool, Str("")), Str(""), [])], g.calls + 1)
  }

  /** `currentExercise.sets.push(...)`: the key's exercise receives the next blank set, and
      one id is drawn for it. */
  function PushSet(g: Grouping, key: string, uuid: nat -> Uuid): Grouping
    requires key in g.exercises
  {
    var ex := g.exercises[key];
    Grouping(g.order, g.exercises[key := ex.(sets := ex.sets + [NewTemplateSet(uuid(g.calls), |ex.sets| + 1)])], g.calls + 1)
  }

  /** The `forEach` body for one row. */
  function GroupRow(g: Grouping, row: TemplateRow, uuid: nat -> Uuid): Grouping {
    PushSet(OpenIfNew(g, row, uuid), ExerciseKey(row), uuid)
  }

  /** The `forEach` over all rows, from an empty map. */
  function GroupRows(rows: seq<TemplateRow>, uuid: nat -> Uuid): Grouping {
    if rows == [] then Grouping([], map[], 0)
    else GroupRow(GroupRows(rows[..|rows| - 1], uuid), rows[|rows| - 1], uuid)
  }

  /** The `forEach` after the first `n` rows. */
  function GroupRowsUpTo(rows: seq<TemplateRow>, n: nat, uuid: nat -> Uuid): Grouping
    requires n <= |rows|
  {
    if n == 0 then Grouping([], map[], 0) else GroupRow(GroupRowsUpTo(rows, n - 1, uuid), rows[n - 1], uuid)
  }

  /** Stopping after `n` rows is grouping the first `n` rows. */
  lemma {:induction false} GroupRowsPrefix(rows: seq<TemplateRow>, n: nat, uuid: nat -> Uuid)
    requires n <= |rows|
    ensures GroupRowsUpTo(rows, n, uuid) == GroupRows(rows[..n], uuid)
  {
    if n > 0 {
      GroupRowsPrefix(rows, n - 1, uuid);
      var q := rows[..n];
      assert q[..|q| - 1] == rows[..n - 1] && q[|q| - 1] == rows[n - 1];
    }
  }

  /** The map's keys are the rows' distinct keys, in order of first appearance, and one id
      is drawn per row and per exercise. */
  lemma {:induction false} GroupRowsKeys(rows: seq<TemplateRow>, uuid: nat -> Uuid)
    ensures GroupRows(rows, uuid).order == DistinctKeys(rows)
    ensures forall k :: k in GroupRows(rows, uuid).exercises <==> k in DistinctKeys(rows)
    ensures GroupRows(rows, uuid).calls == |rows| + |DistinctKeys(rows)|
  {
    if rows != [] {
      GroupRowsKeys(rows[..|rows| - 1], uuid);
    }
  }

  /** The exercise the map holds under each key is the grouped exercise of that key. */
  lemma {:induction false} GroupRowsAt(rows: seq<TemplateRow>, uuid: nat -> Uuid, k: string)
    requires k in DistinctKeys(rows)
    ensures k in GroupRows(rows, uuid).exercises
    ensures GroupedExercise(rows, k, GroupRows(rows, uuid).exercises[k])
  {
    var i := |rows| - 1;
    var p := rows[..i];
    var g := GroupRows(p, uuid);
    var key := ExerciseKey(rows[i]);
    GroupRowsKeys(p, uuid);
    GroupRowsKeys(rows, uuid);
    assert rows[..i + 1] == rows;
    if k != key {
      GroupRowsAt(p, uuid, k);
      GroupedOther(rows, i, k, g.exercises[k]);
    } else if key in DistinctKeys(p) {
      GroupRowsAt(p, uuid, k);
      GroupedAgain(rows, i, g.exercises[k], uuid(g.calls));
    } else {
      GroupedFirst(rows, i, uuid(g.calls), uuid(g.calls + 1));
      assert [] + [NewTemplateSet(uuid(g.calls + 1), 1)] == [NewTemplateSet(uuid(g.calls + 1), 1)];
    }
  }

  /** The exercises of the map hold one set per row. */
  lemma {:induction false} GroupRowsSize(rows: seq<TemplateRow>, uuid: nat -> Uuid)
    ensures forall k :: k in DistinctKeys(rows) ==> k in GroupRows(rows, uuid).exercises
    ensures SumSets(DistinctKeys(rows), GroupRows(rows, uuid).exercises) == |rows|
  {
    GroupRowsKeys(rows, uuid);
    if rows != [] {
      var i := |rows| - 1;
      var p := rows[..i];
      GroupRowsKeys(p, uuid);
      GroupRowsSize(p, uuid);
      DistinctKeysUnique(p);
      PushSetSize(GroupRows(p, uuid), rows[i], uuid);
    }
  }

  /** One row adds one set to the sets held under the keys. */
  lemma PushSetSize(g: Grouping, row: TemplateRow, uuid: nat -> Uuid)
    requires forall k :: k in g.order <==> k in g.exercises
    requires forall a, b :: 0 <= a < b < |g.order| ==> g.order[a] != g.order[b]
    ensures var g' := GroupRow(g, row, uuid); forall k :: k in g'.order ==> k in g'.exercises
    ensures var g' := GroupRow(g, row, uuid); SumSets(g'.order, g'.exercises) == SumSets(g.order, g.exercises) + 1
  {
    var key := ExerciseKey(row);
    var g1 := OpenIfNew(g, row, uuid);
    var g' := PushSet(g1, key, uuid);
    var ex := g'.exercises[key];
    if key in g.exercises {
      SumSetsUpdate(g.order, g.exercises, key, ex);
    } else {
      assert g'.exercises == g.exercises[key := ex];
      SumSetsUpdate(g.order, g.exercises, key, ex);
      assert g'.order[..|g.order|] == g.order;
    }
  }

  /** The values of `m` under the keys `order`, in that order: `Array.from(map.values())`. */
  function Values(order: seq<string>, m: map<string, WorkoutExercise>): (w: Workout)
    requires forall k :: k in order ==> k in m
    ensures |w| == |order| && forall e :: 0 <= e < |order| ==> w[e] == m[order[e]]
  {
    seq(|order|, e requires 0 <= e < |order| => m[order[e]])
  }

  /** The map's values in insertion order are one grouped exercise per distinct key, and
      together they hold one set per row. */
  lemma GroupedValues(rows: seq<TemplateRow>, uuid: nat -> Uuid)
    ensures var g := GroupRows(rows, uuid); forall k :: k in g.order ==> k in g.exercises
    ensures var g := GroupRows(rows, uuid); var w := Values(g.order, g.exercises);
      && |w| == |DistinctKeys(rows)|
      && (forall e :: 0 <= e < |w| ==> GroupedExercise(rows, DistinctKeys(rows)[e], w[e]))
      && TotalSets(w) == |rows|
  {
    var g := GroupRows(rows, uuid);
    GroupRowsKeys(rows, uuid);
    GroupRowsSize(rows, uuid);
    forall e | 0 <= e < |g.order| ensures GroupedExercise(rows, g.order[e], g.exercises[g.order[e]]) {
      GroupRowsAt(rows, uuid, g.order[e]);
    }
    SumSetsIsTotal(g.order, g.exercises);
  }

  /** The `forEach` callback of loadWorkoutTemplate (src/lib/actions.ts:33-60) on the
      state of the `forEach`: the keys of `exercisesMap` in insertion order, the map
      itself, and how many ids were drawn. */
  method GroupTemplateRow(order: seq<string>, exercisesMap: map<string, WorkoutExercise>, calls: nat,
                          row: TemplateRow, uuid: nat -> Uuid)
    returns (order': seq<string>, exercisesMap': map<string, WorkoutExercise>, calls': nat)
    ensures Grouping(order', exercisesMap', calls') == GroupRow(Grouping(order, exercisesMap, calls), row, uuid)
  {
    order', exercisesMap', calls' := order, exercisesMap, calls;
    var key := ExerciseKey(row);
    if key !in exercisesMap' {
      exercisesMap' := exercisesMap'[key := WorkoutExercise(Str(uuid(calls')), row.exercise, Or(row.tool, Str("")), Str(""), [])];
      calls' := calls' + 1;
      order' := order' + [key];
    }
    assert Grouping(order', exercisesMap', calls') == OpenIfNew(Grouping(order, exercisesMap, calls), row, uuid);
    var current := exercisesMap'[key];
    var newSet := NewTemplateSet(uuid(calls'), |current.sets| + 1);
    calls' := calls' + 1;
    exercisesMap' := exercisesMap'[key := current.(sets := current.sets + [newSet])];
  }

  /** The `forEach` over all rows, from an empty map. */
  method GroupTemplateRows(rows: seq<TemplateRow>, uuid: nat -> Uuid)
    returns (order: seq<string>, exercisesMap: map<string, WorkoutExercise>, calls: nat)
    ensures Grouping(order, exercisesMap, calls) == GroupRowsUpTo(rows, |rows|, uuid)
  {
    order, exercisesMap, calls := [], map[], 0;
    for i := 0 to |rows|
      invariant Grouping(order, exercisesMap, calls) == GroupRowsUpTo(rows, i, uuid)
    {
      order, exercisesMap, calls := GroupTemplateRow(order, exercisesMap, calls, rows[i], uuid);
    }
  }

  /** loadWorkoutTemplate (src/lib/actions.ts:13-68) with the query's answer as `query`,
      `uuid(c)` the `c`-th id drawn while grouping and `templateUuid` the template's own. */
  method LoadWorkoutTemplate(day: int, query: TemplateQuery, uuid: nat -> Uuid, templateUuid: Uuid)
    returns (r: Option<WorkoutTemplate>)
    ensures r.None? <==> query.QueryFailed? || |query.rows| == 0
    ensures r.Some? ==> var rows := query.rows; var t := r.value;
      && t.id == "supabase-day-" + IntToString(day) + "-" + templateUuid
      && t.name == "Day " + IntToString(day) + " Workout"
      && t.dayIdentifier == day
      && |t.exercises| == |DistinctKeys(rows)|
      && (forall e :: 0 <= e < |t.exercises| ==> GroupedExercise(rows, DistinctKeys(rows)[e], t.exercises[e]))
      && TotalSets(t.exercises) == |rows|
  {
    if query.QueryFailed? {
      return None;
    }
    var rows := query.rows;
    if |rows| == 0 {
      return None;
    }
    var order, exercisesMap, _ := GroupTemplateRows(rows, uuid);
    GroupRowsPrefix(rows, |rows|, uuid);
    assert rows[..|rows|] == rows;
    GroupedValues(rows, uuid);
    var exercises := Values(order, exercisesMap);
    r := Some(WorkoutTemplate("supabase-day-" + IntToString(day) + "-" + templateUuid,
                              "Day " + IntToString(day) + " Workout", day, exercises));
  }

  lemma {:induction false} CountAbsent(rows: seq<TemplateRow>, k: string)
    requires k !in DistinctKeys(rows)
    ensures CountKey(rows, k) == 0
  {
    if rows != [] {
      var p := rows[..|rows| - 1];
      assert forall r :: 0 <= r < |p| ==> p[r] == rows[r];
      CountAbsent(p, k);
    }
  }

  // ================================================================ logWorkout

  /** One object of `setsToInsert`; `completed` is the `Completed` column. */
  datatype InsertRow = InsertRow(
    week: int, day: int, targetGroup: Value, exercise: Value,
    weight: Option<int>, reps: Option<int>, completed: bool, tool: Value)

  /** What the insert answers. */
  datatype InsertOutcome = InsertOk | InsertError(message: string)

  /** `{ success, loggedSetsCount, error? }` */
  datatype LogResult = LogResult(success: bool, loggedSetsCount: int, error: Option<string>)

  /** `isNaN(Number(String(v).trim())) ? null : Number(...)` */
  function NumberOrNull(v: Value): (r: Option<int>)
    ensures r.None? <==> StringToNumber(Trim(ToString(v))) == NaN
    ensures r.Some? ==> StringToNumber(Trim(ToString(v))) == Num(r.value)
  {
    match StringToNumber(Trim(ToString(v)))
    case Num(n) => Some(n)
    case _ => None
  }

  /** The history row of a completed set of `ex`. */
  function RowFor(week: int, day: int, ex: WorkoutExercise, s: IndividualSet): InsertRow {
    InsertRow(week, day, Or(ex.targetMuscleGroup, Null), ex.name,
              NumberOrNull(s.loggedWeight), NumberOrNull(s.loggedReps), true, Or(ex.tool, Null))
  }

  /** How many of the sets are completed (truthy `isCompleted`). */
  function CompletedIn(sets: seq<IndividualSet>): nat {
    if sets == [] then 0
    else CompletedIn(sets[..|sets| - 1]) + (if Truthy(sets[|sets| - 1].isCompleted) then 1 else 0)
  }

  function CompletedCount(w: Workout): nat {
    if w == [] then 0 else CompletedCount(w[..|w| - 1]) + CompletedIn(w[|w| - 1].sets)
  }

  /** A row logged for a completed set of `ex` on week `week`, day `day`. */
  predicate LoggedFor(week: int, day: int, ex: WorkoutExercise, row: InsertRow) {
    row.completed && row.week == week && row.day == day && row.exercise == ex.name && row.tool == Or(ex.tool, Null)
  }

  /** The rows for the completed sets among the first `n` sets of `ex`, in set order. */
  function SetRows(week: int, day: int, ex: WorkoutExercise, n: nat): (rows: seq<InsertRow>)
    requires n <= |ex.sets|
    ensures |rows| == CompletedIn(ex.sets[..n])
    ensures forall k :: 0 <= k < |rows| ==> LoggedFor(week, day, ex, rows[k])
  {
    if n == 0 then []
    else
      assert ex.sets[..n][..n - 1] == ex.sets[..n - 1];
      var s := ex.sets[n - 1];
      assert LoggedFor(week, day, ex, RowFor(week, day, ex, s));
      SetRows(week, day, ex, n - 1) + (if Truthy(s.isCompleted) then [RowFor(week, day, ex, s)] else [])
  }

  /** The rows logWorkout inserts: one per completed set, exercise by exercise. */
  function LogRows(week: int, day: int, w: Workout): (rows: seq<InsertRow>)
    ensures |rows| == CompletedCount(w)
    ensures forall k :: 0 <= k < |rows| ==> rows[k].completed && rows[k].week == week && rows[k].day == day
  {
    if w == [] then []
    else
      var ex := w[|w| - 1];
      assert ex.sets[..|ex.sets|] == ex.sets;
      LogRows(week, day, w[..|w| - 1]) + SetRows(week, day, ex, |ex.sets|)
  }

  /** logWorkout (src/lib/actions.ts:70-111). `sent` is what is handed to the insert:
      nothing when no set is completed; `insert` is what the insert answers. */
  method LogWorkout(week: int, day: int, w: Workout, insert: InsertOutcome)
    returns (result: LogResult, sent: Option<seq<InsertRow>>)
    ensures sent == (if CompletedCount(w) == 0 then None else Some(LogRows(week, day, w)))
    ensures CompletedCount(w) == 0 ==> result == LogResult(true, 0, Some("No completed sets to log."))
    ensures CompletedCount(w) > 0 && insert.InsertError? ==>
              result == LogResult(false, 0, Some("Supabase error: " + insert.message))
    ensures CompletedCount(w) > 0 && insert.InsertOk? ==> result == LogResult(true, CompletedCount(w), None)
  {
    var loggedSetsCount := 0;
    var setsToInsert: seq<InsertRow> := [];
    for i := 0 to |w|
      invariant setsToInsert == LogRows(week, day, w[..i])
      invariant loggedSetsCount == |setsToInsert|
    {
      var exercise := w[i];
      for j := 0 to |exercise.sets|
        invariant setsToInsert == LogRows(week, day, w[..i]) + SetRows(week, day, exercise, j)
        invariant loggedSetsCount == |setsToInsert|
      {
        var s := exercise.sets[j];
        if Truthy(s.isCompleted) {
          setsToInsert := setsToInsert + [RowFor(week, day, exercise, s)];
          loggedSetsCount := loggedSetsCount + 1;
        }
      }
      assert w[..i + 1][..i] == w[..i];
    }
    assert w[..|w|] == w;
    if loggedSetsCount == 0 {
      return LogResult(true, 0, Some("No completed sets to log.")), None;
    }
    sent := Some(setsToInsert);
    match insert {
      case InsertError(message) =>
        result := LogResult(false, 0, Some("Supabase error: " + message));
      case InsertOk =>
        result := LogResult(true, loggedSetsCount, None);
    }
  }

  /** How weights and reps are stored: a number is stored as itself, blank text as 0
      (`Number("")` is 0) and text that is not a number, or a missing value, as null. */
  lemma StoredNumbers(n: int)
    ensures NumberOrNull(Num(n)) == Some(n)
    ensures NumberOrNull(Str(IntToString(n))) == Some(n)
  {
    IntToStringRoundTrip(n);
    TrimUnpadded(IntToString(n));
  }

  /** Any text made of whitespace only, the empty text included, is stored as 0. */
  lemma StoredBlank(s: string)
    requires forall i :: 0 <= i < |s| ==> IsSpace(s[i])
    ensures NumberOrNull(Str(s)) == Some(0)
  {
    TrimBlank(s);
  }

  /** Blank text is stored as 0; a missing value and text with a unit, as null. */
  lemma StoredText()
    ensures NumberOrNull(Str("")) == Some(0)
    ensures NumberOrNull(Str("  ")) == Some(0)
    ensures NumberOrNull(Undefined) == None
    ensures NumberOrNull(Str("50kg")) == None
  {
    assert Trim("undefined") == "undefined";
    assert Trim("50kg") == "50kg";
  }

  /** A history row as the "Workout History" query later returns it for an inserted row:
      the target group is stored under the column "Target Group", not the `TargetGroup`
      key the client type declares, and no `SetNumber` is stored. */
  function StoredEntry(row: InsertRow, id: int): HistoryEntry {
    HistoryEntry(id, row.week, row.day, Undefined, row.exercise,
                 if row.weight.Some? then Num(row.weight.value) else Null,
                 if row.reps.Some? then Num(row.reps.value) else Null,
                 Bool(row.completed), row.tool, Undefined)
  }
}
