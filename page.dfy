/** The page-level rules of src/app/page.tsx: the default blank workout, the template
    preparation and history prefill of `fetchTemplateForDay`, reset-to-template, the
    log-workout preconditions, and the one-shot `justLoadedStateRef` guard that decides
    whether a change of day fetches a template. Each asynchronous handler is split into
    the part that runs before its `await` and the part that runs after it, so that the
    day-change effect can run in between. */
module Page {
  import opened Js
  import opened Fitness
  import opened Utils
  import opened Actions
  import opened LocalStorage

  // ================================================================ default workout

  /** getDefaultExercise (src/app/page.tsx:38-53), with the two ids it draws. */
  function DefaultWorkout(exerciseId: Uuid, setId: Uuid): (w: Workout)
    ensures Canonical(w)
    ensures |w| == 1 && w[0].name == Str("New Exercise") && w[0].tool == Str("")
    ensures |w[0].sets| == 1 && w[0].sets[0].setNumber == Num(1) && !Truthy(w[0].sets[0].isCompleted)
    ensures w[0].sets[0].loggedWeight == Str("") && w[0].sets[0].loggedReps == Str("")
  {
    var s := IndividualSet(Str(setId), Num(1), Str(""), Undefined, Str(""), Str(""), Bool(false), Str(""));
    assert |setId| == 36 && |exerciseId| == 36;
    assert CanonicalSet(s);
    [WorkoutExercise(Str(exerciseId), Str("New Exercise"), Str(""), Str(""), [s])]
  }

  /** The default workout drawn from an oracle: the exercise id first, then the set id. */
  function DefaultFrom(uuid: UuidOracle): Workout {
    DefaultWorkout(uuid(ExerciseSite(0)), uuid(SetSite(0, 0)))
  }

  /** The default workout survives the JSON deep copy and the normaliser unchanged. */
  lemma DefaultWorkoutStable(exerciseId: Uuid, setId: Uuid, uuid: UuidOracle)
    ensures JsonWorkout(DefaultWorkout(exerciseId, setId)) == DefaultWorkout(exerciseId, setId)
    ensures NormaliseExercises(DefaultWorkout(exerciseId, setId), uuid) == DefaultWorkout(exerciseId, setId)
  {
    var w := DefaultWorkout(exerciseId, setId);
    JsonWorkoutCopy(w);
    CanonicalFixedPoint(w, uuid);
  }

  // ================================================================ template preparation

  /** The set coercion of src/app/page.tsx:70-79: logged values start blank. */
  function PrepareSet(s: IndividualSet, freshId: Uuid): (r: IndividualSet)
    ensures CanonicalSet(r)
    ensures r.loggedWeight == Str("") && r.loggedReps == Str("")
    ensures r.setNumber == s.setNumber
    ensures r.id == (if Truthy(s.id) then s.id else Str(freshId))
    ensures r.targetWeight == (if Nullish(s.targetWeight) then Str("") else Str(ToString(s.targetWeight)))
    ensures r.targetReps == (if Nullish(s.targetReps) then Undefined else ToNumber(s.targetReps))
    ensures r.notes == (if Truthy(s.notes) then s.notes else Str(""))
    ensures r.isCompleted == (if Truthy(s.isCompleted) then s.isCompleted else Bool(false))
  {
    s.(id := Or(s.id, Str(freshId)),
       targetWeight := if Nullish(s.targetWeight) then Str("") else Str(ToString(s.targetWeight)),
       targetReps := if Nullish(s.targetReps) then Undefined else ToNumber(s.targetReps),
       loggedWeight := Str(""),
       loggedReps := Str(""),
       notes := Or(s.notes, Str("")),
       isCompleted := Or(s.isCompleted, Bool(false)))
  }

  /** The exercise coercion of src/app/page.tsx:65-80, for exercise number `i`. */
  function PrepareExercise(ex: WorkoutExercise, i: nat, uuid: UuidOracle): (r: WorkoutExercise)
    ensures r.name == ex.name
    ensures r.id == (if Truthy(ex.id) then ex.id else Str(uuid(ExerciseSite(i))))
    ensures r.tool == (if Truthy(ex.tool) then ex.tool else Str(""))
    ensures r.targetMuscleGroup == (if Truthy(ex.targetMuscleGroup) then ex.targetMuscleGroup else Str(""))
    ensures |r.sets| == |ex.sets|
    ensures forall j :: 0 <= j < |ex.sets| ==> r.sets[j] == PrepareSet(ex.sets[j], uuid(SetSite(i, j)))
  {
    ex.(id := Or(ex.id, Str(uuid(ExerciseSite(i)))),
        tool := Or(ex.tool, Str("")),
        targetMuscleGroup := Or(ex.targetMuscleGroup, Str("")),
        sets := seq(|ex.sets|, j requires 0 <= j < |ex.sets| => PrepareSet(ex.sets[j], uuid(SetSite(i, j)))))
  }

  function PrepareTemplate(w: Workout, uuid: UuidOracle): (r: Workout)
    ensures |r| == |w|
    ensures forall i :: 0 <= i < |w| ==> r[i] == PrepareExercise(w[i], i, uuid)
  {
    seq(|w|, i requires 0 <= i < |w| => PrepareExercise(w[i], i, uuid))
  }

  /** Every logged value of the workout cleared to "". */
  function BlankLogged(w: Workout): (r: Workout)
    ensures |r| == |w|
  {
    seq(|w|, i requires 0 <= i < |w| =>
      w[i].(sets := seq(|w[i].sets|, j requires 0 <= j < |w[i].sets| =>
        w[i].sets[j].(loggedWeight := Str(""), loggedReps := Str("")))))
  }

  /** Preparing a template is the shared normaliser applied to the template with its
      logged values cleared: the result is canonical, keeps every exercise and set in
      order, and starts with nothing logged. */
  lemma PrepareIsNormaliseOfBlank(w: Workout, uuid: UuidOracle)
    ensures PrepareTemplate(w, uuid) == NormaliseExercises(BlankLogged(w), uuid)
    ensures Canonical(PrepareTemplate(w, uuid))
    ensures forall i, j :: 0 <= i < |w| && 0 <= j < |w[i].sets| ==>
              && |PrepareTemplate(w, uuid)[i].sets| == |w[i].sets|
              && PrepareTemplate(w, uuid)[i].name == w[i].name
              && PrepareTemplate(w, uuid)[i].sets[j].setNumber == w[i].sets[j].setNumber
              && PrepareTemplate(w, uuid)[i].sets[j].loggedWeight == Str("")
              && PrepareTemplate(w, uuid)[i].sets[j].loggedReps == Str("")
  {
    var b := BlankLogged(w);
    assert Trim("") == "";
    forall i | 0 <= i < |w|
      ensures PrepareTemplate(w, uuid)[i] == NormaliseExercises(b, uuid)[i]
    {
      var p := PrepareExercise(w[i], i, uuid);
      var n := NormaliseExercise(b[i], i, uuid);
      assert |p.sets| == |n.sets|;
      forall j | 0 <= j < |w[i].sets| ensures p.sets[j] == n.sets[j] {
        assert b[i].sets[j] == w[i].sets[j].(loggedWeight := Str(""), loggedReps := Str(""));
      }
    }
  }

  // ================================================================ history prefill

  /** The `find` predicate of src/app/page.tsx:95-100: same exercise name, same tool (a
      missing one read as ""), same set number, all by strict equality. */
  predicate Matches(h: HistoryEntry, ex: WorkoutExercise, s: IndividualSet) {
    && StrictEquals(h.exercise, ex.name)
    && StrictEquals(Or(h.tool, Str("")), Or(ex.tool, Str("")))
    && StrictEquals(h.setNumber, s.setNumber)
  }

  /** `history.find(...)`: the index of the first matching entry, the most recent one
      since the history is ordered newest first. */
  function FindMatch(history: seq<HistoryEntry>, ex: WorkoutExercise, s: IndividualSet): (r: Option<nat>)
    ensures r.Some? ==> r.value < |history| && Matches(history[r.value], ex, s)
    ensures r.Some? ==> forall k :: 0 <= k < r.value ==> !Matches(history[k], ex, s)
    ensures r.None? <==> forall k :: 0 <= k < |history| ==> !Matches(history[k], ex, s)
  {
    if history == [] then None
    else if Matches(history[0], ex, s) then Some(0)
    else match FindMatch(history[1..], ex, s)
      case None => None
      case Some(k) => Some(k + 1)
  }

  /** One template set after the prefill (src/app/page.tsx:92-109). */
  function PrefillSet(s: IndividualSet, ex: WorkoutExercise, history: seq<HistoryEntry>): (r: IndividualSet)
    ensures r == s.(loggedWeight := r.loggedWeight, loggedReps := r.loggedReps)
    ensures FindMatch(history, ex, s).None? ==> r == s
    ensures FindMatch(history, ex, s).Some? ==>
              var h := history[FindMatch(history, ex, s).value];
              && r.loggedWeight == (if Nullish(h.weight) then Str("") else Str(ToString(h.weight)))
              && r.loggedReps == (if Nullish(h.reps) then Str("") else ToNumber(h.reps))
  {
    match FindMatch(history, ex, s)
    case None => s
    case Some(k) =>
      var h := history[k];
      s.(loggedWeight := if Nullish(h.weight) then Str("") else Str(ToString(h.weight)),
         loggedReps := if Nullish(h.reps) then Str("") else ToNumber(h.reps))
  }

  /** The prefill of src/app/page.tsx:90-114: nothing happens with an empty history. */
  function Prefill(w: Workout, history: seq<HistoryEntry>): (r: Workout)
    ensures |r| == |w|
    ensures history == [] ==> r == w
    ensures forall i :: 0 <= i < |w| ==> r[i] == w[i].(sets := r[i].sets) && |r[i].sets| == |w[i].sets|
    ensures history != [] ==> forall i, j :: 0 <= i < |w| && 0 <= j < |w[i].sets| ==>
              r[i].sets[j] == PrefillSet(w[i].sets[j], w[i], history)
  {
    if |history| > 0 then
      seq(|w|, i requires 0 <= i < |w| =>
        w[i].(sets := seq(|w[i].sets|, j requires 0 <= j < |w[i].sets| => PrefillSet(w[i].sets[j], w[i], history))))
    else w
  }

  /** The prefill keeps the canonical shape: logged weights stay text, logged reps stay
      blank or a number. */
  lemma PrefillCanonical(w: Workout, history: seq<HistoryEntry>)
    requires Canonical(w)
    ensures Canonical(Prefill(w, history))
  {
    var r := Prefill(w, history);
    forall i, j | 0 <= i < |r| && 0 <= j < |r[i].sets| ensures CanonicalSet(r[i].sets[j]) {
      assert CanonicalSet(w[i].sets[j]);
    }
  }

  /** A history whose entries carry no set number never matches a set that has one, so
      the prefill leaves the workout unchanged. Rows written by logWorkout are such
      entries: no `SetNumber` is stored for them. */
  lemma PrefillIgnoresUnnumberedHistory(w: Workout, history: seq<HistoryEntry>)
    requires forall k :: 0 <= k < |history| ==> history[k].setNumber == Undefined
    requires forall i, j :: 0 <= i < |w| && 0 <= j < |w[i].sets| ==> w[i].sets[j].setNumber != Undefined
    ensures Prefill(w, history) == w
  {
    var r := Prefill(w, history);
    if history != [] {
      forall i | 0 <= i < |w| ensures r[i] == w[i] {
        forall j | 0 <= j < |w[i].sets| ensures r[i].sets[j] == w[i].sets[j] {
          assert FindMatch(history, w[i], w[i].sets[j]).None?;
        }
      }
    }
  }

  /** A history made only of rows logWorkout inserted never prefills anything. */
  lemma LoggedRowsNeverPrefill(w: Workout, rows: seq<InsertRow>, ids: seq<int>)
    requires |ids| == |rows|
    requires forall i, j :: 0 <= i < |w| && 0 <= j < |w[i].sets| ==> w[i].sets[j].setNumber != Undefined
    ensures Prefill(w, seq(|rows|, k requires 0 <= k < |rows| => StoredEntry(rows[k], ids[k]))) == w
  {
    PrefillIgnoresUnnumberedHistory(w, seq(|rows|, k requires 0 <= k < |rows| => StoredEntry(rows[k], ids[k])));
  }

  // ================================================================ fetchTemplateForDay

  /** What `loadWorkoutTemplate(day)` settles with. */
  datatype FetchResult = FetchThrew | Fetched(template: Option<WorkoutTemplate>)

  /** The state fetchTemplateForDay leaves: current workout, its deep copy as the
      template to reset to, and the template name. */
  datatype DayWorkout = DayWorkout(current: Workout, initial: Workout, name: Value)

  function DayLabel(day: int, suffix: string): string {
    "Day " + IntToString(day) + suffix
  }

  /** fetchTemplateForDay (src/app/page.tsx:55-134). */
  function FetchOutcome(day: int, result: FetchResult, history: seq<HistoryEntry>, uuid: UuidOracle): (o: DayWorkout)
    ensures Canonical(o.current)
    ensures o.initial == JsonWorkout(o.current)
    ensures result == FetchThrew ==>
              o.current == DefaultFrom(uuid) && o.name == Str(DayLabel(day, " (Error Loading)"))
    ensures result == Fetched(None) ==>
              o.current == Prefill(DefaultFrom(uuid), history) && o.name == Str(DayLabel(day, " (Default Blank)"))
    ensures result.Fetched? && result.template.Some? ==>
              o.current == Prefill(NormaliseExercises(BlankLogged(result.template.value.exercises), uuid), history)
              && o.name == Str(result.template.value.name)
  {
    match result
    case FetchThrew =>
      var d := DefaultFrom(uuid);
      DayWorkout(d, JsonWorkout(d), Str(DayLabel(day, " (Error Loading)")))
    case Fetched(Some(t)) =>
      PrepareIsNormaliseOfBlank(t.exercises, uuid);
      var prepared := PrepareTemplate(t.exercises, uuid);
      PrefillCanonical(prepared, history);
      var current := Prefill(prepared, history);
      DayWorkout(current, JsonWorkout(current), Str(t.name))
    case Fetched(None) =>
      var prepared := DefaultFrom(uuid);
      PrefillCanonical(prepared, history);
      var current := Prefill(prepared, history);
      DayWorkout(current, JsonWorkout(current), Str(DayLabel(day, " (Default Blank)")))
  }

  // ================================================================ reset

  /** handleResetToTemplate (src/app/page.tsx:168-178): the new (current, initial). */
  function ResetWorkouts(current: Workout, initial: Workout, uuid: UuidOracle): (r: (Workout, Workout))
    ensures |r.1| > 0
    ensures r.0 == JsonWorkout(r.1)
    ensures |initial| > 0 ==> r.1 == initial
    ensures |initial| == 0 ==> r.0 == DefaultFrom(uuid) && r.1 == DefaultFrom(uuid)
  {
    DefaultWorkoutStable(uuid(ExerciseSite(0)), uuid(SetSite(0, 0)), uuid);
    if |initial| > 0 then (JsonWorkout(initial), initial)
    else (DefaultFrom(uuid), JsonWorkout(DefaultFrom(uuid)))
  }

  /** Resetting twice is resetting once. */
  lemma ResetIdempotent(current: Workout, initial: Workout, uuid1: UuidOracle, uuid2: UuidOracle)
    ensures var r := ResetWorkouts(current, initial, uuid1);
            ResetWorkouts(r.0, r.1, uuid2) == r
  {
    var r := ResetWorkouts(current, initial, uuid1);
    JsonWorkoutIdempotent(r.1);
  }

  /** Right after a fetch, resetting puts back exactly the fetched workout's copy, and
      the template to reset to is kept (a template without exercises leaves nothing to
      reset to, and reset then falls back to the default workout). */
  lemma ResetAfterFetch(day: int, result: FetchResult, history: seq<HistoryEntry>, uuid1: UuidOracle, uuid2: UuidOracle)
    requires result.Fetched? && result.template.Some? ==> |result.template.value.exercises| > 0
    ensures var o := FetchOutcome(day, result, history, uuid1);
            ResetWorkouts(o.current, o.initial, uuid2) == (o.initial, o.initial)
  {
    var o := FetchOutcome(day, result, history, uuid1);
    JsonWorkoutCopy(o.current);
    JsonWorkoutIdempotent(o.current);
  }

  // ================================================================ log preconditions

  /** The outcome of the checks of src/app/page.tsx:181-188. */
  datatype LogCheck = EmptyWorkout | NoSetsCompleted | Proceed

  predicate HasSets(w: Workout) {
    exists i :: 0 <= i < |w| && |w[i].sets| > 0
  }

  predicate HasCompletedSet(w: Workout) {
    exists i, j :: 0 <= i < |w| && 0 <= j < |w[i].sets| && Truthy(w[i].sets[j].isCompleted)
  }

  function LogPrecheck(w: Workout): LogCheck {
    if |w| == 0 || !HasSets(w) then EmptyWorkout
    else if !HasCompletedSet(w) then NoSetsCompleted
    else Proceed
  }

  lemma {:induction false} CompletedInPositive(sets: seq<IndividualSet>)
    ensures CompletedIn(sets) > 0 <==> exists j :: 0 <= j < |sets| && Truthy(sets[j].isCompleted)
  {
    if sets != [] {
      var p := sets[..|sets| - 1];
      CompletedInPositive(p);
      assert forall j :: 0 <= j < |p| ==> p[j] == sets[j];
    }
  }

  lemma {:induction false} CompletedCountPositive(w: Workout)
    ensures CompletedCount(w) > 0 <==> HasCompletedSet(w)
  {
    if w != [] {
      var p := w[..|w| - 1];
      CompletedCountPositive(p);
      CompletedInPositive(w[|w| - 1].sets);
      assert forall i :: 0 <= i < |p| ==> p[i] == w[i];
      if CompletedIn(w[|w| - 1].sets) > 0 {
        var j :| 0 <= j < |w[|w| - 1].sets| && Truthy(w[|w| - 1].sets[j].isCompleted);
        assert Truthy(w[|w| - 1].sets[j].isCompleted);
      }
    }
  }

  /** The page lets logWorkout run exactly when it will insert something: the empty and
      all-unchecked cases the page refuses are the ones logWorkout would answer with zero
      logged sets. */
  lemma PrecheckMatchesLogWorkout(w: Workout)
    ensures LogPrecheck(w) == Proceed <==> CompletedCount(w) > 0
    ensures LogPrecheck(w) != Proceed ==> LogRows(0, 0, w) == []
  {
    CompletedCountPositive(w);
    if HasCompletedSet(w) {
      var i, j :| 0 <= i < |w| && 0 <= j < |w[i].sets| && Truthy(w[i].sets[j].isCompleted);
      assert |w[i].sets| > 0;
    }
  }

  // ================================================================ day-change guard

  /** The three flags the day-change effect reads. */
  datatype Guard = Guard(loadingWeekDay: bool, populating: bool, justLoaded: bool)

  /** One run of the effect of src/app/page.tsx:137-148: the flags after it, and whether
      it fetches the selected day's template. */
  function Effect(g: Guard): (Guard, bool) {
    if g.loadingWeekDay || g.populating then (g, false)
    else if g.justLoaded then (g.(justLoaded := false), false)
    else (g, true)
  }

  /** handleLoadWeekAndDay before its await (src/app/page.tsx:261-262). */
  function BeginLoadWeekDay(g: Guard): Guard {
    g.(loadingWeekDay := true, justLoaded := false)
  }

  /** handleLoadWeekAndDay's `finally` (src/app/page.tsx:277). */
  function FinishLoadWeekDay(g: Guard): Guard {
    g.(loadingWeekDay := false)
  }

  /** handlePopulateLoggedInfo before its await (src/app/page.tsx:282-283). */
  function BeginPopulate(g: Guard): Guard {
    g.(populating := true, justLoaded := true)
  }

  /** handlePopulateLoggedInfo after its await: the flag is cleared again when nothing
      was applied (src/app/page.tsx:330, 335, 337). */
  function FinishPopulate(g: Guard, applied: bool): Guard {
    g.(populating := false, justLoaded := if applied then g.justLoaded else false)
  }

  /** While a week/day load or a populate is in flight the effect does nothing. */
  lemma BusyNeverFetches(g: Guard)
    requires g.loadingWeekDay || g.populating
    ensures Effect(g) == (g, false)
  {
  }

  /** The flag is one-shot: of two consecutive runs of an idle effect, at most the first
      is skipped, and the second fetches. */
  lemma SkipsAtMostOnce(g: Guard)
    requires !g.loadingWeekDay && !g.populating
    ensures Effect(Effect(g).0).1
    ensures !Effect(g).0.justLoaded
  {
  }

  /** A successful populate suppresses exactly one fetch: the effect runs when the
      populate starts and when it ends, skipping both times, and the next run fetches. */
  lemma PopulateSuppressesOneFetch(g: Guard)
    requires !g.loadingWeekDay && !g.populating
    ensures var (g1, f1) := Effect(BeginPopulate(g));
            var (g2, f2) := Effect(FinishPopulate(g1, true));
            !f1 && !f2 && g2 == g.(justLoaded := false) && Effect(g2).1
  {
  }

  /** A populate that applied nothing lets the effect fetch as soon as it ends. */
  lemma FailedPopulateFetches(g: Guard)
    requires !g.loadingWeekDay && !g.populating
    ensures var (g1, f1) := Effect(BeginPopulate(g));
            !f1 && Effect(FinishPopulate(g1, false)).1
  {
  }

  /** Loading week and day clears a pending skip, so the new day's template is fetched
      when the load ends, even right after a populate. */
  lemma LoadWeekDayFetches(g: Guard)
    requires !g.populating
    ensures var (g1, f1) := Effect(BeginLoadWeekDay(g));
            !f1 && Effect(FinishLoadWeekDay(g1)) == (g.(loadingWeekDay := false, justLoaded := false), true)
  {
  }

  // ================================================================ the page

  /** What `loadCurrentAppState()` settles with. */
  datatype StateLoad = LoadThrew | LoadReturned(state: Option<PartialAppState>)

  /** The state cells and the ref of FitnessFocusPage. */
  class FitnessFocusPage {
    var selectedWeek: int
    var selectedDay: int
    var currentWorkout: Workout
    var loadedTemplateName: Value
    var initialTemplateWorkout: Workout
    var workoutHistory: seq<HistoryEntry>
    var isLoadingTemplate: bool
    var isLoadingWeekDay: bool
    var isPopulatingWorkout: bool
    var justLoaded: bool

    function Flags(): Guard
      reads this
    {
      Guard(isLoadingWeekDay, isPopulatingWorkout, justLoaded)
    }

    /** The initial state (src/app/page.tsx:20-36). */
    constructor ()
      ensures selectedWeek == 1 && selectedDay == 1
      ensures currentWorkout == [] && initialTemplateWorkout == [] && loadedTemplateName == Undefined
      ensures workoutHistory == [] && isLoadingTemplate
      ensures Flags() == Guard(false, false, false)
    {
      selectedWeek := 1;
      selectedDay := 1;
      currentWorkout := [];
      loadedTemplateName := Undefined;
      initialTemplateWorkout := [];
      workoutHistory := [];
      isLoadingTemplate := true;
      isLoadingWeekDay := false;
      isPopulatingWorkout := false;
      justLoaded := false;
    }

    /** fetchTemplateForDay (src/app/page.tsx:55-134), run to completion with what the
        template query settles with. */
    method FetchTemplateForDay(day: int, result: FetchResult, uuid: UuidOracle)
      modifies this
      ensures var o := FetchOutcome(day, result, old(workoutHistory), uuid);
              currentWorkout == o.current && initialTemplateWorkout == o.initial && loadedTemplateName == o.name
      ensures !isLoadingTemplate
      ensures Flags() == old(Flags()) && workoutHistory == old(workoutHistory)
      ensures selectedWeek == old(selectedWeek) && selectedDay == old(selectedDay)
    {
      isLoadingTemplate := true;
      match result {
        case FetchThrew =>
          var defaultWorkout := DefaultFrom(uuid);
          currentWorkout := defaultWorkout;
          initialTemplateWorkout := JsonWorkout(defaultWorkout);
          loadedTemplateName := Str(DayLabel(day, " (Error Loading)"));
        case Fetched(template) =>
          var exercisesToSet: Workout;
          var templateNameToSet: string;
          if template.Some? {
            exercisesToSet := PrepareTemplate(template.value.exercises, uuid);
            templateNameToSet := template.value.name;
          } else {
            exercisesToSet := DefaultFrom(uuid);
            templateNameToSet := DayLabel(day, " (Default Blank)");
          }
          if |workoutHistory| > 0 {
            exercisesToSet := Prefill(exercisesToSet, workoutHistory);
          }
          currentWorkout := exercisesToSet;
          initialTemplateWorkout := JsonWorkout(exercisesToSet);
          loadedTemplateName := Str(templateNameToSet);
      }
      isLoadingTemplate := false;
    }

    /** The day-change effect (src/app/page.tsx:137-148); `result` is what the template
        query settles with if it is issued. */
    method DayChangeEffect(result: FetchResult, uuid: UuidOracle) returns (fetched: bool)
      modifies this
      ensures (Flags(), fetched) == Effect(old(Flags()))
      ensures fetched ==> var o := FetchOutcome(old(selectedDay), result, old(workoutHistory), uuid);
                currentWorkout == o.current && initialTemplateWorkout == o.initial && loadedTemplateName == o.name
      ensures !fetched ==>
                currentWorkout == old(currentWorkout) && initialTemplateWorkout == old(initialTemplateWorkout)
                && loadedTemplateName == old(loadedTemplateName)
      ensures selectedWeek == old(selectedWeek) && selectedDay == old(selectedDay) && workoutHistory == old(workoutHistory)
      ensures isLoadingTemplate == (if fetched then false else old(isLoadingTemplate))
    {
      if isLoadingWeekDay || isPopulatingWorkout {
        return false;
      }
      if justLoaded {
        justLoaded := false;
        return false;
      }
      FetchTemplateForDay(selectedDay, result, uuid);
      fetched := true;
    }

    /** handleLoadWeekAndDay up to its await (src/app/page.tsx:260-264). */
    method BeginLoadWeekAndDay()
      modifies this
      ensures Flags() == BeginLoadWeekDay(old(Flags()))
      ensures selectedWeek == old(selectedWeek) && selectedDay == old(selectedDay)
      ensures currentWorkout == old(currentWorkout) && initialTemplateWorkout == old(initialTemplateWorkout)
      ensures loadedTemplateName == old(loadedTemplateName) && workoutHistory == old(workoutHistory)
      ensures isLoadingTemplate == old(isLoadingTemplate)
    {
      isLoadingWeekDay := true;
      justLoaded := false;
    }

    /** handleLoadWeekAndDay after its await (src/app/page.tsx:265-278). */
    method FinishLoadWeekAndDay(loaded: StateLoad)
      modifies this
      ensures Flags() == FinishLoadWeekDay(old(Flags()))
      ensures loaded.LoadReturned? && loaded.state.Some? && loaded.state.value.selectedWeek.Some? ==>
                selectedWeek == loaded.state.value.selectedWeek.value
      ensures loaded.LoadReturned? && loaded.state.Some? && loaded.state.value.selectedDay.Some? ==>
                selectedDay == loaded.state.value.selectedDay.value
      ensures !(loaded.LoadReturned? && loaded.state.Some?) ==>
                selectedWeek == old(selectedWeek) && selectedDay == old(selectedDay)
      ensures currentWorkout == old(currentWorkout) && initialTemplateWorkout == old(initialTemplateWorkout)
      ensures loadedTemplateName == old(loadedTemplateName)
      ensures workoutHistory == old(workoutHistory) && isLoadingTemplate == old(isLoadingTemplate)
    {
      if loaded.LoadReturned? && loaded.state.Some? {
        var st := loaded.state.value;
        if st.selectedWeek.Some? {
          selectedWeek := st.selectedWeek.value;
        }
        if st.selectedDay.Some? {
          selectedDay := st.selectedDay.value;
        }
      }
      isLoadingWeekDay := false;
    }

    /** handlePopulateLoggedInfo up to its await (src/app/page.tsx:281-285). */
    method BeginPopulateLoggedInfo()
      modifies this
      ensures Flags() == BeginPopulate(old(Flags()))
      ensures selectedWeek == old(selectedWeek) && selectedDay == old(selectedDay)
      ensures currentWorkout == old(currentWorkout) && initialTemplateWorkout == old(initialTemplateWorkout)
      ensures loadedTemplateName == old(loadedTemplateName) && workoutHistory == old(workoutHistory)
      ensures isLoadingTemplate == old(isLoadingTemplate)
    {
      isPopulatingWorkout := true;
      justLoaded := true;
    }

    /** handlePopulateLoggedInfo after its await (src/app/page.tsx:286-338): the saved
        workouts are deep-copied and normalised; `uuidCurrent` and `uuidInitial` are the
        ids the two normalisations draw. */
    method FinishPopulateLoggedInfo(loaded: StateLoad, uuidCurrent: UuidOracle, uuidInitial: UuidOracle)
      modifies this
      ensures var applied := loaded.LoadReturned? && loaded.state.Some? && loaded.state.value.currentWorkout.Some?;
              && Flags() == FinishPopulate(old(Flags()), applied)
              && (applied ==>
                    var st := loaded.state.value;
                    && currentWorkout == NormaliseExercises(JsonWorkout(st.currentWorkout.value), uuidCurrent)
                    && initialTemplateWorkout == NormaliseExercises(
                         JsonWorkout(if st.initialTemplateWorkout.Some? then st.initialTemplateWorkout.value else []), uuidInitial)
                    && loadedTemplateName == (if st.loadedTemplateName.Some? then st.loadedTemplateName.value else Undefined))
              && (!applied ==>
                    currentWorkout == old(currentWorkout) && initialTemplateWorkout == old(initialTemplateWorkout)
                    && loadedTemplateName == old(loadedTemplateName))
      ensures selectedWeek == old(selectedWeek) && selectedDay == old(selectedDay)
      ensures workoutHistory == old(workoutHistory) && isLoadingTemplate == old(isLoadingTemplate)
    {
      if loaded.LoadReturned? && loaded.state.Some? && loaded.state.value.currentWorkout.Some? {
        var st := loaded.state.value;
        var clonedCurrentWorkout := JsonWorkout(st.currentWorkout.value);
        var clonedInitialTemplateWorkout := JsonWorkout(if st.initialTemplateWorkout.Some? then st.initialTemplateWorkout.value else []);
        currentWorkout := NormaliseExercises(clonedCurrentWorkout, uuidCurrent);
        initialTemplateWorkout := NormaliseExercises(clonedInitialTemplateWorkout, uuidInitial);
        loadedTemplateName := if st.loadedTemplateName.Some? then st.loadedTemplateName.value else Undefined;
      } else {
        justLoaded := false;
      }
      isPopulatingWorkout := false;
    }

    /** handleResetToTemplate (src/app/page.tsx:168-178). */
    method ResetToTemplate(uuid: UuidOracle)
      modifies this
      ensures (currentWorkout, initialTemplateWorkout) == ResetWorkouts(old(currentWorkout), old(initialTemplateWorkout), uuid)
      ensures Flags() == old(Flags()) && loadedTemplateName == old(loadedTemplateName)
      ensures selectedWeek == old(selectedWeek) && selectedDay == old(selectedDay)
      ensures workoutHistory == old(workoutHistory) && isLoadingTemplate == old(isLoadingTemplate)
    {
      if |initialTemplateWorkout| > 0 {
        currentWorkout := JsonWorkout(initialTemplateWorkout);
      } else {
        var defaultWorkout := DefaultFrom(uuid);
        currentWorkout := defaultWorkout;
        initialTemplateWorkout := JsonWorkout(defaultWorkout);
      }
    }

    /** handleLogWorkout (src/app/page.tsx:180-204): `None` when the page refuses to log;
        `insert` is what the insert answers and `refreshed` what the history reload
        returns after a successful log. */
    method HandleLogWorkout(insert: InsertOutcome, refreshed: seq<HistoryEntry>) returns (r: Option<LogResult>)
      modifies this
      ensures r.None? <==> LogPrecheck(old(currentWorkout)) != Proceed
      ensures r.Some? && insert.InsertOk? ==> r.value == LogResult(true, CompletedCount(old(currentWorkout)), None)
      ensures r.Some? && insert.InsertError? ==> r.value == LogResult(false, 0, Some("Supabase error: " + insert.message))
      ensures workoutHistory == (if r.Some? && r.value.success then refreshed else old(workoutHistory))
      ensures currentWorkout == old(currentWorkout) && initialTemplateWorkout == old(initialTemplateWorkout)
      ensures Flags() == old(Flags()) && selectedWeek == old(selectedWeek) && selectedDay == old(selectedDay)
      ensures loadedTemplateName == old(loadedTemplateName) && isLoadingTemplate == old(isLoadingTemplate)
    {
      PrecheckMatchesLogWorkout(currentWorkout);
      if LogPrecheck(currentWorkout) != Proceed {
        return None;
      }
      var result, sent := LogWorkout(selectedWeek, selectedDay, currentWorkout, insert);
      if result.success {
        workoutHistory := refreshed;
      }
      r := Some(result);
    }
  }

  /** A workout saved by the page's save handler (canonical, with no NaN left) comes
      back from populate exactly as it was saved. */
  lemma PopulateRestoresSaved(w: Workout, uuid: UuidOracle)
    requires Canonical(w) && NaNFree(w)
    requires forall i :: 0 <= i < |w| ==> w[i].name != NaN
    ensures NormaliseExercises(JsonWorkout(w), uuid) == w
  {
    JsonWorkoutCopy(w);
    CanonicalFixedPoint(w, uuid);
  }
}
