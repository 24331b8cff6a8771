/** The input handlers of src/components/fitness/SetRow.tsx: what each edit of one set row
    forwards to `onSetChange`. The row holds no state of its own. */
module SetRow {
  import opened Js
  import opened Fitness
  import opened Utils

  /** The three text inputs of a row. */
  datatype InputField = WeightInput | RepsInput | NotesInput

  function FieldOf(f: InputField): SetField {
    match f
    case WeightInput => LoggedWeight
    case RepsInput => LoggedReps
    case NotesInput => Notes
  }

  /** One call of `onSetChange(exerciseIndex, setIndex, field, value)`. */
  datatype SetChange = SetChange(exerciseIndex: int, setIndex: int, field: SetField, value: Value)

  /** handleInputChange (src/components/fitness/SetRow.tsx:28-34): a non-empty reps text
      that `Number` reads as a number is forwarded as that number; every other text is
      forwarded as typed. The forwarded value always denotes the number the text does. */
  function HandleInputChange(exerciseIndex: int, setIndex: int, field: InputField, value: string): (c: SetChange)
    ensures c.exerciseIndex == exerciseIndex && c.setIndex == setIndex && c.field == FieldOf(field)
    ensures field != RepsInput ==> c.value == Str(value)
    ensures value == "" ==> c.value == Str("")
    ensures c.value == Str(value) || c.value.Num?
    ensures ToNumber(c.value) == StringToNumber(value)
  {
    var parsed := StringToNumber(value);
    if field == RepsInput && value != "" && parsed != NaN then
      SetChange(exerciseIndex, setIndex, FieldOf(field), parsed)
    else
      SetChange(exerciseIndex, setIndex, FieldOf(field), Str(value))
  }

  /** The checkbox (src/components/fitness/SetRow.tsx:78): `!!checked`, so an
      indeterminate state counts as completed. */
  function HandleCheckedChange(exerciseIndex: int, setIndex: int, checked: Value): (c: SetChange)
    ensures c.exerciseIndex == exerciseIndex && c.setIndex == setIndex && c.field == IsCompleted
    ensures c.value.Bool? && (c.value.b <==> Truthy(checked))
  {
    SetChange(exerciseIndex, setIndex, IsCompleted, Bool(Truthy(checked)))
  }

  /** A number typed as its own decimal text is forwarded as that number. */
  lemma RepsTextRoundTrip(exerciseIndex: int, setIndex: int, n: int)
    ensures HandleInputChange(exerciseIndex, setIndex, RepsInput, IntToString(n)).value == Num(n)
  {
    IntToStringRoundTrip(n);
    IntToStringShape(n);
  }

  /** Reps text that is blank but not empty is read by `Number` as 0 and forwarded as 0. */
  lemma BlankRepsForwardZero(exerciseIndex: int, setIndex: int, value: string)
    requires value != "" && forall i :: 0 <= i < |value| ==> IsSpace(value[i])
    ensures HandleInputChange(exerciseIndex, setIndex, RepsInput, value).value == Num(0)
  {
    TrimBlank(value);
  }

  /** Text that is no number reaches the workout as typed; the loader of
      src/lib/utils.ts later turns it into NaN. */
  lemma UnparsableRepsForwardedRaw(exerciseIndex: int, setIndex: int, value: string)
    requires StringToNumber(value) == NaN
    ensures HandleInputChange(exerciseIndex, setIndex, RepsInput, value).value == Str(value)
  {
  }

  /** A number forwarded for reps survives the loader's `loggedReps` coercion unchanged. */
  lemma ForwardedRepsSurviveLoad(exerciseIndex: int, setIndex: int, value: string)
    requires value != "" && StringToNumber(value).Num?
    ensures LoggedRepsValue(HandleInputChange(exerciseIndex, setIndex, RepsInput, value).value) == StringToNumber(value)
  {
    var n := StringToNumber(value).n;
    var s := IntToString(n);
    IntToStringShape(n);
    assert !IsSpace(s[0]) && !IsSpace(s[|s| - 1]);
    TrimUnpadded(s);
    IntToStringRoundTrip(n);
  }
}
