/** src/components/fitness/LoadWeekDayDialog.tsx: a dialog with three state cells
    (`isOpen`, `week`, `day`) that its event handlers update, and that hands the chosen
    week and day to `onConfirm`. */
module LoadWeekDayDialog {
  import opened Js

  /** The week `handleWeekChange` stores: the parsed text when it is 1 or more, else 1. */
  function WeekFromInput(value: string): (w: int)
    ensures w >= 1
    ensures ParseInt(value).Some? && ParseInt(value).value >= 1 ==> w == ParseInt(value).value
    ensures ParseInt(value).None? || ParseInt(value).value < 1 ==> w == 1
  {
    match ParseInt(value)
    case None => 1
    case Some(v) => if v < 1 then 1 else v
  }

  /** The day `handleDayChange` leaves: a parsed day of the cycle, 1 for empty text, and
      the current day for anything else. */
  function DayFromInput(value: string, day: int): (d: int)
    ensures ParseInt(value).Some? && 1 <= ParseInt(value).value <= 5 ==> d == ParseInt(value).value
    ensures value == "" ==> d == 1
    ensures d == day || (1 <= d <= 5)
  {
    var parsed := ParseInt(value);
    if parsed.Some? && parsed.value >= 1 && parsed.value <= 5 then parsed.value
    else if value == "" then 1
    else day
  }

  /** Text that parses outside the cycle, or not at all, keeps the current day. */
  lemma DayOutsideCycleKept(value: string, day: int)
    requires value != ""
    requires ParseInt(value).None? || ParseInt(value).value < 1 || ParseInt(value).value > 5
    ensures DayFromInput(value, day) == day
  {
  }

  /** A day of the cycle typed as its decimal text is taken as is. */
  lemma DayTextRoundTrip(d: int, day: int)
    requires 1 <= d <= 5
    ensures DayFromInput(IntToString(d), day) == d
  {
    ParseIntRoundTrip(d);
  }

  class Dialog {
    var isOpen: bool
    var week: int
    var day: int

    /** The week is at least 1 and the day is in the cycle. */
    predicate Valid()
      reads this
    {
      week >= 1 && 1 <= day <= 5
    }

    /** The initial state (src/components/fitness/LoadWeekDayDialog.tsx:25-27). */
    constructor()
      ensures !isOpen && week == 1 && day == 1
      ensures Valid()
    {
      isOpen := false;
      week := 1;
      day := 1;
    }

    /** `onOpenChange={setIsOpen}` */
    method SetOpen(open: bool)
      modifies this
      ensures isOpen == open && week == old(week) && day == old(day)
    {
      isOpen := open;
    }

    /** handleWeekChange (src/components/fitness/LoadWeekDayDialog.tsx:34-37). */
    method HandleWeekChange(value: string)
      requires Valid()
      modifies this
      ensures week == WeekFromInput(value) && day == old(day) && isOpen == old(isOpen)
      ensures Valid()
    {
      var parsed := ParseInt(value);
      week := if parsed.None? || parsed.value < 1 then 1 else parsed.value;
    }

    /** handleDayChange (src/components/fitness/LoadWeekDayDialog.tsx:39-47). */
    method HandleDayChange(value: string)
      requires Valid()
      modifies this
      ensures day == DayFromInput(value, old(day)) && week == old(week) && isOpen == old(isOpen)
      ensures Valid()
    {
      var parsed := ParseInt(value);
      if parsed.Some? && parsed.value >= 1 && parsed.value <= 5 {
        day := parsed.value;
      } else if value == "" {
        day := 1;
      }
    }

    /** handleConfirm (src/components/fitness/LoadWeekDayDialog.tsx:29-32): the current
        week and day go to `onConfirm`, then the dialog closes. */
    method HandleConfirm() returns (confirmedWeek: int, confirmedDay: int)
      requires Valid()
      modifies this
      ensures confirmedWeek == old(week) && confirmedDay == old(day)
      ensures confirmedWeek >= 1 && 1 <= confirmedDay <= 5
      ensures !isOpen && week == old(week) && day == old(day)
      ensures Valid()
    {
      confirmedWeek, confirmedDay := week, day;
      isOpen := false;
    }
  }

  /** Whatever is typed, a dialog that starts fresh confirms a week of at least 1 and a
      day of the cycle. */
  method ConfirmAfterEdits(weekText: string, dayText: string) returns (confirmedWeek: int, confirmedDay: int)
    ensures confirmedWeek == WeekFromInput(weekText)
    ensures confirmedDay == DayFromInput(dayText, 1)
    ensures confirmedWeek >= 1 && 1 <= confirmedDay <= 5
  {
    var dialog := new Dialog();
    dialog.SetOpen(true);
    dialog.HandleWeekChange(weekText);
    dialog.HandleDayChange(dayText);
    confirmedWeek, confirmedDay := dialog.HandleConfirm();
  }
}
