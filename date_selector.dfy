/** The week and day inputs of src/components/fitness/DateSelector.tsx. Each handler maps
    the input's text to the value it hands to the page's setter; the page's state cells
    are not held here. */
module DateSelector {
  import opened Js

  /** DAYS_IN_CYCLE */
  const DaysInCycle: nat := 5

  /** The day choices `1..DAYS_IN_CYCLE` (src/components/fitness/DateSelector.tsx:30). */
  function Days(): (r: seq<int>)
    ensures |r| == DaysInCycle
    ensures forall i :: 0 <= i < |r| ==> r[i] == i + 1
  {
    seq(DaysInCycle, i => i + 1)
  }

  /** The choices are exactly the days 1 to 5. */
  lemma DaysAreOneToFive()
    ensures forall d :: d in Days() <==> 1 <= d <= 5
  {
    var r := Days();
    forall d ensures d in r <==> 1 <= d <= 5 {
      if 1 <= d <= 5 {
        assert r[d - 1] == d;
      }
    }
  }

  /** handleWeekChange (src/components/fitness/DateSelector.tsx:32-44): the week handed
      to `setSelectedWeek`, or None when no branch calls it. */
  function WeekAfterChange(value: string): Option<int> {
    var numericValue := ParseInt(value);
    if value == "" then Some(1)
    else if numericValue.Some? && numericValue.value >= 1 then Some(numericValue.value)
    else if numericValue.None? || numericValue.value < 1 then Some(1)
    else None
  }

  /** Every change sets a week, and that week is at least 1: the parsed week when it is
      1 or more, 1 otherwise. */
  lemma WeekChangeClamps(value: string)
    ensures WeekAfterChange(value).Some? && WeekAfterChange(value).value >= 1
    ensures value != "" && ParseInt(value).Some? && ParseInt(value).value >= 1 ==>
      WeekAfterChange(value) == ParseInt(value)
    ensures value == "" || ParseInt(value).None? || ParseInt(value).value < 1 ==>
      WeekAfterChange(value) == Some(1)
  {
  }

  /** A week typed as its decimal text is taken as is. */
  lemma WeekTextRoundTrip(n: int)
    requires n >= 1
    ensures WeekAfterChange(IntToString(n)) == Some(n)
  {
    ParseIntRoundTrip(n);
    IntToStringShape(n);
  }

  /** handleWeekBlur (src/components/fitness/DateSelector.tsx:46-50): `parseInt` of text
      that is no number is NaN, and `NaN < 1` is false, so such text keeps the week. */
  function WeekAfterBlur(value: string, week: int): (r: int)
    ensures r == week || r == 1
    ensures week >= 1 ==> r >= 1
  {
    if value == "" || (ParseInt(value).Some? && ParseInt(value).value < 1) then 1 else week
  }

  /** Blur resets exactly the empty text and text that parses below 1. */
  lemma BlurResetsOnlyEmptyOrLow(value: string, week: int)
    requires week != 1
    ensures WeekAfterBlur(value, week) == 1 <==>
      value == "" || (ParseInt(value).Some? && ParseInt(value).value < 1)
  {
  }

  /** Blurring after a change of the same text changes nothing more. */
  lemma BlurAfterChange(value: string)
    ensures WeekAfterChange(value).Some?
    ensures WeekAfterBlur(value, WeekAfterChange(value).value) == WeekAfterChange(value).value
  {
    WeekChangeClamps(value);
  }

  /** The day select (src/components/fitness/DateSelector.tsx:79-80): the chosen item's
      text `day.toString()` is read back with `Number`. */
  function DayAfterSelect(value: string): (r: Value)
    ensures r.Num? || r == NaN
  {
    StringToNumber(value)
  }

  /** Choosing an item sets exactly the day it shows. */
  lemma SelectDayRoundTrip(d: int)
    requires d in Days()
    ensures DayAfterSelect(IntToString(d)) == Num(d)
  {
    IntToStringRoundTrip(d);
  }
}
