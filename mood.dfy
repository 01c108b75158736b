/** The two colour bands the journal derives from a day's mood rating: the
    calendar cell's and the active rating button's. */
module Mood {
  import opened Json

  datatype Band = Unrated | Low | Middle | High

  /** The calendar cell: no colour unless `entry?.mood` is truthy (absent,
      `null` and `0` are not), then 8 and above high, 5 and above middle,
      anything lower low. */
  function CalendarBand(mood: Option<int>): (b: Band)
    ensures b == Unrated <==> mood.None? || mood.value == 0
    ensures b == High <==> mood.Some? && mood.value >= 8
    ensures b == Middle <==> mood.Some? && 5 <= mood.value < 8
    ensures b == Low <==> mood.Some? && mood.value < 5 && mood.value != 0
  {
    if mood.None? || mood.value == 0 then Unrated
    else if mood.value >= 8 then High
    else if mood.value >= 5 then Middle
    else Low
  }

  /** Rating button `num`: coloured only when it is the stored mood
      (`mood === num`), then 4 and below low, 7 and below middle, above that
      high. */
  function ButtonBand(mood: Option<int>, num: int): (b: Band)
    ensures b == Unrated <==> mood != Some(num)
    ensures b == Low <==> mood == Some(num) && num <= 4
    ensures b == Middle <==> mood == Some(num) && 5 <= num <= 7
    ensures b == High <==> mood == Some(num) && num >= 8
  {
    if mood != Some(num) then Unrated
    else if num <= 4 then Low
    else if num <= 7 then Middle
    else High
  }

  /** The two bandings agree on every non-zero rating, in particular on the
      ratings 1 to 10 that the buttons store. A stored 0 is falsy, so the
      calendar shows it as unrated. */
  lemma {:induction false} BandsAgree(m: int)
    requires m != 0
    ensures CalendarBand(Some(m)) == ButtonBand(Some(m), m)
  {
  }
}
