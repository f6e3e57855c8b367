/** `get_time_period`: the day is split at the hours 5 and 18 of the host clock. */
module TimeOfDay {

  /** The two values the scripts compare against: "morning" and "night". */
  datatype Period = Morning | Night

  /** `datetime.now().time().hour` */
  type Hour = h: int | 0 <= h < 24

  /** Morning strictly between 5 and 18; night for hours 0 to 5 and 18 to 23. */
  function GetTimePeriod(hour: Hour): (p: Period)
    ensures p == Night <==> hour <= 5 || 18 <= hour
    ensures p == Morning <==> 6 <= hour <= 17
  {
    if 5 < hour < 18 then Morning else Night
  }
}
