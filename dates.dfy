/** The delivery days offered on the date keyboard. Days are day numbers
    (days since some fixed origin); formatting them as "DD.MM.YYYY" is not
    modelled. */
module Dates {

  /** The number of days offered. */
  const DaysInMonth: nat := 30

  /** `generate_dates_for_month()`, given the current day `today`. */
  function DatesForMonth(today: int): seq<int>
  {
    seq(DaysInMonth, i => today + i + 1)
  }

  /** The offered days are exactly the 30 days after today, in increasing
      order; today itself is not offered. */
  lemma DatesForMonthWindow(today: int)
    ensures var days := DatesForMonth(today);
      && |days| == DaysInMonth
      && (forall i, j :: 0 <= i < j < |days| ==> days[i] < days[j])
      && (forall day :: day in days <==> today < day <= today + DaysInMonth)
      && today !in days
  {
    var days := DatesForMonth(today);
    forall day | today < day <= today + DaysInMonth
      ensures day in days
    {
      assert days[day - today - 1] == day;
    }
  }
}
