/**
  Persian (Solar Hijri) day arithmetic of the customer tables: `addDaysDV`
  moves a `{year, month, day}` value one day per loop step, carrying or
  borrowing across month and year boundaries.
 */
module Jalali {
  import opened Wrappers

  datatype DayValue = DayValue(year: int, month: int, day: int)

  /** The calendar library's `getMonthLength` for the Persian locale, read as
      a function of year and month. Its leap-year rule is not modelled: all
      that is assumed is that a month of the year has 29 to 31 days. */
  type MonthLength = f: (int, int) -> int | forall y, m :: 1 <= m <= 12 ==> 29 <= f(y, m) <= 31
    witness (y: int, m: int) => 30

  predicate Valid(ml: MonthLength, d: DayValue) {
    1 <= d.month <= 12 && 1 <= d.day <= ml(d.year, d.month)
  }

  /** Calendar order: by year, then month, then day. */
  predicate Before(a: DayValue, b: DayValue) {
    a.year < b.year
    || (a.year == b.year && (a.month < b.month || (a.month == b.month && a.day < b.day)))
  }

  /** One step of the forward loop: the day goes up by one; past the month's
      length it becomes day 1 of the next month, and after month 12 month 1
      of the next year. */
  function Next(ml: MonthLength, d: DayValue): (r: DayValue)
    ensures Valid(ml, d) ==> Valid(ml, r) && Before(d, r)
  {
    var monthLen := ml(d.year, d.month);
    if d.day + 1 > monthLen then
      if d.month + 1 > 12 then DayValue(d.year + 1, 1, 1) else DayValue(d.year, d.month + 1, 1)
    else DayValue(d.year, d.month, d.day + 1)
  }

  /** One step of the backward loop: the day goes down by one; below 1 the
      month goes back (to 12 of the previous year below month 1) and the day
      becomes that month's length. */
  function Prev(ml: MonthLength, d: DayValue): (r: DayValue)
    ensures Valid(ml, d) ==> Valid(ml, r) && Before(r, d)
  {
    if d.day - 1 < 1 then
      var y := if d.month - 1 < 1 then d.year - 1 else d.year;
      var m := if d.month - 1 < 1 then 12 else d.month - 1;
      DayValue(y, m, ml(y, m))
    else DayValue(d.year, d.month, d.day - 1)
  }

  /** `n` forward steps. */
  function Forward(ml: MonthLength, d: DayValue, n: nat): DayValue
    decreases n
  {
    if n == 0 then d else Next(ml, Forward(ml, d, n - 1))
  }

  /** `n` backward steps. */
  function Backward(ml: MonthLength, d: DayValue, n: nat): DayValue
    decreases n
  {
    if n == 0 then d else Prev(ml, Backward(ml, d, n - 1))
  }

  /** What `addDaysDV(d, delta)` computes for a present `d`. */
  function Shift(ml: MonthLength, d: DayValue, delta: int): DayValue {
    if delta < 0 then Backward(ml, d, -delta) else Forward(ml, d, delta)
  }

  /** `addDaysDV`: a missing value yields today; a delta of 0 returns a copy;
      otherwise one loop step per day, in place on `year`, `month`, `day`. */
  method AddDays(ml: MonthLength, today: DayValue, dv: Option<DayValue>, delta: int)
    returns (r: DayValue)
    ensures dv.None? ==> r == today
    ensures dv.Some? ==> r == Shift(ml, dv.value, delta)
  {
    if dv.None? {
      return today;
    }
    var year, month, day := dv.value.year, dv.value.month, dv.value.day;
    if delta == 0 {
      return DayValue(year, month, day);
    }
    if delta < 0 {
      for i := 0 to -delta
        invariant DayValue(year, month, day) == Backward(ml, dv.value, i)
      {
        day := day - 1;
        if day < 1 {
          month := month - 1;
          if month < 1 {
            month := 12;
            year := year - 1;
          }
          day := ml(year, month);
        }
      }
    } else {
      for i := 0 to delta
        invariant DayValue(year, month, day) == Forward(ml, dv.value, i)
      {
        var monthLen := ml(year, month);
        day := day + 1;
        if day > monthLen {
          day := 1;
          month := month + 1;
          if month > 12 {
            month := 1;
            year := year + 1;
          }
        }
      }
    }
    r := DayValue(year, month, day);
  }

  lemma ShiftByZero(ml: MonthLength, d: DayValue)
    ensures Shift(ml, d, 0) == d
  {
  }

  lemma BeforeTransitive(a: DayValue, b: DayValue, c: DayValue)
    requires Before(a, b) && Before(b, c)
    ensures Before(a, c)
  {
  }

  /** `Next` is the successor in calendar order: no valid date lies strictly
      between a valid date and the one after it. */
  lemma NextIsSuccessor(ml: MonthLength, d: DayValue, e: DayValue)
    requires Valid(ml, d) && Valid(ml, e) && Before(d, e)
    ensures e == Next(ml, d) || Before(Next(ml, d), e)
  {
  }

  /** `Prev` is the predecessor in calendar order. */
  lemma PrevIsPredecessor(ml: MonthLength, d: DayValue, e: DayValue)
    requires Valid(ml, d) && Valid(ml, e) && Before(e, d)
    ensures e == Prev(ml, d) || Before(e, Prev(ml, d))
  {
  }

  lemma PrevOfNext(ml: MonthLength, d: DayValue)
    requires Valid(ml, d)
    ensures Prev(ml, Next(ml, d)) == d
  {
  }

  lemma NextOfPrev(ml: MonthLength, d: DayValue)
    requires Valid(ml, d)
    ensures Next(ml, Prev(ml, d)) == d
  {
  }

  lemma {:induction false} ForwardValid(ml: MonthLength, d: DayValue, n: nat)
    requires Valid(ml, d)
    ensures Valid(ml, Forward(ml, d, n))
    decreases n
  {
    if n > 0 {
      ForwardValid(ml, d, n - 1);
    }
  }

  lemma {:induction false} BackwardValid(ml: MonthLength, d: DayValue, n: nat)
    requires Valid(ml, d)
    ensures Valid(ml, Backward(ml, d, n))
    decreases n
  {
    if n > 0 {
      BackwardValid(ml, d, n - 1);
    }
  }

  /** Starting from a valid date, `addDaysDV` returns a valid date. */
  lemma ShiftValid(ml: MonthLength, d: DayValue, delta: int)
    requires Valid(ml, d)
    ensures Valid(ml, Shift(ml, d, delta))
  {
    if delta < 0 {
      BackwardValid(ml, d, -delta);
    } else {
      ForwardValid(ml, d, delta);
    }
  }

  lemma {:induction false} ForwardPeel(ml: MonthLength, d: DayValue, n: nat)
    requires n >= 1
    ensures Forward(ml, d, n) == Forward(ml, Next(ml, d), n - 1)
    decreases n
  {
    if n > 1 {
      ForwardPeel(ml, d, n - 1);
    }
  }

  lemma {:induction false} BackwardPeel(ml: MonthLength, d: DayValue, n: nat)
    requires n >= 1
    ensures Backward(ml, d, n) == Backward(ml, Prev(ml, d), n - 1)
    decreases n
  {
    if n > 1 {
      BackwardPeel(ml, d, n - 1);
    }
  }

  lemma {:induction false} BackwardOfForward(ml: MonthLength, d: DayValue, n: nat)
    requires Valid(ml, d)
    ensures Backward(ml, Forward(ml, d, n), n) == d
    decreases n
  {
    if n > 0 {
      var f := Forward(ml, d, n - 1);
      ForwardValid(ml, d, n - 1);
      BackwardPeel(ml, Next(ml, f), n);
      PrevOfNext(ml, f);
      BackwardOfForward(ml, d, n - 1);
    }
  }

  lemma {:induction false} ForwardOfBackward(ml: MonthLength, d: DayValue, n: nat)
    requires Valid(ml, d)
    ensures Forward(ml, Backward(ml, d, n), n) == d
    decreases n
  {
    if n > 0 {
      var b := Backward(ml, d, n - 1);
      BackwardValid(ml, d, n - 1);
      ForwardPeel(ml, Prev(ml, b), n);
      NextOfPrev(ml, b);
      ForwardOfBackward(ml, d, n - 1);
    }
  }

  /** Moving a valid date by `n` days and then by `-n` days gives it back. */
  lemma ShiftRoundTrip(ml: MonthLength, d: DayValue, n: int)
    requires Valid(ml, d)
    ensures Shift(ml, Shift(ml, d, n), -n) == d
  {
    if n < 0 {
      ForwardOfBackward(ml, d, -n);
    } else if n > 0 {
      BackwardOfForward(ml, d, n);
    }
  }

  /** `n` forward steps never move a valid date backwards, and move it strictly forward when `n > 0`. */
  lemma {:induction false} ForwardAdvances(ml: MonthLength, d: DayValue, n: nat)
    requires Valid(ml, d)
    ensures n == 0 ==> Forward(ml, d, n) == d
    ensures n > 0 ==> Before(d, Forward(ml, d, n))
    decreases n
  {
    if n > 1 {
      ForwardAdvances(ml, d, n - 1);
      ForwardValid(ml, d, n - 1);
      BeforeTransitive(d, Forward(ml, d, n - 1), Forward(ml, d, n));
    }
  }

  /** Example of a month rollover: the last day of a month is followed by day 1 of the next month. */
  lemma LastDayRollsOver(ml: MonthLength, y: int, m: int)
    requires 1 <= m <= 12
    ensures Next(ml, DayValue(y, m, ml(y, m)))
         == if m == 12 then DayValue(y + 1, 1, 1) else DayValue(y, m + 1, 1)
  {
  }
}
