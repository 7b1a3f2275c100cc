/**
  The date filter shared by the customer-management and customer-summary
  tables: a preset tag picks a `{from, to}` range of Persian dates, which is
  serialised as `yyyy-mm-dd` for the backend query.
 */
module DateFilter {
  import opened Wrappers
  import opened Text
  import opened Jalali

  datatype Preset = Today | Yesterday | Last7 | Last30 | Last365 | Custom

  datatype DateRange = DateRange(from: Option<DayValue>, to: Option<DayValue>)

  /** How many calendar days, `to` included, a non-custom preset spans. */
  function SpanDays(p: Preset): nat
    requires p != Custom
  {
    match p
    case Today => 1
    case Yesterday => 1
    case Last7 => 7
    case Last30 => 30
    case Last365 => 365
  }

  /** The range the preset effect stores for a non-custom preset. */
  function PresetRange(ml: MonthLength, today: DayValue, p: Preset): DateRange
    requires p != Custom
  {
    match p
    case Today => DateRange(Some(today), Some(today))
    case Yesterday => DateRange(Some(Shift(ml, today, -1)), Some(Shift(ml, today, -1)))
    case Last7 => DateRange(Some(Shift(ml, today, -6)), Some(today))
    case Last30 => DateRange(Some(Shift(ml, today, -29)), Some(today))
    case Last365 => DateRange(Some(Shift(ml, today, -364)), Some(today))
  }

  /** A non-custom preset yields two valid dates; `to` is today (yesterday for
      `yesterday`) and `from` is exactly `SpanDays(p) - 1` days before it, so
      the range holds `SpanDays(p)` days. */
  lemma {:induction false} PresetRangeSpan(ml: MonthLength, today: DayValue, p: Preset)
    requires Valid(ml, today) && p != Custom
    ensures var r := PresetRange(ml, today, p);
      && r.from.Some? && r.to.Some?
      && Valid(ml, r.from.value) && Valid(ml, r.to.value)
      && r.to.value == (if p == Yesterday then Prev(ml, today) else today)
      && Forward(ml, r.from.value, SpanDays(p) - 1) == r.to.value
      && (r.from.value == r.to.value || Before(r.from.value, r.to.value))
  {
    var r := PresetRange(ml, today, p);
    var n := SpanDays(p) - 1;
    if p == Yesterday {
      assert r.from.value == Prev(ml, today);
    } else {
      ShiftValid(ml, today, -n);
      ShiftRoundTrip(ml, today, -n);
      assert r.from.value == Shift(ml, today, -n);
      ForwardAdvances(ml, r.from.value, n);
    }
  }

  /** `String(n).padStart(2, "0")`. */
  function TwoDigits(n: int): string {
    PadStart(IntToString(n), 2, '0')
  }

  /** `toISODateFromModern`: null gives null; otherwise year, month and day
      joined by "-", month and day padded with zeros to two characters. */
  function ToIsoDate(d: Option<DayValue>): (r: Option<string>)
    ensures r.Some? <==> d.Some?
  {
    match d
    case None => None
    case Some(v) => Some(IntToString(v.year) + "-" + TwoDigits(v.month) + "-" + TwoDigits(v.day))
  }

  /** Reads a `yyyy-mm-dd` string back: the year before the last two dashes,
      then two digits of month and two of day. */
  function ParseIsoDate(s: string): Option<DayValue> {
    if |s| < 7 || s[|s| - 6] != '-' || s[|s| - 3] != '-' then None
    else
      var mm := s[|s| - 5..|s| - 3];
      var dd := s[|s| - 2..];
      match ParseInt(s[..|s| - 6])
      case None => None
      case Some(y) =>
        if AllDigits(mm) && AllDigits(dd) then Some(DayValue(y, DigitsValue(mm), DigitsValue(dd)))
        else None
  }

  /** A leading zero adds nothing to a digit string's value. */
  lemma LeadingZero(c: char)
    requires IsAsciiDigit(c)
    ensures AllDigits(['0', c]) && DigitsValue(['0', c]) == DigitValue(c)
  {
    assert ['0', c][..1] == ['0'];
    assert ['0'][..0] == [];
  }

  lemma TwoDigitsOfSmall(n: int)
    requires 0 <= n < 100
    ensures |TwoDigits(n)| == 2 && AllDigits(TwoDigits(n)) && DigitsValue(TwoDigits(n)) == n
  {
    if n < 10 {
      TwoDigitsOfDigit(n);
      LeadingZero(DigitChar(n));
    } else {
      NatToStringOfTwoDigits(n);
      PadStartWide(NatToString(n), '0');
      DigitsValueOfNatToString(n);
    }
  }

  lemma ParseIsoDateOfParts(ys: string, ms: string, ds: string, y: int)
    requires ParseInt(ys) == Some(y)
    requires |ms| == 2 && AllDigits(ms) && |ds| == 2 && AllDigits(ds)
    ensures ParseIsoDate(ys + "-" + ms + "-" + ds) == Some(DayValue(y, DigitsValue(ms), DigitsValue(ds)))
  {
    var head := ys + "-" + ms + "-";
    var s := head + ds;
    assert s[..|head|] == head && s[|head|..] == ds;
    assert head[..|ys|] == ys && head[|ys|] == '-';
    assert head[|ys| + 1..|ys| + 3] == ms && head[|ys| + 3] == '-';
    assert s[..|s| - 6] == ys;
    assert s[|s| - 5..|s| - 3] == ms;
  }

  /** Every date whose month and day have at most two digits (so every valid
      date) is serialised unambiguously: reading the string back gives the date. */
  lemma IsoDateRoundTrip(d: DayValue)
    requires 0 <= d.month < 100 && 0 <= d.day < 100
    ensures ParseIsoDate(ToIsoDate(Some(d)).value) == Some(d)
  {
    TwoDigitsOfSmall(d.month);
    TwoDigitsOfSmall(d.day);
    ParseIntOfIntToString(d.year);
    ParseIsoDateOfParts(IntToString(d.year), TwoDigits(d.month), TwoDigits(d.day), d.year);
  }

  lemma ValidDateIsSmall(ml: MonthLength, d: DayValue)
    requires Valid(ml, d)
    ensures 0 <= d.month < 100 && 0 <= d.day < 100
  {
  }

  lemma TwoDigitsOfDigit(n: int)
    requires 0 <= n < 10
    ensures TwoDigits(n) == ['0', DigitChar(n)]
  {
    NatToStringOfDigit(n);
    PadStartShort([DigitChar(n)], '0');
  }

  lemma NumeralOf1402()
    ensures IntToString(1402) == "1402"
  {
    assert NatToString(1) == "1";
    assert NatToString(14) == "14";
    assert NatToString(140) == "140";
  }

  /** The worked example: {1402, 1, 5} is serialised as "1402-01-05". */
  lemma IsoDateExample()
    ensures ToIsoDate(Some(DayValue(1402, 1, 5))) == Some("1402-01-05")
  {
    var y, m, d := IntToString(1402), TwoDigits(1), TwoDigits(5);
    assert ToIsoDate(Some(DayValue(1402, 1, 5))) == Some(y + "-" + m + "-" + d);
    NumeralOf1402();
    TwoDigitsOfDigit(1);
    TwoDigitsOfDigit(5);
    assert m == "01" && d == "05";
    assert "1402" + "-" + "01" + "-" + "05" == "1402-01-05";
  }

  /** The date-filter state of one table: the selected preset and the range.
      A change of preset runs the two effects of the component: the preset
      effect (skipped for custom) and the custom-clear effect. */
  /** The effect's `switch` over the non-custom presets, each end computed by `addDays`. */
  method ComputePresetRange(ml: MonthLength, today: DayValue, p: Preset) returns (r: DateRange)
    requires p != Custom
    ensures r == PresetRange(ml, today, p)
  {
    match p
    case Today =>
      r := DateRange(Some(today), Some(today));
    case Yesterday =>
      var yesterday := AddDays(ml, today, Some(today), -1);
      r := DateRange(Some(yesterday), Some(yesterday));
    case Last7 =>
      var weekAgo := AddDays(ml, today, Some(today), -6);
      r := DateRange(Some(weekAgo), Some(today));
    case Last30 =>
      var monthAgo := AddDays(ml, today, Some(today), -29);
      r := DateRange(Some(monthAgo), Some(today));
    case Last365 =>
      var yearAgo := AddDays(ml, today, Some(today), -364);
      r := DateRange(Some(yearAgo), Some(today));
  }

  class PresetFilter {
    const monthLength: MonthLength
    var preset: Preset
    var range: DateRange

    /** Outside custom mode the range holds two valid dates, `from` not after `to`. */
    ghost predicate Valid()
      reads this
    {
      preset != Custom ==>
        && range.from.Some? && range.to.Some?
        && Jalali.Valid(monthLength, range.from.value)
        && Jalali.Valid(monthLength, range.to.value)
        && !Before(range.to.value, range.from.value)
    }

    /** Initial state: preset `today`, range (today, today). */
    constructor (ml: MonthLength, today: DayValue)
      requires Jalali.Valid(ml, today)
      ensures Valid()
      ensures monthLength == ml && preset == Today
      ensures range == DateRange(Some(today), Some(today))
    {
      monthLength := ml;
      preset := Today;
      range := DateRange(Some(today), Some(today));
    }

    /** Choosing a preset. The effects depend on the preset only, so choosing
        the current one again leaves the range alone; otherwise a non-custom
        preset stores its range and `custom` clears both ends. */
    method SelectPreset(p: Preset, today: DayValue)
      requires Valid() && Jalali.Valid(monthLength, today)
      modifies this
      ensures Valid() && preset == p
      ensures p == old(preset) ==> range == old(range)
      ensures p != old(preset) && p != Custom ==> range == PresetRange(monthLength, today, p)
      ensures p != old(preset) && p == Custom ==> range == DateRange(None, None)
    {
      if p == preset {
        return;
      }
      preset := p;
      if p != Custom {
        range := ComputePresetRange(monthLength, today, p);
        PresetRangeSpan(monthLength, today, p);
      } else {
        range := DateRange(None, None);
      }
    }

    /** `handleCalendarChange`: the calendar, shown only in custom mode, hands
        over a range; a missing value is ignored. */
    method PickRange(value: Option<DateRange>)
      requires Valid() && preset == Custom
      modifies this`range
      ensures Valid()
      ensures range == if value.None? then old(range) else value.value
    {
      if value.None? {
        return;
      }
      range := value.value;
    }

    /** The "today" button of the custom-mode popover. */
    method PickToday(today: DayValue)
      requires Valid() && preset == Custom
      modifies this`range
      ensures Valid() && range == DateRange(Some(today), Some(today))
    {
      range := DateRange(Some(today), Some(today));
    }
  }
}
