/** The `inString()` extension of `Double`: an amount of sleep in hours rendered as "HH:MM".
    A `Double` is modelled as the exact `real` it stands for. */
module SleepAmount {
  import opened Wrappers
  import opened SwiftInt
  import opened DecimalFormat

  /** `Int(self * 60)` traps unless the product fits in an `Int`. */
  predicate Formattable(hours: real) {
    RepresentableAsInt(hours * 60.0)
  }

  /** `Int(hours * 60)`: whole minutes, truncated toward zero rather than rounded. */
  function TotalMinutes(hours: real): (m: int)
    requires Formattable(hours)
    ensures InIntRange(m)
    ensures hours >= 0.0 ==> 0 <= m && m as real <= hours * 60.0 < m as real + 1.0
    ensures hours < 0.0 ==> m <= 0 && m as real - 1.0 < hours * 60.0 <= m as real
  {
    TruncateToInt(hours * 60.0)
  }

  /** The reading of a clock string "H…H:MM" (an hour field of two or more digits, a colon and a
      minute field of exactly two digits below 60) as a count of minutes. */
  function ClockMinutes(s: string): Option<nat> {
    if |s| >= 5 && s[|s| - 3] == ':' && AllDigits(s[..|s| - 3]) && AllDigits(s[|s| - 2..])
       && ParseDecimal(s[|s| - 2..]) < 60
    then Some(ParseDecimal(s[..|s| - 3]) * 60 + ParseDecimal(s[|s| - 2..]))
    else None
  }

  /** `"%02d:%02d"` of an hour and a minute. For a non-negative hour and a minute below 60 the
      string reads back as both fields; it is five characters long exactly when the hour has at
      most two digits, and starts with a zero exactly when the hour has one. */
  function Clock(hour: int, minutes: int): (s: string)
    ensures |s| >= 5
    ensures 0 <= hour && 0 <= minutes < 60 ==> ClockMinutes(s) == Some(hour * 60 + minutes)
    ensures 0 <= hour && 0 <= minutes < 60 ==> (|s| == 5 <==> hour < 100)
    ensures 0 <= hour ==> (s[0] == '0' <==> hour < 10)
  {
    var s := Format02d(hour) + ":" + Format02d(minutes);
    if 0 <= hour && 0 <= minutes < 60 then ClockFields(hour, minutes); s else s
  }

  /** The fields of a clock string: the hour field before the colon, the two-digit minute
      field after it. */
  lemma ClockFields(hour: int, minutes: int)
    requires 0 <= hour && 0 <= minutes < 60
    ensures var s := Format02d(hour) + ":" + Format02d(minutes);
      ClockMinutes(s) == Some(hour * 60 + minutes) && (|s| == 5 <==> hour < 100)
  {
    var h, mm := Format02d(hour), Format02d(minutes);
    var s := h + ":" + mm;
    assert |mm| == 2;
    assert s[..|s| - 3] == h;
    assert s[|s| - 2..] == mm;
    assert s[|s| - 3] == ':';
  }

  /** `inString()`: the hours are converted to whole minutes by truncation, split with Swift's
      `/ 60` and `% 60` and rendered as `%02d:%02d`. For a non-negative amount the string reads
      back as exactly the truncated minute count, its minute field is below 60, and its hour
      field is padded with a zero only when the hour has a single digit. */
  function InString(hours: real): (s: string)
    requires Formattable(hours)
    ensures hours >= 0.0 ==> ClockMinutes(s) == Some(TotalMinutes(hours))
    ensures hours >= 0.0 ==> (|s| == 5 <==> TotalMinutes(hours) < 100 * 60)
    ensures hours >= 0.0 ==> (s[0] == '0' <==> TotalMinutes(hours) < 10 * 60)
  {
    var m := TotalMinutes(hours);
    Clock(Quot(m, 60), Rem(m, 60))
  }

  /** Swift's `/ 60` and `% 60` split a minute count into hours and minutes that recombine to
      it; for a non-negative count the minute part lies in [0, 60). */
  lemma MinuteSplit(m: int)
    ensures Quot(m, 60) * 60 + Rem(m, 60) == m
    ensures m >= 0 ==> Quot(m, 60) >= 0 && 0 <= Rem(m, 60) < 60
    ensures m < 0 ==> Quot(m, 60) <= 0 && -60 < Rem(m, 60) <= 0
  {
  }

  /** The settings of the sleep stepper, 4 to 12 hours in steps of 0.25, are the quarter-hour
      counts 16 to 48. Every label is five characters long, shows exactly the stepper's minutes
      and ends in one of the four quarter-hour minute fields. */
  lemma StepperLabel(quarters: int)
    requires 16 <= quarters <= 48
    ensures Formattable(quarters as real / 4.0)
    ensures |InString(quarters as real / 4.0)| == 5
    ensures ClockMinutes(InString(quarters as real / 4.0)) == Some(15 * quarters)
    ensures InString(quarters as real / 4.0)[3..] in {"00", "15", "30", "45"}
  {
    var hours := quarters as real / 4.0;
    QuarterMinutes(quarters);
    var m := TotalMinutes(hours);
    var h, mm := Quot(m, 60), Rem(m, 60);
    assert h == quarters / 4 && mm == 15 * (quarters % 4);
    QuarterMinuteField(quarters % 4);
    var s := InString(hours);
    assert s == Format02d(h) + ":" + Format02d(mm);
    assert |Format02d(h)| == 2;
    assert s[3..] == Format02d(mm);
  }

  /** A quarter-hour count converts to whole minutes without loss. */
  lemma QuarterMinutes(quarters: int)
    requires 16 <= quarters <= 48
    ensures Formattable(quarters as real / 4.0)
    ensures TotalMinutes(quarters as real / 4.0) == 15 * quarters
  {
    assert (quarters as real / 4.0) * 60.0 == (15 * quarters) as real;
  }

  /** The minute field of a quarter-hour: `00`, `15`, `30` or `45`. */
  lemma QuarterMinuteField(k: int)
    requires 0 <= k < 4
    ensures Format02d(15 * k) in {"00", "15", "30", "45"}
  {
    if k == 0 {
      assert Format02d(0) == "00";
    } else if k == 1 {
      assert Format02d(15) == "15";
    } else if k == 2 {
      assert Format02d(30) == "30";
    } else {
      assert Format02d(45) == "45";
    }
  }

  /** The label of the stepper's default of eight hours, of a quarter past four, and of an
      amount whose minutes carry a fraction (7.999 hours is 479.94 minutes, shown as 07:59). */
  lemma InStringExamples()
    ensures InString(8.0) == "08:00"
    ensures InString(4.25) == "04:15"
    ensures InString(7.999) == "07:59"
  {
    assert TotalMinutes(8.0) == 480 && Quot(480, 60) == 8 && Rem(480, 60) == 0;
    assert Format02d(8) == "08" && Format02d(0) == "00";
    assert TotalMinutes(4.25) == 255 && Quot(255, 60) == 4 && Rem(255, 60) == 15;
    assert Format02d(4) == "04" && Format02d(15) == "15";
    assert TotalMinutes(7.999) == 479 && Quot(479, 60) == 7 && Rem(479, 60) == 59;
    assert Format02d(7) == "07" && Format02d(59) == "59";
  }
}
