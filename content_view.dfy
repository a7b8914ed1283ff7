/** The `ContentView` of BetterRest: the wake-up offset handed to the sleep model, the view's
    display and alert state, and its placeholder gating until the first input change. */
module BetterRest {
  import opened Wrappers
  import opened SwiftInt
  import opened DecimalFormat
  import opened SleepAmount

  /** The wake-up date as the core sees it: the hour and minute components the current calendar
      reports for it, either of which may be missing. */
  datatype WakeTime = WakeTime(hour: Option<int>, minute: Option<int>)

  /** The three features passed to the sleep model's prediction: the wake-up offset in seconds
      since midnight, the desired hours of sleep and the cups of coffee. */
  datatype ModelInput = ModelInput(wake: real, estimatedSleep: real, coffee: real)

  /** Loading the CoreML sleep model, its prediction, the subtraction of the predicted sleep from
      the wake-up date and the formatting of the result, as one opaque step: `None` when loading
      or predicting throws, `Some(text)` the formatted bedtime otherwise. */
  type Bedtime = (WakeTime, ModelInput) -> Option<string>

  const Placeholder: string := "--:--"
  const SuccessTitle: string := "Your ideal bedtime is..."
  const ErrorTitle: string := "Error"
  const ErrorMessage: string := "Sorry, there was a problem calculating your bedtime."

  /** Seconds since midnight of the wake-up time, `hour * 60 * 60 + minute * 60`, where a missing
      component counts as 0. It is always a whole number of minutes, and for a valid clock
      reading it lies within one day. */
  function WakeOffset(hour: Option<int>, minute: Option<int>): (seconds: int)
    ensures seconds % 60 == 0
    ensures 0 <= hour.GetOr(0) < 24 && 0 <= minute.GetOr(0) < 60 ==> 0 <= seconds < 86400
  {
    hour.GetOr(0) * 60 * 60 + minute.GetOr(0) * 60
  }

  /** For a valid clock reading the offset determines the hour and the minute it came from. */
  lemma WakeOffsetDecodes(hour: Option<int>, minute: Option<int>)
    requires 0 <= hour.GetOr(0) < 24 && 0 <= minute.GetOr(0) < 60
    ensures WakeOffset(hour, minute) / 3600 == hour.GetOr(0)
    ensures WakeOffset(hour, minute) % 3600 / 60 == minute.GetOr(0)
  {
    var h, m := hour.GetOr(0), minute.GetOr(0);
    var s := WakeOffset(hour, minute);
    assert s == h * 3600 + m * 60;
    assert 0 <= m * 60 < 3600;
  }

  /** Two valid clock readings give the same offset exactly when their hours and minutes agree. */
  lemma WakeOffsetInjective(h1: Option<int>, m1: Option<int>, h2: Option<int>, m2: Option<int>)
    requires 0 <= h1.GetOr(0) < 24 && 0 <= m1.GetOr(0) < 60
    requires 0 <= h2.GetOr(0) < 24 && 0 <= m2.GetOr(0) < 60
    ensures WakeOffset(h1, m1) == WakeOffset(h2, m2) <==> h1.GetOr(0) == h2.GetOr(0) && m1.GetOr(0) == m2.GetOr(0)
  {
    WakeOffsetDecodes(h1, m1);
    WakeOffsetDecodes(h2, m2);
  }

  /** A missing component contributes exactly what a zero component does. */
  lemma MissingComponentIsZero(hour: Option<int>, minute: Option<int>)
    ensures WakeOffset(None, minute) == WakeOffset(Some(0), minute)
    ensures WakeOffset(hour, None) == WakeOffset(hour, Some(0))
  {
  }

  /** What a calculation leaves behind: on success the title announces the bedtime and the
      message and the returned text are both the formatted bedtime; on failure the alert carries
      the fixed error text and the returned text is empty, never part of a time. */
  predicate Reported(outcome: Option<string>, title: string, message: string, text: string) {
    match outcome
    case Some(t) => title == SuccessTitle && message == t && text == t
    case None => title == ErrorTitle && message == ErrorMessage && text == ""
  }

  class ContentView {
    var wakeUp: WakeTime
    var sleepAmount: real
    var coffeeAmount: int
    var alertTitle: string
    var alertMessage: string
    var showingAlert: bool
    var firstUse: bool

    /** The initial state: wake at the default time, eight hours of sleep, no coffee, an empty
        alert that is not showing, and the first-use flag raised. */
    constructor (defaultWakeTime: WakeTime)
      ensures wakeUp == defaultWakeTime && sleepAmount == 8.0 && coffeeAmount == 0
      ensures alertTitle == "" && alertMessage == "" && !showingAlert && firstUse
    {
      wakeUp := defaultWakeTime;
      sleepAmount := 8.0;
      coffeeAmount := 0;
      alertTitle := "";
      alertMessage := "";
      showingAlert := false;
      firstUse := true;
    }

    /** The features `calculateBedTime` passes to the model: the wake-up offset of the current
        hour and minute, a whole number of minutes within one day for a valid clock reading, and the sleep and coffee amounts
        as they stand. */
    function PredictionInput(): (input: ModelInput)
      reads this
      ensures input.wake == WakeOffset(wakeUp.hour, wakeUp.minute) as real
      ensures input.wake.Floor as real == input.wake && input.wake.Floor % 60 == 0
      ensures 0 <= wakeUp.hour.GetOr(0) < 24 && 0 <= wakeUp.minute.GetOr(0) < 60 ==>
                0.0 <= input.wake < 86400.0
      ensures input.estimatedSleep == sleepAmount && input.coffee == coffeeAmount as real
    {
      ModelInput(WakeOffset(wakeUp.hour, wakeUp.minute) as real, sleepAmount, coffeeAmount as real)
    }

    /** The private `timeString(from:)`, written out again beside `inString()`, with the same
        guarantees. */
    static function TimeString(hours: real): (s: string)
      requires Formattable(hours)
      ensures hours >= 0.0 ==> ClockMinutes(s) == Some(TotalMinutes(hours))
      ensures hours >= 0.0 ==> (|s| == 5 <==> TotalMinutes(hours) < 100 * 60)
      ensures hours >= 0.0 ==> (s[0] == '0' <==> TotalMinutes(hours) < 10 * 60)
    {
      var m := TotalMinutes(hours);
      Clock(Quot(m, 60), Rem(m, 60))
    }

    /** The time picker sets `wakeUp`; when the value differs, its change handler clears the
        first-use flag. Nothing raises the flag again. */
    method SetWakeUp(w: WakeTime)
      modifies this`wakeUp, this`firstUse
      ensures wakeUp == w
      ensures firstUse == (old(firstUse) && w == old(wakeUp))
    {
      var previous := wakeUp;
      wakeUp := w;
      if w != previous {
        firstUse := false;
      }
    }

    /** The stepper sets `sleepAmount`; a change clears the first-use flag. */
    method SetSleepAmount(hours: real)
      modifies this`sleepAmount, this`firstUse
      ensures sleepAmount == hours
      ensures firstUse == (old(firstUse) && hours == old(sleepAmount))
    {
      var previous := sleepAmount;
      sleepAmount := hours;
      if hours != previous {
        firstUse := false;
      }
    }

    /** The picker sets `coffeeAmount`; a change clears the first-use flag. */
    method SetCoffeeAmount(cups: int)
      modifies this`coffeeAmount, this`firstUse
      ensures coffeeAmount == cups
      ensures firstUse == (old(firstUse) && cups == old(coffeeAmount))
    {
      var previous := coffeeAmount;
      coffeeAmount := cups;
      if cups != previous {
        firstUse := false;
      }
    }

    /** `calculateBedTime()`: asks the model about the current inputs and records the outcome in
        the alert title and message. It changes nothing else: in particular `showingAlert` and
        the first-use flag stay as they were. */
    method CalculateBedTime(bedtime: Bedtime) returns (text: string)
      modifies this`alertTitle, this`alertMessage
      ensures Reported(bedtime(wakeUp, PredictionInput()), alertTitle, alertMessage, text)
    {
      var outcome := bedtime(wakeUp, PredictionInput());
      match outcome
      case Some(t) =>
        alertTitle := SuccessTitle;
        alertMessage := t;
        text := t;
      case None =>
        alertTitle := ErrorTitle;
        alertMessage := ErrorMessage;
        text := "";
    }

    /** `idealBedtime`: the placeholder while the first-use flag is raised, leaving the alert as
        it was; afterwards the result of a fresh calculation. */
    method IdealBedtime(bedtime: Bedtime) returns (text: string)
      modifies this`alertTitle, this`alertMessage
      ensures firstUse ==> text == Placeholder && unchanged(this)
      ensures !firstUse ==> Reported(bedtime(wakeUp, PredictionInput()), alertTitle, alertMessage, text)
    {
      if firstUse {
        text := Placeholder;
      } else {
        text := CalculateBedTime(bedtime);
      }
    }
  }

  /** `timeString(from:)` and `inString()` produce the same string for every amount of sleep. */
  lemma TimeStringMatchesInString(hours: real)
    requires Formattable(hours)
    ensures ContentView.TimeString(hours) == InString(hours)
  {
  }

  /** The placeholder is not the rendering of any amount of sleep: it never reads as a clock. */
  lemma PlaceholderIsNoClock()
    ensures ClockMinutes(Placeholder) == None
  {
    assert !AllDigits(Placeholder[..2]) by {
      assert !IsDigit(Placeholder[..2][0]);
    }
  }
}
