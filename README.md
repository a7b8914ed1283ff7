# BetterRest core, modelled in Dafny

BetterRest is a single SwiftUI view that recommends a bedtime from a wake-up time, a desired
amount of sleep and a daily coffee intake. This project models the deterministic logic of that
view and proves properties of it:

- the `Double.inString()` formatter (and its duplicate `timeString(from:)`), which turns an
  amount of sleep in hours into an `HH:MM` label: truncation to whole minutes with `Int(_:)`,
  Swift's truncating `/ 60` and `% 60`, and `String(format: "%02d:%02d", …)` rendered digit by
  digit (`swift_int.dfy`, `decimal_format.dfy`, `sleep_amount.dfy`);
- the wake-up offset in seconds since midnight handed to the sleep model, where a missing
  calendar component counts as zero (`content_view.dfy`);
- the view's state as a class `ContentView`: the input fields, the alert title and message, the
  `showingAlert` flag and the `firstUse` flag; the change handlers that clear `firstUse`; the
  `idealBedtime` placeholder; and the success and failure branches of `calculateBedTime()`
  (`content_view.dfy`).

A Swift `Double` is modelled as the exact `real` it stands for. The stepper only offers 4 to 12
hours in steps of 0.25, and for those values `self * 60` is exact in floating point too.

Loading the CoreML model, its prediction, the date subtraction `wakeUp - prediction.actualSleep`
and the locale-dependent `formatted(date:time:)` are one opaque step, a function parameter
`Bedtime` of `CalculateBedTime`. It receives the wake-up value and the three features the view
passes to the model. It returns `None` when the model throws, or `Some(text)` holding the
formatted bedtime. The calendar lookup that yields the wake-up hour and minute is likewise
given: the wake-up date is modelled by those two optional components.

The bedtime is computed by subtracting the predicted sleep from a full `Date` and formatting
the result with the locale's short time style. No modulo-86400 wrap-around and no `%02d:%02d`
rendering is claimed for it. The `firstUse` flag is part of the view's `@State`, so it is
modelled with the rest of the view's state.

## Model

| member | source | states |
|---|---|---|
| SwiftInt.TruncateToInt | BetterRest/ContentView.swift:145 | `Int(d)` truncates toward zero: for `d >= 0` the result is the floor of `d`, for `d < 0` the ceiling; it fits in a 64-bit `Int`, and values outside that range are excluded because the conversion traps |
| SwiftInt.Quot | BetterRest/ContentView.swift:146 | Swift's `/` by a positive divisor truncates toward zero: `q*b <= a < q*b + b` for `a >= 0` and `q*b - b < a <= q*b` for `a < 0` |
| SwiftInt.Rem | BetterRest/ContentView.swift:147 | Swift's `%` completes the quotient (`Quot(a,b)*b + r == a`) and takes the sign of the dividend: `0 <= r < b` for `a >= 0`, `-b < r <= 0` for `a < 0` |
| DecimalFormat.Decimal | BetterRest/ContentView.swift:148 | `%d` of a non-negative value is a canonical numeral: at least one digit, all decimal digits, no leading zero unless the value is 0 |
| DecimalFormat.ParseOfDecimal | BetterRest/ContentView.swift:148 | the digits rendered for `n` read back as `n` |
| DecimalFormat.DecimalOfParse | BetterRest/ContentView.swift:148 | every canonical numeral is the rendering of the value it reads as, so rendering is a bijection onto canonical numerals |
| DecimalFormat.DecimalLength | BetterRest/ContentView.swift:148 | a value has one digit exactly when it is below 10 and at most two exactly when it is below 100 |
| DecimalFormat.Format02d | BetterRest/ContentView.swift:148 | `%02d` is at least two characters wide; a non-negative value gives digits that read back as the value, with a leading zero exactly below 10 and a width of exactly two below 100; a negative value gives a minus sign followed by the canonical numeral of its magnitude |
| SleepAmount.TotalMinutes | BetterRest/ContentView.swift:145 | `Int(hours * 60)` truncates rather than rounds: for non-negative hours it is the largest whole number of minutes not above `hours * 60` |
| SleepAmount.InString | BetterRest/ContentView.swift:144-149 | for non-negative hours the label reads back as exactly the truncated minute count, it is five characters long exactly when that count is below 100 hours, and it starts with a padding zero exactly when the count is below 10 hours |
| SleepAmount.Clock | BetterRest/ContentView.swift:148 | `"%02d:%02d"` is at least five characters long; for an hour `h >= 0` and a minute `0 <= mm < 60` it reads back as `h*60 + mm`, is five characters long exactly when `h < 100`, and starts with `0` exactly when `h < 10` |
| SleepAmount.MinuteSplit | BetterRest/ContentView.swift:145-147 | the hour and minute parts recombine as `h*60 + mm == m`; for `m >= 0` the minute part lies in `[0, 60)` and for `m < 0` in `(-60, 0]` |
| SleepAmount.StepperLabel | BetterRest/ContentView.swift:49 | every stepper setting from 4 to 12 hours in steps of 0.25 is formattable, its label has length 5, reads back as exactly its minutes, and has a minute field of `00`, `15`, `30` or `45` |
| SleepAmount.InStringExamples | BetterRest/ContentView.swift:144-149 | 8.0 gives `"08:00"`, 4.25 gives `"04:15"`, and 7.999 hours (479.94 minutes) gives `"07:59"`, truncated and not rounded |
| BetterRest.WakeOffset | BetterRest/ContentView.swift:111-113 | the offset is a multiple of 60, and for an hour in `[0, 24)` and a minute in `[0, 60)` it lies in `[0, 86400)` |
| BetterRest.WakeOffsetDecodes | BetterRest/ContentView.swift:112-113 | for a valid clock reading, `offset / 3600` is the hour and `offset % 3600 / 60` the minute |
| BetterRest.WakeOffsetInjective | BetterRest/ContentView.swift:112-113 | two valid clock readings give the same offset exactly when their hours and minutes agree |
| BetterRest.MissingComponentIsZero | BetterRest/ContentView.swift:112-113 | a missing hour or minute contributes what a zero one does |
| BetterRest.ContentView.PredictionInput | BetterRest/ContentView.swift:111-115 | the wake feature is the wake-up offset `WakeOffset` of the current hour and minute, from which `WakeOffsetDecodes` recovers both for a valid reading; it is a whole number of seconds that is a multiple of 60, within `[0, 86400)` for a valid clock reading; the sleep and coffee features are the current `sleepAmount` and `coffeeAmount` |
| BetterRest.ContentView.TimeString | BetterRest/ContentView.swift:131-136 | `timeString(from:)` gives the same guarantees as `inString()`: for non-negative hours it reads back as the truncated minute count, has length 5 exactly below 100 hours and a padding zero exactly below 10 hours |
| BetterRest.ContentView.constructor | BetterRest/ContentView.swift:12-19 | initial state: the default wake time, 8.0 hours, 0 cups, empty alert title and message, alert not showing, `firstUse` raised |
| BetterRest.ContentView.SetWakeUp | BetterRest/ContentView.swift:92-94 | sets the wake-up value; `firstUse` afterwards is true only if it was true and the value did not change; nothing else changes |
| BetterRest.ContentView.SetSleepAmount | BetterRest/ContentView.swift:95-97 | sets the sleep amount; a change clears `firstUse`, which is never raised again; nothing else changes |
| BetterRest.ContentView.SetCoffeeAmount | BetterRest/ContentView.swift:98-100 | sets the coffee amount; a change clears `firstUse`, which is never raised again; nothing else changes |
| BetterRest.ContentView.CalculateBedTime | BetterRest/ContentView.swift:105-127 | on success the title is `"Your ideal bedtime is..."` and the returned text is exactly the stored message; on failure the title is `"Error"`, the message the fixed apology and the returned text `""`; only the title and message change, so `showingAlert` and `firstUse` do not |
| BetterRest.ContentView.IdealBedtime | BetterRest/ContentView.swift:21-23 | `"--:--"` with no state change while `firstUse` holds; otherwise exactly what a calculation reports |
| BetterRest.TimeStringMatchesInString | BetterRest/ContentView.swift:131-136 | `timeString(from:)` and `inString()` return the same string for every input |
| BetterRest.PlaceholderIsNoClock | BetterRest/ContentView.swift:22 | the placeholder `"--:--"` does not read as a clock value, so it cannot be mistaken for a rendered amount |

## Left out

- The CoreML `SleepCalculator` model and its prediction: a trained asset behind a foreign API with floating-point output. It is part of the opaque `Bedtime` parameter.
- `wakeUp - prediction.actualSleep` and `Date.formatted(date:time:)`: Foundation date arithmetic and locale-dependent formatting. They are part of the opaque `Bedtime` parameter, and no midnight wrap-around is claimed for them.
- `Calendar.current` lookups and `defaultWakeTime`: they depend on the calendar and the time zone. The wake-up date is given by its hour and minute components, and the default wake time is a constructor parameter.
- SetWakeUp: two wake-up dates with the same hour and minute on different days are one value in the model, so that change does not clear `firstUse` here.
- SleepAmount.TotalMinutes: computes `hours * 60` exactly, not with `Double` rounding. The two agree for every stepper value.
- DecimalFormat.Format02d: renders the full integer value. Foundation's `%d` reads a 32-bit argument, which matters only for hour counts beyond the 32-bit range.
- SwiftInt.Quot: only positive divisors are modelled, because the source only divides by 60.
- BetterRest.WakeOffset: `Int` overflow of `hour * 60 * 60` is not modelled, because calendar components are small.
- The SwiftUI layout, the widgets, the alert presentation, the navigation stack and the preview: UI plumbing. This includes the coffee picker's `1..<21` range against its `0` default.
- Showing the alert: `showingAlert` is never set, because the assignment in the source is commented out.
