# Usage-monitor badge and popup, modelled in Dafny

This project models the logic of a browser extension that watches a subscription's
rolling usage quotas: a five-hour window and a seven-day window, each with a utilization
percentage and a reset instant. It covers two parts.

- **The background worker's badge engine** (`background.dfy`, module `Background`):
  - the pacing calculator gives the utilization a perfectly linear consumer would have
    reached by now;
  - two classifiers decide, per window, whether the toolbar badge is hidden, amber or red;
  - a `BadgeController` class renders the badge. It alternates between the five-hour (`H…`)
    and seven-day (`W…`) window on a repeating timer. It owns that timer and replaces it
    with a static grey `!` when a fetch fails.
- **The popup panel** (`popup.dfy`, module `Popup`): the plan label, the clamped progress
  bar and its colour tier, the reset countdown, the status line driven by the highest of
  the four windows, and the login-warning fallback.

Supporting modules:
- `wrappers.dfy`: `Option`, standing for `null`/`undefined`.
- `numbers.dfy`: `Math.round` and the decimal text of an integer, with a parser and round trip.
- `colors.dfy`: the hex colours.
- `usage.dfy`: the usage snapshot and the `?.utilization || 0` defaulting.

Modelling choices:
- Instants are integer milliseconds since the epoch, and `now` is a parameter.
- Utilizations and the expected pace are exact `real`s.
- The browser's timers are a ghost set `liveTimers` plus a counter for fresh handles. This makes
  "exactly one live rotation timer" a statement about state rather than a flag.

Behaviour of the code that the model keeps as written:
- The rotation re-renders from values captured when the snapshot arrived. The utilizations are
  rounded then, and only `now` advances; a tick does not re-read newer data.
- When a window is hidden, only the badge text is cleared. The badge colour keeps its previous
  value.
- The expected utilization lies strictly between 0 and 100, since both the remaining and the
  elapsed time are positive. Because it is positive whenever a pace ratio is computed, the pace
  ratio never divides by zero. `FiveHourBadgeData` and `SevenDayBadgeData` verify their
  divisions from `ExpectedUtilization`'s contract alone.

## Model

| member | source | states |
|---|---|---|
| `Numbers.Round` | background.js:137-139 | `Math.round` gives the nearest integer, halves rounded up: `x - 0.5 < n <= x + 0.5` |
| `Numbers.DecimalRoundTrip` | background.js:151-159 | the decimal text written after the window tag reads back as exactly the rounded utilization |
| `Numbers.DecimalInjective` | popup.js:111 | different integers never share a decimal text, so a shown percentage or countdown names one value |
| `Background.ExpectedUtilization` | background.js:81-97 | defined iff a reset time is present and `0 < resetsAt - now < window length`; then `0 < e < 100` and `e * window = 100 * elapsed` |
| `Background.ExpectedIncreasing` | background.js:86-96 | with the reset instant and window fixed, once defined the pace stays defined until the reset and is strictly increasing in `now` |
| `Background.PaceRatioAbove` | background.js:110-111 | for a positive pace, `utilization / expected > 1` iff `utilization > expected` |
| `Background.PaceRatioAtMost` | background.js:124-125 | for a positive pace, `utilization / expected <= 0.8` iff `utilization <= 0.8 * expected` |
| `Background.FiveHourBadgeData` | background.js:99-113 | without a pace: red iff >= 100, amber iff 90..99, else hidden; with a pace: hidden iff < 60, else red iff above pace, amber otherwise |
| `Background.SevenDayBadgeData` | background.js:115-128 | without a pace: red iff >= 100, amber iff 80..99, else hidden; with a pace: hidden iff <= 0.8 of pace, red iff above pace, amber in between |
| `Background.OverQuotaIsRed` | background.js:102-127 | at 100% or more, both windows show red whether or not a pace is known |
| `Background.ThresholdExamples` | background.js:99-128 | reference points of both tables (59/61 around the 60 floor, ratios 0.71, 0.94, 1.06, 1.22, absolute 79/80/89/95/100) |
| `Background.OneHourLeftScenario` | background.js:81-113 | a five-hour window with one hour left has pace 80, so 95% shows red with text `H95` |
| `Background.AlternatesByParity` | background.js:142-163 | in any render history that starts with the five-hour window and never repeats a window twice in a row, render k shows the five-hour window iff k is even |
| `Background.CaptureInputs` | background.js:137-140 | a missing window reads as utilization 0 with no reset time; each utilization is rounded to within 0.5 |
| `Background.BadgeLabelDecodes` | background.js:151-159 | a shown badge's text is the window tag `H`/`W` followed by text that parses back to that window's rounded utilization |
| `Background.BadgeController.constructor` | background.js:79 | no interval handle, no live timer, empty badge text |
| `Background.BadgeController.ClearBadgeInterval` | background.js:131-135 | after clearing, there is no handle and no live timer |
| `Background.BadgeController.RenderBadge` | background.js:145-164 | appends the window the toggle selects to the render history (which keeps alternating, five-hour first), writes `""` (colour untouched) when that window is hidden, else the `H`/`W` label and the classifier's colour, then flips the toggle |
| `Background.BadgeController.Start` | background.js:130-171 | the old timer is cancelled; the new handle is a timer that was not live before; afterwards exactly one live timer exists, the one the handle names; the history is the single five-hour render, with the five-hour window's badge, and the next tick shows the seven-day window |
| `Background.BadgeController.Tick` | background.js:170 | each timer firing renders the next window of the H, W, H, … alternation with that window's badge and leaves the timer running |
| `Background.BadgeController.UpdateBadge` | background.js:179-186 | cancels any rotation (no live timer afterwards) and writes the given text and colour |
| `Background.BadgeController.ErrorOverride` | background.js:49-52 | the error badge is a grey `!` with no live timer |
| `Background.BadgeController.Refresh` | background.js:27-53 | a fetched snapshot captures its inputs and starts a rotation with exactly one fresh timer whose first render shows the five-hour window's badge; a missing organization, missing usage or a failure gives the error badge with no timer |
| `Popup.PlanLabel` | popup.js:91-100 | the three known tiers map to "Max 20x", "Max 5x", "Pro"; the label is "Free" iff the tier is none of them |
| `Popup.ClampPercent` | popup.js:107-108 | the bar width lies in [0, 100], equals the utilization when already in range, and saturates at either end |
| `Popup.BarColor` | popup.js:113-120 | red iff > 80, amber iff in (50, 80], green iff <= 50 |
| `Popup.Decompose` | popup.js:129-132 | `diffMins` is the floor of `diffMs / 60000`; `diffHours * 60 + remMins == diffMins` with `remMins < 60`; `diffDays` is the floor of `diffHours / 24` |
| `Popup.CountdownOf` | popup.js:122-146 | no reset time, already reset (`diffMs <= 0`), days (>= 1 day left), hours+minutes (1 h to 1 day) or minutes (< 1 h); exactly one form, each the floor of the time left |
| `Popup.CountdownText` | popup.js:122-145 | the countdown text is empty iff there is no reset time, and reads `リセット済み` iff the window has already reset |
| `Popup.CountdownTextInjective` | popup.js:134-145 | different countdowns give different texts, so the text determines whether the window has reset and the days, or hours and minutes, or minutes left |
| `Popup.ProgressBarView` | popup.js:102-147 | the width is the utilization clamped to [0, 100]; the value text is a `%` after text that parses to the rounded width; colour red iff utilization > 80, amber iff in (50, 80], green otherwise; the reset text is the countdown of the window's reset instant, empty iff there is none |
| `Popup.MaxOf` | popup.js:159 | the maximum is one of the values and no value exceeds it |
| `Popup.StatusLevelOf` | popup.js:149-171 | the "near limit" warning iff some window is above 90; the OK message iff every window is at most 80; missing windows count as 0 |
| `Popup.RenderPopup` | popup.js:30-80 | the login warning with plan "Unknown" and no bars iff the organization or the usage is missing; otherwise the plan label, the five-hour and seven-day bars drawn from those windows (missing ones as 0% with no reset), Sonnet/Opus bars exactly when those windows exist and drawn from them, and the status line |

Definitions the rows above state their contracts in terms of, and which carry no property of
their own: `UsageData.UtilizationOrZero` and `UsageData.ResetsAtOf` (the `?.` defaulting,
popup.js:54-74, background.js:137-140), `Background.Utilization`, `Background.BadgeDecision`
and `Background.BadgeLabel` (the per-window pick of classifier and label, background.js:147-159),
`Popup.Utilizations` and `Popup.StatusMessage` (the four windows and the text and colour of each
status level, popup.js:149-171), and `Popup.WindowBar` and `Popup.OptionalBar` (a bar per window,
popup.js:54-77).

## Left out

- Extension lifecycle is not modelled: alarms, the `refresh` message channel and the install hook (background.js:1-25). It is event plumbing.
- Network and storage I/O are not modelled: the organization and usage fetches, JSON parsing, and storing the snapshot (background.js:27-77, popup.js:31). `Refresh` takes the fetch outcome as a parameter.
- Real timer semantics are not modelled: the 15-second period and the popup's 500 ms spinner. The rotation timer is a live-timer set, and `Tick` is one explicit firing.
- Timestamp parsing is not modelled. `resets_at` arrives already parsed to milliseconds, so a non-empty string that does not parse (which gives `NaN` at background.js:84-86 and popup.js:124-126) is not represented. An empty string is falsy and reads as no reset time, which is `None`.
- The popup's "last updated" line is not modelled (popup.js:82-87). It calls the locale formatter `toLocaleTimeString`, which is foreign.
- IEEE-754 arithmetic is not modelled: `NaN`, `-0`, rounding of the division, and `0.8` not being exact. The model uses exact reals. `Numbers.Round` is `Math.round` on exact values.
- Numbers.DecimalString: does not model JavaScript's exponent notation for magnitudes of 10^21 and above, because utilizations are percentages.
- Popup.ProgressBarView: the bar width is kept as a number; the text `${pct}%` of a fractional width is not modelled (float-to-text formatting).
- Popup.PlanLabel: does not model JavaScript object lookups that hit inherited prototype keys (a tier named `constructor`, say), since the service sends plan identifiers.
- DOM writes and the refresh-button handler are not modelled. Functions return the text and colours the popup would write.
- `getColorForUtilization` (background.js:173-177) is not modelled: nothing calls it.
- The badge's initial colour is the browser's default and is shown as `""`.
