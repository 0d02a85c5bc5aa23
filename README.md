# Skill-check indicator

A model of the skill-check indicator of ox_lib's web UI
(`web/src/features/skillcheck/indicator.tsx`). In this timed minigame a pointer
sweeps once around a dial, starting at -90 degrees. The player must press the
expected key while the pointer is inside a target arc. Each activation reports
at most one boolean outcome: exactly one when it ends by a press or by the
timeout, none when it is torn down from outside.

The model has three modules:

- `Keys` (keys.dfy) is the pure key normalisation of the key-down handler.
  The candidate is the produced key, lower-cased. When the first UTF-16 code unit
  of the key is 880 (capital Heta) or more, the layout counts as non-Latin. In that
  case a physical code `KeyX` yields `x` and a code `DigitN` yields `N`.
- `Sweep` (sweep.dfy) is the arithmetic of one animation frame. The speed is the
  multiplier floored to 0.0001. The duration is 2000 ms divided by the speed. The
  progress is elapsed time over duration, capped at 1. The angle is
  -90 + 360 × progress.
- `SkillCheck` (indicator.dfy) holds the widget as the class `Indicator`. The
  refs and state of the component become its fields: `startTime`, the `completed`
  latch, `indicatorAngle` and `keyPressed`. The pending animation frame becomes the
  boolean `framePending`, and the registered window handler becomes
  `listenerInstalled`. The methods are the component's callbacks and effects:
  `Frame`, `KeyDown`, `Evaluate`, `Activate`, `Teardown` and `StopAnimation`. The
  caller chooses their order. Each reported outcome is returned by the method
  that reports it. It is also appended to the ghost history `emissions`.
  The object invariant `Valid()` says that an activation reports at most once, and
  only after the latch is set. It also says that a running activation has a frame
  pending and the handler installed. Finally, it says the pointer lies in
  [-90, 270] where the latched start time puts it.

A fourth module, `Scenarios` (scenarios.dfy), drives the class through complete
runs: a timeout, presses inside and outside the arc, the key list, a press racing
the closing frame, three frames with non-decreasing timestamps, a stale key carried
into the next activation, and a Greek layout.

The code is followed in these respects:

- The candidate key is a string. A key such as "Enter" gives "enter".
- The evaluation is skipped for an empty candidate, because an empty string is falsy.
- A key list that is present but empty is truthy, so it ignores every press.
- The timeout path only stops the animation. The key handler stays installed
  until teardown, and the latch suppresses later presses.
- The activation effect does not clear a candidate recorded earlier, so
  `Activate` keeps `keyPressed`. As a consequence, a key pressed after a
  timeout is recorded (the handler is still installed) and only ignored by the
  latch; the first evaluation of the next activation then judges that stale
  key at once, without a new press (`Scenarios.StaleKeyRun`).
- A frame after completion changes nothing.

## Model

| member | source | states |
|---|---|---|
| `Keys.LowerChar` | web/src/features/skillcheck/indicator.tsx:70 | the result is never a capital; capitals map to their lower-case letter, every other character is kept |
| `Keys.Lower` | web/src/features/skillcheck/indicator.tsx:80 | keeps the length, lower-cases every character, and the result has no capital |
| `Keys.LowerIdempotent` | web/src/features/skillcheck/indicator.tsx:70-80 | lower-casing twice (lines 70 and 80) is the same as once |
| `Keys.CodePatternsExclusive` | web/src/features/skillcheck/indicator.tsx:72-78 | no physical code is both a letter code and a digit code, so the two replacements never both apply |
| `Keys.NormalizeKey` | web/src/features/skillcheck/indicator.tsx:66-83 | the candidate has no capital, and it is either one character or the lower-cased key |
| `Keys.NormalizeLatin` | web/src/features/skillcheck/indicator.tsx:68-80 | when the first code unit is below 880, or the key is empty, the candidate is the lower-cased key whatever the code is |
| `Keys.NormalizeLetterKey` | web/src/features/skillcheck/indicator.tsx:71-74 | on a non-Latin layout, a code "Key" + one character yields that character lower-cased |
| `Keys.NormalizeDigitKey` | web/src/features/skillcheck/indicator.tsx:76-78 | on a non-Latin layout, a code "Digit" + one character yields that character lower-cased, and a digit is yielded as it is |
| `Keys.NormalizeOtherCode` | web/src/features/skillcheck/indicator.tsx:71-80 | on a non-Latin layout, any other code leaves the lower-cased key as the candidate |
| `Sweep.Speed` | web/src/features/skillcheck/indicator.tsx:47 | the speed is the maximum of the multiplier and 0.0001 |
| `Sweep.Duration` | web/src/features/skillcheck/indicator.tsx:48 | the duration is positive and at most 2000 / 0.0001 ms, and duration × speed = 2000 |
| `Sweep.Progress` | web/src/features/skillcheck/indicator.tsx:50 | the progress is at most 1 and not negative for elapsed ≥ 0; it is exactly 1 iff elapsed reaches the duration |
| `Sweep.Angle` | web/src/features/skillcheck/indicator.tsx:51-55 | for elapsed ≥ 0 the angle lies in [-90, 270]; elapsed 0 gives -90; the timeout test `angle + 90 >= 360` holds iff elapsed reaches the duration |
| `Sweep.AngleLinear` | web/src/features/skillcheck/indicator.tsx:47-51 | before the sweep closes, the angle grows linearly: -90 + 360 × elapsed × speed / 2000 |
| `Sweep.ProgressMonotone` | web/src/features/skillcheck/indicator.tsx:50 | progress is non-decreasing in elapsed time |
| `Sweep.AngleMonotone` | web/src/features/skillcheck/indicator.tsx:45-51 | the angle is non-decreasing in elapsed time |
| `Sweep.SweepClosesAt` | web/src/features/skillcheck/indicator.tsx:47-55 | the sweep closes iff elapsed × speed ≥ 2000; for a multiplier ≥ 0.0001, iff elapsed ≥ 2000 / multiplier |
| `SkillCheck.Outcome` | web/src/features/skillcheck/indicator.tsx:110-112 | success iff the candidate equals the expected key and arc start ≤ angle ≤ arc start + offset, both ends inclusive; a negative offset never succeeds |
| `SkillCheck.Ignored` | web/src/features/skillcheck/indicator.tsx:102-104 | the early returns of the evaluation: the latch and an empty key list ignore every press; a press is evaluated exactly when the latch is clear and the candidate is non-empty and, if a key list is given, in that list |
| `SkillCheck.Indicator.constructor` | web/src/features/skillcheck/indicator.tsx:23-91 | mounting followed by the first activation: angle -90, no start time, latch clear, handler installed, one frame pending, nothing reported |
| `SkillCheck.Indicator.StopAnimation` | web/src/features/skillcheck/indicator.tsx:30-35 | afterwards no frame is pending, whether or not one was before, so a second call changes nothing |
| `SkillCheck.Indicator.Activate` | web/src/features/skillcheck/indicator.tsx:85-91 | after teardown: resets the angle to -90, clears the start time and the latch, installs the handler and one frame, and opens a new activation with no report; the candidate is kept |
| `SkillCheck.Indicator.Teardown` | web/src/features/skillcheck/indicator.tsx:93-98 | cancels the frame, removes the handler, clears the start time and sets the latch; reports nothing |
| `SkillCheck.Indicator.Reactivate` | web/src/features/skillcheck/indicator.tsx:85-99 | a new configuration mid-sweep tears down the old activation, then starts a fresh one with no report |
| `SkillCheck.Indicator.Frame` | web/src/features/skillcheck/indicator.tsx:37-65 | after completion it changes nothing, whatever the timestamp; otherwise it latches the start time on the first frame, where the angle is -90, and records the frame's timestamp. The angle is the one for the elapsed time and never decreases. At 270 the frame sets the latch, leaves no frame pending and reports false exactly once; otherwise it leaves one frame pending and reports nothing |
| `SkillCheck.Indicator.KeyDown` | web/src/features/skillcheck/indicator.tsx:66-83 | while the handler is installed, the normalised candidate is recorded; otherwise nothing changes |
| `SkillCheck.Indicator.Evaluate` | web/src/features/skillcheck/indicator.tsx:101-123 | an ignored press changes nothing and reports nothing. Ignored means: no or empty candidate, latch set, or candidate outside a given key list. Otherwise the frame is cancelled, the handler removed, the latch set and the candidate cleared, and `Outcome` is reported once |
| `Scenarios.TimeoutRun` | web/src/features/skillcheck/indicator.tsx:37-65 | at speed 1 with frames at 0, 1000 and 2000 ms, only the last frame reports, it reports false, and no frame is left; a later press and a later frame are ignored |
| `Scenarios.ArcRun` | web/src/features/skillcheck/indicator.tsx:101-112 | with target arc [0, 30], "W" pressed at 15 degrees succeeds and at 50 degrees fails |
| `Scenarios.KeyListRun` | web/src/features/skillcheck/indicator.tsx:102-112 | with key list ["w", "a"], "s" is ignored while the sweep goes on, and "a" is evaluated and fails |
| `Scenarios.RaceRun` | web/src/features/skillcheck/indicator.tsx:39-112 | with a press and the sweep-closing frame both pending, exactly one of them reports, in either order; the frame can only report false |
| `Scenarios.MonotoneRun` | web/src/features/skillcheck/indicator.tsx:41-62 | for any multiplier and three non-decreasing timestamps, the first frame shows -90 and the angles never decrease and stay at most 270 |
| `Scenarios.StaleKeyRun` | web/src/features/skillcheck/indicator.tsx:55-112 | after a timeout a press of "w" is recorded but ignored; the next activation, which expects "a", reports failure on its first evaluation without a new press |
| `Scenarios.NonLatinRun` | web/src/features/skillcheck/indicator.tsx:68-80 | the Greek omega on the physical W key normalises to "w", and on Digit7 it normalises to "7" |

## Left out

- Rendering: the rotated `<circle>` and its class name (line 125) are presentation only.
- Browser primitives: `requestAnimationFrame`, `cancelAnimationFrame` and the window key listener are modelled as the booleans `framePending` and `listenerInstalled`. Frame identifiers are not modelled.
- The completion callback is not modelled as a call. The consumer of `handleComplete` is modelled as the reported value and the ghost history `emissions`.
- React scheduling is not modelled: effect dependency arrays, re-render timing, batching of state updates, and the interleaving of frame and key callbacks. Each callback or effect is one method call, in an order the caller chooses.
- React runs an effect's cleanup before the effect runs again. `Activate` therefore requires the torn-down state, and `Reactivate` is the two steps together.
- The props `angle` and `offset` are fixed per activation in `Config`. The model does not cover changing them mid-sweep without a new activation, although the evaluation effect would read the new values.
- SkillCheck.Indicator.Evaluate: judges a press against the current `indicatorAngle`. In the component, an evaluation that runs in the same commit as a new activation (a candidate left over from the previous one) still sees the previous render's angle, because `setIndicatorAngle(-90)` is not visible yet; the model evaluates against the reset angle of -90.
- SkillCheck.Indicator.Frame: while the activation runs, requires a timestamp no earlier than the previous frame's. The browser's frame clock guarantees this, and the angle bounds and monotonicity rest on it. After completion any timestamp is accepted.
- IEEE-754 behaviour is out of scope. Angles and times are mathematical reals. Rounding is not modelled. A NaN or missing multiplier (which `|| 0` turns into 0) is not modelled. The multiplier is used as the real number it is.
- Keys.LowerChar: models `toLowerCase` for ASCII letters only. Full Unicode case mapping belongs to the JavaScript library. Strings that change length when lower-cased are not covered.
