# Gesture control and splash-screen handlers, modelled in Dafny

This project models two parts of the WebAR SDK sample code.

**The A-Frame multi-touch gesture controller, `GestureControl`.**
- Each touch event becomes a snapshot. The snapshot holds the touch count, the centroid of the touches (raw and scaled by `2 / (innerWidth + innerHeight)`), and, from two touches on, the spread: the mean distance of the touches from the centroid, in the same scaled units.
- The handler compares each snapshot with the one it stored. It then emits `rotateControlStart/Move/End` (one finger) or `zoomControlStart/Move/End` (two or more).
- It counts the Moves. From the third Move on it suppresses clicks, until a 100 ms timer armed by an End fires.
- Two receivers act on the Moves: rotation turns the target about y, and scaling multiplies a clamped scale factor into the target's initial scale.

**The splash-screen handlers of the advanced surface tracking sample.**
- They decide whether an SDK progress report carries real data.
- They apply defaults to real data.
- They pick the stage and detail texts for a percentage.
- They map SDK error codes to display texts.
- They run a simulated progress bar until real data arrives.

Modules:

- Layout:
  - `wrappers.dfy`: `Wrappers`, the `Option` type.
  - `js_math.dfy`: `JsMath`, `Math.min` and `Math.max` on finite numbers.
  - `gesture_rules.dfy`: `GestureRules`, the value-level rules of the gesture controller. It contains snapshot derivation, classification, event names, one handler step as a function `Step` on an `EngineState` value, runs of steps, the suppression timer, and the effector arithmetic, each with its lemmas.
  - `gesture_control.dfy`: `Gestures`, the `GestureControl` object as a class whose methods update its fields in place. The methods that carry the handler's logic are proved against `GestureRules`: `ProcessGestureEvent` and `HandleSnapshot` leave the state `Step` gives and append the events `Step` emits to a ghost log; `DeriveSnapshot`, `CenterPositionRaw` and `MeanDistanceTo` compute `DeriveGestureControl`, `Centroid` and `MeanDistance`; `FireClearTimer` gives `TimerFires`; `Click` answers `ClickInvokes`; and `ControlScale` gives `NextScaleFactor`. The remaining setters (`Initialize`, `AttachGestureControl`, `AttachReceiver`, `ControlRotation`) state their new fields directly. The receiver's target, `Object3D`, is a class as well.
  - `splash_rules.dfy`: `SplashRules`, the splash-screen texts, the error table, the progress-data tests and the simulated tick.
  - `splash_screen.dfy`: `Splash`, the script's globals as a class `SplashScreen` whose methods are the handlers.
- Inputs:
  - `Math.sqrt` of the sum of squares is a function parameter `norm`. Lemmas that need it to behave like a length require `IsLength(norm)`: never negative, and 0 at the origin.
  - `performance.now()` is a parameter `now`.
  - `Math.random()` is a parameter `random` with `0 <= random < 1`.
  - The window size is a `Viewport` parameter.
- Numbers are reals. JavaScript truthiness is written out:
  - a spread counts only when it is present and non-zero;
  - `x || 0` takes a missing number as 0;
  - `s || t` on strings skips the empty string.

Three behaviours of the code are worth knowing; the model follows the code in each.
- **Count change.** On a change of touch count the code first emits the new kind's Start with the new snapshot, then the old kind's End, and then drops the stored snapshot, so the next event emits a Start again (gesture-control.js:88-137; `StepOnCountChange`, `CountChangeStartsTwice`).
- **Zero `startSpread`.** `controlScale` divides by `startSpread` without a guard (gesture-control.js:207-208). `ControlScale` therefore requires `startSpread != 0`.
- **The terminal tick.** The completing tick of the simulated progress stores NaN (custom-handlers.js:347-358; see Findings).

## Model

| member | source | states |
|---|---|---|
| GestureRules.DeriveGestureControl | aframe/reactjs/src/gesture-control.js:145-193 | no snapshot exactly when there are no touches; otherwise the touch count is the number of touches, the spread is present exactly from two touches on, and no anchor is set |
| GestureRules.SpreadOf | aframe/reactjs/src/gesture-control.js:177-190 | the spread is present exactly when there are two or more touches |
| GestureRules.CentroidWithinTouches | aframe/reactjs/src/gesture-control.js:160-168 | the raw centroid lies inside every box that holds all the touches |
| GestureRules.TranslationMovesCentroid | aframe/reactjs/src/gesture-control.js:160-175 | moving every finger by (dx, dy) moves the raw centroid by (dx, dy) and the scaled centroid by (dx, dy) times the screen scale |
| GestureRules.TranslationKeepsSpread | aframe/reactjs/src/gesture-control.js:177-190 | moving every finger by the same amount changes neither the touch count nor the spread |
| GestureRules.SpreadNonNegative | aframe/reactjs/src/gesture-control.js:177-190 | on a viewport of positive size the spread is never negative |
| GestureRules.CoincidentTouches | aframe/reactjs/src/gesture-control.js:160-190 | fingers all at one point have that point as centroid and, from two on, spread 0 |
| GestureRules.TwoTouchExample | aframe/reactjs/src/gesture-control.js:145-193 | two fingers 100 px apart on a 1000 x 1000 viewport give centroid (50, 0), position (0.05, 0) and spread 0.05 |
| GestureRules.SumsAppend | aframe/reactjs/src/gesture-control.js:160-187 | folding the touches left to right, as `reduce` does, adds the last touch's term to each sum |
| GestureRules.Classify | aframe/reactjs/src/gesture-control.js:81-86 | a Move never starts or ends anything; a current snapshot either continues the stored one or starts; a stored snapshot either continues or ends; a Move joins snapshots of one touch count |
| GestureRules.ClassifyCases | aframe/reactjs/src/gesture-control.js:81-86 | Move exactly when both snapshots exist with equal counts; Start when a current one exists and not Move; End when a stored one exists and not Move; the five cases and the flags each raises |
| GestureRules.ControlName | aframe/reactjs/src/gesture-control.js:195-199 | "rotateControl" for one touch and "zoomControl" for two or more |
| GestureRules.EventNameLiteral | aframe/reactjs/src/gesture-control.js:95-96 | the name of an event is one of the six literal names, by kind and phase |
| GestureRules.EventNamesDistinguish | aframe/reactjs/src/gesture-control.js:195-199 | two event names are equal exactly when kind and phase are equal |
| GestureRules.Step | aframe/reactjs/src/gesture-control.js:76-143 | one touch event keeps the stored snapshot consistent and anchored |
| GestureRules.StepOnStart | aframe/reactjs/src/gesture-control.js:88-102 | a first touch emits one Start carrying the snapshot stamped with time, position and spread, stores it, and resets the move counter |
| GestureRules.StepOnRelease | aframe/reactjs/src/gesture-control.js:131-142 | lifting all fingers emits one End with the stored snapshot, drops it, and arms one clear timer |
| GestureRules.StepWhileIdle | aframe/reactjs/src/gesture-control.js:79-86 | an event with no touches and nothing stored emits nothing and changes only the flags |
| GestureRules.StepOnCountChange | aframe/reactjs/src/gesture-control.js:88-137 | a count change emits the new kind's Start and then the old kind's End, resets the counter, and leaves nothing stored |
| GestureRules.CountChangeStartsTwice | aframe/reactjs/src/gesture-control.js:88-137 | after a count change the next event with the same count emits a Start again and stores its snapshot |
| GestureRules.ThreeToTwoFingersStartsAndEndsZoom | aframe/reactjs/src/gesture-control.js:88-137 | going from three fingers to two emits "zoomControlStart" and "zoomControlEnd" on one event |
| GestureRules.Stamp | aframe/reactjs/src/gesture-control.js:89-93 | the snapshot that opens an episode gets the anchor (start time, start position = position, start spread = spread) and nothing else changes; consistency is kept |
| GestureRules.SpreadChange | aframe/reactjs/src/gesture-control.js:117-119 | a spread change is reported exactly when the current spread is present and non-zero, and added to the previous spread it gives the current one |
| GestureRules.Merge | aframe/reactjs/src/gesture-control.js:121 | `Object.assign` takes the current count and positions, the current spread when present and otherwise the stored one, keeps the stored anchor when the current snapshot has none, and merging two consistent snapshots of one count gives a consistent one |
| GestureRules.StepOnMove | aframe/reactjs/src/gesture-control.js:104-129 | a Move emits one event with the position change, a spread change exactly when the current spread is non-zero, and the merged snapshot, which keeps the Start's anchor; the counter rises by one and suppression switches on past two |
| GestureRules.Run | aframe/reactjs/src/gesture-control.js:76-143 | any run of touch events keeps the stored snapshot consistent and anchored |
| GestureRules.MoveRun | aframe/reactjs/src/gesture-control.js:104-129 | while the count stays the same every event is a Move of that kind, the anchor survives, the counter counts the Moves, suppression is on exactly past two, and the reported horizontal changes add up to the distance travelled |
| GestureRules.SuppressionFromThirdMove | aframe/reactjs/src/gesture-control.js:105-107 | after a Start, suppression is on exactly from the third Move, and clicks then reach no callback |
| GestureRules.TimerFires | aframe/reactjs/src/gesture-control.js:138-141 | a clear timer firing switches suppression off and changes neither the stored snapshot nor the counter |
| GestureRules.StaleTimerReenablesClicksMidGesture | aframe/reactjs/src/gesture-control.js:138-141 | a timer left from an earlier End can let clicks through in the middle of a later gesture, until the next Move |
| GestureRules.Clamp | aframe/reactjs/src/gesture-control.js:210 | `Math.min(max, Math.max(x, min))` is within ordered bounds, is x when x lies between them, and is the upper bound when the bounds are reversed |
| GestureRules.NextScaleFactor | aframe/reactjs/src/gesture-control.js:207-210 | after one zoom Move the scale factor lies within ordered bounds |
| GestureRules.PinchExample | aframe/reactjs/src/gesture-control.js:117-118 | a pinch from spread 0.05 to 0.06 reports a change of 0.01 and scales a factor of 1 to 1.2 |
| GestureRules.ScaleStaysInBounds | aframe/reactjs/src/gesture-control.js:206-215 | whatever zoom Moves arrive, the accumulated scale factor lies within ordered bounds once one Move has been applied, or throughout when it starts within them |
| GestureRules.RotationAfterMoves | aframe/reactjs/src/gesture-control.js:201-204 | rotate Moves turn the target by the sum of their horizontal changes times the rotation factor |
| GestureRules.DragRotation | aframe/reactjs/src/gesture-control.js:201-204 | a one-finger drag turns the target by the distance travelled times the factor, however the drag was split into events |
| Gestures.GestureControl.constructor | aframe/reactjs/src/gesture-control.js:2-15 | a new controller has no flag set, no move counted, no callback and nothing stored |
| Gestures.GestureControl.Initialize | aframe/reactjs/src/gesture-control.js:17-21 | the rotation factor, the scale bounds and the callback take the given values, by default 5, 0.5 and 10 and no callback |
| Gestures.GestureControl.AttachGestureControl | aframe/reactjs/src/gesture-control.js:26-31 | attaching the gesture component resets the stored snapshot and nothing else |
| Gestures.GestureControl.DeriveSnapshot | aframe/reactjs/src/gesture-control.js:145-193 | the snapshot computed from the folded sums is the snapshot the rules define |
| Gestures.GestureControl.CenterPositionRaw | aframe/reactjs/src/gesture-control.js:160-166 | the loops over the touches compute the centroid |
| Gestures.GestureControl.MeanDistanceTo | aframe/reactjs/src/gesture-control.js:178-187 | the loop over the touches computes the mean distance from the centroid |
| Gestures.GestureControl.ProcessGestureEvent | aframe/reactjs/src/gesture-control.js:76-143 | the new state is the state `Step` gives, the events `Step` emits are appended to the log, and nothing else changes |
| Gestures.GestureControl.HandleSnapshot | aframe/reactjs/src/gesture-control.js:79-142 | the flags, then the Start, Move and End blocks in order, leave the state and the log `Step` defines |
| Gestures.GestureControl.EmitStart | aframe/reactjs/src/gesture-control.js:88-102 | the stamped snapshot is emitted and stored, and the counter restarts |
| Gestures.GestureControl.EmitMove | aframe/reactjs/src/gesture-control.js:104-129 | the counter rises, suppression switches on past two, and the merged snapshot is stored and emitted with the changes |
| Gestures.GestureControl.EmitEnd | aframe/reactjs/src/gesture-control.js:131-142 | the stored snapshot is emitted and dropped, and one timer is armed |
| Gestures.GestureControl.FireClearTimer | aframe/reactjs/src/gesture-control.js:138-141 | a timer firing leaves the state `TimerFires` gives |
| Gestures.GestureControl.Click | aframe/reactjs/src/gesture-control.js:65-71 | the callback receives the clicked element exactly when `ClickInvokes` holds: no gesture suppresses clicks and a callback was given; so the suppression lemmas about `Step` speak about this handler |
| Gestures.GestureControl.AttachReceiver | aframe/reactjs/src/gesture-control.js:46-51 | the receiver's entity becomes the target, its scale the initial scale, and the factor 1 |
| Gestures.GestureControl.ControlRotation | aframe/reactjs/src/gesture-control.js:201-204 | only rotation.y changes, by the horizontal change times the rotation factor |
| Gestures.GestureControl.ControlScale | aframe/reactjs/src/gesture-control.js:206-215 | the factor is the clamped product and lies within ordered bounds; every axis of the scale is the factor times the initial scale; the rotation is untouched |
| SplashRules.LoadingStageText | aframe/advanced-surface-tracking/custom-handlers.js:390-396 | the stage text is the entry of its band among 25, 50, 75 and 100 |
| SplashRules.FallbackDetailText | aframe/advanced-surface-tracking/custom-handlers.js:401-408 | the detail text is the entry of its band among 25, 50, 75, 95 and 100, "Ready to start" from 95 to below 100 |
| SplashRules.StageTextByBand | aframe/advanced-surface-tracking/custom-handlers.js:390-396 | two percentages get the same stage text exactly when they lie in the same band |
| SplashRules.DetailTextByBand | aframe/advanced-surface-tracking/custom-handlers.js:401-408 | two percentages get the same detail text exactly when they lie in the same band |
| SplashRules.TextTablesDistinct | aframe/advanced-surface-tracking/custom-handlers.js:390-408 | the five stage texts are distinct, and so are the six detail texts |
| SplashRules.TextsMoveForward | aframe/advanced-surface-tracking/custom-handlers.js:390-408 | as the percentage grows both texts move only forward through their tables |
| SplashRules.ReadyTextsIffComplete | aframe/advanced-surface-tracking/custom-handlers.js:390-408 | the stage text "SDK ready - preparing camera" and the detail text "Ready - starting camera" appear exactly from 100 on |
| SplashRules.OrElse | aframe/advanced-surface-tracking/custom-handlers.js:318-319 | `s \|\| t` is s when s is a non-empty string and t otherwise |
| SplashRules.ErrorDisplayInfo | aframe/advanced-surface-tracking/custom-handlers.js:287-321 | a known code gets its table entry; any other code gets "WebAR Error", the description or else the message or else "An unexpected error occurred", and the instruction or else "" |
| SplashRules.GenericTitleIffUnknown | aframe/advanced-surface-tracking/custom-handlers.js:316-317 | the title is "WebAR Error" exactly when the code is not in the table |
| SplashRules.ErrorInfoNeverBlank | aframe/advanced-surface-tracking/custom-handlers.js:287-321 | every error shows a non-empty title and a non-empty message |
| SplashRules.KnownCodeIgnoresDetails | aframe/advanced-surface-tracking/custom-handlers.js:316 | for a known code the displayed texts depend on the code alone |
| SplashRules.UnknownCodeMessagePrecedence | aframe/advanced-surface-tracking/custom-handlers.js:318 | for an unknown code the description wins over the message, which wins over the default |
| SplashRules.HasValidData | aframe/advanced-surface-tracking/custom-handlers.js:93-97 | a report is real data exactly when, shown as real progress, it shows a positive percentage or a component count whose current step it reports, or when it carries a debug object |
| SplashRules.ValidDataCases | aframe/advanced-surface-tracking/custom-handlers.js:93-97 | no report is not real data; a debug object, a positive percentage, or numbers with a positive total are; a zero percentage, a zero total, a null debug, or a total without a current are not |
| SplashRules.Round | aframe/advanced-surface-tracking/custom-handlers.js:124 | `Math.round` gives the integer within one half, halves rounded up |
| SplashRules.RealProgressShown | aframe/advanced-surface-tracking/custom-handlers.js:118-133 | a real report shows its own percentage or 0, rounded to within one half; "Components: c of t" (a missing current step as 0) exactly when the total is positive and "Loading components..." otherwise; and the "SDK ready" stage text exactly when its percentage is at least 100 |
| SplashRules.EmptyRealProgress | aframe/advanced-surface-tracking/custom-handlers.js:118-126 | a report without numbers shows 0, "Loading components..." and "Initializing SDK components" |
| SplashRules.FallbackUpdatesMoveForward | aframe/advanced-surface-tracking/custom-handlers.js:336-367 | over any run of ticks each shown percentage comes with the detail and stage texts of its bands, and neither text ever moves back through its table |
| SplashRules.Speed | aframe/advanced-surface-tracking/custom-handlers.js:339-346 | the band's speed is between 1 and 5: 5 below 20, 1 from 80 on |
| SplashRules.FallbackTick | aframe/advanced-surface-tracking/custom-handlers.js:338-358 | the corrected tick never passes 100, lands on 100 when it completes, and from a percentage within [0, 100] never goes back |
| SplashRules.TickBounds | aframe/advanced-surface-tracking/custom-handlers.js:338-358 | a tick never lowers progress and keeps it in [0, 100]; below 98 it adds `random * speed`, less than the speed, and the cap at 100 never applies; from 98 on progress is 100 |
| SplashRules.TicksStayInRange | aframe/advanced-surface-tracking/custom-handlers.js:336-369 | over any sequence of ticks simulated progress never goes back and never passes 100 |
| SplashRules.ShownAscending | aframe/advanced-surface-tracking/custom-handlers.js:336-369 | the percentages a run of ticks shows start no lower than the first, never pass 100, and never go back |
| SplashRules.JsMin | aframe/advanced-surface-tracking/custom-handlers.js:358 | `Math.min` is NaN exactly when an operand is NaN |
| SplashRules.FallbackTickAsWritten | aframe/advanced-surface-tracking/custom-handlers.js:338-358 | the tick as written gives NaN exactly when it completes, and otherwise the corrected tick's value |
| SplashRules.TerminalTickIsNaN | aframe/advanced-surface-tracking/custom-handlers.js:347-358 | from 98 on the tick as written stores NaN where 100 was meant; below 98 it agrees with the corrected tick |
| SplashRules.TerminalTickExample | aframe/advanced-surface-tracking/custom-handlers.js:347-364 | at 98.5 the tick as written stores NaN, while the corrected tick stores 100 and shows "Ready - starting camera" |
| Splash.SplashScreen.constructor | aframe/advanced-surface-tracking/custom-handlers.js:60-62 | no interval, progress 0, no real data |
| Splash.SplashScreen.StartFallbackProgress | aframe/advanced-surface-tracking/custom-handlers.js:330-336 | nothing changes while an interval runs; otherwise progress restarts at 0 and the interval starts |
| Splash.SplashScreen.StopFallbackProgress | aframe/advanced-surface-tracking/custom-handlers.js:375-381 | afterwards no interval runs |
| Splash.SplashScreen.Tick | aframe/advanced-surface-tracking/custom-handlers.js:336-369 | progress becomes one corrected tick of the old value, the completing tick stops the interval, progress stays in [0, 100], and one update is shown |
| Splash.SplashScreen.HandleRealSDKProgress | aframe/advanced-surface-tracking/custom-handlers.js:111-134 | real data is used from now on, no interval runs, and the report's update is shown |
| Splash.SplashScreen.HandleFallbackProgress | aframe/advanced-surface-tracking/custom-handlers.js:139-154 | afterwards the simulation runs exactly when real data has not arrived; it restarts at 0 only if it was not running |
| Splash.SplashScreen.InitializeSplashScreen | aframe/advanced-surface-tracking/custom-handlers.js:196-208 | the splash content is put in once; the simulation starts then unless real data has arrived |
| Splash.SplashScreen.CustomProgressHandler | aframe/advanced-surface-tracking/custom-handlers.js:78-106 | real data, once seen, is used for good; afterwards the simulation runs exactly when no real data has been seen; the splash content is put in once; progress is unchanged when a simulation was running or real data had arrived, and restarts at 0 when a stopped simulation is restarted (for example after the completing tick), or when the first splash starts it just before the first real report; a report with real data is shown and any other report shows nothing |

## Left out

- DOM and page work is not modelled. This covers `updateProgressUI`, `displayErrorDialog`, `updateElement`, `createSplashHTML`, `createErrorDialog`, `createCustomStyles`, `hideLoadingScreenWithTransition`, `hideCustomError`, `createCustomUIElements`, `initializeWhenReady`, the raw-data text, and the console logging. The screen updates are kept as a ghost log of `UiUpdate` values.
- `loader.js`, the configuration files, the React entry point and the PlayCanvas wrappers are not part of this model.
- A-Frame plumbing is not modelled: component registration, `addEventListener`/`removeEventListener`, and the dispatch of emitted events to the receivers. Emission appends to a ghost log. The receivers are methods that take a Move's values directly.
- Gestures.GestureControl.ProcessGestureEvent: the Start payload is the same object that a later Move merges into, so listeners holding that payload would see it change. The model emits values and does not capture this aliasing.
- Gestures.GestureControl.ProcessGestureEvent: requires `innerWidth + innerHeight != 0` for an event with touches. With touches and a zero sum the source divides by zero and propagates Infinity or NaN, which is not modelled; an event without touches returns before the division and needs no such condition.
- Gestures.GestureControl.ControlScale: requires `startSpread != 0`, and takes the spread change as a present number. The source divides without a guard (gesture-control.js:207-208). With `startSpread` 0 and a non-zero `spreadChange` the quotient is plus or minus Infinity, and the clamp at line 210 then snaps the factor to `gestureScaleMax` or `gestureScaleMin`: two fingers that land on one point and then spread apart set the factor to the maximum, 10 by default. With `startSpread` 0 and `spreadChange` 0, or with an absent `spreadChange` (read as `undefined`), the factor becomes NaN; NaN survives the clamp and every later Move, so the factor stays NaN from then on. None of this is modelled.
- Gestures.GestureControl.ControlRotation, Gestures.GestureControl.ControlScale: require an attached receiver. Without one the source throws on a null target; `controlScale` throws at gesture-control.js:212 only after it has already updated `scaleFactor`, which the model does not capture.
- Floating point is not modelled: reals replace IEEE doubles, and there is no rounding, Infinity or NaN except in the terminal-tick finding. `Math.sqrt` is the parameter `norm`. The general lemmas assume only its non-negativity and its value at the origin; `TwoTouchExample` also takes the two values `Math.sqrt` gives there, norm(50, 0) = norm(-50, 0) = 50.
- Timers are events in the model. The 100 ms clear timer is `TimerFires` / `FireClearTimer`, with a count of pending timers. The 200 ms interval is one `Tick` call per run. The 3 s backup timer that the completing tick starts (`startLoadingScreenBackupTimer`) is not modelled.
- `Math.random()` and `performance.now()` are parameters.
- `customErrorHandler` only logs and displays, so it is not modelled. Its decision is `ErrorDisplayInfo`.
- SplashRules.ErrorDisplayInfo: a code that names a built-in property of JavaScript objects, such as "toString", finds that property in the lookup table. The model treats such codes as unknown.
- SplashRules.HasValidData: progress properties that are not numbers (strings, say) are taken as absent. In `handleRealSDKProgress` a truthy non-number would pass through `\|\|` unchanged.
- SplashRules.ErrorDisplayInfo: error properties that are not strings are taken as absent. At custom-handlers.js:318-319 `||` would pass a truthy non-string `description`, `message` or `instruction` through unchanged.
- Splash.SplashScreen.Tick: models the corrected completing tick, which stores 100. The as-written tick is modelled by `FallbackTickAsWritten`; see Findings.
- The `rotationFactor`, `gestureScaleMin` and `gestureScaleMax` fields are undefined in the source until `initialize` runs, and `scaleFactor` and `initialScale` until a receiver is attached. The model's constructor starts them at 5, 0.5, 10, 1 and (1, 1, 1).

## Findings

| source | as written | input that shows it | evidently intended | confidence | as-written member | corrected member |
|---|---|---|---|---|---|---|
| aframe/advanced-surface-tracking/custom-handlers.js:347-358 | the completing branch sets progress to 100 but never assigns `increment`, so the next statement stores `Math.min(100 + undefined, 100)`, which is NaN | a tick with `currentFallbackProgress` = 98.5 | progress stays at 100, and the screen reads 100% and "Ready - starting camera" | not executed | SplashRules.TerminalTickIsNaN | SplashRules.TickBounds |
