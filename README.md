# Badge rotation inertia animator, in Dafny

This project models `createInertiaAnimation` from the badge-rotation page. It is the
animator that keeps a badge spinning after the user lets go, slows it down, and stops it near
one of two rest orientations, 0° or 180°. The animator holds tunable constants:

- the start speed;
- a gravity coefficient;
- the damping factor `u`;
- the speed and angle tolerances that decide when it stops;
- a nominal frame duration.

It also holds the flags `isPlaying` and `playAnimation`. `run()` creates a run with its own
`lastTime` and its own copy of `speed`, and requests that run's `step` from the frame
scheduler. Each `step` does six things in order:

1. It reduces the current angle modulo 180.
2. It biases the speed by `gravity`.
3. It measures the elapsed time.
4. It damps the speed.
5. It decides whether to go on.
6. If it goes on, it hands `speed * elapsed` to `setRotation` and requests itself again. If it
   stops, it clears `isPlaying`.

Files and modules:

- `angle.dfy` (module `Angle`): JavaScript's truncating `%` by 180 over the reals, and the
  positive remainder in [0, 180), with its characterisation as the floored modulo.
- `inertia.dfy` (module `Inertia`): everything stated on values. This covers the options merge,
  the stages of a step, and `StepSpec` (one step). It also covers `FrameSpec` (one display
  frame, running every requested step in request order) and `DriveSpec` (a sequence of frames).
  The lemmas about them are here too.
- `animator.dfy` (module `Animator`): the class `InertiaAnimation`. Its fields are the ones the
  source updates in place. Its methods `Run`, `Step`, `Frame` and `Animate` are proved equal to
  the specification functions.

How the environment is modelled:

- Numbers are `real`.
- Host callbacks:
  - The host's angle is the field `rotation`.
  - Every `setRotation` call is logged in `deltas`.
  - A supplied `getRotation` reads `rotation`; the default stub returns 0.
  - A supplied `setRotation` adds its argument to `rotation`; the default stub leaves it.
- `window.requestAnimationFrame` is the field `pending`: the state of each run whose step
  was requested for the next frame. The host delivers a frame by calling `Frame(timestamp, …)`.
- `Math.pow(u, elapsed / frameDuration)` is the caller-supplied function
  `decay(u, elapsed, frameDuration)`. Lemmas about damping assume only `DecayInUnit(decay)`,
  meaning the factor lies in (0, 1] when `0 < u < 1`, `elapsed >= 0` and `frameDuration > 0`,
  and below 1 when moreover `elapsed > 0`.

Behaviour of `createInertiaAnimation` worth knowing (`src/pages/badge-rotation/index.ts`):

- **No compounding across runs.** `run()` copies `speed` into a run-local variable and never
  writes it back. So every run restarts from the configured speed. Two overlapping runs are two
  independent closures, each requesting its own steps and each calling `setRotation` on every
  frame in which it continues. They do not share one decaying speed.
- **`isPlaying` is false when `run()` returns.** `run()` sets `isPlaying = false` right after
  requesting the first step, so it turns true only once a step continues. Take a run on a badge
  lying exactly on a rest line (at a multiple of 180), with a configured speed no larger than
  `toleratedSpeed`, `0 < u < 1`, `frameDuration > 0` and `toleratedAngel >= 0`. It stops in its
  first step and never sets `isPlaying` (`SettledRunNeverPlays`). Without those conditions the
  model promises nothing here: `u > 1`, for instance, makes the damping a gain. Under the default
  settings a badge near a rest line can play: at 1° with speed 0 it does (`NearRestLinePlays`), and
  so does one at 0° with the default speed 1 (`DefaultSpeedOnRestLinePlays`).
- **Gravity pushes toward 90°.** The bias adds `gravity` on (0, 90) and subtracts it on
  [90, 180). With a setter that adds its argument to the angle, this pushes the angle toward
  90 (mod 180), not toward the nearer rest line (`GravityPushesTowardQuarterTurn`).
- **`frameDuration` has a default.** The options type marks it as required, but the object
  literal still has the default 16.67, so an omitted value falls back to it.
- **`isPlaying` follows the last step, not the run.** For one run it is true after a frame
  exactly while a further step is requested (`SingleRunPlayingIffPending`), so it goes from true
  to false at most once per run. With overlapping runs it is the decision of the last step run.

## Model

| member | source | states |
|---|---|---|
| Angle.Trunc | src/pages/badge-rotation/index.ts:109 | the quotient of JavaScript's `%` is truncated toward zero: it lies within 1 of x, on the side of 0 |
| Angle.JsRemainder | src/pages/badge-rotation/index.ts:109 | `angle % 180` keeps the sign of the angle, has magnitude below 180, and differs from the angle by whole half turns |
| Angle.PositiveRemainder | src/pages/badge-rotation/index.ts:109-110 | `positiveRemainder` lies in [0, 180) and differs from `getRotation()` by a multiple of 180 |
| Angle.HalfTurnClassUnique | src/pages/badge-rotation/index.ts:109-110 | two values in [0, 180) that both differ from one angle by whole half turns are equal |
| Angle.PositiveRemainderUnique | src/pages/badge-rotation/index.ts:109-110 | `positiveRemainder` is the only value in [0, 180) congruent to the angle modulo 180 |
| Angle.PositiveRemainderIsFloorMod | src/pages/badge-rotation/index.ts:109-110 | the truncating remainder plus the sign fix-up equals the floored modulo `a - 180 * floor(a / 180)` |
| Angle.PositiveRemainderPeriodic | src/pages/badge-rotation/index.ts:109-110 | adding any whole number of half turns to the angle leaves `positiveRemainder` unchanged |
| Angle.PositiveRemainderOfHalfTurn | src/pages/badge-rotation/index.ts:109-110 | an angle already in [0, 180) is its own positive remainder |
| Angle.RemainderExamples | src/pages/badge-rotation/index.ts:109-110 | concrete values: 370 → 10, -10 → -10 then 170, -190 → -10 then 170, -180 → 0 |
| Inertia.Abs | src/pages/badge-rotation/index.ts:130 | `Math.abs` is non-negative and equals x or -x |
| Inertia.OrDefault | src/pages/badge-rotation/index.ts:88 | a supplied value wins; a missing one gives the default |
| Inertia.Configure | src/pages/badge-rotation/index.ts:55-88 | every supplied option overrides its default in the spread object, every omitted numeric option takes its default, and the callbacks are the supplied ones |
| Inertia.ConfigureDefaults | src/pages/badge-rotation/index.ts:55-72 | with nothing supplied the settings are speed 1, gravity 0.008, u 0.92, toleratedSpeed 0.0005, toleratedAngel 3, frameDuration 16.67 |
| Inertia.ReadRotation | src/pages/badge-rotation/index.ts:77-80 | a supplied `getRotation` reads the host angle; the default stub returns 0 |
| Inertia.WriteRotation | src/pages/badge-rotation/index.ts:85-87 | each `setRotation` call is logged once; a supplied setter adds the delta to the angle, the stub changes nothing; `isPlaying` untouched |
| Inertia.Truthy | src/pages/badge-rotation/index.ts:121 | `if (lastTime)` holds exactly when lastTime is neither unset nor 0 |
| Inertia.FreshRun | src/pages/badge-rotation/index.ts:91-93 | a new run starts with `lastTime` unset (falsy) and the configured speed |
| Inertia.GravityBias | src/pages/badge-rotation/index.ts:112-114 | the bias moves the speed by exactly +gravity, -gravity or 0 |
| Inertia.GravityBiasCases | src/pages/badge-rotation/index.ts:112-114 | on [90, 180) the speed drops by gravity; on (0, 90) it rises by gravity; at exactly 0 it is unchanged |
| Inertia.GravityPushesTowardQuarterTurn | src/pages/badge-rotation/index.ts:112-114 | with positive gravity, speed rises strictly below 90 and falls strictly from 90 on, whatever the angle |
| Inertia.GravityBiasPeriodic | src/pages/badge-rotation/index.ts:109-114 | the bias applied depends on the angle only modulo 180 |
| Inertia.Tick | src/pages/badge-rotation/index.ts:119-123 | a truthy `lastTime` gives `timestamp - lastTime` and is kept; an unset or zero one gives 16.67, regardless of frameDuration, and becomes the timestamp |
| Inertia.Damped | src/pages/badge-rotation/index.ts:126 | a positive damping factor keeps the sign of the speed (positive, negative or zero); a factor of 1 leaves the speed as it is |
| Inertia.RotationDelta | src/pages/badge-rotation/index.ts:138 | the rotation handed to `setRotation` is zero for a zero speed or elapsed time, and for positive elapsed time has the sign of the speed |
| Inertia.DampingNeverAmplifies | src/pages/badge-rotation/index.ts:126 | a damping factor in (0, 1] never increases the speed's magnitude and never changes its sign |
| Inertia.DampingStrictlyShrinks | src/pages/badge-rotation/index.ts:126 | a damping factor in (0, 1) strictly lowers the magnitude of a non-zero speed |
| Inertia.ShouldContinue | src/pages/badge-rotation/index.ts:128-132 | the step continues iff playing is allowed and the badge is not both slow (within toleratedSpeed) and inside a capture zone of width toleratedAngel at 0 or 180; false playAnimation always stops |
| Inertia.CaptureZoneBoundary | src/pages/badge-rotation/index.ts:128-132 | with the default 3° tolerance and a slow badge, 3 and 177 stop while 3.1 and 176.9 continue |
| Inertia.StepSpec | src/pages/badge-rotation/index.ts:108-146 | a continuing step sets isPlaying, sets lastTime to the timestamp and logs exactly one delta `speed * elapsed` of the damped speed; moves a supplied setter's angle by that delta; a stopping one clears isPlaying and neither moves nor logs; false playAnimation never continues |
| Inertia.StepSpeedAndDecision | src/pages/badge-rotation/index.ts:112-133 | the step leaves the gravity-biased speed times the damping factor, and continues exactly when the test holds of that damped speed |
| Inertia.StepNeverAmplifiesUnbiased | src/pages/badge-rotation/index.ts:112-126 | without a bias and with timestamps that do not go back, a step never raises the magnitude of speed and never reverses it; when time moves forward it strictly lowers a non-zero speed's magnitude |
| Inertia.FirstStepUsesFallback | src/pages/badge-rotation/index.ts:119-123 | the first step of every run uses 16.67 ms and records its timestamp |
| Inertia.NextStepMeasuresFromLast | src/pages/badge-rotation/index.ts:121-136 | after a continuing step at a non-zero time t1, the next step's elapsed time is t2 - t1 |
| Inertia.ZeroTimestampKeepsFallback | src/pages/badge-rotation/index.ts:121-136 | a continuing step at time 0 leaves lastTime falsy, so the next step again uses 16.67 |
| Inertia.FrameSpec | src/pages/badge-rotation/index.ts:141-148 | a frame reschedules at most one step per requested step, logs exactly one delta per rescheduled step, stamps each with the frame time, changes nothing when nothing was requested, stops everything when playAnimation is false; for a single run, isPlaying iff it rescheduled |
| Inertia.DriveSpec | src/pages/badge-rotation/index.ts:141-148 | over any sequence of frames the requested steps never grow in number and the log only grows |
| Inertia.IdleIsFinal | src/pages/badge-rotation/index.ts:143-145 | with no step requested, any number of frames change nothing |
| Inertia.DriveConcat | src/pages/badge-rotation/index.ts:141 | frames delivered in two batches have the same effect as all at once |
| Inertia.StopIsFinal | src/pages/badge-rotation/index.ts:143-145 | once the frames so far leave nothing requested, later frames change nothing: a stopped run cannot step again without a new run() |
| Inertia.CancelledStopsAfterOneFrame | src/pages/badge-rotation/index.ts:128-145 | with playAnimation false and steps requested, the next frame runs, clears isPlaying, calls setRotation zero times and requests nothing more; later frames do nothing |
| Inertia.SingleRunHasOneStep | src/pages/badge-rotation/index.ts:141-148 | a single run never has more than one step requested |
| Inertia.FrameOfOne | src/pages/badge-rotation/index.ts:141-148 | a frame with one requested step is that step, requesting the next one exactly when it continues |
| Inertia.UnbiasedFrameSlows | src/pages/badge-rotation/index.ts:112-145 | one frame of a single run without gravity, later than its own time: if it goes on, its speed keeps its sign, strictly shrinks in magnitude, and is stamped with the frame time |
| Inertia.SingleRunPlayingIffPending | src/pages/badge-rotation/index.ts:128-145 | for one run, after each frame isPlaying is true exactly when a further step is requested |
| Inertia.UnbiasedRunKeepsSign | src/pages/badge-rotation/index.ts:112-145 | one run without gravity under increasing timestamps: while requested, its speed stays non-zero with its first sign, stamped with the last frame's time |
| Inertia.UnbiasedRunSlowsLastFrame | src/pages/badge-rotation/index.ts:112-145 | one run without gravity under increasing timestamps: if the last frame keeps it going, that frame strictly lowered the magnitude of its speed |
| Inertia.UnbiasedRunSlowsEveryFrame | src/pages/badge-rotation/index.ts:112-145 | one run without gravity under increasing timestamps: every frame that keeps it going strictly lowers the magnitude of its speed |
| Inertia.SettledRunNeverPlays | src/pages/badge-rotation/index.ts:89-149 | with `0 < u < 1`, `frameDuration > 0` and `toleratedAngel >= 0`, a run on a badge at a multiple of 180 with a configured speed within toleratedSpeed stops in its first frame, never sets isPlaying, never calls setRotation |
| Inertia.NearRestLinePlays | src/pages/badge-rotation/index.ts:108-138 | with the default settings and the first-step damping `Math.pow(0.92, 16.67 / 16.67)`, a run of speed 0 at 1° is pushed by gravity out of the stop test: its first frame sets isPlaying and requests another step |
| Inertia.DefaultSpeedOnRestLinePlays | src/pages/badge-rotation/index.ts:108-138 | with the default settings and that damping, a run at the default speed 1 on a rest line plays: its first frame sets isPlaying and requests another step |
| Animator.InertiaAnimation.constructor | src/pages/badge-rotation/index.ts:42-88 | the object holds the merged settings, isPlaying false, playAnimation true, nothing requested |
| Animator.InertiaAnimation.GetRotation | src/pages/badge-rotation/index.ts:109 | the angle the step reads: the host angle with a supplied getter, 0 with the default stub |
| Animator.InertiaAnimation.SetRotation | src/pages/badge-rotation/index.ts:139 | the observed state after the call is `WriteRotation` of the state before |
| Animator.InertiaAnimation.Run | src/pages/badge-rotation/index.ts:89-150 | exactly one new step is requested, for a run with lastTime unset and the configured speed; isPlaying is false on return; earlier requests stay; the speed setting is not written |
| Animator.InertiaAnimation.Step | src/pages/badge-rotation/index.ts:108-146 | the step's in-place updates equal `StepSpec`, and it requests exactly one further step when it continues and none when it stops |
| Animator.InertiaAnimation.Frame | src/pages/badge-rotation/index.ts:141-148 | running every requested step of a frame in order equals `FrameSpec` |
| Animator.InertiaAnimation.Animate | src/pages/badge-rotation/index.ts:141-148 | delivering frames at the given timestamps equals `DriveSpec` |

## Left out

- The numeric value of `Math.pow`: damping is a caller-supplied factor in (0, 1], below 1 for
  positive elapsed time. So the model proves that an unbiased run slows every frame, but not
  that a run stops at all, nor any convergence figures. This includes the roughly 92 frames needed with the default settings and
  the equal decay at 30 and 60 frames per second.
- Floating-point behaviour. The model has no rounding, NaN, infinities or signed zero. Over
  the reals, `remainder + 180` for a negative remainder is always below 180. So the source's
  `positiveRemainder < 180` guard never decides anything in the model.
- Option keys set explicitly to `undefined`: the spread would copy `undefined` over the
  default. The model treats an option as either supplied with a number or left out.
- Other keys in the options object, such as `isPlaying` or `playAnimation`. The options type
  does not declare them.
- Assignments by host code to the settings after construction: the settings are a `const`.
  The host's writes to `playAnimation` and `rotation` are direct field assignments.
- `console.log` in the default accessors. Only their effects are modelled: read 0, do nothing.
- What a supplied `setRotation` really does to the badge. It is modelled as adding its argument
  to the host angle.
- The DOM, the rendering of the badge, and the real frame timing of `window.requestAnimationFrame`.
  Timestamps are supplied by the caller.
- `packages/fireworks/tsup.config.ts`: bundler configuration with no logic.
- Inertia.FrameSpec: states `isPlaying` after a frame only when a single step was requested.
  With several overlapping runs, `isPlaying` ends as the decision of the last step run in that
  frame. That follows from the definition but is not stated as a postcondition.
