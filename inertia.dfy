/**
 * The logic of `createInertiaAnimation` stated on values: the merge of the
 * options over the defaults, the stages of one animation step (gravity bias,
 * elapsed time, damping, the continue-or-stop test), one step as a whole, one
 * display frame that runs every pending step, and a sequence of frames.
 *
 * Numbers are JavaScript doubles in the source; here they are `real`, so no
 * rounding happens. `Math.pow(u, elapsed / frameDuration)` is not computed:
 * every function that needs it receives it as `decay(u, elapsed, frameDuration)`.
 */
module Inertia {
  import opened Angle

  datatype Option<T> = None | Some(value: T)

  /** `Math.abs`. */
  function Abs(x: real): (r: real)
    ensures 0.0 <= r && (r == x || r == -x)
  {
    if x < 0.0 then -x else x
  }

  // ---------------------------------------------------------------- options

  /**
   * The options object. `None` is a key the caller left out. Of the two
   * callbacks only whether one was supplied is recorded: what a supplied
   * callback does is kept as the host state of `Observed`.
   */
  datatype Options = Options(
    speed: Option<real>,
    gravity: Option<real>,
    u: Option<real>,
    toleratedSpeed: Option<real>,
    toleratedAngel: Option<real>,
    frameDuration: Option<real>,
    getRotationSupplied: bool,
    setRotationSupplied: bool)

  /** The animator's settings once the options are spread over the defaults. */
  datatype Config = Config(
    speed: real,
    gravity: real,
    u: real,
    toleratedSpeed: real,
    toleratedAngel: real,
    frameDuration: real,
    getRotationSupplied: bool,
    setRotationSupplied: bool)

  const DefaultSpeed: real := 1.0
  const DefaultGravity: real := 0.008
  const DefaultU: real := 0.92
  const DefaultToleratedSpeed: real := 0.0005
  const DefaultToleratedAngel: real := 3.0
  const DefaultFrameDuration: real := 16.67

  /** The elapsed time the step assumes when it has no previous timestamp. */
  const FallbackElapsed: real := 16.67

  function OrDefault(o: Option<real>, default: real): (r: real)
    ensures o.Some? ==> r == o.value
    ensures o.None? ==> r == default
  {
    match o
    case Some(v) => v
    case None => default
  }

  /** `{ defaults..., ...options }`: every supplied option wins over its default, every omitted one keeps it. */
  function Configure(o: Options): (c: Config)
    ensures o.speed.Some? ==> c.speed == o.speed.value
    ensures o.gravity.Some? ==> c.gravity == o.gravity.value
    ensures o.u.Some? ==> c.u == o.u.value
    ensures o.toleratedSpeed.Some? ==> c.toleratedSpeed == o.toleratedSpeed.value
    ensures o.toleratedAngel.Some? ==> c.toleratedAngel == o.toleratedAngel.value
    ensures o.frameDuration.Some? ==> c.frameDuration == o.frameDuration.value
    ensures o.speed.None? ==> c.speed == DefaultSpeed
    ensures o.gravity.None? ==> c.gravity == DefaultGravity
    ensures o.u.None? ==> c.u == DefaultU
    ensures o.toleratedSpeed.None? ==> c.toleratedSpeed == DefaultToleratedSpeed
    ensures o.toleratedAngel.None? ==> c.toleratedAngel == DefaultToleratedAngel
    ensures o.frameDuration.None? ==> c.frameDuration == DefaultFrameDuration
    ensures c.getRotationSupplied == o.getRotationSupplied
    ensures c.setRotationSupplied == o.setRotationSupplied
  {
    Config(
      OrDefault(o.speed, DefaultSpeed),
      OrDefault(o.gravity, DefaultGravity),
      OrDefault(o.u, DefaultU),
      OrDefault(o.toleratedSpeed, DefaultToleratedSpeed),
      OrDefault(o.toleratedAngel, DefaultToleratedAngel),
      OrDefault(o.frameDuration, DefaultFrameDuration),
      o.getRotationSupplied,
      o.setRotationSupplied)
  }

  /** Every option left out takes the default written in the object literal. */
  lemma ConfigureDefaults(o: Options)
    requires o.speed.None? && o.gravity.None? && o.u.None?
    requires o.toleratedSpeed.None? && o.toleratedAngel.None? && o.frameDuration.None?
    ensures Configure(o) == Config(1.0, 0.008, 0.92, 0.0005, 3.0, 16.67,
                                   o.getRotationSupplied, o.setRotationSupplied)
  {
  }

  // ------------------------------------------------------- host callbacks

  /**
   * What an observer of one animator sees: the host's rotation angle, the
   * deltas passed to `setRotation` so far (one entry per call), and `isPlaying`.
   */
  datatype Observed = Observed(rotation: real, deltas: seq<real>, isPlaying: bool)

  /** The value `getRotation()` returns: the host's angle, or 0 from the default stub. */
  function ReadRotation(c: Config, rotation: real): (angle: real)
    ensures c.getRotationSupplied ==> angle == rotation
    ensures !c.getRotationSupplied ==> angle == 0.0
  {
    if c.getRotationSupplied then rotation else 0.0
  }

  /**
   * One call `setRotation(delta)`: the call is logged; a supplied setter adds
   * the delta to the host's angle, the default stub leaves it alone.
   */
  function WriteRotation(c: Config, v: Observed, delta: real): (w: Observed)
    ensures w.deltas == v.deltas + [delta] && w.isPlaying == v.isPlaying
    ensures c.setRotationSupplied ==> w.rotation == v.rotation + delta
    ensures !c.setRotationSupplied ==> w.rotation == v.rotation
  {
    Observed(if c.setRotationSupplied then v.rotation + delta else v.rotation,
             v.deltas + [delta], v.isPlaying)
  }

  // ------------------------------------------------------ per-run state

  /** The run-local `lastTime`: `undefined` until the first step sets it. */
  datatype LastTime = Unset | At(t: real)

  /** The variables one call of `run()` creates and its `step` closure updates. */
  datatype RunState = RunState(lastTime: LastTime, speed: real)

  /** JavaScript truthiness of `lastTime`: `undefined` and 0 are falsy. */
  predicate Truthy(l: LastTime): (b: bool)
    ensures b <==> l != Unset && l != At(0.0)
  {
    l.At? && l.t != 0.0
  }

  /** What `run()` creates: no timestamp yet, and a copy of the configured speed. */
  function FreshRun(c: Config): (s: RunState)
    ensures !Truthy(s.lastTime) && s.speed == c.speed
  {
    RunState(Unset, c.speed)
  }

  // ---------------------------------------------------- stages of a step

  /**
   * Gravity bias on the speed for the angle's position `p` in the half turn:
   * minus `gravity` on [90, 180), plus `gravity` on (0, 90), nothing at 0.
   */
  function GravityBias(speed: real, p: real, gravity: real): (s: real)
    ensures s == speed || s == speed + gravity || s == speed - gravity
  {
    if p >= 90.0 && p < HalfTurn then speed - gravity
    else if p > 0.0 && p < 90.0 then speed + gravity
    else speed
  }

  /** The three cases of the bias over [0, 180), with their closed and open ends. */
  lemma GravityBiasCases(speed: real, p: real, gravity: real)
    requires 0.0 <= p < HalfTurn
    ensures 90.0 <= p ==> GravityBias(speed, p, gravity) == speed - gravity
    ensures 0.0 < p < 90.0 ==> GravityBias(speed, p, gravity) == speed + gravity
    ensures p == 0.0 ==> GravityBias(speed, p, gravity) == speed
  {
  }

  /**
   * With a positive coefficient the bias raises the speed below a quarter turn
   * and lowers it from a quarter turn on: with a setter that adds the delta to
   * the angle, it pushes the angle toward 90 (mod 180), not toward 0 or 180.
   */
  lemma GravityPushesTowardQuarterTurn(speed: real, angle: real, gravity: real)
    requires gravity > 0.0
    ensures var p := PositiveRemainder(angle);
            (0.0 < p < 90.0 ==> GravityBias(speed, p, gravity) > speed) &&
            (90.0 <= p ==> GravityBias(speed, p, gravity) < speed)
  {
  }

  /** The bias depends on the angle only modulo a half turn. */
  lemma GravityBiasPeriodic(speed: real, angle: real, k: int, gravity: real)
    ensures GravityBias(speed, PositiveRemainder(angle + HalfTurn * k as real), gravity)
         == GravityBias(speed, PositiveRemainder(angle), gravity)
  {
    PositiveRemainderPeriodic(angle, k);
  }

  /** Elapsed time of a step and the `lastTime` it leaves before the continue test. */
  datatype Clock = Clock(elapsed: real, lastTime: LastTime)

  /**
   * A truthy `lastTime` gives `timestamp - lastTime` and is kept; a falsy one
   * gives the fixed fallback, whatever `frameDuration` is, and is replaced by
   * the timestamp.
   */
  function Tick(last: LastTime, timestamp: real): (k: Clock)
    ensures Truthy(last) ==> k == Clock(timestamp - last.t, last)
    ensures !Truthy(last) ==> k == Clock(FallbackElapsed, At(timestamp))
  {
    if Truthy(last) then Clock(timestamp - last.t, last)
    else Clock(FallbackElapsed, At(timestamp))
  }

  /**
   * The damping factor `Math.pow(u, elapsed / frameDuration)` lies in (0, 1]
   * whenever `0 < u < 1`, `elapsed >= 0` and `frameDuration > 0`, and below 1
   * when moreover `elapsed > 0`.
   */
  ghost predicate DecayInUnit(decay: (real, real, real) -> real)
  {
    forall u, elapsed, frameDuration ::
      0.0 < u < 1.0 && 0.0 <= elapsed && 0.0 < frameDuration ==>
        0.0 < decay(u, elapsed, frameDuration) <= 1.0 &&
        (0.0 < elapsed ==> decay(u, elapsed, frameDuration) < 1.0)
  }

  /** `speed *= factor`: the damping of one step. */
  function Damped(speed: real, factor: real): (r: real)
    ensures factor == 1.0 ==> r == speed
    ensures 0.0 < factor ==> (0.0 < r <==> 0.0 < speed) && (r < 0.0 <==> speed < 0.0)
  {
    speed * factor
  }

  /** `speed * elapsed`: the rotation a step hands to `setRotation`. */
  function RotationDelta(speed: real, elapsed: real): (r: real)
    ensures speed == 0.0 || elapsed == 0.0 ==> r == 0.0
    ensures 0.0 < elapsed ==> (0.0 < r <==> 0.0 < speed) && (r < 0.0 <==> speed < 0.0)
  {
    speed * elapsed
  }

  /** Damping by a factor in (0, 1] never raises the magnitude of the speed and never flips its sign. */
  lemma DampingNeverAmplifies(speed: real, factor: real)
    requires 0.0 < factor <= 1.0
    ensures Abs(Damped(speed, factor)) <= Abs(speed)
    ensures speed > 0.0 ==> Damped(speed, factor) > 0.0
    ensures speed < 0.0 ==> Damped(speed, factor) < 0.0
    ensures speed == 0.0 ==> Damped(speed, factor) == 0.0
  {
    assert Damped(speed, factor) == speed * factor;
    if speed > 0.0 {
      assert speed * factor <= speed * 1.0;
    } else if speed < 0.0 {
      assert -(speed * factor) == (-speed) * factor <= (-speed) * 1.0;
    }
  }

  /** Damping by a factor in (0, 1) strictly lowers the magnitude of a non-zero speed. */
  lemma DampingStrictlyShrinks(speed: real, factor: real)
    requires 0.0 < factor < 1.0 && speed != 0.0
    ensures Abs(Damped(speed, factor)) < Abs(speed)
  {
    if speed > 0.0 {
      assert speed * factor < speed * 1.0;
    } else {
      assert -(speed * factor) == (-speed) * factor < (-speed) * 1.0;
    }
  }

  /** The angle lies within `toleratedAngel` of the rest line 0 or of the rest line 180. */
  predicate InCaptureZone(p: real, toleratedAngel: real)
  {
    p <= toleratedAngel || p >= HalfTurn - toleratedAngel
  }

  /**
   * The test that decides whether a step schedules another one, in terms of
   * rest: a step goes on exactly while playing is allowed and the badge is not
   * both slow and inside a capture zone.
   */
  predicate ShouldContinue(playAnimation: bool, speed: real, p: real, c: Config): (b: bool)
    ensures b <==> playAnimation && !(Abs(speed) <= c.toleratedSpeed && InCaptureZone(p, c.toleratedAngel))
  {
    playAnimation &&
    (Abs(speed) > c.toleratedSpeed || (p > c.toleratedAngel && p < HalfTurn - c.toleratedAngel))
  }

  /** At the boundary of the default capture zone: 3 degrees stops a slow badge, 3.1 does not. */
  lemma CaptureZoneBoundary(c: Config, speed: real)
    requires c.toleratedAngel == DefaultToleratedAngel && Abs(speed) <= c.toleratedSpeed
    ensures !ShouldContinue(true, speed, 3.0, c)
    ensures !ShouldContinue(true, speed, 177.0, c)
    ensures ShouldContinue(true, speed, 3.1, c)
    ensures ShouldContinue(true, speed, 176.9, c)
  {
  }

  // ---------------------------------------------------------- one step

  /** The effect of one step: what is observed after it, the run's state, whether it rescheduled. */
  datatype StepOutcome = StepOutcome(view: Observed, state: RunState, scheduled: bool)

  /** One execution of the `step(timestamp)` closure of a run in state `s`. */
  function StepSpec(c: Config, playAnimation: bool, v: Observed, s: RunState,
                    timestamp: real, decay: (real, real, real) -> real): (o: StepOutcome)
    ensures o.view.isPlaying == o.scheduled
    ensures !playAnimation ==> !o.scheduled
    ensures o.scheduled ==>
              o.state.lastTime == At(timestamp) &&
              o.view.deltas == v.deltas + [RotationDelta(o.state.speed, Tick(s.lastTime, timestamp).elapsed)]
    ensures o.scheduled ==>
              o.view.rotation == if c.setRotationSupplied
                                 then v.rotation + RotationDelta(o.state.speed, Tick(s.lastTime, timestamp).elapsed)
                                 else v.rotation
    ensures !o.scheduled ==>
              o.state.lastTime == Tick(s.lastTime, timestamp).lastTime &&
              o.view.deltas == v.deltas && o.view.rotation == v.rotation
  {
    var p := PositiveRemainder(ReadRotation(c, v.rotation));
    var clock := Tick(s.lastTime, timestamp);
    var speed := Damped(GravityBias(s.speed, p, c.gravity), decay(c.u, clock.elapsed, c.frameDuration));
    if ShouldContinue(playAnimation, speed, p, c) then
      StepOutcome(WriteRotation(c, v.(isPlaying := true), RotationDelta(speed, clock.elapsed)),
                  RunState(At(timestamp), speed), true)
    else
      StepOutcome(v.(isPlaying := false), RunState(clock.lastTime, speed), false)
  }

  /**
   * The speed a step leaves is the biased speed times the damping factor, and
   * the step reschedules exactly when the test holds of that speed.
   */
  lemma StepSpeedAndDecision(c: Config, playAnimation: bool, v: Observed, s: RunState,
                             timestamp: real, decay: (real, real, real) -> real)
    ensures var p := PositiveRemainder(ReadRotation(c, v.rotation));
            var o := StepSpec(c, playAnimation, v, s, timestamp, decay);
            o.state.speed == Damped(GravityBias(s.speed, p, c.gravity),
                                    decay(c.u, Tick(s.lastTime, timestamp).elapsed, c.frameDuration)) &&
            (o.scheduled <==> ShouldContinue(playAnimation, o.state.speed, p, c))
  {
  }

  /**
   * Without a bias (gravity 0, or an angle exactly on a rest line) and with
   * timestamps that do not go back, a step never raises the magnitude of the
   * speed and never reverses it; when time moves forward it strictly lowers
   * the magnitude of a non-zero speed.
   */
  lemma StepNeverAmplifiesUnbiased(c: Config, playAnimation: bool, v: Observed, s: RunState,
                                   timestamp: real, decay: (real, real, real) -> real)
    requires DecayInUnit(decay) && 0.0 < c.u < 1.0 && 0.0 < c.frameDuration
    requires Truthy(s.lastTime) ==> s.lastTime.t <= timestamp
    requires c.gravity == 0.0 || PositiveRemainder(ReadRotation(c, v.rotation)) == 0.0
    ensures var o := StepSpec(c, playAnimation, v, s, timestamp, decay);
            Abs(o.state.speed) <= Abs(s.speed) &&
            (s.speed > 0.0 ==> o.state.speed > 0.0) && (s.speed < 0.0 ==> o.state.speed < 0.0)
    ensures (Truthy(s.lastTime) ==> s.lastTime.t < timestamp) && s.speed != 0.0 ==>
            Abs(StepSpec(c, playAnimation, v, s, timestamp, decay).state.speed) < Abs(s.speed)
  {
    var e := Tick(s.lastTime, timestamp).elapsed;
    var factor := decay(c.u, e, c.frameDuration);
    assert 0.0 < factor <= 1.0;
    var p := PositiveRemainder(ReadRotation(c, v.rotation));
    assert GravityBias(s.speed, p, c.gravity) == s.speed;
    DampingNeverAmplifies(s.speed, factor);
    if (Truthy(s.lastTime) ==> s.lastTime.t < timestamp) && s.speed != 0.0 {
      assert 0.0 < e;
      DampingStrictlyShrinks(s.speed, factor);
    }
  }

  /** The first step of a run uses the fallback elapsed time, whatever the timestamp and `frameDuration`. */
  lemma FirstStepUsesFallback(c: Config, timestamp: real)
    ensures Tick(FreshRun(c).lastTime, timestamp) == Clock(FallbackElapsed, At(timestamp))
  {
  }

  /** After a rescheduling step at a non-zero time, the next step measures time from that step. */
  lemma NextStepMeasuresFromLast(c: Config, playAnimation: bool, v: Observed, s: RunState,
                                 t1: real, t2: real, decay: (real, real, real) -> real)
    requires t1 != 0.0
    requires StepSpec(c, playAnimation, v, s, t1, decay).scheduled
    ensures Tick(StepSpec(c, playAnimation, v, s, t1, decay).state.lastTime, t2).elapsed == t2 - t1
  {
  }

  /**
   * A rescheduling step at time 0 leaves `lastTime` falsy, so the next step
   * uses the fallback again instead of the time difference.
   */
  lemma ZeroTimestampKeepsFallback(c: Config, playAnimation: bool, v: Observed, s: RunState,
                                   t2: real, decay: (real, real, real) -> real)
    requires StepSpec(c, playAnimation, v, s, 0.0, decay).scheduled
    ensures Tick(StepSpec(c, playAnimation, v, s, 0.0, decay).state.lastTime, t2).elapsed
            == FallbackElapsed
  {
  }

  // --------------------------------------------------------- one frame

  /** What a display frame leaves: the observed state and the steps requested for the next frame. */
  datatype FrameOutcome = FrameOutcome(view: Observed, pending: seq<RunState>)

  /**
   * One display frame: the steps requested before it run in request order with
   * the frame's timestamp; a step that reschedules adds its run to the list for
   * the next frame.
   */
  function FrameSpec(c: Config, playAnimation: bool, v: Observed, queue: seq<RunState>,
                     timestamp: real, decay: (real, real, real) -> real): (f: FrameOutcome)
    ensures |f.pending| <= |queue|
    ensures |f.view.deltas| == |v.deltas| + |f.pending|
    ensures v.deltas <= f.view.deltas
    ensures forall i :: 0 <= i < |f.pending| ==> f.pending[i].lastTime == At(timestamp)
    ensures queue == [] ==> f == FrameOutcome(v, [])
    ensures |queue| == 1 ==> (f.view.isPlaying <==> |f.pending| == 1)
    ensures !playAnimation ==>
              f.pending == [] && f.view.deltas == v.deltas && f.view.rotation == v.rotation &&
              (queue != [] ==> !f.view.isPlaying)
    decreases |queue|
  {
    if queue == [] then FrameOutcome(v, [])
    else
      var before := FrameSpec(c, playAnimation, v, queue[..|queue| - 1], timestamp, decay);
      var o := StepSpec(c, playAnimation, before.view, queue[|queue| - 1], timestamp, decay);
      FrameOutcome(o.view, before.pending + if o.scheduled then [o.state] else [])
  }

  // ------------------------------------------------------ many frames

  /** The display frames at the given timestamps, one after another, starting from `pending`. */
  function DriveSpec(c: Config, playAnimation: bool, v: Observed, pending: seq<RunState>,
                     timestamps: seq<real>, decay: (real, real, real) -> real): (f: FrameOutcome)
    ensures |f.pending| <= |pending|
    ensures v.deltas <= f.view.deltas
    decreases |timestamps|
  {
    if timestamps == [] then FrameOutcome(v, pending)
    else
      var before := DriveSpec(c, playAnimation, v, pending, timestamps[..|timestamps| - 1], decay);
      FrameSpec(c, playAnimation, before.view, before.pending, timestamps[|timestamps| - 1], decay)
  }

  /** Once nothing is pending, later frames change nothing: a stopped animation stays stopped. */
  lemma {:induction false} IdleIsFinal(c: Config, playAnimation: bool, v: Observed,
                                       timestamps: seq<real>, decay: (real, real, real) -> real)
    ensures DriveSpec(c, playAnimation, v, [], timestamps, decay) == FrameOutcome(v, [])
    decreases |timestamps|
  {
    if timestamps != [] {
      IdleIsFinal(c, playAnimation, v, timestamps[..|timestamps| - 1], decay);
    }
  }

  /** Delivering frames in two batches is the same as delivering them all at once. */
  lemma {:induction false} DriveConcat(c: Config, playAnimation: bool, v: Observed, pending: seq<RunState>,
                                       first: seq<real>, second: seq<real>,
                                       decay: (real, real, real) -> real)
    ensures var mid := DriveSpec(c, playAnimation, v, pending, first, decay);
            DriveSpec(c, playAnimation, v, pending, first + second, decay)
            == DriveSpec(c, playAnimation, mid.view, mid.pending, second, decay)
    decreases |second|
  {
    if second == [] {
      assert first + second == first;
    } else {
      var init := second[..|second| - 1];
      assert (first + second)[..|first + second| - 1] == first + init;
      DriveConcat(c, playAnimation, v, pending, first, init, decay);
    }
  }

  /**
   * Once the frames so far have left nothing pending, later frames change
   * nothing: no step can run again without a new `run()`.
   */
  lemma StopIsFinal(c: Config, playAnimation: bool, v: Observed, pending: seq<RunState>,
                    first: seq<real>, later: seq<real>, decay: (real, real, real) -> real)
    requires DriveSpec(c, playAnimation, v, pending, first, decay).pending == []
    ensures DriveSpec(c, playAnimation, v, pending, first + later, decay)
            == DriveSpec(c, playAnimation, v, pending, first, decay)
  {
    var mid := DriveSpec(c, playAnimation, v, pending, first, decay);
    DriveConcat(c, playAnimation, v, pending, first, later, decay);
    IdleIsFinal(c, playAnimation, mid.view, later, decay);
  }

  /**
   * With `playAnimation` false, the frame already requested still runs, every
   * pending step stops without calling `setRotation`, `isPlaying` becomes
   * false, and no frame is requested again.
   */
  lemma {:induction false} CancelledStopsAfterOneFrame(c: Config, v: Observed, pending: seq<RunState>,
                                                       timestamps: seq<real>, decay: (real, real, real) -> real)
    requires pending != [] && timestamps != []
    ensures DriveSpec(c, false, v, pending, timestamps, decay) == FrameOutcome(v.(isPlaying := false), [])
    decreases |timestamps|
  {
    var prefix := timestamps[..|timestamps| - 1];
    if prefix == [] {
      var f := FrameSpec(c, false, v, pending, timestamps[0], decay);
      assert f.view == v.(isPlaying := false);
    } else {
      CancelledStopsAfterOneFrame(c, v, pending, prefix, decay);
    }
  }

  /** Steps requested by one run never multiply: at most one is ever pending. */
  lemma SingleRunHasOneStep(c: Config, playAnimation: bool, v: Observed,
                            timestamps: seq<real>, decay: (real, real, real) -> real)
    ensures |DriveSpec(c, playAnimation, v, [FreshRun(c)], timestamps, decay).pending| <= 1
  {
  }

  /** A frame with a single requested step is that step. */
  lemma FrameOfOne(c: Config, playAnimation: bool, v: Observed, r: RunState,
                   timestamp: real, decay: (real, real, real) -> real)
    ensures var o := StepSpec(c, playAnimation, v, r, timestamp, decay);
            FrameSpec(c, playAnimation, v, [r], timestamp, decay)
            == FrameOutcome(o.view, if o.scheduled then [o.state] else [])
  {
    assert [r][..0] == [];
  }

  /**
   * One frame of a single run without gravity and with a non-zero speed, at a
   * time later than its own: if the run goes on, its speed keeps its sign,
   * strictly shrinks in magnitude, and is stamped with the frame's time.
   */
  lemma UnbiasedFrameSlows(c: Config, playAnimation: bool, v: Observed, r: RunState,
                           timestamp: real, decay: (real, real, real) -> real)
    requires DecayInUnit(decay) && 0.0 < c.u < 1.0 && 0.0 < c.frameDuration && c.gravity == 0.0
    requires r.speed != 0.0 && (Truthy(r.lastTime) ==> r.lastTime.t < timestamp)
    ensures var f := FrameSpec(c, playAnimation, v, [r], timestamp, decay);
            f.pending == [] ||
            (|f.pending| == 1 && f.pending[0].speed != 0.0 &&
             (f.pending[0].speed > 0.0 <==> r.speed > 0.0) &&
             f.pending[0].lastTime == At(timestamp) &&
             Abs(f.pending[0].speed) < Abs(r.speed))
  {
    FrameOfOne(c, playAnimation, v, r, timestamp, decay);
    StepNeverAmplifiesUnbiased(c, playAnimation, v, r, timestamp, decay);
  }

  /**
   * For a single run, after every frame `isPlaying` is true exactly while a
   * step is still requested; with `StopIsFinal`, once it turns false it stays
   * false.
   */
  lemma {:induction false} SingleRunPlayingIffPending(c: Config, playAnimation: bool, v: Observed,
                                                      s: RunState, timestamps: seq<real>,
                                                      decay: (real, real, real) -> real)
    requires timestamps != []
    ensures var f := DriveSpec(c, playAnimation, v, [s], timestamps, decay);
            f.view.isPlaying <==> f.pending != []
    decreases |timestamps|
  {
    var prefix := timestamps[..|timestamps| - 1];
    if prefix != [] {
      SingleRunPlayingIffPending(c, playAnimation, v, s, prefix, decay);
    }
  }

  /** The host's frame timestamps: strictly increasing. */
  predicate Increasing(timestamps: seq<real>)
  {
    forall i, j :: 0 <= i < j < |timestamps| ==> timestamps[i] < timestamps[j]
  }

  /** A prefix of increasing timestamps is increasing, starts alike, and drops the last one. */
  lemma IncreasingPrefix(timestamps: seq<real>, n: nat)
    requires Increasing(timestamps) && 0 < n <= |timestamps|
    ensures Increasing(timestamps[..n]) && timestamps[..n][0] == timestamps[0]
    ensures timestamps[..n][..n - 1] == timestamps[..n - 1]
  {
  }

  /**
   * One run without gravity and with a non-zero speed, fed increasing
   * timestamps later than its own: while its step is requested, its speed
   * is non-zero with the sign it started with, and its `lastTime` is the last
   * frame's timestamp.
   */
  lemma {:induction false} UnbiasedRunKeepsSign(c: Config, playAnimation: bool, v: Observed,
                                                s: RunState, timestamps: seq<real>,
                                                decay: (real, real, real) -> real)
    requires DecayInUnit(decay) && 0.0 < c.u < 1.0 && 0.0 < c.frameDuration && c.gravity == 0.0
    requires s.speed != 0.0 && Increasing(timestamps)
    requires timestamps != [] && Truthy(s.lastTime) ==> s.lastTime.t < timestamps[0]
    ensures var f := DriveSpec(c, playAnimation, v, [s], timestamps, decay);
            f.pending == [] ||
            (|f.pending| == 1 && f.pending[0].speed != 0.0 &&
             (f.pending[0].speed > 0.0 <==> s.speed > 0.0) &&
             (timestamps == [] ==> f.pending[0] == s) &&
             (timestamps != [] ==> f.pending[0].lastTime == At(timestamps[|timestamps| - 1])))
    decreases |timestamps|
  {
    if timestamps != [] {
      var n := |timestamps|;
      var prefix := timestamps[..n - 1];
      UnbiasedRunKeepsSign(c, playAnimation, v, s, prefix, decay);
      var before := DriveSpec(c, playAnimation, v, [s], prefix, decay);
      if before.pending != [] {
        var r := before.pending[0];
        assert before.pending == [r];
        assert Truthy(r.lastTime) ==> r.lastTime.t < timestamps[n - 1];
        UnbiasedFrameSlows(c, playAnimation, before.view, r, timestamps[n - 1], decay);
      }
    }
  }

  /**
   * One run without gravity, fed increasing timestamps later than its own:
   * if the last frame keeps it going, that frame strictly lowered the
   * magnitude of its speed.
   */
  lemma UnbiasedRunSlowsLastFrame(c: Config, playAnimation: bool, v: Observed,
                                  s: RunState, timestamps: seq<real>,
                                  decay: (real, real, real) -> real)
    requires DecayInUnit(decay) && 0.0 < c.u < 1.0 && 0.0 < c.frameDuration && c.gravity == 0.0
    requires s.speed != 0.0 && Increasing(timestamps)
    requires timestamps != [] && Truthy(s.lastTime) ==> s.lastTime.t < timestamps[0]
    requires timestamps != []
    requires DriveSpec(c, playAnimation, v, [s], timestamps, decay).pending != []
    ensures var before := DriveSpec(c, playAnimation, v, [s], timestamps[..|timestamps| - 1], decay);
            var after := DriveSpec(c, playAnimation, v, [s], timestamps, decay);
            |before.pending| == 1 && |after.pending| == 1 &&
            Abs(after.pending[0].speed) < Abs(before.pending[0].speed)
  {
    var n := |timestamps|;
    var prefix := timestamps[..n - 1];
    if n > 1 {
      IncreasingPrefix(timestamps, n - 1);
    }
    UnbiasedRunKeepsSign(c, playAnimation, v, s, prefix, decay);
    var before := DriveSpec(c, playAnimation, v, [s], prefix, decay);
    var r := before.pending[0];
    assert before.pending == [r];
    assert Truthy(r.lastTime) ==> r.lastTime.t < timestamps[n - 1];
    UnbiasedFrameSlows(c, playAnimation, before.view, r, timestamps[n - 1], decay);
  }

  /**
   * One run without gravity, fed increasing timestamps later than its own:
   * every frame after which its step is still requested has strictly lowered
   * the magnitude of its speed.
   */
  lemma UnbiasedRunSlowsEveryFrame(c: Config, playAnimation: bool, v: Observed,
                                   s: RunState, timestamps: seq<real>, n: nat,
                                   decay: (real, real, real) -> real)
    requires DecayInUnit(decay) && 0.0 < c.u < 1.0 && 0.0 < c.frameDuration && c.gravity == 0.0
    requires s.speed != 0.0 && Increasing(timestamps)
    requires timestamps != [] && Truthy(s.lastTime) ==> s.lastTime.t < timestamps[0]
    requires 0 < n <= |timestamps|
    requires DriveSpec(c, playAnimation, v, [s], timestamps[..n], decay).pending != []
    ensures var before := DriveSpec(c, playAnimation, v, [s], timestamps[..n - 1], decay);
            var after := DriveSpec(c, playAnimation, v, [s], timestamps[..n], decay);
            |before.pending| == 1 && |after.pending| == 1 &&
            Abs(after.pending[0].speed) < Abs(before.pending[0].speed)
  {
    var frames := timestamps[..n];
    IncreasingPrefix(timestamps, n);
    UnbiasedRunSlowsLastFrame(c, playAnimation, v, s, frames, decay);
  }

  /**
   * A run started on a badge lying exactly on a rest line with a configured
   * speed no faster than `toleratedSpeed` stops in its first frame without
   * calling `setRotation`, so `isPlaying` never becomes true.
   */
  lemma SettledRunNeverPlays(c: Config, v: Observed, timestamp: real,
                             decay: (real, real, real) -> real)
    requires DecayInUnit(decay) && 0.0 < c.u < 1.0 && 0.0 < c.frameDuration
    requires 0.0 <= c.toleratedAngel && Abs(c.speed) <= c.toleratedSpeed
    requires PositiveRemainder(ReadRotation(c, v.rotation)) == 0.0
    ensures DriveSpec(c, true, v.(isPlaying := false), [FreshRun(c)], [timestamp], decay)
            == FrameOutcome(v.(isPlaying := false), [])
  {
    var w := v.(isPlaying := false);
    StepNeverAmplifiesUnbiased(c, true, w, FreshRun(c), timestamp, decay);
    assert [FreshRun(c)][..0] == [];
    assert [timestamp][..0] == [];
    assert !StepSpec(c, true, w, FreshRun(c), timestamp, decay).scheduled;
  }
  /**
   * With the default settings and the first step's damping `Math.pow(0.92, 1)`,
   * a run at rest one degree from a rest line plays: gravity gives it speed.
   */
  lemma NearRestLinePlays(v: Observed, timestamp: real, decay: (real, real, real) -> real)
    requires decay(DefaultU, FallbackElapsed, DefaultFrameDuration) == DefaultU
    requires v.rotation == 1.0
    ensures var c := Configure(Options(Some(0.0), None, None, None, None, None, true, true));
            var f := DriveSpec(c, true, v.(isPlaying := false), [FreshRun(c)], [timestamp], decay);
            f.view.isPlaying && |f.pending| == 1
  {
    var c := Configure(Options(Some(0.0), None, None, None, None, None, true, true));
    PositiveRemainderOfHalfTurn(1.0);
    FrameOfOne(c, true, v.(isPlaying := false), FreshRun(c), timestamp, decay);
  }

  /**
   * With the default settings and the first step's damping `Math.pow(0.92, 1)`,
   * a run started at the default speed on a rest line plays.
   */
  lemma DefaultSpeedOnRestLinePlays(v: Observed, timestamp: real, decay: (real, real, real) -> real)
    requires decay(DefaultU, FallbackElapsed, DefaultFrameDuration) == DefaultU
    requires v.rotation == 0.0
    ensures var c := Configure(Options(None, None, None, None, None, None, true, true));
            var f := DriveSpec(c, true, v.(isPlaying := false), [FreshRun(c)], [timestamp], decay);
            f.view.isPlaying && |f.pending| == 1
  {
    var c := Configure(Options(None, None, None, None, None, None, true, true));
    PositiveRemainderOfHalfTurn(0.0);
    FrameOfOne(c, true, v.(isPlaying := false), FreshRun(c), timestamp, decay);
  }

}
