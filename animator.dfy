/**
 * The object `createInertiaAnimation` returns, as a class whose fields its
 * methods update in place. The host's frame scheduler
 * (`window.requestAnimationFrame`) is the field `pending`: the state of every
 * run whose `step` has been requested for the next display frame, in request
 * order. A frame is delivered by calling `Frame` with its timestamp.
 * `getRotation`/`setRotation` act on the host angle `rotation`; every call of
 * `setRotation` is logged in `deltas`.
 */
module Animator {
  import opened Angle
  import opened Inertia

  class InertiaAnimation {
    /** The options spread over the defaults; no method writes them. */
    const config: Config
    var isPlaying: bool
    /** The caller's kill switch, read by every step. */
    var playAnimation: bool
    /** The angle the host's accessors read and move. */
    var rotation: real
    /** The argument of every `setRotation` call, oldest first. */
    var deltas: seq<real>
    /** The runs whose next step has been requested from the frame scheduler. */
    var pending: seq<RunState>

    /** `createInertiaAnimation(options)` for a host whose badge stands at `angle`. */
    constructor (options: Options, angle: real)
      ensures config == Configure(options)
      ensures !isPlaying && playAnimation
      ensures rotation == angle && deltas == [] && pending == []
    {
      config := Configure(options);
      isPlaying := false;
      playAnimation := true;
      rotation := angle;
      deltas := [];
      pending := [];
    }

    /** The state an observer sees. */
    function Observe(): Observed
      reads this
    {
      Observed(rotation, deltas, isPlaying)
    }

    /** `getRotation()`: the host's angle, or 0 from the default stub. */
    function GetRotation(): (angle: real)
      reads this
      ensures config.getRotationSupplied ==> angle == rotation
      ensures !config.getRotationSupplied ==> angle == 0.0
    {
      ReadRotation(config, rotation)
    }

    /** `setRotation(delta)`: logged, and added to the angle unless it is the default stub. */
    method SetRotation(delta: real)
      modifies this`rotation, this`deltas
      ensures Observe() == WriteRotation(config, old(Observe()), delta)
    {
      deltas := deltas + [delta];
      if config.setRotationSupplied {
        rotation := rotation + delta;
      }
    }

    /**
     * `run()`: a new run with no timestamp and the configured speed has its
     * first step requested, and `isPlaying` is false on return. Earlier runs
     * keep their own requested steps.
     */
    method Run()
      modifies this`pending, this`isPlaying
      ensures pending == old(pending) + [FreshRun(config)]
      ensures !isPlaying
    {
      var lastTime: LastTime := Unset;
      var speed := config.speed;
      pending := pending + [RunState(lastTime, speed)];
      isPlaying := false;
    }

    /**
     * The `step(timestamp)` closure of a run in state `s`: it returns the run's
     * new state and, when it continues, has requested the run's next step.
     */
    method Step(s: RunState, timestamp: real, decay: (real, real, real) -> real)
      returns (after: RunState)
      modifies this`isPlaying, this`rotation, this`deltas, this`pending
      ensures var o := StepSpec(config, playAnimation, old(Observe()), s, timestamp, decay);
              Observe() == o.view && after == o.state &&
              pending == old(pending) + if o.scheduled then [o.state] else []
    {
      var positiveRemainder := PositiveRemainder(GetRotation());
      var speed := s.speed;
      var lastTime := s.lastTime;

      if positiveRemainder >= 90.0 && positiveRemainder < HalfTurn {
        speed := speed - config.gravity;
      } else if positiveRemainder > 0.0 && positiveRemainder < 90.0 {
        speed := speed + config.gravity;
      }

      var elapsed := FallbackElapsed;
      if Truthy(lastTime) {
        elapsed := timestamp - lastTime.t;
      } else {
        lastTime := At(timestamp);
      }

      speed := Damped(speed, decay(config.u, elapsed, config.frameDuration));

      if ShouldContinue(playAnimation, speed, positiveRemainder, config) {
        isPlaying := true;
        lastTime := At(timestamp);
        SetRotation(RotationDelta(speed, elapsed));
        pending := pending + [RunState(lastTime, speed)];
      } else {
        isPlaying := false;
      }
      after := RunState(lastTime, speed);
    }

    /**
     * One display frame: every step requested before it runs, in request
     * order, with the frame's timestamp; steps requested meanwhile wait for
     * the next frame.
     */
    method Frame(timestamp: real, decay: (real, real, real) -> real)
      modifies this`isPlaying, this`rotation, this`deltas, this`pending
      ensures FrameOutcome(Observe(), pending)
              == FrameSpec(config, playAnimation, old(Observe()), old(pending), timestamp, decay)
    {
      var queue := pending;
      pending := [];
      var i := 0;
      while i < |queue|
        invariant 0 <= i <= |queue|
        invariant FrameOutcome(Observe(), pending)
                  == FrameSpec(config, playAnimation, old(Observe()), queue[..i], timestamp, decay)
      {
        assert queue[..i + 1][..i] == queue[..i];
        ghost var before := FrameSpec(config, playAnimation, old(Observe()), queue[..i], timestamp, decay);
        ghost var o := StepSpec(config, playAnimation, Observe(), queue[i], timestamp, decay);
        var _ := Step(queue[i], timestamp, decay);
        assert FrameSpec(config, playAnimation, old(Observe()), queue[..i + 1], timestamp, decay)
               == FrameOutcome(o.view, before.pending + if o.scheduled then [o.state] else []);
        i := i + 1;
      }
      assert queue[..i] == queue;
    }

    /** The host delivering display frames at the given timestamps, one after another. */
    method Animate(timestamps: seq<real>, decay: (real, real, real) -> real)
      modifies this`isPlaying, this`rotation, this`deltas, this`pending
      ensures FrameOutcome(Observe(), pending)
              == DriveSpec(config, playAnimation, old(Observe()), old(pending), timestamps, decay)
    {
      var i := 0;
      while i < |timestamps|
        invariant 0 <= i <= |timestamps|
        invariant FrameOutcome(Observe(), pending)
                  == DriveSpec(config, playAnimation, old(Observe()), old(pending), timestamps[..i], decay)
      {
        assert timestamps[..i + 1][..i] == timestamps[..i];
        ghost var before := DriveSpec(config, playAnimation, old(Observe()), old(pending), timestamps[..i], decay);
        Frame(timestamps[i], decay);
        assert DriveSpec(config, playAnimation, old(Observe()), old(pending), timestamps[..i + 1], decay)
               == FrameSpec(config, playAnimation, before.view, before.pending, timestamps[i], decay);
        i := i + 1;
      }
      assert timestamps[..i] == timestamps;
    }
  }
}
