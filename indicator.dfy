/** The skill-check indicator: a pointer sweeps once around the dial and the
    first accepted key press (or the end of the sweep) decides the outcome,
    which is reported at most once per activation. */
module SkillCheck {
  import opened Keys
  import opened Sweep

  datatype Option<T> = None | Some(value: T)

  /** What one activation is configured with: the expected key, the optional list
      of keys that are evaluated at all, the start and width of the target arc in
      degrees, and the speed multiplier of the sweep. */
  datatype Config = Config(key: string, keys: Option<seq<string>>, angle: real, offset: real, multiplier: real)

  /** The decision rule for an evaluated press: success exactly when the expected
      key was pressed while the pointer lay in the target arc, both ends included. */
  function Outcome(pressed: string, expected: string, indicatorAngle: real, angle: real, offset: real): (success: bool)
    ensures success <==> pressed == expected && angle <= indicatorAngle <= angle + offset
    ensures offset < 0.0 ==> !success
  {
    !(pressed != expected || indicatorAngle < angle || indicatorAngle > angle + offset)
  }

  /** The evaluation is skipped: no candidate (or an empty, hence falsy, one), the
      activation is already completed, or a key list is given (even an empty one)
      and does not contain the candidate. */
  predicate Ignored(pressed: Option<string>, completed: bool, keys: Option<seq<string>>): (r: bool)
    ensures completed ==> r
    ensures keys == Some([]) ==> r
    ensures !r ==> pressed.Some? && |pressed.value| > 0 && (keys.Some? ==> pressed.value in keys.value)
    ensures !completed && pressed.Some? && |pressed.value| > 0 && (keys.Some? ==> pressed.value in keys.value) ==> !r
  {
    pressed.None? || pressed.value == [] || completed || (keys.Some? && pressed.value !in keys.value)
  }

  class Indicator {
    var config: Config
    /** The angle last rendered. */
    var indicatorAngle: real
    /** The candidate key recorded by the key handler, if any. */
    var keyPressed: Option<string>
    /** The time of the first frame of the activation, once latched. */
    var startTime: Option<real>
    /** The latch: set once the activation has reported or been torn down. */
    var completed: bool
    /** An animation frame is requested and not cancelled. */
    var framePending: bool
    /** The key-down handler is registered on the window. */
    var listenerInstalled: bool
    /** Timestamp of the last frame that computed an angle. */
    ghost var lastFrameTime: real
    /** Every outcome reported so far, across activations. */
    ghost var emissions: seq<bool>
    /** Number of outcomes reported before the current activation began. */
    ghost var activationStart: nat

    ghost predicate Valid()
      reads this
    {
      && StartAngle <= indicatorAngle <= EndAngle
      // at most one outcome per activation, and only once the latch is set
      && activationStart <= |emissions| <= activationStart + 1
      && (|emissions| > activationStart ==> completed)
      && (completed ==> !framePending)
      // while running, a frame is pending, the handler is listening, and the
      // pointer is where the latched start time puts it
      && (!completed ==>
            && framePending && listenerInstalled && indicatorAngle < EndAngle
            && match startTime
               case None => indicatorAngle == StartAngle
               case Some(s) => s <= lastFrameTime && indicatorAngle == Angle(lastFrameTime - s, config.multiplier))
    }

    /** Mounting: the initial state, followed by the first run of the activation effect. */
    constructor (cfg: Config)
      ensures Valid()
      ensures config == cfg && indicatorAngle == StartAngle && startTime.None? && keyPressed.None?
      ensures !completed && framePending && listenerInstalled
      ensures emissions == [] && activationStart == 0
    {
      config := cfg;
      indicatorAngle := StartAngle;
      keyPressed := None;
      startTime := None;
      completed := false;
      listenerInstalled := true;
      framePending := true;
      lastFrameTime := 0.0;
      emissions := [];
      activationStart := 0;
    }

    /** Cancels the pending frame, if any; doing it twice is the same as once. */
    method StopAnimation()
      modifies this`framePending
      ensures !framePending
    {
      if framePending {
        framePending := false;
      }
    }

    /** The activation effect, run once the previous activation has been torn down:
        resets the sweep and the latch, installs the key handler and requests one frame.
        The recorded candidate key is left as it was. */
    method Activate(cfg: Config)
      requires Valid() && !framePending && !listenerInstalled
      modifies this
      ensures Valid()
      ensures config == cfg && indicatorAngle == StartAngle && startTime.None?
      ensures !completed && framePending && listenerInstalled
      ensures keyPressed == old(keyPressed)
      ensures emissions == old(emissions) && activationStart == |emissions|
    {
      config := cfg;
      indicatorAngle := StartAngle;
      startTime := None;
      completed := false;
      listenerInstalled := true;
      framePending := true;
      activationStart := |emissions|;
    }

    /** The cleanup of the activation effect: cancels the frame, removes the key
        handler, forgets the start time and sets the latch. */
    method Teardown()
      requires Valid()
      modifies this
      ensures Valid()
      ensures !framePending && !listenerInstalled && completed && startTime.None?
      ensures config == old(config) && indicatorAngle == old(indicatorAngle) && keyPressed == old(keyPressed)
      ensures emissions == old(emissions) && activationStart == old(activationStart)
    {
      StopAnimation();
      listenerInstalled := false;
      startTime := None;
      completed := true;
    }

    /** A new activation while mounted: the previous activation is torn down, then
        the activation effect runs with the new configuration. */
    method Reactivate(cfg: Config)
      requires Valid()
      modifies this
      ensures Valid()
      ensures config == cfg && indicatorAngle == StartAngle && startTime.None?
      ensures !completed && framePending && listenerInstalled
      ensures keyPressed == old(keyPressed)
      ensures emissions == old(emissions) && activationStart == |emissions|
    {
      Teardown();
      Activate(cfg);
    }

    /** One animation frame at timestamp `time` (frame timestamps never go back). */
    method Frame(time: real) returns (emitted: Option<bool>)
      requires Valid()
      requires !completed && startTime.Some? ==> lastFrameTime <= time
      modifies this
      ensures Valid()
      ensures old(completed) ==> emitted.None? && unchanged(this)
      ensures !old(completed) ==>
        var start := if old(startTime).Some? then old(startTime).value else time;
        && startTime == Some(start)
        && lastFrameTime == time
        && indicatorAngle == Angle(time - start, config.multiplier)
        && old(indicatorAngle) <= indicatorAngle
        && (old(startTime).None? ==> indicatorAngle == StartAngle)
        && (indicatorAngle >= EndAngle ==>
              completed && !framePending && emitted == Some(false) && emissions == old(emissions) + [false])
        && (indicatorAngle < EndAngle ==>
              !completed && framePending && emitted.None? && emissions == old(emissions))
      ensures config == old(config) && keyPressed == old(keyPressed) && listenerInstalled == old(listenerInstalled)
      ensures activationStart == old(activationStart)
    {
      if completed {
        return None;
      }
      if startTime.None? {
        startTime := Some(time);
      } else {
        AngleMonotone(lastFrameTime - startTime.value, time - startTime.value, config.multiplier);
      }
      var elapsed := time - startTime.value;
      var newAngle := Angle(elapsed, config.multiplier);
      indicatorAngle := newAngle;
      lastFrameTime := time;
      if newAngle + 90.0 >= 360.0 {
        completed := true;
        StopAnimation();
        emissions := emissions + [false];
        return Some(false);
      }
      framePending := true;
      emitted := None;
    }

    /** The key-down handler: records the normalised candidate, if the handler is installed. */
    method KeyDown(key: string, code: string)
      requires Valid()
      modifies this`keyPressed
      ensures Valid()
      ensures keyPressed == if listenerInstalled then Some(NormalizeKey(key, code)) else old(keyPressed)
    {
      if listenerInstalled {
        keyPressed := Some(NormalizeKey(key, code));
      }
    }

    /** The evaluation effect: unless the press is ignored, stops the sweep, removes
        the key handler, sets the latch, reports the outcome and clears the candidate. */
    method Evaluate() returns (emitted: Option<bool>)
      requires Valid()
      modifies this
      ensures Valid()
      ensures Ignored(old(keyPressed), old(completed), config.keys) ==> emitted.None? && unchanged(this)
      ensures !Ignored(old(keyPressed), old(completed), config.keys) ==>
        && emitted == Some(Outcome(old(keyPressed).value, config.key, indicatorAngle, config.angle, config.offset))
        && emissions == old(emissions) + [emitted.value]
        && completed && !framePending && !listenerInstalled && keyPressed.None?
      ensures config == old(config) && indicatorAngle == old(indicatorAngle) && startTime == old(startTime)
      ensures activationStart == old(activationStart)
    {
      if Ignored(keyPressed, completed, config.keys) {
        return None;
      }
      StopAnimation();
      listenerInstalled := false;
      completed := true;
      var success := Outcome(keyPressed.value, config.key, indicatorAngle, config.angle, config.offset);
      emissions := emissions + [success];
      keyPressed := None;
      emitted := Some(success);
    }
  }
}
