/** Runs of the indicator that exercise its contracts end to end: a sweep that
    times out, presses inside and outside the target arc, and the key list. */
module Scenarios {
  import opened Keys
  import opened Sweep
  import opened SkillCheck

  /** Speed 1, no key press: frames at 0, 1000 and 2000 ms. Only the last one
      reports, it reports failure, and no further frame is left pending; a key
      pressed afterwards is ignored by the latch, and so is a late frame. */
  method TimeoutRun() returns (reports: seq<Option<bool>>, pendingAfter: bool)
    ensures reports == [None, None, Some(false), None, None]
    ensures !pendingAfter
  {
    var w := new Indicator(Config("w", None, 0.0, 30.0, 1.0));
    var r0 := w.Frame(0.0);
    var r1 := w.Frame(1000.0);
    var r2 := w.Frame(2000.0);
    pendingAfter := w.framePending;
    w.KeyDown("w", "KeyW");
    var r3 := w.Evaluate();
    var r4 := w.Frame(3000.0);
    reports := [r0, r1, r2, r3, r4];
  }

  /** Expected key "w", target arc [0, 30], speed 1: the pointer is at 15 degrees
      after 1750/3 ms and at 50 degrees after 7000/9 ms. */
  method ArcRun(late: bool) returns (report: Option<bool>)
    ensures report == Some(!late)
  {
    var w := new Indicator(Config("w", None, 0.0, 30.0, 1.0));
    var _ := w.Frame(0.0);
    var t := if late then 7000.0 / 9.0 else 1750.0 / 3.0;
    assert w.startTime == Some(0.0);
    var _ := w.Frame(t);
    assert Speed(1.0) == 1.0 && Duration(1.0) == 2000.0;
    assert w.indicatorAngle == Angle(t, 1.0);
    AngleLinear(t, 1.0);
    assert w.indicatorAngle == if late then 50.0 else 15.0;
    NormalizeLatin("W", "KeyW");
    assert Lower("W") == "w";
    w.KeyDown("W", "KeyW");
    report := w.Evaluate();
  }

  /** Key list ["w", "a"], expected key "w", pointer at its start angle inside the arc: "s" is not in
      the list and is ignored while the sweep goes on; "a" is evaluated and fails. */
  method KeyListRun() returns (first: Option<bool>, second: Option<bool>, pendingBetween: bool)
    ensures first.None? && pendingBetween && second == Some(false)
  {
    NormalizeLatin("s", "KeyS");
    LowerOfLower("s");
    NormalizeLatin("a", "KeyA");
    LowerOfLower("a");
    assert NormalizeKey("s", "KeyS") !in ["w", "a"];
    assert NormalizeKey("a", "KeyA") in ["w", "a"] && NormalizeKey("a", "KeyA") != "w";
    var w := new Indicator(Config("w", Some(["w", "a"]), -90.0, 30.0, 1.0));
    w.KeyDown("s", "KeyS");
    first := w.Evaluate();
    pendingBetween := w.framePending;
    w.KeyDown("a", "KeyA");
    second := w.Evaluate();
  }

  /** A Greek layout: the omega key at the physical W position, and the digit 7. */
  method NonLatinRun() returns (letter: string, digit: string)
    ensures letter == "w" && digit == "7"
  {
    NormalizeLetterKey("ω", "KeyW");
    NormalizeDigitKey("ω", "Digit7");
    letter := NormalizeKey("ω", "KeyW");
    digit := NormalizeKey("ω", "Digit7");
  }

  /** A press and the frame that closes the sweep are both pending; whichever of the
      two callbacks runs first reports, and the other one finds the latch set and
      reports nothing, so the activation reports exactly once. */
  method RaceRun(pressFirst: bool) returns (byPress: Option<bool>, byFrame: Option<bool>)
    ensures byPress.Some? != byFrame.Some?
    ensures byFrame.Some? ==> byFrame == Some(false)
  {
    var w := new Indicator(Config("w", None, 0.0, 30.0, 1.0));
    var _ := w.Frame(0.0);
    w.KeyDown("w", "KeyW");
    if pressFirst {
      byPress := w.Evaluate();
      byFrame := w.Frame(2000.0);
    } else {
      byFrame := w.Frame(2000.0);
      byPress := w.Evaluate();
    }
    assert |w.emissions| == 1;
  }

  /** Three frames with non-decreasing timestamps: the first one shows the start
      angle, and the pointer never turns back, also across the end of the sweep. */
  method MonotoneRun(multiplier: real, t0: real, t1: real, t2: real) returns (a0: real, a1: real, a2: real)
    requires t0 <= t1 <= t2
    ensures a0 == StartAngle && a0 <= a1 <= a2 <= EndAngle
  {
    var w := new Indicator(Config("w", None, 0.0, 30.0, multiplier));
    var _ := w.Frame(t0);
    a0 := w.indicatorAngle;
    var _ := w.Frame(t1);
    a1 := w.indicatorAngle;
    var _ := w.Frame(t2);
    a2 := w.indicatorAngle;
  }

  /** The activation effect does not clear the candidate. After a timeout the key
      handler is still installed, so a press is recorded (the latch only ignores
      it); when a new activation starts, its first evaluation judges that stale
      press at once. The new activation expects another key, so the stale press
      fails whatever the angle. */
  method StaleKeyRun() returns (timeout: Option<bool>, afterTimeout: Option<bool>, next: Option<bool>)
    ensures timeout == Some(false) && afterTimeout.None?
    ensures next == Some(false)
  {
    NormalizeLatin("w", "KeyW");
    LowerOfLower("w");
    var w := new Indicator(Config("w", None, 0.0, 30.0, 1.0));
    var _ := w.Frame(0.0);
    timeout := w.Frame(2000.0);
    w.KeyDown("w", "KeyW");
    afterTimeout := w.Evaluate();
    w.Reactivate(Config("a", None, -90.0, 30.0, 1.0));
    next := w.Evaluate();
  }
}
