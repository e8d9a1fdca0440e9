/**
 * The input and output helpers that are pure data: the joystick axis
 * auto-calibration (a sliding window of samples and a re-centring rule),
 * the latched button press, and the rumble motor's PWM conversions.
 */
module Peripherals {
  import opened Geometry

  /** The calibration window holds this many samples. */
  const Capacity: int := 32

  /** `analyze` needs at least half a window of samples. */
  const MinSamples: int := 16

  /** Sum of a list of samples, accumulated front to back. */
  function Sum(vs: seq<int>): int
  {
    if vs == [] then 0 else Sum(vs[..|vs| - 1]) + vs[|vs| - 1]
  }

  /** Every sample lies within one unit of the first. */
  predicate Stable(vs: seq<int>)
  {
    vs != [] && forall k :: 0 <= k < |vs| ==> -1 <= vs[0] - vs[k] <= 1
  }

  /** Mean of a non-empty list of samples. */
  function Average(vs: seq<int>): real
    requires vs != []
  {
    Sum(vs) as real / |vs| as real
  }

  /**
   * The window after `add(v)`: a full window drops its oldest sample, then
   * `v` is appended.
   */
  function Window(vs: seq<int>, v: int): (r: seq<int>)
    ensures |vs| < Capacity ==> r == vs + [v]
    ensures |vs| >= Capacity ==> r == vs[1..] + [v]
    ensures |vs| <= Capacity ==> 1 <= |r| <= Capacity
    ensures r != [] && r[|r| - 1] == v
  {
    if |vs| >= Capacity then vs[1..] + [v] else vs + [v]
  }

  /**
   * The centre after `analyze`: with at least 16 samples that all lie
   * within one unit of the first, and a mean less than 5 away from the
   * current centre, the centre moves to the mean; otherwise it stays.
   */
  function Recentred(vs: seq<int>, center: real): (c: real)
    ensures c == center || (vs != [] && c == Average(vs))
    ensures c != center ==> |vs| >= MinSamples && Stable(vs) && Abs(c - center) < 5.0
    ensures |vs| >= MinSamples && Stable(vs) && Abs(Average(vs) - center) < 5.0 ==> c == Average(vs)
  {
    if |vs| < MinSamples || !Stable(vs) then center
    else if Abs(Average(vs) - center) < 5.0 then Average(vs)
    else center
  }

  /** Samples bounded on both sides bound their sum. */
  lemma {:induction false} SumBounds(vs: seq<int>, lo: int, hi: int)
    requires forall k :: 0 <= k < |vs| ==> lo <= vs[k] <= hi
    ensures |vs| * lo <= Sum(vs) <= |vs| * hi
  {
    if vs != [] {
      SumBounds(vs[..|vs| - 1], lo, hi);
    }
  }

  /** The mean of samples within one unit of the first is itself within one unit of it. */
  lemma AverageOfStable(vs: seq<int>)
    requires Stable(vs)
    ensures (vs[0] - 1) as real <= Average(vs) <= (vs[0] + 1) as real
  {
    SumBounds(vs, vs[0] - 1, vs[0] + 1);
    var n := |vs| as real;
    assert (vs[0] - 1) as real * n <= Sum(vs) as real <= (vs[0] + 1) as real * n;
  }

  /**
   * Re-centring never jumps: the centre moves by less than 5, and when it
   * moves it lands on the mean of a stable window of at least 16 samples,
   * within one unit of its first sample.  Conversely, such a window whose
   * mean is less than 5 away always moves the centre to that mean.
   */
  lemma RecentredIsCautious(vs: seq<int>, center: real)
    ensures Abs(Recentred(vs, center) - center) < 5.0
    ensures Recentred(vs, center) != center ==>
              |vs| >= MinSamples && Stable(vs) && Recentred(vs, center) == Average(vs) &&
              (vs[0] - 1) as real <= Recentred(vs, center) <= (vs[0] + 1) as real
    ensures |vs| >= MinSamples && Stable(vs) && Abs(Average(vs) - center) < 5.0 ==>
              Recentred(vs, center) == Average(vs)
  {
    if |vs| >= MinSamples && Stable(vs) {
      AverageOfStable(vs);
    }
  }

  /** `JoystickAxisAutoCalibration`: tracks the resting position of one joystick axis. */
  class JoystickAxisAutoCalibration {
    var center: real
    var values: seq<int>

    ghost predicate Valid()
      reads this
    {
      1 <= |values| <= Capacity
    }

    /** A new calibration starts at `initialCenter`, which is also its only sample. */
    constructor (initialCenter: int)
      ensures Valid()
      ensures center == initialCenter as real && values == [initialCenter]
    {
      center := initialCenter as real;
      values := [initialCenter];
    }

    /** `add`: append a sample, dropping the oldest when the window is full. */
    method Add(v: int)
      requires Valid()
      modifies this
      ensures Valid()
      ensures values == Window(old(values), v)
      ensures center == old(center)
    {
      if |values| >= Capacity {
        values := values[1..];
      }
      values := values + [v];
    }

    /**
     * `analyze`: scan the window, summing and stopping at the first sample
     * more than one unit from the first; re-centre per `Recentred`.
     */
    method Analyze()
      requires Valid()
      modifies this
      ensures Valid()
      ensures values == old(values)
      ensures center == Recentred(old(values), old(center))
    {
      if |values| < MinSamples {
        return;
      }
      var refV := values[0];
      var sum := 0;
      var stable := true;
      var i := 0;
      while i < |values|
        invariant 0 <= i <= |values|
        invariant sum == Sum(values[..i])
        invariant stable
        invariant forall k :: 0 <= k < i ==> -1 <= refV - values[k] <= 1
      {
        assert values[..i + 1][..i] == values[..i];
        sum := sum + values[i];
        if refV - values[i] > 1 || refV - values[i] < -1 {
          stable := false;
          break;
        }
        i := i + 1;
      }
      if !stable {
        return;
      }
      assert values[..i] == values;
      var avg := sum as real / |values| as real;
      if Abs(avg - center) < 5.0 {
        center := avg;
      }
    }
  }

  /** `MyButton`: a press latched by the polling loop until it is read. */
  class MyButton {
    var pressed: bool

    constructor ()
      ensures !pressed
    {
      pressed := false;
    }

    /** `was_pressed`: report the latched press and clear it. */
    method WasPressed() returns (p: bool)
      modifies this
      ensures p == old(pressed) && !pressed
    {
      p := pressed;
      pressed := false;
    }
  }

  /** Largest PWM duty value: the motor pin is pulled up, so full duty is off. */
  const MaxDuty: int := 1023

  /**
   * `_strength_to_pwm_duty`: a strength in per cent, clamped to 0..100,
   * to an inverted duty, `int((100 - s) * 1023 / 100)`.  Full strength is
   * duty 0, no strength is 1023.
   */
  function StrengthToPwmDuty(strength: real): (duty: int)
    ensures 0 <= duty <= MaxDuty
    ensures strength <= 0.0 ==> duty == MaxDuty
    ensures strength >= 100.0 ==> duty == 0
    ensures duty as real * 100.0 <= (100.0 - Clamp(strength, 0.0, 100.0)) * MaxDuty as real
    ensures (100.0 - Clamp(strength, 0.0, 100.0)) * MaxDuty as real < (duty + 1) as real * 100.0
  {
    var s := Clamp(strength, 0.0, 100.0);
    Trunc(((100.0 - s) * MaxDuty as real) / 100.0)
  }

  /** More strength never means more duty. */
  lemma StrengthToPwmDutyAntitone(a: real, b: real)
    requires a <= b
    ensures StrengthToPwmDuty(a) >= StrengthToPwmDuty(b)
  {
    var sa, sb := Clamp(a, 0.0, 100.0), Clamp(b, 0.0, 100.0);
    assert sa <= sb;
    var xa, xb := ((100.0 - sa) * MaxDuty as real) / 100.0, ((100.0 - sb) * MaxDuty as real) / 100.0;
    assert xb <= xa;
    assert xb.Floor <= xa.Floor;
  }

  /** Slowest and fastest PWM frequencies the motor driver is given, in Hz. */
  const MinFreq: int := 1
  const MaxFreq: int := 3906

  /** Shortest PWM period, in microseconds. */
  const MinPeriodUs: int := 256

  /**
   * `_freq_to_pwm_period`: the frequency rounded and clamped to 1..3906 Hz,
   * then the period in microseconds, rounded, and raised to at least 256.
   * The period is the nearest integer to one second over the clamped
   * frequency, which is never below 256, so the final floor never applies.
   */
  function FreqToPwmPeriod(freq: real): (periodUs: int)
    ensures MinPeriodUs <= periodUs <= 1000000
    ensures var f := ClampInt(Round(freq), MinFreq, MaxFreq);
            Abs(periodUs as real - 1000000.0 / f as real) <= 0.5
  {
    var f := ClampInt(Round(freq), MinFreq, MaxFreq);
    var p := Round(1000000.0 / f as real);
    PeriodWithinBounds(f);
    if p < MinPeriodUs then MinPeriodUs else p
  }

  /** One second over a larger frequency is a shorter period. */
  lemma QuotientAntitone(fa: int, fb: int)
    requires 1 <= fa <= fb
    ensures 1000000.0 / fb as real <= 1000000.0 / fa as real
  {
    var a, b := fa as real, fb as real;
    var qa, qb := 1000000.0 / a, 1000000.0 / b;
    assert qb * (b - a) >= 0.0;
    assert (qa - qb) * a == qb * (b - a);
  }

  /** For every frequency in 1..3906 Hz the rounded period lies in 256..1000000 us. */
  lemma PeriodWithinBounds(f: int)
    requires MinFreq <= f <= MaxFreq
    ensures MinPeriodUs <= Round(1000000.0 / f as real) <= 1000000
  {
    QuotientAntitone(f, MaxFreq);
    QuotientAntitone(MinFreq, f);
    var q := 1000000.0 / f as real;
    RoundMonotone(1000000.0 / MaxFreq as real, q);
    RoundMonotone(q, 1000000.0);
    RoundOfInteger(1000000);
  }

  /** A higher frequency never gives a longer period. */
  lemma FreqToPwmPeriodAntitone(a: real, b: real)
    requires a <= b
    ensures FreqToPwmPeriod(a) >= FreqToPwmPeriod(b)
  {
    var fa, fb := ClampInt(Round(a), MinFreq, MaxFreq), ClampInt(Round(b), MinFreq, MaxFreq);
    RoundMonotone(a, b);
    QuotientAntitone(fa, fb);
    RoundMonotone(1000000.0 / fb as real, 1000000.0 / fa as real);
    PeriodWithinBounds(fa);
    PeriodWithinBounds(fb);
  }
}
