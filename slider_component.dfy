/**
 * The slider widget: a value kept between a minimum and a maximum, moved
 * one increment per left/right press and, while the direction is held,
 * repeated every 40 ms after an initial 500 ms delay.
 *
 * Values are `real` (the source's `float` without its rounding) and time
 * is an `int` number of milliseconds.
 */
module Sliders {
  import opened GuiInput

  const MoveRepeatDelay: int := 500
  const MoveRepeatRate: int := 40

  /** `setValue`'s clamp: below the minimum becomes the minimum, else above the maximum becomes the maximum. */
  function Clamp(v: real, lo: real, hi: real): (r: real)
    ensures v < lo ==> r == lo
    ensures lo <= v ==> r == (if v > hi then hi else v)
  {
    if v < lo then lo else if v > hi then hi else v
  }

  /** With an ordered range the clamp lands in it, and a value already in it is kept. */
  lemma ClampInRange(v: real, lo: real, hi: real)
    requires lo <= hi
    ensures lo <= Clamp(v, lo, hi) <= hi
    ensures lo <= v <= hi ==> Clamp(v, lo, hi) == v
  {
  }

  /** Clamping twice is clamping once. */
  lemma ClampIdempotent(v: real, lo: real, hi: real)
    requires lo <= hi
    ensures Clamp(Clamp(v, lo, hi), lo, hi) == Clamp(v, lo, hi)
  {
  }

  /**
   * How many times `update`'s loop runs from the accumulator `acc`: once
   * per `MoveRepeatRate` milliseconds while the accumulator is at least that.
   */
  function Steps(acc: int): (n: nat)
    ensures acc - MoveRepeatRate * n < MoveRepeatRate
    ensures n > 0 ==> acc - MoveRepeatRate * (n - 1) >= MoveRepeatRate
    ensures acc < MoveRepeatRate ==> n == 0
  {
    if acc < MoveRepeatRate then 0 else acc / MoveRepeatRate
  }

  /** `n` repeat steps of `setValue(value + rate)`. */
  function Repeat(v: real, rate: real, lo: real, hi: real, n: nat): (r: real)
    ensures n > 0 && lo <= hi ==> lo <= r <= hi
    decreases n
  {
    if n == 0 then v else Repeat(Clamp(v + rate, lo, hi), rate, lo, hi, n - 1)
  }

  /** The value and repeat accumulator that `update` changes. */
  datatype Motion = Motion(value: real, accumulator: int)

  /** What `update(deltaTime)` does to the value and the accumulator. */
  function Advance(m: Motion, rate: real, lo: real, hi: real, deltaTime: int): (r: Motion)
    ensures rate == 0.0 ==> r == m
    ensures rate != 0.0 ==> r.accumulator < MoveRepeatRate
    ensures rate != 0.0 && lo <= hi && m.accumulator + deltaTime >= MoveRepeatRate ==> lo <= r.value <= hi
  {
    if rate == 0.0 then m
    else
      var acc := m.accumulator + deltaTime;
      var n := Steps(acc);
      Motion(Repeat(m.value, rate, lo, hi, n), acc - MoveRepeatRate * n)
  }

  lemma {:induction false} RepeatSplit(v: real, rate: real, lo: real, hi: real, n1: nat, n2: nat)
    ensures Repeat(Repeat(v, rate, lo, hi, n1), rate, lo, hi, n2) == Repeat(v, rate, lo, hi, n1 + n2)
    decreases n1
  {
    if n1 > 0 {
      RepeatSplit(Clamp(v + rate, lo, hi), rate, lo, hi, n1 - 1, n2);
    }
  }

  lemma StepsSplit(acc: int, dt: int)
    requires dt >= 0
    ensures Steps(acc) + Steps(acc - MoveRepeatRate * Steps(acc) + dt) == Steps(acc + dt)
  {
    if acc >= MoveRepeatRate {
      var q, r := acc / MoveRepeatRate, acc % MoveRepeatRate;
      assert acc == MoveRepeatRate * q + r;
      assert (acc + dt) / MoveRepeatRate == q + (r + dt) / MoveRepeatRate;
    }
  }

  /**
   * Updates compose: two frames of `dt1` and `dt2` milliseconds move the
   * slider exactly as one frame of `dt1 + dt2` would.
   */
  lemma AdvanceAdditive(m: Motion, rate: real, lo: real, hi: real, dt1: int, dt2: int)
    requires dt1 >= 0 && dt2 >= 0
    ensures Advance(Advance(m, rate, lo, hi, dt1), rate, lo, hi, dt2) == Advance(m, rate, lo, hi, dt1 + dt2)
  {
    if rate != 0.0 {
      var acc := m.accumulator + dt1;
      StepsSplit(acc, dt2);
      RepeatSplit(m.value, rate, lo, hi, Steps(acc), Steps(acc - MoveRepeatRate * Steps(acc) + dt2));
    }
  }

  /**
   * After a press the accumulator is -500: holding the direction for `held`
   * milliseconds repeats nothing before 540 ms, then once per 40 ms.
   */
  lemma FirstRepeatAfterDelay(held: int)
    requires held >= 0
    ensures Steps(-MoveRepeatDelay + held) == 0 <==> held < MoveRepeatDelay + MoveRepeatRate
    ensures held >= MoveRepeatDelay + MoveRepeatRate ==> Steps(-MoveRepeatDelay + held) == (held - MoveRepeatDelay) / MoveRepeatRate
  {
  }

  class SliderComponent {
    const min: real
    const max: real
    const increment: real
    var value: real
    var moveRate: real
    var moveAccumulator: int

    /** Whenever the bounds are ordered, the value lies between them. */
    ghost predicate Valid()
      reads this
    {
      min <= max ==> min <= value <= max
    }

    /** The constructor starts halfway between the bounds, not moving; the accumulator is left unset. */
    constructor (min: real, max: real, increment: real)
      requires min - max != 0.0
      ensures this.min == min && this.max == max && this.increment == increment
      ensures value == (max + min) / 2.0 && moveRate == 0.0
      ensures Valid()
    {
      this.min := min;
      this.max := max;
      this.increment := increment;
      value := (max + min) / 2.0;
      moveRate := 0.0;
    }

    /** `setValue`: store the value clamped to `[min, max]`. */
    method SetValue(v: real)
      modifies this`value
      ensures value == Clamp(v, min, max)
      ensures Valid()
    {
      value := v;
      if value < min {
        value := min;
      } else if value > max {
        value := max;
      }
    }

    /** `getValue`: the value read back lies in the range whenever the range is ordered. */
    function GetValue(): (v: real)
      reads this
      requires Valid()
      ensures v == value
      ensures min <= max ==> min <= v <= max
    {
      value
    }

    /**
     * `input`: left and right are always consumed; a press steps the value
     * and starts the repeat, a release stops it; both reset the repeat
     * delay.  Other input goes to the base component, whose answer is
     * `delegated`.
     */
    method Input(input: Input, delegated: bool) returns (consumed: bool)
      requires Valid()
      modifies this`value, this`moveRate, this`moveAccumulator
      ensures Valid()
      ensures var direction := input.IsMappedTo("left") || input.IsMappedTo("right");
              var sign := if input.IsMappedTo("left") then -1.0 else 1.0;
              && consumed == (direction || delegated)
              && (direction && input.IsPress() ==> value == Clamp(old(value) + sign * increment, min, max))
              && (!(direction && input.IsPress()) ==> value == old(value))
              && (direction ==> moveRate == (if input.IsPress() then sign * increment else 0.0))
              && (direction ==> moveAccumulator == -MoveRepeatDelay)
              && (!direction ==> moveRate == old(moveRate) && moveAccumulator == old(moveAccumulator))
    {
      if input.IsMappedTo("left") {
        if input.IsPress() {
          SetValue(value - increment);
        }
        moveRate := if input.IsPress() then -increment else 0.0;
        moveAccumulator := -MoveRepeatDelay;
        return true;
      }
      if input.IsMappedTo("right") {
        if input.IsPress() {
          SetValue(value + increment);
        }
        moveRate := if input.IsPress() then increment else 0.0;
        moveAccumulator := -MoveRepeatDelay;
        return true;
      }
      return delegated;
    }

    /**
     * `update`: while a direction is held, add the frame time to the
     * accumulator and step the value once per 40 ms it holds; the
     * accumulator ends below 40.
     */
    method Update(deltaTime: int)
      requires Valid()
      modifies this`value, this`moveAccumulator
      ensures Valid()
      ensures Motion(value, moveAccumulator) == Advance(Motion(old(value), old(moveAccumulator)), moveRate, min, max, deltaTime)
      ensures moveRate != 0.0 ==> moveAccumulator < MoveRepeatRate
    {
      if moveRate != 0.0 {
        moveAccumulator := moveAccumulator + deltaTime;
        ghost var start := value;
        ghost var total := moveAccumulator;
        ghost var done: nat := 0;
        while moveAccumulator >= MoveRepeatRate
          invariant moveAccumulator == total - MoveRepeatRate * done
          invariant done <= Steps(total)
          invariant value == Repeat(start, moveRate, min, max, done)
          invariant Valid()
          decreases moveAccumulator
        {
          RepeatSplit(start, moveRate, min, max, done, 1);
          SetValue(value + moveRate);
          moveAccumulator := moveAccumulator - MoveRepeatRate;
          done := done + 1;
        }
      }
    }
  }

  /** Holding right through two frames moves the slider as one frame of the combined length would. */
  method TwoFrames(slider: SliderComponent, dt1: int, dt2: int)
    requires dt1 >= 0 && dt2 >= 0
    requires slider.Valid()
    modifies slider`value, slider`moveAccumulator
    ensures Motion(slider.value, slider.moveAccumulator) ==
              Advance(Motion(old(slider.value), old(slider.moveAccumulator)), slider.moveRate, slider.min, slider.max, dt1 + dt2)
  {
    slider.Update(dt1);
    slider.Update(dt2);
    AdvanceAdditive(Motion(old(slider.value), old(slider.moveAccumulator)), slider.moveRate, slider.min, slider.max, dt1, dt2);
  }
}
