/** The transition filter of test_switch: the sampled mask is compared with the
    last accepted mask, a difference is reported as one transition, and the
    sample always becomes the new accepted mask. The filter's persistent state
    is the set of statics of test_switch; the caller's `struct pedalboard` is
    updated field by field. */
module Debounce {
  import opened Switches

  /** `uint64_t` microseconds since boot. */
  newtype Micros = t: int | 0 <= t < 0x1_0000_0000_0000_0000

  /** The `uint64_t` subtraction `a - b`, which wraps modulo 2^64. */
  function Minus(a: Micros, b: Micros): (d: Micros)
    ensures a >= b ==> d as int == a as int - b as int
    ensures a < b ==> d as int == a as int - b as int + 0x1_0000_0000_0000_0000
  {
    ((a as int - b as int) % 0x1_0000_0000_0000_0000) as Micros
  }

  /** The statics of test_switch: the last accepted mask, the time read on the
      latest call and the time of the latest transition. */
  datatype Statics = Statics(previousResult: Mask, thisPress: Micros, previousPress: Micros)

  /** The fields of `struct pedalboard`. */
  datatype PedalState = PedalState(value: Mask, changeState: bool, changeValue: Mask, changeTime: Micros)

  /** Everything one call of test_switch produces: the new statics, the new
      pedal fields, the returned mask and the level written to the board LED. */
  datatype Outcome = Outcome(statics: Statics, pedal: PedalState, result: Mask, ledOn: bool)

  /** Statics before the first call: zero-initialised. */
  const INITIAL_STATICS: Statics := Statics(NONE, 0, 0)

  /** The pedal structure as main initialises it: all fields zero. */
  const INITIAL_PEDAL: PedalState := PedalState(NONE, false, NONE, 0)

  /** One call of test_switch, as a function of the statics and pedal fields
      before the call, the switches to check, the line levels and the clock. */
  function TestSwitchSpec(st: Statics, pd: PedalState, pedalToCheck: Mask, levels: Levels, now: Micros): Outcome
  {
    var result := Sample(pedalToCheck, levels);
    var changed := ToInt(result) != ToInt(st.previousResult);
    Outcome(
      Statics(result, now, if changed then now else st.previousPress),
      PedalState(result, changed, if changed then st.previousResult else pd.changeValue, Minus(now, st.previousPress)),
      result,
      ToInt(result) != 0)
  }

  /** Every call starts from "no change": a transition is reported exactly when
      the new sample differs from the previously accepted mask, whatever the
      pedal reported before. */
  lemma ChangeIffMaskDiffers(st: Statics, pd: PedalState, pedalToCheck: Mask, levels: Levels, now: Micros)
    ensures var o := TestSwitchSpec(st, pd, pedalToCheck, levels, now);
      o.pedal.changeState <==> Sample(pedalToCheck, levels) != st.previousResult
  {
    ToIntInjective(Sample(pedalToCheck, levels), st.previousResult);
  }

  /** On a transition the previous accepted mask goes to `changeValue` and the
      transition time becomes `now`; otherwise both keep their old values. */
  lemma TransitionRecordsPrevious(st: Statics, pd: PedalState, pedalToCheck: Mask, levels: Levels, now: Micros)
    ensures var o := TestSwitchSpec(st, pd, pedalToCheck, levels, now);
      if o.pedal.changeState
      then o.pedal.changeValue == st.previousResult && o.statics.previousPress == now
      else o.pedal.changeValue == pd.changeValue && o.statics.previousPress == st.previousPress
  {
  }

  /** The elapsed time is written even when nothing changed: a first call at
      time 5 with every line high reports no transition and an elapsed time
      of 5, not 0. */
  lemma ElapsedSetWithoutTransition()
    ensures var o := TestSwitchSpec(INITIAL_STATICS, INITIAL_PEDAL, ALL_SWITCHES, ALL_RELEASED, 5);
      !o.pedal.changeState && o.pedal.changeTime == 5
  {
    var r := Sample(ALL_SWITCHES, ALL_RELEASED);
    assert r == NONE by {
      assert forall j :: 0 <= j < SWITCH_COUNT ==> r[j] == NONE[j];
    }
  }

  /** After every call the pedal's value, the stored accepted mask and the
      returned mask are the fresh sample, whatever the pedal held before. */
  lemma AcceptedStateIsSample(st: Statics, pd: PedalState, pedalToCheck: Mask, levels: Levels, now: Micros)
    ensures var o := TestSwitchSpec(st, pd, pedalToCheck, levels, now);
      o.pedal.value == o.statics.previousResult == o.result == Sample(pedalToCheck, levels)
      && (forall j :: 0 <= j < SWITCH_COUNT && o.result[j] ==> pedalToCheck[j])
      && 0 <= ToInt(o.result) <= 31
  {
  }

  /** The elapsed time is taken from the stored transition time before any
      update, on every call, with or without a transition; the subtraction
      wraps modulo 2^64 like the C one. */
  lemma ElapsedUsesStoredTime(st: Statics, pd: PedalState, pedalToCheck: Mask, levels: Levels, now: Micros)
    ensures var o := TestSwitchSpec(st, pd, pedalToCheck, levels, now);
      o.pedal.changeTime == Minus(now, st.previousPress)
      && (now >= st.previousPress ==> o.pedal.changeTime as int == now as int - st.previousPress as int)
  {
  }

  /** The activity LED is on exactly when some checked switch reads low. */
  lemma LedShowsActivity(st: Statics, pd: PedalState, pedalToCheck: Mask, levels: Levels, now: Micros)
    ensures var o := TestSwitchSpec(st, pd, pedalToCheck, levels, now);
      o.ledOn <==> exists j :: 0 <= j < SWITCH_COUNT && Reported(pedalToCheck, levels, j)
  {
    SampleNonZero(pedalToCheck, levels);
  }

  /** A second consecutive call with the same levels reports no transition and
      keeps the transition time and the previous mask of the first call. */
  lemma SecondCallIsQuiet(st: Statics, pd: PedalState, pedalToCheck: Mask, levels: Levels, now1: Micros, now2: Micros)
    ensures var o1 := TestSwitchSpec(st, pd, pedalToCheck, levels, now1);
      var o2 := TestSwitchSpec(o1.statics, o1.pedal, pedalToCheck, levels, now2);
      !o2.pedal.changeState
      && o2.statics.previousPress == o1.statics.previousPress
      && o2.pedal.changeValue == o1.pedal.changeValue
      && o2.statics.previousResult == o1.statics.previousResult
  {
  }

  /** The caller-owned `struct pedalboard`. */
  class Pedalboard {
    var value: Mask
    var changeState: bool
    var changeValue: Mask
    var changeTime: Micros

    /** The pedal as main sets it up before the loop: all fields zero. */
    constructor ()
      ensures State() == INITIAL_PEDAL
    {
      value, changeState, changeValue, changeTime := NONE, false, NONE, 0;
    }

    /** The four fields as a value. */
    function State(): PedalState
      reads this
    {
      PedalState(value, changeState, changeValue, changeTime)
    }
  }

  /** The persistent statics of test_switch, made an explicit object. */
  class SwitchTester {
    var previousResult: Mask
    var thisPress: Micros
    var previousPress: Micros

    /** The statics before the first call. */
    constructor ()
      ensures State() == INITIAL_STATICS
    {
      previousResult, thisPress, previousPress := NONE, 0, 0;
    }

    /** The statics as a value. */
    function State(): Statics
      reads this
    {
      Statics(previousResult, thisPress, previousPress)
    }

    /** test_switch: samples the lines named in `pedalToCheck`, reports a
        transition against the accepted mask into `pedal`, and accepts the
        sample; `now` is the clock reading of the call and `ledOn` the level
        written to the board LED. */
    method TestSwitch(pedalToCheck: Mask, levels: Levels, now: Micros, pedal: Pedalboard)
      returns (result: Mask, ledOn: bool)
      modifies this, pedal
      ensures var o := TestSwitchSpec(old(State()), old(pedal.State()), pedalToCheck, levels, now);
        State() == o.statics && pedal.State() == o.pedal && result == o.result && ledOn == o.ledOn
      ensures pedal.changeState <==> ToInt(result) != ToInt(old(previousResult))
      ensures pedal.value == previousResult == result
    {
      pedal.changeState := false;

      thisPress := now;
      pedal.changeTime := Minus(thisPress, previousPress);

      result := SampleLines(pedalToCheck, levels);

      ledOn := ToInt(result) != 0;

      if ToInt(result) != ToInt(previousResult) {
        pedal.changeState := true;
        pedal.changeValue := previousResult;
        previousPress := thisPress;
        // The 30 ms anti-bounce wait changes no state.
      }

      previousResult := result;
      pedal.value := result;
    }
  }

  /** The five switch tests of test_switch: each or-s its switch's bit into
      the result when the switch is checked and its line reads low. */
  method SampleLines(check: Mask, levels: Levels) returns (result: Mask)
    ensures result == Sample(check, levels)
  {
    result := NONE;
    assert result == SampleUpTo(check, levels, 0);
    // A switch is pressed when it is checked and its line is down (level 0).
    SampleStep(check, levels, 0, result);
    if check[0] && !levels[0] {
      result := Union(result, SW1);
    }
    SampleStep(check, levels, 1, result);
    if check[1] && !levels[1] {
      result := Union(result, SW2);
    }
    SampleStep(check, levels, 2, result);
    if check[2] && !levels[2] {
      result := Union(result, SW3);
    }
    SampleStep(check, levels, 3, result);
    if check[3] && !levels[3] {
      result := Union(result, SW4);
    }
    SampleStep(check, levels, 4, result);
    if check[4] && !levels[4] {
      result := Union(result, SW5);
    }
  }
}
