/** The switch bit table of the five-switch pedal and the sampling of its input
    lines. In the firmware a set of switches is a C `int` with bit `i` standing
    for switch `i + 1` (SW1 = 1 .. SW5 = 16); here it is the sequence of those
    five bits, and ToInt gives back the `int`. The lines are wired active-low
    with pull-ups, so a pressed switch reads logic low. */
module Switches {

  /** Number of switches on the pedal. */
  const SWITCH_COUNT: nat := 5

  /** A switch bit table: element `i` is bit `i`, i.e. switch SW(i + 1). */
  type Mask = s: seq<bool> | |s| == SWITCH_COUNT witness [false, false, false, false, false]

  /** The levels read from the five switch lines (gpio_get of SWITCH_1 ..
      SWITCH_5, in that order); `true` is logic high, i.e. released. */
  type Levels = s: seq<bool> | |s| == SWITCH_COUNT witness [true, true, true, true, true]

  /** No switch. */
  const NONE: Mask := [false, false, false, false, false]

  const SW1: Mask := [true, false, false, false, false]
  const SW2: Mask := [false, true, false, false, false]
  const SW3: Mask := [false, false, true, false, false]
  const SW4: Mask := [false, false, false, true, false]
  const SW5: Mask := [false, false, false, false, true]

  /** `SW1 | SW2 | SW3 | SW4 | SW5`, the switches midi_task asks test_switch to check. */
  const ALL_SWITCHES: Mask := [true, true, true, true, true]

  /** Every line high: no switch pressed. */
  const ALL_RELEASED: Levels := [true, true, true, true, true]

  /** Only SW1's line low. */
  const SW1_DOWN: Levels := [false, true, true, true, true]

  /** The lines of SW1 and SW2 low, the others high. */
  const SW1_SW2_DOWN: Levels := [false, false, true, true, true]

  /** GPIO pin of each switch line. */
  const SWITCH_1: nat := 11
  const SWITCH_2: nat := 12
  const SWITCH_3: nat := 13
  const SWITCH_4: nat := 14
  const SWITCH_5: nat := 15

  /** The bit-table entry of switch `i`, counted from 0 (so `i == 0` is SW1). */
  function SwitchBit(i: nat): Mask
    requires i < SWITCH_COUNT
  {
    if i == 0 then SW1
    else if i == 1 then SW2
    else if i == 2 then SW3
    else if i == 3 then SW4
    else SW5
  }

  /** The GPIO pin whose level is tested for switch `i`. */
  function Pin(i: nat): nat
    requires i < SWITCH_COUNT
  {
    if i == 0 then SWITCH_1
    else if i == 1 then SWITCH_2
    else if i == 2 then SWITCH_3
    else if i == 3 then SWITCH_4
    else SWITCH_5
  }

  /** The C `int` value of a bit table. */
  function ToInt(m: Mask): int
  {
    (if m[0] then 1 else 0) + (if m[1] then 2 else 0) + (if m[2] then 4 else 0)
    + (if m[3] then 8 else 0) + (if m[4] then 16 else 0)
  }

  /** Bitwise or of two bit tables (the C `|`). */
  function Union(a: Mask, b: Mask): (r: Mask)
    ensures forall i :: 0 <= i < SWITCH_COUNT ==> r[i] == (a[i] || b[i])
  {
    [a[0] || b[0], a[1] || b[1], a[2] || b[2], a[3] || b[3], a[4] || b[4]]
  }

  /** The bit table holds one bit per switch: SW1 .. SW5 are 1, 2, 4, 8 and 16,
      their union is 31, and switch `i` is read from pin `11 + i`. */
  lemma BitTable(i: nat)
    requires i < SWITCH_COUNT
    ensures ToInt(SwitchBit(i)) == [1, 2, 4, 8, 16][i]
    ensures forall j :: 0 <= j < SWITCH_COUNT ==> (SwitchBit(i)[j] <==> j == i)
    ensures ToInt(ALL_SWITCHES) == 31 && ToInt(NONE) == 0
    ensures Pin(i) == SWITCH_1 + i
  {
  }

  /** Two bit tables are the same `int` only if they are the same table, and
      every table lies between 0 and 31; so comparing the `int`s, as the
      firmware does, is comparing the tables. */
  lemma ToIntInjective(a: Mask, b: Mask)
    ensures 0 <= ToInt(a) <= 31
    ensures ToInt(a) == ToInt(b) <==> a == b
  {
    if ToInt(a) == ToInt(b) {
      assert a[4] == b[4];
      assert a[3] == b[3];
      assert a[2] == b[2];
      assert a[1] == b[1];
      assert a[0] == b[0];
    }
  }

  /** Switch `i` is reported: it is named in `check` and its line reads low. */
  predicate Reported(check: Mask, levels: Levels, i: nat)
    requires i < SWITCH_COUNT
  {
    check[i] && !levels[i]
  }

  /** What the test of switch `i` or-s into the result: its bit if it is reported. */
  function ReportedBit(check: Mask, levels: Levels, i: nat): Mask
    requires i < SWITCH_COUNT
  {
    if Reported(check, levels, i) then SwitchBit(i) else NONE
  }

  /** The result after the first `n` switch tests of test_switch: bit `j` is
      set exactly when `j` was among the tested switches and was reported. */
  function SampleUpTo(check: Mask, levels: Levels, n: nat): (r: Mask)
    requires n <= SWITCH_COUNT
    ensures forall j :: 0 <= j < SWITCH_COUNT ==> (r[j] <==> j < n && Reported(check, levels, j))
  {
    if n == 0 then NONE
    else Union(SampleUpTo(check, levels, n - 1), ReportedBit(check, levels, n - 1))
  }

  /** One more switch test of test_switch: or-ing in switch `k`'s bit when it
      is reported extends the result of the first `k` tests to `k + 1`. */
  lemma SampleStep(check: Mask, levels: Levels, k: nat, acc: Mask)
    requires k < SWITCH_COUNT && acc == SampleUpTo(check, levels, k)
    ensures (if Reported(check, levels, k) then Union(acc, SwitchBit(k)) else acc)
      == SampleUpTo(check, levels, k + 1)
  {
    var next := if Reported(check, levels, k) then Union(acc, SwitchBit(k)) else acc;
    var want := SampleUpTo(check, levels, k + 1);
    BitTable(k);
    assert forall j :: 0 <= j < SWITCH_COUNT ==> next[j] == want[j];
  }

  /** The mask test_switch samples: a switch's bit is set exactly when the
      switch is named in `check` and its line reads low, so the mask is a
      subset of `check` (and, as every table, at most 31 as an `int`). */
  function Sample(check: Mask, levels: Levels): (r: Mask)
    ensures forall j :: 0 <= j < SWITCH_COUNT ==> (r[j] <==> check[j] && !levels[j])
    ensures forall j :: 0 <= j < SWITCH_COUNT && r[j] ==> check[j]
    ensures 0 <= ToInt(r) <= ToInt(check)
  {
    SampleUpTo(check, levels, SWITCH_COUNT)
  }

  /** A table is the `int` 0 exactly when no switch bit is set in it. */
  lemma ZeroIsNone(m: Mask)
    ensures ToInt(m) == 0 <==> forall j :: 0 <= j < SWITCH_COUNT ==> !m[j]
  {
    if ToInt(m) == 0 {
      forall j | 0 <= j < SWITCH_COUNT ensures !m[j] {
        if j == 0 {} else if j == 1 {} else if j == 2 {} else if j == 3 {} else {}
      }
    }
  }

  /** The sampled mask is a non-zero `int` exactly when some checked switch
      reads low. */
  lemma SampleNonZero(check: Mask, levels: Levels)
    ensures ToInt(Sample(check, levels)) != 0 <==>
      exists j :: 0 <= j < SWITCH_COUNT && Reported(check, levels, j)
  {
    var r := Sample(check, levels);
    ZeroIsNone(r);
    if ToInt(r) != 0 {
      var j :| 0 <= j < SWITCH_COUNT && r[j];
      assert Reported(check, levels, j);
    }
  }
}
