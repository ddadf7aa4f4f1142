/** The Note-On encoder of midi_task: after a reported transition, one MIDI 1.0
    Note-On channel-voice message per switch pressed in the new state, in the
    order SW1 .. SW5, each at full velocity on channel 1. Switches that were
    released produce nothing: no Note-Off is ever sent. */
module NoteEncoder {
  import opened Switches
  import opened Debounce

  /** A `uint8_t`. */
  newtype Byte = b: int | 0 <= b < 256

  /** The bytes handed to one transport write. */
  type Message = seq<Byte>

  /** Status nibble of a Note-On channel-voice message. */
  const MIDI_NOTEON: Byte := 0x90
  /** MIDI channel 1, encoded as 0. */
  const CHANNEL: Byte := 0
  /** Full velocity. */
  const VELOCITY: Byte := 127

  /** `MIDI_NOTEON | CHANNEL`: the channel only occupies the low nibble, which
      MIDI_NOTEON leaves clear, so the or is the sum. */
  const NOTE_ON_STATUS: Byte := MIDI_NOTEON + CHANNEL

  /** The notes assigned to the switches. */
  const NOTE_SW1: Byte := 0
  const NOTE_SW2: Byte := 1
  const NOTE_SW3: Byte := 2
  const NOTE_SW4: Byte := 3
  const NOTE_SW5: Byte := 4

  /** The note of switch `i`, counted from 0. */
  function NoteOf(i: nat): Byte
    requires i < SWITCH_COUNT
  {
    if i == 0 then NOTE_SW1
    else if i == 1 then NOTE_SW2
    else if i == 2 then NOTE_SW3
    else if i == 3 then NOTE_SW4
    else NOTE_SW5
  }

  /** The note number of a switch is its bit index in the bit table. */
  lemma NoteIsBitIndex(i: nat)
    requires i < SWITCH_COUNT
    ensures NoteOf(i) as int == i
    ensures SwitchBit(NoteOf(i) as int)[i]
  {
  }

  /** The message midi_task writes for `note`: the reused buffer
      `{ MIDI_NOTEON | CHANNEL, note, 127 }`. */
  function NoteOn(note: Byte): Message
  {
    [NOTE_ON_STATUS, note, VELOCITY]
  }

  /** `m` is a three-byte Note-On on channel 1 at velocity 127. */
  predicate IsNoteOn(m: Message)
  {
    |m| == 3 && m[0] == 0x90 && m[2] == 127
  }

  /** Number of switches among the first `n` whose bit is set in `value`. */
  function SetCount(value: Mask, n: nat): nat
    requires n <= SWITCH_COUNT
  {
    if n == 0 then 0 else SetCount(value, n - 1) + (if value[n - 1] then 1 else 0)
  }

  /** `r` is exactly one Note-On per switch among the first `n` that is set
      in `value`, its note being the switch's bit index, in ascending order. */
  predicate NoteOnsFor(value: Mask, n: nat, r: seq<Message>)
    requires n <= SWITCH_COUNT
  {
    && |r| == SetCount(value, n)
    && (forall k :: 0 <= k < |r| ==>
          IsNoteOn(r[k]) && r[k][1] as int < n && value[r[k][1] as int])
    && (forall k, l :: 0 <= k < l < |r| ==> r[k][1] < r[l][1])
    && (forall j :: 0 <= j < n && value[j] ==> NoteOn(NoteOf(j)) in r)
  }

  /** The messages of the first `n` switch tests of the Note-On block. */
  function NoteOnsUpTo(value: Mask, n: nat): seq<Message>
    requires n <= SWITCH_COUNT
  {
    if n == 0 then []
    else NoteOnsUpTo(value, n - 1) + (if value[n - 1] then [NoteOn(NoteOf(n - 1))] else [])
  }

  /** The first `n` switch tests send one message per set switch among them. */
  lemma {:induction false} NoteOnsCount(value: Mask, n: nat)
    requires n <= SWITCH_COUNT
    ensures |NoteOnsUpTo(value, n)| == SetCount(value, n)
  {
    if n > 0 {
      NoteOnsCount(value, n - 1);
    }
  }

  /** Every message of the first `n` switch tests is a Note-On whose note is
      the index of one of those switches, set in `value`. */
  lemma {:induction false} NoteOnsShape(value: Mask, n: nat)
    requires n <= SWITCH_COUNT
    ensures forall k :: 0 <= k < |NoteOnsUpTo(value, n)| ==>
      IsNoteOn(NoteOnsUpTo(value, n)[k]) && NoteOnsUpTo(value, n)[k][1] as int < n
      && value[NoteOnsUpTo(value, n)[k][1] as int]
  {
    if n > 0 {
      NoteOnsShape(value, n - 1);
      NoteIsBitIndex(n - 1);
      var prev := NoteOnsUpTo(value, n - 1);
      var r := NoteOnsUpTo(value, n);
      forall k | 0 <= k < |r|
        ensures IsNoteOn(r[k]) && r[k][1] as int < n && value[r[k][1] as int]
      {
        if k < |prev| {
          assert r[k] == prev[k];
        } else {
          assert r[k] == NoteOn(NoteOf(n - 1));
        }
      }
    }
  }

  /** The notes of the first `n` switch tests are strictly ascending. */
  lemma {:induction false} NoteOnsAscending(value: Mask, n: nat)
    requires n <= SWITCH_COUNT
    ensures forall k, l :: 0 <= k < l < |NoteOnsUpTo(value, n)| ==>
      |NoteOnsUpTo(value, n)[k]| == |NoteOnsUpTo(value, n)[l]| == 3
      && NoteOnsUpTo(value, n)[k][1] < NoteOnsUpTo(value, n)[l][1]
  {
    if n > 0 {
      NoteOnsAscending(value, n - 1);
      NoteOnsShape(value, n - 1);
      NoteIsBitIndex(n - 1);
      var prev := NoteOnsUpTo(value, n - 1);
      var r := NoteOnsUpTo(value, n);
      var tail: seq<Message> := if value[n - 1] then [NoteOn(NoteOf(n - 1))] else [];
      assert r == prev + tail;
      forall k, l | 0 <= k < l < |r|
        ensures |r[k]| == |r[l]| == 3 && r[k][1] < r[l][1]
      {
        assert r[k] == prev[k];
        if l < |prev| {
          assert r[l] == prev[l];
        } else {
          assert r[l] == NoteOn(NoteOf(n - 1));
        }
      }
    }
  }

  /** Each set switch among the first `n` has its Note-On sent. */
  lemma {:induction false} NoteOnsComplete(value: Mask, n: nat)
    requires n <= SWITCH_COUNT
    ensures forall j :: 0 <= j < n && value[j] ==> NoteOn(NoteOf(j)) in NoteOnsUpTo(value, n)
  {
    if n > 0 {
      NoteOnsComplete(value, n - 1);
      var prev := NoteOnsUpTo(value, n - 1);
      var r := NoteOnsUpTo(value, n);
      assert forall k :: 0 <= k < |prev| ==> r[k] == prev[k];
      forall j | 0 <= j < n && value[j]
        ensures NoteOn(NoteOf(j)) in r
      {
        if j < n - 1 {
          var k :| 0 <= k < |prev| && prev[k] == NoteOn(NoteOf(j));
          assert r[k] == prev[k];
        } else {
          assert r[|r| - 1] == NoteOn(NoteOf(j));
        }
      }
    }
  }

  /** The first `n` switch tests send exactly one Note-On per set switch
      among them, in ascending note order. */
  lemma NoteOnsUpToExact(value: Mask, n: nat)
    requires n <= SWITCH_COUNT
    ensures NoteOnsFor(value, n, NoteOnsUpTo(value, n))
  {
    NoteOnsCount(value, n);
    NoteOnsShape(value, n);
    NoteOnsAscending(value, n);
    NoteOnsComplete(value, n);
  }

  /** What the Note-On block of midi_task writes after test_switch has filled
      in `pd`. */
  function Encode(pd: PedalState): seq<Message>
  {
    if pd.changeState then NoteOnsUpTo(pd.value, SWITCH_COUNT) else []
  }

  /** The Note-On block sends nothing when no transition was reported, and
      otherwise one Note-On per pressed switch of the new state, in order
      SW1 .. SW5. */
  lemma EncodeSendsPressed(pd: PedalState)
    ensures !pd.changeState ==> Encode(pd) == []
    ensures pd.changeState ==> NoteOnsFor(pd.value, SWITCH_COUNT, Encode(pd))
  {
    NoteOnsUpToExact(pd.value, SWITCH_COUNT);
  }

  /** A transition to SW1 | SW3 (switches 1 and 3 pressed together) sends
      note 0 and then note 2, both at channel 1 and velocity 127. */
  lemma PressOneAndThree(pd: PedalState)
    requires pd.changeState && pd.value == Union(SW1, SW3)
    ensures Encode(pd) == [[0x90, 0, 127], [0x90, 2, 127]]
  {
    var v := pd.value;
    assert v == [true, false, true, false, false];
    assert NoteOnsUpTo(v, 1) == [NoteOn(NOTE_SW1)];
    assert NoteOnsUpTo(v, 2) == NoteOnsUpTo(v, 1);
    assert NoteOnsUpTo(v, 3) == NoteOnsUpTo(v, 2) + [NoteOn(NOTE_SW3)];
    assert NoteOnsUpTo(v, 4) == NoteOnsUpTo(v, 3);
    assert NoteOnsUpTo(v, 5) == NoteOnsUpTo(v, 4);
  }

  /** A transition to the all-released state sends nothing. */
  lemma ReleaseSendsNothing(pd: PedalState)
    requires pd.value == NONE
    ensures Encode(pd) == []
  {
  }
}
