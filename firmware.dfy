/** midi_task and the main loop: each iteration runs test_switch on all five
    switches and, when it reports a transition, writes the Note-On messages of
    the new state to the USB MIDI transport. The transport is modelled by the
    record of the writes it is handed. */
module Firmware {
  import opened Switches
  import opened Debounce
  import opened NoteEncoder

  /** The MIDI jack associated with the USB endpoint; every write uses it. */
  const CABLE_NUM: Byte := 0

  /** One `tud_midi_stream_write` call: its cable number and its bytes. */
  datatype StreamWrite = StreamWrite(cable: Byte, bytes: Message)

  /** The outbound side of the USB MIDI transport. */
  class MidiStream {
    /** Every write handed to the transport, oldest first. */
    var writes: seq<StreamWrite>

    constructor ()
      ensures writes == []
    {
      writes := [];
    }

    /** `tud_midi_stream_write(cable, bytes, |bytes|)`; the transport accepts
        every byte. */
    method Write(cable: Byte, bytes: Message)
      modifies this
      ensures writes == old(writes) + [StreamWrite(cable, bytes)]
    {
      writes := writes + [StreamWrite(cable, bytes)];
    }
  }

  /** The writes that send `ms`, in order, on `cable`. */
  function OnCable(cable: Byte, ms: seq<Message>): seq<StreamWrite>
  {
    if ms == [] then [] else OnCable(cable, ms[..|ms| - 1]) + [StreamWrite(cable, ms[|ms| - 1])]
  }

  /** Sending two batches one after the other is sending their concatenation. */
  lemma {:induction false} OnCableAppend(cable: Byte, a: seq<Message>, b: seq<Message>)
    ensures OnCable(cable, a + b) == OnCable(cable, a) + OnCable(cable, b)
    decreases |b|
  {
    if b != [] {
      var b' := b[..|b| - 1];
      assert (a + b)[..|a + b| - 1] == a + b';
      OnCableAppend(cable, a, b');
    } else {
      assert a + b == a;
    }
  }

  /** Concatenation is associative. */
  lemma AppendAssociates<T>(a: seq<T>, b: seq<T>, c: seq<T>)
    ensures (a + b) + c == a + (b + c)
  {
  }

  /** What the loop carries from one iteration to the next: the statics of
      test_switch and main's pedal structure. */
  datatype Device = Device(statics: Statics, pedal: PedalState)

  /** The state main enters the loop with. */
  const BOOT: Device := Device(INITIAL_STATICS, INITIAL_PEDAL)

  /** What one iteration reads from outside: the line levels and the clock. */
  datatype Poll = Poll(levels: Levels, now: Micros)

  /** The effect of one midi_task call: the new state, the messages sent and
      the level written to the board LED. */
  datatype Step = Step(device: Device, sent: seq<Message>, ledOn: bool)

  /** The effect of a sequence of iterations: the final state and every
      message sent, in order. */
  datatype Progress = Progress(device: Device, sent: seq<Message>)

  /** One midi_task call: test_switch on all five switches, then the Note-On
      block on what it reported. */
  function MidiTaskSpec(d: Device, p: Poll): Step
  {
    var o := TestSwitchSpec(d.statics, d.pedal, ALL_SWITCHES, p.levels, p.now);
    Step(Device(o.statics, o.pedal), Encode(o.pedal), o.ledOn)
  }

  /** The main loop run over `polls`, one midi_task call per poll. */
  function RunPolls(d: Device, polls: seq<Poll>): Progress
    decreases |polls|
  {
    if polls == [] then Progress(d, [])
    else
      var before := RunPolls(d, polls[..|polls| - 1]);
      var s := MidiTaskSpec(before.device, polls[|polls| - 1]);
      Progress(s.device, before.sent + s.sent)
  }

  /** One more iteration of the loop: the call on poll `i` starts from the
      state the first `i` polls end in, and its messages follow theirs. */
  lemma RunPollsNext(d: Device, polls: seq<Poll>, i: nat)
    requires i < |polls|
    ensures var before := RunPolls(d, polls[..i]);
      var s := MidiTaskSpec(before.device, polls[i]);
      RunPolls(d, polls[..i + 1]) == Progress(s.device, before.sent + s.sent)
  {
    assert polls[..i + 1][..i] == polls[..i];
  }

  /** The Note-On block of midi_task: for each of SW1 .. SW5 set in `value`,
      in that order, the reused buffer gets the switch's note and is written
      on cable 0. */
  method SendNoteOns(value: Mask, usb: MidiStream)
    modifies usb
    ensures usb.writes == old(usb.writes) + OnCable(CABLE_NUM, NoteOnsUpTo(value, SWITCH_COUNT))
  {
    var cableNum := CABLE_NUM;
    var noteOn := new Byte[3];
    noteOn[0], noteOn[1], noteOn[2] := NOTE_ON_STATUS, 0, VELOCITY;
    ghost var w0 := usb.writes;
    assert usb.writes == w0 + OnCable(CABLE_NUM, NoteOnsUpTo(value, 0));
    SendIfPressed(value, 0, NOTE_SW1, usb, cableNum, noteOn, w0);
    SendIfPressed(value, 1, NOTE_SW2, usb, cableNum, noteOn, w0);
    SendIfPressed(value, 2, NOTE_SW3, usb, cableNum, noteOn, w0);
    SendIfPressed(value, 3, NOTE_SW4, usb, cableNum, noteOn, w0);
    SendIfPressed(value, 4, NOTE_SW5, usb, cableNum, noteOn, w0);
  }

  /** The test of switch `k` in the Note-On block: when its bit is set, its
      note goes into the reused buffer and the buffer is written, which
      extends the writes of the first `k` tests to those of the first `k + 1`. */
  method SendIfPressed(value: Mask, k: nat, note: Byte, usb: MidiStream, cable: Byte, noteOn: array<Byte>,
                       ghost w0: seq<StreamWrite>)
    requires k < SWITCH_COUNT && note == NoteOf(k) && cable == CABLE_NUM
    requires noteOn.Length == 3 && noteOn[0] == NOTE_ON_STATUS && noteOn[2] == VELOCITY
    requires usb.writes == w0 + OnCable(CABLE_NUM, NoteOnsUpTo(value, k))
    modifies usb, noteOn
    ensures noteOn[0] == NOTE_ON_STATUS && noteOn[2] == VELOCITY
    ensures usb.writes == w0 + OnCable(CABLE_NUM, NoteOnsUpTo(value, k + 1))
  {
    var tail: seq<Message> := if value[k] then [NoteOn(note)] else [];
    assert NoteOnsUpTo(value, k + 1) == NoteOnsUpTo(value, k) + tail;
    OnCableAppend(CABLE_NUM, NoteOnsUpTo(value, k), tail);
    if value[k] {
      noteOn[1] := note;
      assert noteOn[..] == NoteOn(note);
      usb.Write(cable, noteOn[..]);
    }
  }

  /** midi_task: runs test_switch on SW1 .. SW5 and, when it reports a
      transition, sends the Note-On messages of the new state. */
  method MidiTask(tester: SwitchTester, pd: Pedalboard, usb: MidiStream, poll: Poll)
    returns (ledOn: bool)
    modifies tester, pd, usb
    ensures var s := MidiTaskSpec(Device(old(tester.State()), old(pd.State())), poll);
      tester.State() == s.device.statics && pd.State() == s.device.pedal && ledOn == s.ledOn
      && usb.writes == old(usb.writes) + OnCable(CABLE_NUM, s.sent)
  {
    var _, led := tester.TestSwitch(ALL_SWITCHES, poll.levels, poll.now, pd);
    ledOn := led;
    if pd.changeState {
      SendNoteOns(pd.value, usb);
    }
  }

  /** The loop of main over a finite prefix of its iterations: one midi_task
      call per poll, in order. */
  method PollLoop(tester: SwitchTester, pd: Pedalboard, usb: MidiStream, polls: seq<Poll>)
    modifies tester, pd, usb
    ensures var p := RunPolls(Device(old(tester.State()), old(pd.State())), polls);
      tester.State() == p.device.statics && pd.State() == p.device.pedal
      && usb.writes == old(usb.writes) + OnCable(CABLE_NUM, p.sent)
  {
    ghost var d0 := Device(tester.State(), pd.State());
    ghost var w0 := usb.writes;
    ghost var device := d0;
    ghost var sent: seq<Message> := [];
    var i := 0;
    while i < |polls|
      invariant 0 <= i <= |polls|
      invariant RunPolls(d0, polls[..i]) == Progress(device, sent)
      invariant Device(tester.State(), pd.State()) == device
      invariant usb.writes == w0 + OnCable(CABLE_NUM, sent)
    {
      ghost var step := MidiTaskSpec(device, polls[i]);
      ghost var w := usb.writes;
      var _ := MidiTask(tester, pd, usb, polls[i]);
      assert usb.writes == w + OnCable(CABLE_NUM, step.sent);
      RunPollsNext(d0, polls, i);
      OnCableAppend(CABLE_NUM, sent, step.sent);
      AppendAssociates(w0, OnCable(CABLE_NUM, sent), OnCable(CABLE_NUM, step.sent));
      device, sent := step.device, sent + step.sent;
      i := i + 1;
    }
    assert polls[..|polls|] == polls;
  }

  /** main: the pedal structure is zeroed, the statics of test_switch start at
      zero, and the loop runs over `polls`. */
  method PowerUp(polls: seq<Poll>) returns (tester: SwitchTester, pd: Pedalboard, usb: MidiStream)
    ensures Device(tester.State(), pd.State()) == RunPolls(BOOT, polls).device
    ensures usb.writes == OnCable(CABLE_NUM, RunPolls(BOOT, polls).sent)
  {
    tester := new SwitchTester();
    pd := new Pedalboard();
    usb := new MidiStream();
    PollLoop(tester, pd, usb, polls);
  }

  /** Every message is a Note-On channel-voice message on channel 1 at
      velocity 127 for one of the five notes. */
  predicate OnlyNoteOns(ms: seq<Message>)
  {
    forall k :: 0 <= k < |ms| ==> IsNoteOn(ms[k]) && ms[k][1] as int < SWITCH_COUNT
  }

  /** One midi_task call sends something exactly when the sample differs from
      the accepted mask and has a switch pressed: releasing every switch
      sends nothing, while a partial release re-sends the held switches. */
  lemma MidiTaskSendsOnPress(d: Device, p: Poll)
    ensures MidiTaskSpec(d, p).sent != [] <==>
      Sample(ALL_SWITCHES, p.levels) != d.statics.previousResult && Sample(ALL_SWITCHES, p.levels) != NONE
  {
    var v := Sample(ALL_SWITCHES, p.levels);
    ChangeIffMaskDiffers(d.statics, d.pedal, ALL_SWITCHES, p.levels, p.now);
    SetCountZero(v, SWITCH_COUNT);
    EncodeSendsPressed(MidiTaskSpec(d, p).device.pedal);
    if v != NONE {
      var j :| 0 <= j < SWITCH_COUNT && v[j];
    }
  }

  /** No switch among the first `n` is set exactly when none is counted. */
  lemma {:induction false} SetCountZero(value: Mask, n: nat)
    requires n <= SWITCH_COUNT
    ensures SetCount(value, n) == 0 <==> forall j :: 0 <= j < n ==> !value[j]
  {
    if n > 0 {
      SetCountZero(value, n - 1);
    }
  }

  /** The firmware never sends anything but Note-Ons for notes 0 .. 4: in
      particular no Note-Off, whatever the switches do. */
  lemma {:induction false} RunSendsOnlyNoteOns(d: Device, polls: seq<Poll>)
    ensures OnlyNoteOns(RunPolls(d, polls).sent)
    decreases |polls|
  {
    if polls != [] {
      var before := RunPolls(d, polls[..|polls| - 1]);
      var s := MidiTaskSpec(before.device, polls[|polls| - 1]);
      RunSendsOnlyNoteOns(d, polls[..|polls| - 1]);
      EncodeSendsPressed(s.device.pedal);
      assert OnlyNoteOns(s.sent);
      var all := before.sent + s.sent;
      assert all == RunPolls(d, polls).sent;
      forall k | 0 <= k < |all|
        ensures IsNoteOn(all[k]) && all[k][1] as int < SWITCH_COUNT
      {
        if k < |before.sent| {
          assert all[k] == before.sent[k];
        } else {
          assert all[k] == s.sent[k - |before.sent|];
        }
      }
    }
  }

  /** Splitting a run: the second part starts from the state the first part
      ends in, and its messages follow the first part's. */
  lemma {:induction false} RunPollsAppend(d: Device, a: seq<Poll>, b: seq<Poll>)
    ensures RunPolls(d, a + b) ==
      Progress(RunPolls(RunPolls(d, a).device, b).device,
               RunPolls(d, a).sent + RunPolls(RunPolls(d, a).device, b).sent)
    decreases |b|
  {
    if b == [] {
      assert a + b == a;
    } else {
      var b' := b[..|b| - 1];
      var p := b[|b| - 1];
      assert (a + b)[..|a + b| - 1] == a + b';
      assert (a + b)[|a + b| - 1] == p;
      RunPollsAppend(d, a, b');
      var mid := RunPolls(d, a);
      var rest := RunPolls(mid.device, b');
      var s := MidiTaskSpec(rest.device, p);
      assert RunPolls(d, a + b) == Progress(s.device, RunPolls(d, a + b').sent + s.sent);
      assert RunPolls(mid.device, b) == Progress(s.device, rest.sent + s.sent);
      AppendAssociates(mid.sent, rest.sent, s.sent);
    }
  }

  /** Holding the switches where they were accepted sends nothing and keeps
      the accepted mask, the transition time and the previous mask. */
  lemma {:induction false} HoldIsSilent(d: Device, levels: Levels, polls: seq<Poll>)
    requires d.statics.previousResult == Sample(ALL_SWITCHES, levels)
    requires forall i :: 0 <= i < |polls| ==> polls[i].levels == levels
    ensures RunPolls(d, polls).sent == []
    ensures RunPolls(d, polls).device.statics.previousResult == d.statics.previousResult
    ensures RunPolls(d, polls).device.statics.previousPress == d.statics.previousPress
    ensures RunPolls(d, polls).device.pedal.changeValue == d.pedal.changeValue
    decreases |polls|
  {
    if polls != [] {
      var init := polls[..|polls| - 1];
      HoldIsSilent(d, levels, init);
      var before := RunPolls(d, init);
      var p := polls[|polls| - 1];
      ChangeIffMaskDiffers(before.device.statics, before.device.pedal, ALL_SWITCHES, p.levels, p.now);
    }
  }

  /** Holding new levels over several polls sends the Note-Ons of the first
      poll only. */
  lemma HoldSendsOnce(d: Device, levels: Levels, polls: seq<Poll>)
    requires polls != []
    requires forall i :: 0 <= i < |polls| ==> polls[i].levels == levels
    ensures RunPolls(d, polls).sent == MidiTaskSpec(d, polls[0]).sent
  {
    var first := MidiTaskSpec(d, polls[0]);
    var rest := polls[1..];
    var later := RunPolls(first.device, rest);
    assert RunPolls(d, polls).sent == first.sent + later.sent by {
      assert polls == [polls[0]] + rest;
      RunPollsOne(d, polls[0]);
      RunPollsAppend(d, [polls[0]], rest);
    }
    assert later.sent == [] by {
      forall i | 0 <= i < |rest| ensures rest[i].levels == levels {
        assert rest[i] == polls[i + 1];
      }
      HoldIsSilent(first.device, levels, rest);
    }
    assert first.sent + [] == first.sent;
  }

  /** A run of one poll is one midi_task call. */
  lemma RunPollsOne(d: Device, p: Poll)
    ensures RunPolls(d, [p]) == Progress(MidiTaskSpec(d, p).device, MidiTaskSpec(d, p).sent)
  {
    assert [p][..0] == [];
  }

  /** The first poll after power-up with SW1 down reports the transition to
      SW1 and sends note 0. */
  lemma PressOneAtBoot(p: Poll)
    requires p.levels == SW1_DOWN
    ensures MidiTaskSpec(BOOT, p).sent == [NoteOn(NOTE_SW1)]
    ensures MidiTaskSpec(BOOT, p).device.statics == Statics(SW1, p.now, p.now)
  {
    var v := Sample(ALL_SWITCHES, p.levels);
    assert v == SW1 by {
      assert forall j :: 0 <= j < SWITCH_COUNT ==> v[j] == SW1[j];
    }
    assert NoteOnsUpTo(v, 5) == [NoteOn(NOTE_SW1)] by {
      assert NoteOnsUpTo(v, 1) == [NoteOn(NOTE_SW1)];
      assert NoteOnsUpTo(v, 5) == NoteOnsUpTo(v, 1);
    }
  }

  /** Pressing SW1 alone from power-up and holding it sends note 0 exactly
      once. */
  lemma HoldSwitchOneSendsOneNote(polls: seq<Poll>)
    requires polls != []
    requires forall i :: 0 <= i < |polls| ==> polls[i].levels == SW1_DOWN
    ensures RunPolls(BOOT, polls).sent == [NoteOn(NOTE_SW1)]
  {
    assert RunPolls(BOOT, polls).sent == MidiTaskSpec(BOOT, polls[0]).sent by {
      HoldSendsOnce(BOOT, SW1_DOWN, polls);
    }
    PressOneAtBoot(polls[0]);
  }

  /** Pressing SW1 at `t1` and releasing it at `t2` sends note 0 and nothing
      else; on the release the pedal reports the transition, with SW1 as the
      previous mask and the press duration `t2 - t1` as the elapsed time. */
  lemma PressThenRelease(t1: Micros, t2: Micros)
    requires t1 <= t2
    ensures RunPolls(BOOT, [Poll(SW1_DOWN, t1), Poll(ALL_RELEASED, t2)]).sent == [NoteOn(NOTE_SW1)]
    ensures RunPolls(BOOT, [Poll(SW1_DOWN, t1), Poll(ALL_RELEASED, t2)]).device.pedal
      == PedalState(NONE, true, SW1, (t2 as int - t1 as int) as Micros)
  {
    var press, release := Poll(SW1_DOWN, t1), Poll(ALL_RELEASED, t2);
    var first := MidiTaskSpec(BOOT, press);
    var second := MidiTaskSpec(first.device, release);
    PressOneAtBoot(press);
    assert RunPolls(BOOT, [press, release]) == Progress(second.device, first.sent + second.sent) by {
      RunPollsOne(BOOT, press);
      assert [press, release][..1] == [press];
    }
    assert Sample(ALL_SWITCHES, ALL_RELEASED) == NONE by {
      var r := Sample(ALL_SWITCHES, ALL_RELEASED);
      assert forall j :: 0 <= j < SWITCH_COUNT ==> r[j] == NONE[j];
    }
    assert second.sent == [];
  }

  /** Releasing SW2 while SW1 stays down is a transition, so the Note-On of
      the switch still held is sent again; the released switch gets nothing. */
  lemma PartialReleaseResendsHeld(d: Device, p: Poll)
    requires d.statics.previousResult == Union(SW1, SW2)
    requires p.levels == SW1_DOWN
    ensures MidiTaskSpec(d, p).sent == [NoteOn(NOTE_SW1)]
  {
    var v := Sample(ALL_SWITCHES, p.levels);
    assert v == SW1 by {
      assert forall j :: 0 <= j < SWITCH_COUNT ==> v[j] == SW1[j];
    }
    assert v != Union(SW1, SW2) by {
      assert !v[1];
    }
    assert NoteOnsUpTo(v, 5) == [NoteOn(NOTE_SW1)] by {
      assert NoteOnsUpTo(v, 1) == [NoteOn(NOTE_SW1)];
      assert NoteOnsUpTo(v, 5) == NoteOnsUpTo(v, 1);
    }
  }

  /** Pressing SW2 while SW1 is held is a transition to SW1 | SW2, so note 0
      is sent again, before note 1. */
  lemma PressWhileHeldResends(d: Device, p: Poll)
    requires d.statics.previousResult == SW1
    requires p.levels == SW1_SW2_DOWN
    ensures MidiTaskSpec(d, p).sent == [NoteOn(NOTE_SW1), NoteOn(NOTE_SW2)]
  {
    var v := Sample(ALL_SWITCHES, p.levels);
    assert v == Union(SW1, SW2) by {
      assert forall j :: 0 <= j < SWITCH_COUNT ==> v[j] == Union(SW1, SW2)[j];
    }
    assert v != SW1 by {
      assert v[1];
    }
    assert NoteOnsUpTo(v, 5) == [NoteOn(NOTE_SW1), NoteOn(NOTE_SW2)] by {
      assert NoteOnsUpTo(v, 1) == [NoteOn(NOTE_SW1)];
      assert NoteOnsUpTo(v, 2) == [NoteOn(NOTE_SW1), NoteOn(NOTE_SW2)];
      assert NoteOnsUpTo(v, 5) == NoteOnsUpTo(v, 2);
    }
  }
}
