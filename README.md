# midi_pedal: switch filter and Note-On encoder

A Dafny model of the firmware core of midi_pedal. midi_pedal is a five-switch USB MIDI foot pedal
built on a Raspberry Pi Pico with TinyUSB. On every pass of its main loop the firmware does three things:

1. `midi_task` calls `test_switch` on switches SW1 .. SW5.
2. `test_switch` samples the five active-low switch lines into a bit table (SW1 = 1 … SW5 = 16).
   It compares the table with the last accepted one, which it keeps in a static. A difference is a
   transition: `test_switch` records it, with timing, in the caller's `struct pedalboard`. The new
   table then becomes the accepted one.
3. When a transition was reported, `midi_task` writes one three-byte MIDI 1.0 Note-On
   (`0x90`, note, velocity 127) for every switch pressed in the new state. It writes them in order
   SW1 .. SW5 on cable 0, and the note number is the switch's bit index. A released switch gets
   no message (there is no Note-Off). Every transition, including a partial release, re-sends a
   Note-On for each switch still held.

The model is imperative where the firmware is imperative:

- `Debounce.SwitchTester` is a class that holds the statics of `test_switch`.
- Its `TestSwitch` method updates a `Debounce.Pedalboard` object field by field.
- `Firmware.SendNoteOns` overwrites byte 1 of a reused three-byte buffer before each write.
- The transport, `Firmware.MidiStream`, records every write it is handed.
- The main loop is `Firmware.PollLoop`. It runs over a finite sequence of polls. Each poll holds the
  line levels and the clock reading for one iteration.

Each method is proved against a function of its inputs and old state:

| method | specification function |
|---|---|
| `TestSwitch` | `Debounce.TestSwitchSpec` |
| `MidiTask` | `Firmware.MidiTaskSpec` |
| `PollLoop` | `Firmware.RunPolls` |

The properties of the firmware are lemmas about those functions.

Representation choices:

- A bit table is a sequence of five booleans. `Switches.ToInt` gives back the C `int`, and
  `Switches.ToIntInjective` shows that comparing the `int`s, as the firmware does, is comparing
  the tables.
- Times are `uint64_t` microseconds. The subtraction `this_press - previous_press` wraps modulo
  2^64 (`Debounce.Minus`).
- The layout follows the program:
  - `switches.dfy`: bit table and sampling;
  - `debounce.dfy`: `test_switch`, its statics and the pedal structure;
  - `note_encoder.dfy`: the Note-On bytes;
  - `firmware.dfy`: `midi_task`, the transport and the main loop.

The comment on `change_time` in `struct pedalboard` (src/main.c:75) says the field is 0 when there
is no state change. The code sets it to `this_press - previous_press` on every call
(src/main.c:230-231). The model follows the code, and `Debounce.ElapsedSetWithoutTransition`
exhibits the difference: a call with no transition still reports a non-zero elapsed time.

Likewise the header comment of src/main.c (line 35) says the firmware sends Note-On and Note-Off
commands, but the code writes only Note-On messages. The model follows the code:
`Firmware.RunSendsOnlyNoteOns` shows that no run sends anything else, and
`Firmware.PartialReleaseResendsHeld` shows that a partial release re-sends the held switch's
Note-On rather than a Note-Off for the released one.

## Model

| member | source | states |
|---|---|---|
| Switches.BitTable | src/main.c:51-68 | SW1 .. SW5 are 1, 2, 4, 8, 16. Each has exactly its own bit. Their union is 31. Switch `i` is read from pin 11 + i. |
| Switches.ToIntInjective | src/main.c:260 | The C `int` of a bit table is between 0 and 31. Two tables have equal `int`s iff they are equal, so `result != previous_result` compares the masks. |
| Switches.SampleUpTo | src/main.c:235-253 | After the first `n` switch tests, bit `j` of the result is set iff `j < n`, `j` is in `pedal_to_check` and line `j` reads 0. |
| Switches.SampleStep | src/main.c:235-237 | One switch test (or-ing SWk into the result when it is checked and low) extends the result of the first `k` tests to that of the first `k + 1`. |
| Switches.Sample | src/main.c:220-253 | The sampled mask has bit `j` set iff `j` is in `pedal_to_check` and line `j` reads 0. So it is a subset of `pedal_to_check`, and its `int` is between 0 and `pedal_to_check`'s. |
| Switches.ZeroIsNone | src/main.c:256 | A table is the `int` 0 iff no switch bit is set. |
| Switches.SampleNonZero | src/main.c:235-256 | The sampled mask is non-zero iff some checked switch reads low. |
| Debounce.Minus | src/main.c:231 | `uint64_t` subtraction: the exact difference when `a >= b`, otherwise the difference plus 2^64. |
| Debounce.ChangeIffMaskDiffers | src/main.c:227-262 | `change_state` starts false and ends true iff the new sample differs from the accepted mask, whatever the pedal held before. |
| Debounce.TransitionRecordsPrevious | src/main.c:260-264 | On a transition, `change_value` is the previously accepted mask and `previous_press` is `now`. Otherwise both keep their old values. |
| Debounce.AcceptedStateIsSample | src/main.c:274-276 | After every call, `pedal->value`, `previous_result` and the return value all equal the fresh sample. It is a subset of `pedal_to_check` and at most 31. |
| Debounce.ElapsedUsesStoredTime | src/main.c:230-231 | On every call, with or without a transition, `change_time` is `now - previous_press`, using the stored time from before the call. It is the plain difference when the clock has not wrapped. |
| Debounce.LedShowsActivity | src/main.c:256 | The board LED is on iff some checked switch reads low. |
| Debounce.SecondCallIsQuiet | src/main.c:260-276 | A second call with the same levels reports no transition. It keeps `previous_press`, `change_value` and the accepted mask of the first call. |
| Debounce.ElapsedSetWithoutTransition | src/main.c:230-231 | A first call at time 5 with every line high reports no transition but an elapsed time of 5: `change_time` is not 0 without a state change. |
| Debounce.TestSwitchSpec | src/main.c:218-277 | One call of `test_switch` as a function of the old statics and pedal; no contract of its own: the lemmas ChangeIffMaskDiffers, TransitionRecordsPrevious, AcceptedStateIsSample, ElapsedUsesStoredTime, LedShowsActivity and SecondCallIsQuiet state its properties. |
| Debounce.Pedalboard.constructor | src/main.c:121-124 | The pedal structure starts with all fields zero. |
| Debounce.SwitchTester.constructor | src/main.c:221-222 | The statics start at zero. |
| Debounce.SampleLines | src/main.c:233-253 | The five or-assignment tests compute exactly the sampled mask. |
| Debounce.SwitchTester.TestSwitch | src/main.c:218-277 | The new statics, the new pedal fields, the returned mask and the LED level are those of `TestSwitchSpec` on the old state. `change_state` holds iff the mask's `int` changed. Value, accepted mask and result coincide. |
| NoteEncoder.NoteIsBitIndex | src/main.c:51-68 | The note of switch `i` is `i`, the index of its bit in the bit table. |
| NoteEncoder.NoteOnsCount | src/main.c:186-210 | The first `n` switch tests send one message per set switch among them (a popcount). |
| NoteEncoder.NoteOnsShape | src/main.c:184-210 | Every message is `[0x90, note, 127]`, whose note is the index of a tested switch that is set. |
| NoteEncoder.NoteOnsAscending | src/main.c:186-210 | The notes sent are strictly ascending (SW1 first). |
| NoteEncoder.NoteOnsComplete | src/main.c:186-210 | Every set switch among those tested has its Note-On sent. |
| NoteEncoder.NoteOnsUpToExact | src/main.c:184-210 | The messages are exactly one Note-On per set switch, in ascending note order. |
| NoteEncoder.NoteOnsUpTo | src/main.c:186-210 | The messages of the first `n` switch tests of the Note-On block; no contract of its own: the lemmas NoteOnsCount, NoteOnsShape, NoteOnsAscending, NoteOnsComplete and NoteOnsUpToExact state its properties. |
| NoteEncoder.Encode | src/main.c:182-211 | What the Note-On block writes after `test_switch`; no contract of its own: the lemmas EncodeSendsPressed, PressOneAndThree and ReleaseSendsNothing state its properties. |
| NoteEncoder.EncodeSendsPressed | src/main.c:182-211 | Nothing is sent without a reported transition. Otherwise exactly popcount(`value`) Note-Ons are sent, one per pressed switch, ascending. |
| NoteEncoder.PressOneAndThree | src/main.c:182-211 | A transition to SW1 plus SW3 sends `[0x90, 0, 127]` and then `[0x90, 2, 127]`. |
| NoteEncoder.ReleaseSendsNothing | src/main.c:182-211 | A transition to the all-released mask sends nothing. |
| Firmware.MidiStream.Write | src/main.c:189 | `tud_midi_stream_write` appends one write (cable and bytes) to the transport's record. |
| Firmware.SendIfPressed | src/main.c:186-190 | One switch test of the Note-On block puts the switch's note into the reused buffer and writes it iff the bit is set. The writes of the first `k` tests become those of the first `k + 1`. |
| Firmware.SendNoteOns | src/main.c:182-210 | The Note-On block writes exactly the messages of `NoteOnsUpTo(value, 5)`, in order, on cable 0. |
| Firmware.MidiTask | src/main.c:168-211 | `test_switch` on SW1 .. SW5, then the Note-On block. The new state, the LED level and the appended writes are those of `MidiTaskSpec`. |
| Firmware.MidiTaskSpec | src/main.c:168-211 | One `midi_task` call as a function of the state and the poll; no contract of its own: the lemmas MidiTaskSendsOnPress and PressOneAtBoot, and the method MidiTask, state its properties. |
| Firmware.RunPolls | src/main.c:126-130 | The main loop over a finite sequence of polls; no contract of its own: the lemmas RunPollsNext, RunPollsAppend, RunSendsOnlyNoteOns, HoldIsSilent, HoldSendsOnce, HoldSwitchOneSendsOneNote and PressThenRelease, and the method PollLoop, state its properties. |
| Firmware.RunPollsNext | src/main.c:126-130 | Iteration `i` of the loop starts from the state the first `i` iterations end in. Its messages follow theirs. |
| Firmware.PollLoop | src/main.c:126-130 | After the loop has run over `polls`, the statics, the pedal and the transport's writes are those of `RunPolls` from the starting state. |
| Firmware.PowerUp | src/main.c:121-130 | From the zeroed pedal and statics, the loop over `polls` ends in `RunPolls(BOOT, polls)` and has written exactly its messages on cable 0. |
| Firmware.MidiTaskSendsOnPress | src/main.c:179-211 | One `midi_task` call sends something iff the sample differs from the accepted mask and is not the all-released mask. |
| Firmware.PartialReleaseResendsHeld | src/main.c:181-211 | Releasing SW2 while SW1 stays down is a transition that sends `[0x90, 0, 127]` again, and nothing for SW2. |
| Firmware.PressWhileHeldResends | src/main.c:181-211 | Pressing SW2 while SW1 is held sends note 0 again, then note 1. |
| Firmware.RunSendsOnlyNoteOns | src/main.c:168-211 | Over any run, every message sent is a Note-On for note 0 .. 4 on channel 1 at velocity 127. No Note-Off is ever sent. |
| Firmware.RunPollsAppend | src/main.c:126-130 | A run splits into two: the second part starts where the first ends, and its messages follow. |
| Firmware.HoldIsSilent | src/main.c:260-276 | Holding the levels that were accepted sends nothing. It keeps the accepted mask, `previous_press` and `change_value`. |
| Firmware.HoldSendsOnce | src/main.c:168-276 | Holding new levels over several polls sends only the Note-Ons of the first poll. |
| Firmware.PressOneAtBoot | src/main.c:168-276 | The first poll after power-up with SW1 down sends note 0 and sets the statics to (SW1, now, now). |
| Firmware.HoldSwitchOneSendsOneNote | src/main.c:121-130 | Pressing SW1 from power-up and holding it sends `[0x90, 0, 127]` exactly once. |
| Firmware.PressThenRelease | src/main.c:218-277 | A press of SW1 at `t1` and its release at `t2` send note 0 only. The release is reported with value 0, previous mask SW1 and elapsed time `t2 - t1`. |

## Left out

- USB device stack: `tud_init` and `tud_task` are foreign library calls with no effect on the core. The mount, unmount, suspend and resume callbacks (src/main.c:138-162) are defined in this file and called by the library; their bodies are empty, so they change no state. `tud_midi_stream_write` is modelled only as appending to the record of writes.
- Firmware.MidiStream.Write: accepts every byte, because the library's backpressure and return value are not visible in this code and the firmware ignores the return value.
- Inbound drain loop (src/main.c:176): it reads and discards packets, which is I/O without effect on the model's state.
- GPIO setup, `board_init`, `board_init_after_tusb`, `stdio_init_all` and `printf`: hardware bootstrap.
- Anti-bounce wait (30 × `sleep_ms(1)`, src/main.c:267-270): a blocking delay that changes no state, modelled as a no-op. The poll after a transition may carry any `now`, whereas the firmware's next clock reading is at least 30 ms later; which levels get sampled is entirely the caller's choice of polls. Properties that count transitions against raw bounce inside the 30 ms window are therefore not stated.
- The clock `to_us_since_boot(get_absolute_time())`: the clock reading is the `now` parameter of each call.
- Line levels: `gpio_get` of the five pins is the `levels` parameter. The pins themselves are only the constants `Switches.Pin` maps to.
- `pedal_to_check` bits above SW5: the firmware never tests them, so a mask holds only the five switch bits.
- `MIDI_NOTEON | CHANNEL`: written as the sum of the two, which equals the or because the channel occupies only the low nibble, which MIDI_NOTEON leaves clear.
- `this_press` is a static in the source and a field of `SwitchTester` here. After every call it equals `now`.
- The main loop runs forever. The model covers every finite prefix of its iterations.
- RGB indicator animation, an 8-switch configuration with a 50 ms window, and interpretation of inbound Note-On messages: none of these is in src/main.c.
