# depa-lights: animation engine model

A Dafny model of the control core of the depa-lights Arduino sketch, which
drives a red/green/blue PWM light fixture through a playlist of procedurally
generated colour animations.

The model covers these parts of the sketch:

- the four animation variants as one closed datatype `Animations.Animation`
  (`WhiteFade`, `HueRotation`, `Strobe`, `ColorArray`). Their `start` and
  `step(dt)` methods are pure functions that return the new animation state
  together with the `COLORS` triple (`Animations.Output`);
- the playlist with its cursor, `setup`'s activation of the first animation,
  and `shiftAnimation` (module `Engine`);
- one pass of `loop()`. It polls two timers, the frame timer and the rotation
  timer (module `Timer`). The frame timer steps the active animation with the
  whole elapsed time. The rotation timer moves to the next animation. The frame
  block runs first.

The global variables (`COLORS`, `animations`, `anim_index`, `t0`, `at0`) form
one record, `Engine.State`. The active-animation pointer is always
`animations[anim_index]`, so the record does not store it separately. Stepping
the active animation updates its entry in the playlist. As in the sketch, an
animation therefore keeps its state while another one is active.

The clock is a parameter: `now` for `loop`, and `t0`/`at0` for the program's
initial values. The board's `random(7)` is a supplied `draw` in 0..6. The
phases of the fade and the hue rotation are `real`s. A conversion from
`double` to `int` or `unsigned char` is `Floor` of an in-range value.

The invariant that runs through the model is `Animations.Shows`: `COLORS` is
what the active animation's state displays. Every `start` establishes it.
Every `step` preserves it. `Engine.Loop` carries it through the frame and
rotation timers.

## Model

| member | source | states |
|---|---|---|
| `Animations.FadeStart` | src/main.cpp:31-35 | the fade starts black, at phase 0, rising |
| `Animations.FadeStep` | src/main.cpp:36-44 | the phase stays in 0..255; it moves by exactly the scaled elapsed time unless clamped, and it is clamped at 0 (at 255) exactly when the move would reach or pass that end; the direction is rising at 0, falling at 255, otherwise unchanged; all three channels show the truncated phase |
| `Animations.HueStart` | src/main.cpp:56-60 | the hue rotation starts at colour RED, phase 0, showing (0,0,255), which already obeys the channel rule |
| `Animations.HueStep` | src/main.cpp:61-73 | when the phase would pass 255, the colour moves one place on (mod 3) and the phase restarts at 0; otherwise the colour is kept and the phase grows by the scaled elapsed time; the phase stays in 0..255; the written channels obey the channel rule `HueChannels` |
| `Animations.StrobeStart` | src/main.cpp:86-89 | the strobe starts black and off, and its accumulator is left as it was |
| `Animations.StrobeStep` | src/main.cpp:90-97 | `on` toggles exactly when the accumulator plus `dt` reaches the half-period; the accumulator gains `dt` and loses one half-period per toggle; a toggle shows white when on and black when off; without a toggle `COLORS` is untouched |
| `Animations.ArrayStart` | src/main.cpp:110-114 | the colour array starts at palette index 0 (white) with a cleared accumulator |
| `Animations.NextIndex` | src/main.cpp:119-124 | the next index is in 0..6 and never the previous one; without randomisation it is the successor mod 7; with randomisation it is the draw, or the draw's successor when the draw repeats the previous index |
| `Animations.ArrayStep` | src/main.cpp:115-127 | the index changes exactly when the accumulator plus `dt` reaches the delay; it then moves to a different palette entry, which is shown, and the accumulator loses one delay; with randomisation the new index is the draw, or the draw's successor when the draw repeats the old index; below the threshold the index and `COLORS` are unchanged and the accumulator gains `dt` |
| `Animations.Start` | src/main.cpp:20-24 | `start` on any variant keeps its configuration and leaves `COLORS` showing the restarted state |
| `Animations.Step` | src/main.cpp:20-24 | `step` on any variant keeps its configuration and the start/step invariant, and if `COLORS` showed the state before it shows the state after |
| `AnimationLemmas.FadeTriangle` | src/main.cpp:36-43 | from `start`, one sweep duration reaches full white and turns round, and a second one returns to black, rising |
| `AnimationLemmas.FadeZeroStepAtEnds` | src/main.cpp:40-42 | a zero step at 0 or 255 keeps the phase and sets the direction to rising at 0 and falling at 255 |
| `AnimationLemmas.FadeMonotone` | src/main.cpp:37-40 | with non-negative elapsed time, a rising step never lowers the phase and a falling step never raises it |
| `AnimationLemmas.HueLitSum` | src/main.cpp:68-72 | under the channel rule the channel after the current colour is dark, and the two lit channels sum to 255 for a whole-number phase and to 254 otherwise |
| `AnimationLemmas.HueColorsFollowRule` | src/main.cpp:68-70 | the sketch's per-channel selection agrees with the channel rule for every phase and colour |
| `AnimationLemmas.StrobeRunAccounting` | src/main.cpp:90-96 | over any run of steps there are at most as many toggles as steps; the accumulator ends at its start plus the total elapsed time minus one half-period per toggle; `on` has flipped once per toggle |
| `AnimationLemmas.StrobeSingleToggle` | src/main.cpp:92-96 | a step of two half-periods or more toggles only once and leaves at least a half-period in the accumulator |
| `AnimationLemmas.StrobeExactPeriods` | src/main.cpp:90-96 | steps of exactly one half-period, starting from an accumulator below it, toggle on every step and keep the accumulator unchanged |
| `AnimationLemmas.ArrayCycle` | src/main.cpp:115-126 | without randomisation, `n` steps of one delay each move the index from `i` to `(i + n) % 7` and show that palette entry |
| `AnimationLemmas.ArrayCycleFromStart` | src/main.cpp:110-126 | without randomisation, the indices after `start` run 0, 1, ..., 6, 0, 1, ... |
| `Colors.PaletteDistinct` | src/main.cpp:133-141 | the seven palette entries are pairwise different colours |
| `Timer.Poll` | src/main.cpp:191-194 | the timer as written: it fires exactly when a period has passed since the reference, hands over the whole elapsed time, and puts the new reference one overshoot after `now` (so at or after `now`), which is twice the overshoot past one period after the old reference |
| `Timer.PollCarry` | src/main.cpp:191-194 | the corrected timer: it fires under the same condition and hands over the same elapsed time, but the new reference is exactly one period after the old one and not later than `now` |
| `Timer.PollDrift` | src/main.cpp:194 | over any sequence of polls of the timer as written, the reference ends at the start plus one period per firing plus twice the total overshoot |
| `Timer.PollCarryNoDrift` | src/main.cpp:192-194 | over any sequence of polls of the corrected timer, the reference ends exactly one period per firing after the start |
| `Timer.LateFrameDelaysNext` | src/main.cpp:192-194 | a frame at the 16666 us period that fires 3334 us late moves the reference to 23334; a poll at 36000 then does not fire, but the corrected timer would |
| `Engine.Setup` | src/main.cpp:147-174 | the playlist is built as hue rotation (500000 us), strobe (30000 us), white fade (500000 us) and randomised colour array (100000 us); after `setup`, the cursor is 0, the hue rotation is active and started, the strobe keeps its uninitialised accumulator, `COLORS` is (0,0,255) and shows the hue rotation, and the engine invariant holds |
| `Engine.Shift` | src/main.cpp:159-166 | with more than one animation, the cursor moves to `(anim_index + 1) % size`, which differs from the old one; the animation there is replaced by its started state, and its start colours become `COLORS`; every other animation is unchanged; with one animation nothing changes |
| `Engine.Frame` | src/main.cpp:182-187 | a frame replaces the active animation and `COLORS` by the result of stepping it with `dt`, leaves every other animation unchanged, keeps the engine invariant, and keeps `COLORS` showing the active animation |
| `Engine.Loop` | src/main.cpp:189-201 | each timer fires exactly when its period has passed and then moves its reference to at least `now`, one overshoot on; otherwise the reference stays; the frame block first steps the previously active animation with the whole elapsed time; the rotation block then moves the cursor, replaces the animation it moves to by its started state and ends with its colours; every other animation keeps its state, and with no frame due so does the one the rotation leaves; the engine invariant and the `COLORS` invariant are kept |
| `Engine.LoopCarry` | src/main.cpp:189-201 | the corrected loop moves each reference by exactly one period when it fires; everything it does to the animations, cursor and `COLORS` is the same as `Engine.Loop` |
| `Engine.FramePeriodTruncates` | src/main.cpp:175-177 | the frame period is 16666 us, one second divided by 60 and truncated, so 60 periods are slightly under one second |
| `Engine.ShiftCursor` | src/main.cpp:159-166 | on the four-entry playlist, `n` rotations move the cursor `n` places on, mod 4 |
| `Engine.PlaylistOrder` | src/main.cpp:148-153 | after `setup`, rotations visit strobe, white fade, colour array, and then the hue rotation again |
| `Engine.FirstRotation` | src/main.cpp:197-200 | after `setup`, `COLORS` is (0,0,255); if the first pass of `loop` is due for a rotation but not a frame, the strobe becomes active, off, and `COLORS` is black |

## Notes on the code

Some behaviours of the code are easy to misread. The model follows the code in
each case:

- `Strobe::start` sets the colour and `on` but not the accumulator
  (src/main.cpp:86-89). The accumulator carries over between activations and
  starts out uninitialised.
- `Strobe::step` and `ColorArray::step` test their threshold with `if`, not
  `while` (src/main.cpp:92, 117). A step fires at most once, however much time
  it is given. Any backlog drains one firing per later step
  (`AnimationLemmas.StrobeSingleToggle`, `AnimationLemmas.StrobeRunAccounting`).
- The hue rotation truncates the phase and its complement separately
  (src/main.cpp:68-70). The two lit channels therefore sum to 254 whenever the
  phase is not a whole number (`AnimationLemmas.HueLitSum`).
- The randomised colour array bumps a repeated draw to its successor
  (src/main.cpp:122-124). The successor of the previous index is therefore
  twice as likely as any other entry. `Animations.ArrayStep` states this bump;
  the model does not describe the distribution of `random(7)`.
- Only `update` writes the pins (src/main.cpp:182-187), and only a frame
  calls it. `setup` and a pass where only the rotation fires change `COLORS`
  without writing it out, so the fixture lags `COLORS` by up to one frame
  after start-up and after each rotation. The model tracks `COLORS`, not the
  pin levels.
- The timers do not carry the overshoot forward (see Findings).

## Findings

| source | as written | input that shows it | evidently intended | confidence | as-written member | corrected member |
|---|---|---|---|---|---|---|
| src/main.cpp:194 | after a late frame, `t0 = now + (dt - PERIOD_us)` puts the reference one overshoot after `now`, so the next frame waits one period plus the overshoot, and the schedule falls back by twice the overshoot | `t0 = 0`, `now = 20000` (3334 us late): the new `t0` is 23334, and a poll at 36000 (over a period after the intended 16666) does not fire | `t0 = now - (dt - PERIOD_us)`, i.e. `t0 + PERIOD_us`, so the long-run frame rate is one per period | high that it is not carry-forward; not executed | `Timer.PollDrift` | `Timer.PollCarryNoDrift` |
| src/main.cpp:200 | the rotation timer has the same update, `at0 = now + (adt - shiftPeriod)`, so each animation's time slot stretches by twice each poll's lateness | `at0 = 0`, `now = 2000100`: the new `at0` is 2000200 instead of 2000000 | `at0 + shiftPeriod` | high that it is not carry-forward; not executed | `Timer.PollDrift` | `Engine.LoopCarry` |

`Engine.Loop` models the loop as written, with `Timer.Poll`. `Engine.LoopCarry`
is the corrected loop, with `Timer.PollCarry`. Its contract proves that it
treats the animations, the cursor and `COLORS` exactly as `Engine.Loop` does.
The two differ only in where they move the references.

## Left out

- Pin output: `pinMode`, `analogWrite` and the `PINS` table (src/main.cpp:8, 169-171, 184-186) are hardware side effects. `Engine.Frame` models `update` without them.
- Clock: `micros()` and `millis()` become the parameters `now`, `t0` and `at0`. The model does not cover counter wrap-around or `long` overflow. `at0` comes from `millis()` but is compared with `micros()` readings; the model treats it as a given initial value.
- `random(7)` is the supplied parameter `draw` in 0..6. The model makes no claim about its distribution.
- Arduino `map()` in `setColors`: with a minimum brightness of 0 it is the identity on 0..255. Setting colours is modelled as building the `Rgb` triple.
- Floating point: `double` arithmetic is exact `real` arithmetic, with no rounding error.
- Uninitialised fields: fields that `start` overwrites before they are read hold placeholder values in `Engine.Playlist`. The strobe's accumulator is never initialised, so it is the parameter `strobeElapsed` of `Engine.Setup`.
- Animations.HueStep: requires a non-negative phase and a non-negative `dt`. A negative phase would make the sketch's conversion to `unsigned char` undefined. The only caller, the frame timer, passes at least one frame period.
- Engine.ShiftCursor: proved only for the shipped four-entry playlist, not for a playlist of any size. `Engine.Shift` itself is modelled for any size.
- The unbounded loop: `Engine.Loop` models one pass. The timers' behaviour over many passes is stated on sequences of clock readings in `Timer.PollDrift` and `Timer.PollCarryNoDrift`.
