/** The four animation variants of the sketch as one closed sum type.
    `Start` and `Step` are the two virtual operations; each returns the new
    animation state together with the `COLORS` triple after the call. */
module Animations {
  import opened Colors

  /** The hue rotation's current colour: RED, GREEN or BLUE. */
  type Hue = c: int | 0 <= c < 3

  datatype Animation =
    | WhiteFade(sweepUs: int, value: real, rising: bool)
    | HueRotation(sweepUs: int, value: real, color: Hue)
    | Strobe(delayUs: int, on: bool, elapsedUs: int)
    | ColorArray(delayUs: int, randomize: bool, index: Byte, elapsedUs: int)

  /** An animation together with the `COLORS` triple it leaves behind. */
  datatype Output = Output(anim: Animation, colors: Rgb)

  /** Same variant and same construction parameters: `start` and `step`
      never change what an animation was built with. */
  predicate SameConfig(a: Animation, b: Animation)
  {
    match a
    case WhiteFade(s, _, _) => b.WhiteFade? && b.sweepUs == s
    case HueRotation(s, _, _) => b.HueRotation? && b.sweepUs == s
    case Strobe(d, _, _) => b.Strobe? && b.delayUs == d
    case ColorArray(d, rnd, _, _) => b.ColorArray? && b.delayUs == d && b.randomize == rnd
  }

  /** The state `start` establishes and every `step` keeps: positive sweep
      durations and phase values inside 0..255, palette index inside the palette. */
  predicate Ready(a: Animation)
  {
    match a
    case WhiteFade(s, v, _) => s > 0 && InRange(v)
    case HueRotation(s, v, _) => s > 0 && InRange(v)
    case Strobe(_, _, _) => true
    case ColorArray(_, _, i, _) => i < PaletteSize
  }

  /** What `step(dt)` needs from its caller: a nonzero sweep duration for the
      two sweeping variants, and for the hue rotation a phase that cannot go
      negative (its conversion to `unsigned char` is only defined in range). */
  predicate CanStep(a: Animation, dt: int)
  {
    match a
    case WhiteFade(s, _, _) => s > 0
    case HueRotation(s, v, _) => s > 0 && 0.0 <= v && 0 <= dt
    case Strobe(_, _, _) => true
    case ColorArray(_, _, _, _) => true
  }

  /** `COLORS` is what the animation's state displays. */
  predicate Shows(o: Output)
  {
    match o.anim
    case WhiteFade(_, v, _) =>
      InRange(v) && o.colors == Rgb(v.Floor, v.Floor, v.Floor)
    case HueRotation(_, v, color) => HueChannels(v, color, o.colors)
    case Strobe(_, on, _) => o.colors == (if on then White else Black)
    case ColorArray(_, _, i, _) => i < PaletteSize && o.colors == Palette[i]
  }

  // ---------------------------------------------------------------------
  // Phase arithmetic shared by the fade and the hue rotation

  /** Phase change for `dt` microseconds of a sweep lasting `sweepUs`:
      a full sweep moves the phase by 255. */
  function Delta(dt: int, sweepUs: int): real
    requires sweepUs > 0
  {
    (dt as real) / (sweepUs as real) * 255.0
  }

  /** A phase value inside 0..255. */
  predicate InRange(v: real)
  {
    0.0 <= v <= 255.0
  }

  // ---------------------------------------------------------------------
  // WhiteFade

  /** `WhiteFade::start`: black, phase 0, rising. */
  function FadeStart(a: Animation): (r: Output)
    requires a.WhiteFade?
    ensures SameConfig(a, r.anim) && Shows(r)
    ensures r.anim.value == 0.0 && r.anim.rising && r.colors == Black
  {
    Output(WhiteFade(a.sweepUs, 0.0, true), Rgb(0, 0, 0))
  }

  /** `WhiteFade::step`: move the phase up or down by `Delta`, clamp it to
      0..255, turn round at either end, and show it on all three channels. */
  function FadeStep(a: Animation, dt: int): (r: Output)
    requires a.WhiteFade? && a.sweepUs > 0
    ensures SameConfig(a, r.anim)
    ensures InRange(r.anim.value)
    // the turn-round rule: rising at 0, falling at 255, unchanged in between
    ensures r.anim.value == 0.0 ==> r.anim.rising
    ensures r.anim.value == 255.0 ==> !r.anim.rising
    ensures 0.0 < r.anim.value < 255.0 ==> r.anim.rising == a.rising
    // the phase moves by exactly Delta unless it is clamped at an end
    ensures var moved := if a.rising then a.value + Delta(dt, a.sweepUs)
                         else a.value - Delta(dt, a.sweepUs);
            (r.anim.value == 0.0 <==> moved <= 0.0)
            && (r.anim.value == 255.0 <==> moved >= 255.0)
            && (InRange(moved) ==> r.anim.value == moved)
    // white: all channels equal, and equal to the truncated phase
    ensures r.colors.red == r.colors.green == r.colors.blue == r.anim.value.Floor
    ensures Shows(r)
  {
    var d := Delta(dt, a.sweepUs);
    var v := a.value + d * (if a.rising then 1.0 else -1.0);
    var c := if v < 0.0 then 0.0 else if v > 255.0 then 255.0 else v;
    var dir := if c == 0.0 then true else if c == 255.0 then false else a.rising;
    Output(WhiteFade(a.sweepUs, c, dir), Rgb(c.Floor, c.Floor, c.Floor))
  }

  // ---------------------------------------------------------------------
  // HueRotation

  /** The hue rotation's channel rule: the current colour's channel carries
      the phase, the channel before it in the cycle RED, GREEN, BLUE carries
      its complement, and the channel after it is dark. */
  predicate HueChannels(v: real, color: Hue, c: Rgb)
  {
    && InRange(v)
    && c.Channel(color) == v.Floor
    && c.Channel((color + 2) % 3) == (255.0 - v).Floor
    && c.Channel((color + 1) % 3) == 0
  }

  /** `HueRotation::start`: blue, phase 0, colour RED. */
  function HueStart(a: Animation): (r: Output)
    requires a.HueRotation?
    ensures SameConfig(a, r.anim) && Shows(r)
    ensures r.anim.value == 0.0 && r.anim.color == RED
    ensures r.colors == Rgb(0, 0, 255)
  {
    Output(HueRotation(a.sweepUs, 0.0, RED), Rgb(0, 0, 255))
  }

  /** The three channels the hue rotation writes for a phase and colour,
      spelled the way the sketch selects them, one channel at a time. */
  function HueColors(v: real, color: Hue): Rgb
    requires InRange(v)
  {
    var red := if color == RED then v.Floor
               else if color == GREEN then (255.0 - v).Floor else 0;
    var green := if color == GREEN then v.Floor
                 else if color == BLUE then (255.0 - v).Floor else 0;
    var blue := if color == BLUE then v.Floor
                else if color == RED then (255.0 - v).Floor else 0;
    Rgb(red, green, blue)
  }

  /** `HueRotation::step`: advance the phase by `Delta`; once it passes 255,
      move to the next colour (at most one per step) and restart the phase at 0. */
  function HueStep(a: Animation, dt: int): (r: Output)
    requires a.HueRotation? && a.sweepUs > 0 && 0.0 <= a.value && 0 <= dt
    ensures SameConfig(a, r.anim)
    ensures InRange(r.anim.value)
    ensures a.value + Delta(dt, a.sweepUs) > 255.0 ==>
              r.anim.color == (a.color + 1) % 3 && r.anim.value == 0.0
    ensures a.value + Delta(dt, a.sweepUs) <= 255.0 ==>
              r.anim.color == a.color && r.anim.value == a.value + Delta(dt, a.sweepUs)
    ensures HueChannels(r.anim.value, r.anim.color, r.colors) && Shows(r)
  {
    var v := a.value + Delta(dt, a.sweepUs);
    var color: Hue := if v > 255.0 then (a.color + 1) % 3 else a.color;
    var w := if v > 255.0 then 0.0 else v;
    Output(HueRotation(a.sweepUs, w, color), HueColors(w, color))
  }

  // ---------------------------------------------------------------------
  // Strobe

  /** `Strobe::start`: black and off. The elapsed-time accumulator is left
      as it was. */
  function StrobeStart(a: Animation): (r: Output)
    requires a.Strobe?
    ensures SameConfig(a, r.anim) && Shows(r)
    ensures !r.anim.on && r.colors == Black
    ensures r.anim.elapsedUs == a.elapsedUs
  {
    Output(Strobe(a.delayUs, false, a.elapsedUs), Rgb(0, 0, 0))
  }

  /** `Strobe::step`: accumulate `dt`; if the accumulator has reached the
      half-period, toggle once, take one half-period off, and show white or
      black. Otherwise nothing is written and `COLORS` stays as it was. */
  function StrobeStep(a: Animation, dt: int, colors: Rgb): (r: Output)
    requires a.Strobe?
    ensures SameConfig(a, r.anim)
    ensures r.anim.on != a.on <==> a.elapsedUs + dt >= a.delayUs
    // whatever happens, time is conserved: dt goes in, one delay per toggle goes out
    ensures r.anim.elapsedUs ==
              a.elapsedUs + dt - (if r.anim.on != a.on then a.delayUs else 0)
    ensures r.anim.on != a.on ==> r.colors == (if r.anim.on then White else Black)
    ensures r.anim.on == a.on ==> r.colors == colors
  {
    var e := a.elapsedUs + dt;
    if e >= a.delayUs then
      var on := !a.on;
      Output(Strobe(a.delayUs, on, e - a.delayUs),
             if on then Rgb(255, 255, 255) else Rgb(0, 0, 0))
    else
      Output(Strobe(a.delayUs, a.on, e), colors)
  }

  // ---------------------------------------------------------------------
  // ColorArray

  /** `ColorArray::start`: palette entry 0 (white), accumulator cleared. */
  function ArrayStart(a: Animation): (r: Output)
    requires a.ColorArray?
    ensures SameConfig(a, r.anim) && Shows(r)
    ensures r.anim.index == 0 && r.anim.elapsedUs == 0 && r.colors == White
  {
    Output(ColorArray(a.delayUs, a.randomize, 0, 0), Palette[0])
  }

  /** The next palette index: the supplied random draw, or the successor;
      bumped once more if it would repeat the previous index. */
  function NextIndex(prev: Byte, randomize: bool, draw: int): (i: int)
    requires 0 <= draw < PaletteSize
    ensures 0 <= i < PaletteSize && i != prev
    ensures !randomize ==> i == (prev + 1) % PaletteSize
    ensures randomize && draw != prev ==> i == draw
    ensures randomize && draw == prev ==> i == (draw + 1) % PaletteSize
  {
    var i := if randomize then draw else (prev + 1) % PaletteSize;
    if i == prev then (i + 1) % PaletteSize else i
  }

  /** `ColorArray::step`: accumulate `dt`; if the accumulator has reached the
      delay, take one delay off, move to the next palette entry and show it.
      `draw` stands for the board's `random(7)`. */
  function ArrayStep(a: Animation, dt: int, colors: Rgb, draw: int): (r: Output)
    requires a.ColorArray? && 0 <= draw < PaletteSize
    ensures SameConfig(a, r.anim)
    ensures r.anim.index != a.index <==> a.elapsedUs + dt >= a.delayUs
    ensures r.anim.index != a.index ==>
              && r.anim.index < PaletteSize
              && r.anim.elapsedUs == a.elapsedUs + dt - a.delayUs
              && r.colors == Palette[r.anim.index]
              && (!a.randomize ==> r.anim.index == (a.index + 1) % PaletteSize)
              // randomised: the draw, or its successor when it repeats the old index
              && r.anim.index == NextIndex(a.index, a.randomize, draw)
    ensures r.anim.index == a.index ==>
              r.anim.elapsedUs == a.elapsedUs + dt && r.colors == colors
  {
    var e := a.elapsedUs + dt;
    if e >= a.delayUs then
      var i := NextIndex(a.index, a.randomize, draw);
      Output(ColorArray(a.delayUs, a.randomize, i, e - a.delayUs), Palette[i])
    else
      Output(ColorArray(a.delayUs, a.randomize, a.index, e), colors)
  }

  // ---------------------------------------------------------------------
  // Dispatch (the virtual calls)

  /** `animation->start()`. Always writes `COLORS`, so whatever was shown
      before, the result shows the restarted state. */
  function Start(a: Animation): (r: Output)
    ensures SameConfig(a, r.anim)
    ensures Shows(r)
    ensures Ready(a) ==> Ready(r.anim)
  {
    match a
    case WhiteFade(_, _, _) => FadeStart(a)
    case HueRotation(_, _, _) => HueStart(a)
    case Strobe(_, _, _) => StrobeStart(a)
    case ColorArray(_, _, _, _) => ArrayStart(a)
  }

  /** `animation->step(dt)`, with `COLORS` before the call passed in. */
  function Step(a: Animation, dt: int, colors: Rgb, draw: int): (r: Output)
    requires CanStep(a, dt) && 0 <= draw < PaletteSize
    ensures SameConfig(a, r.anim)
    ensures Ready(a) ==> Ready(r.anim)
    ensures Shows(Output(a, colors)) ==> Shows(r)
  {
    match a
    case WhiteFade(_, _, _) => FadeStep(a, dt)
    case HueRotation(_, _, _) => HueStep(a, dt)
    case Strobe(_, _, _) => StrobeStep(a, dt, colors)
    case ColorArray(_, _, _, _) => ArrayStep(a, dt, colors, draw)
  }
}
