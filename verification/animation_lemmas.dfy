/** Properties of the animations over one step and over runs of steps. */
module AnimationLemmas {
  import opened Colors
  import opened Animations

  // ---------------------------------------------------------------------
  // WhiteFade: a triangle wave between 0 and 255

  /** From `start`, one full sweep duration brings the fade to full white and
      turns it round; a second one brings it back to black, rising again. */
  lemma FadeTriangle(a: Animation)
    requires a.WhiteFade? && a.sweepUs > 0
    ensures var up := FadeStep(FadeStart(a).anim, a.sweepUs);
            && up.anim.value == 255.0 && !up.anim.rising && up.colors == White
            && var down := FadeStep(up.anim, a.sweepUs);
               down.anim.value == 0.0 && down.anim.rising && down.colors == Black
  {
  }

  /** A zero-length step at either end does not move the phase and settles
      the direction: rising at 0, falling at 255, whichever way it was going. */
  lemma FadeZeroStepAtEnds(a: Animation)
    requires a.WhiteFade? && a.sweepUs > 0
    requires a.value == 0.0 || a.value == 255.0
    ensures FadeStep(a, 0).anim.value == a.value
    ensures FadeStep(a, 0).anim.rising <==> a.value == 0.0
  {
  }

  /** Rising steps never lower the phase and falling steps never raise it,
      as long as time does not run backwards and the fade does not turn. */
  lemma FadeMonotone(a: Animation, dt: int)
    requires a.WhiteFade? && a.sweepUs > 0 && InRange(a.value) && 0 <= dt
    ensures a.rising ==> FadeStep(a, dt).anim.value >= a.value
    ensures !a.rising ==> FadeStep(a, dt).anim.value <= a.value
  {
  }

  // ---------------------------------------------------------------------
  // HueRotation: one channel dark, the other two complementary

  /** Whatever the phase, the dark channel is 0 and the two lit channels sum
      to 255 when the phase is a whole number and to 254 otherwise (each is
      truncated separately). */
  lemma HueLitSum(v: real, color: Hue, c: Rgb)
    requires HueChannels(v, color, c)
    ensures c.Channel((color + 1) % 3) == 0
    ensures var lit := c.Channel(color) + c.Channel((color + 2) % 3);
            lit == (if v.Floor as real == v then 255 else 254)
  {
  }

  /** The channel rule written once per colour is the sketch's per-channel
      selection: both agree on every phase and colour. */
  lemma HueColorsFollowRule(v: real, color: Hue)
    requires InRange(v)
    ensures HueChannels(v, color, HueColors(v, color))
  {
  }

  // ---------------------------------------------------------------------
  // Strobe: at most one toggle per step, time conserved across a run

  /** Steps `a` through the elapsed times `dts`, threading `COLORS`. */
  function StrobeRun(a: Animation, dts: seq<int>, colors: Rgb): (r: Output)
    requires a.Strobe?
    ensures SameConfig(a, r.anim)
    decreases |dts|
  {
    if |dts| == 0 then Output(a, colors)
    else
      var o := StrobeStep(a, dts[0], colors);
      StrobeRun(o.anim, dts[1..], o.colors)
  }

  /** Number of toggles the run of `dts` from `a` performs. */
  function StrobeToggles(a: Animation, dts: seq<int>): nat
    requires a.Strobe?
    decreases |dts|
  {
    if |dts| == 0 then 0
    else
      var o := StrobeStep(a, dts[0], Black);
      (if o.anim.on != a.on then 1 else 0) + StrobeToggles(o.anim, dts[1..])
  }

  function Sum(dts: seq<int>): int
  {
    if |dts| == 0 then 0 else dts[0] + Sum(dts[1..])
  }

  /** Over any run: at most one toggle per step however long the steps are,
      the accumulator gains the elapsed time and loses one half-period per
      toggle, and `on` reflects the parity of the toggles. */
  lemma {:induction false} StrobeRunAccounting(a: Animation, dts: seq<int>, colors: Rgb)
    requires a.Strobe?
    ensures var k := StrobeToggles(a, dts);
            var r := StrobeRun(a, dts, colors);
            && k <= |dts|
            && r.anim.elapsedUs == a.elapsedUs + Sum(dts) - k * a.delayUs
            && r.anim.on == (if k % 2 == 0 then a.on else !a.on)
    decreases |dts|
  {
    if |dts| > 0 {
      var o := StrobeStep(a, dts[0], colors);
      assert o.anim == StrobeStep(a, dts[0], Black).anim;
      StrobeRunAccounting(o.anim, dts[1..], o.colors);
      var k := StrobeToggles(o.anim, dts[1..]);
      if o.anim.on != a.on {
        assert StrobeToggles(a, dts) == k + 1;
        assert (k + 1) * a.delayUs == k * a.delayUs + a.delayUs;
      } else {
        assert StrobeToggles(a, dts) == k;
      }
    }
  }

  /** A step of two half-periods or more toggles only once and leaves at
      least a half-period behind, so the strobe falls behind real time. */
  lemma StrobeSingleToggle(a: Animation, dt: int, colors: Rgb)
    requires a.Strobe? && 0 < a.delayUs && 0 <= a.elapsedUs
    requires dt >= 2 * a.delayUs
    ensures StrobeStep(a, dt, colors).anim.on == !a.on
    ensures StrobeStep(a, dt, colors).anim.elapsedUs >= a.delayUs
  {
  }

  /** Steps of exactly one half-period from an accumulator below the
      half-period toggle on every step and keep the accumulator where it is. */
  lemma {:induction false} StrobeExactPeriods(a: Animation, n: nat, colors: Rgb)
    requires a.Strobe? && 0 <= a.elapsedUs < a.delayUs
    ensures StrobeToggles(a, seq(n, _ => a.delayUs)) == n
    ensures StrobeRun(a, seq(n, _ => a.delayUs), colors).anim.elapsedUs == a.elapsedUs
    decreases n
  {
    if n > 0 {
      var dts := seq(n, _ => a.delayUs);
      var o := StrobeStep(a, dts[0], colors);
      assert dts[1..] == seq(n - 1, _ => o.anim.delayUs);
      StrobeExactPeriods(o.anim, n - 1, o.colors);
    }
  }

  // ---------------------------------------------------------------------
  // ColorArray: the fixed cycle without randomisation

  /** `n` steps of exactly one delay each; the random draws are all 0. */
  function ArrayRepeat(a: Animation, colors: Rgb, n: nat): (r: Output)
    requires a.ColorArray?
    ensures SameConfig(a, r.anim)
    decreases n
  {
    if n == 0 then Output(a, colors)
    else
      var o := ArrayStep(a, a.delayUs, colors, 0);
      ArrayRepeat(o.anim, o.colors, n - 1)
  }

  /** Without randomisation, stepping one delay at a time walks the palette
      in order, wrapping from 6 back to 0: after `n` steps from index `i` the
      index is `(i + n) % 7` and the colour is that palette entry. */
  lemma ArrayCycle(a: Animation, colors: Rgb, n: nat)
    requires a.ColorArray? && !a.randomize && a.index < PaletteSize && 0 <= a.elapsedUs
    requires n > 0 || colors == Palette[a.index]
    ensures var r := ArrayRepeat(a, colors, n);
            && r.anim.index == (a.index + n) % PaletteSize
            && r.anim.elapsedUs == a.elapsedUs
            && r.colors == Palette[r.anim.index]
  {
    ArrayFollowsWalk(a, colors, n);
    WalkIsSum(a.index, n);
  }

  /** The palette position after `n` single steps round seven places. */
  function Walk(i: int, n: nat): (r: int)
    requires 0 <= i < PaletteSize
    ensures 0 <= r < PaletteSize
    decreases n
  {
    if n == 0 then i else Walk((i + 1) % PaletteSize, n - 1)
  }

  lemma {:induction false} ArrayFollowsWalk(a: Animation, colors: Rgb, n: nat)
    requires a.ColorArray? && !a.randomize && a.index < PaletteSize && 0 <= a.elapsedUs
    requires n > 0 || colors == Palette[a.index]
    ensures var r := ArrayRepeat(a, colors, n);
            && r.anim.index == Walk(a.index, n)
            && r.anim.elapsedUs == a.elapsedUs
            && r.colors == Palette[r.anim.index]
    decreases n
  {
    if n > 0 {
      var o := ArrayStep(a, a.delayUs, colors, 0);
      assert o.anim.index == (a.index + 1) % PaletteSize;
      ArrayFollowsWalk(o.anim, o.colors, n - 1);
    }
  }

  lemma {:induction false} WalkIsSum(i: int, n: nat)
    requires 0 <= i < PaletteSize
    ensures Walk(i, n) == (i + n) % PaletteSize
    decreases n
  {
    if n > 0 {
      WalkIsSum((i + 1) % PaletteSize, n - 1);
    }
  }

  /** From `start`, the non-random colour array shows palette entry `n % 7`
      after `n` steps of one delay: 0, 1, ..., 6, 0, 1, ... */
  lemma ArrayCycleFromStart(a: Animation, n: nat)
    requires a.ColorArray? && !a.randomize
    ensures var s := ArrayStart(a);
            ArrayRepeat(s.anim, s.colors, n).anim.index == n % PaletteSize
  {
    var s := ArrayStart(a);
    ArrayCycle(s.anim, s.colors, n);
  }
}
