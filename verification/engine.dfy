/** The sketch's globals as one engine state, `setup`, `shiftAnimation`, and
    one pass of `loop` with its two timers: the frame timer steps the active
    animation, the rotation timer moves to the next animation of the playlist. */
module Engine {
  import opened Colors
  import opened Animations
  import Timer

  const FPS: int := 60
  /** `PERIOD_us`, the frame period in microseconds (see `FramePeriodTruncates`). */
  const FramePeriodUs: int := 16666
  /** `shiftPeriod`: each animation plays for two seconds. */
  const ShiftPeriodUs: int := 2000000

  /** `COLORS`, the `animations` playlist, `anim_index`, and the two timer
      references `t0` (frame) and `at0` (rotation). The active animation
      pointer is always `animations[anim_index]`, so it is not stored apart. */
  datatype State = State(colors: Rgb, animations: seq<Animation>, animIndex: int,
                         t0: int, at0: int)
  {
    /** `0 <= anim_index < size` and every animation in its start/step invariant. */
    predicate Valid()
    {
      && 0 <= animIndex < |animations|
      && forall i :: 0 <= i < |animations| ==> Ready(animations[i])
    }

    function Active(): Animation
      requires Valid()
    {
      animations[animIndex]
    }

    /** `COLORS` is what the active animation displays. */
    predicate Displays()
      requires Valid()
    {
      Shows(Output(Active(), colors))
    }
  }

  /** The playlist as constructed: hue rotation (0.5 s per colour), strobe
      (30 ms half-period), white fade (0.5 s sweep), randomised colour array
      (0.1 s per entry). Fields the constructors leave uninitialised and
      `start` overwrites before use hold placeholders; the strobe's
      accumulator, which `start` never sets, is the parameter `strobeElapsed`. */
  function Playlist(strobeElapsed: int): seq<Animation>
  {
    [ HueRotation(500000, 0.0, RED),
      Strobe(30000, false, strobeElapsed),
      WhiteFade(500000, 0.0, true),
      ColorArray(100000, true, 0, 0) ]
  }

  /** Program start: the global initialisers and `setup`. The clock readings
      taken by the initialisers are the parameters `t0` and `at0`. */
  function Setup(t0: int, at0: int, strobeElapsed: int): (s: State)
    ensures s.Valid() && s.Displays()
    ensures s.animIndex == 0 && |s.animations| == 4
    ensures s.Active().HueRotation? && s.colors == Rgb(0, 0, 255)
    ensures s.t0 == t0 && s.at0 == at0
    // the playlist as constructed: only its first entry has been started
    ensures s.Active() == HueRotation(500000, 0.0, RED)
    ensures s.animations[1] == Strobe(30000, false, strobeElapsed)
    ensures SameConfig(WhiteFade(500000, 0.0, true), s.animations[2])
    ensures SameConfig(ColorArray(100000, true, 0, 0), s.animations[3])
  {
    var anims := Playlist(strobeElapsed);
    var o := Start(anims[0]);
    State(o.colors, anims[0 := o.anim], 0, t0, at0)
  }

  /** `shiftAnimation`: with more than one animation, move the cursor on by
      one (wrapping) and start the animation it now points at. */
  function Shift(s: State): (r: State)
    requires s.Valid()
    ensures r.Valid() && |r.animations| == |s.animations|
    ensures r.t0 == s.t0 && r.at0 == s.at0
    ensures |s.animations| <= 1 ==> r == s
    ensures |s.animations| > 1 ==>
              && r.animIndex == (s.animIndex + 1) % |s.animations|
              && r.animIndex != s.animIndex
              && r.Displays()
              && r.Active() == Start(s.animations[r.animIndex]).anim
              && r.colors == Start(s.animations[r.animIndex]).colors
              && forall j :: 0 <= j < |s.animations| && j != r.animIndex ==>
                   r.animations[j] == s.animations[j]
  {
    var n := |s.animations|;
    if n <= 1 then s
    else
      var i := (s.animIndex + 1) % n;
      var o := Start(s.animations[i]);
      State(o.colors, s.animations[i := o.anim], i, s.t0, s.at0)
  }

  /** `update(dt)` without the pin writes: step the active animation by `dt`. */
  function Frame(s: State, dt: int, draw: int): (r: State)
    requires s.Valid() && 0 <= dt && 0 <= draw < PaletteSize
    ensures r.Valid() && |r.animations| == |s.animations| && r.animIndex == s.animIndex
    ensures r.t0 == s.t0 && r.at0 == s.at0
    ensures s.Displays() ==> r.Displays()
    ensures r.Active() == Step(s.Active(), dt, s.colors, draw).anim
    ensures r.colors == Step(s.Active(), dt, s.colors, draw).colors
    ensures forall j :: 0 <= j < |s.animations| && j != s.animIndex ==>
              r.animations[j] == s.animations[j]
  {
    var o := Step(s.Active(), dt, s.colors, draw);
    State(o.colors, s.animations[s.animIndex := o.anim], s.animIndex, s.t0, s.at0)
  }

  /** One pass of `loop` given the two timers' verdicts: the frame block
      first, then the rotation block, each moving its own reference. */
  function Tick(s: State, draw: int, frame: Timer.Outcome, rotation: Timer.Outcome): (r: State)
    requires s.Valid() && 0 <= draw < PaletteSize
    requires frame.Fired? ==> 0 <= frame.dt
    ensures r.Valid() && |r.animations| == |s.animations|
    // only the stepped and the started animation can change
    ensures forall j :: 0 <= j < |s.animations| && j != s.animIndex && j != r.animIndex ==>
              r.animations[j] == s.animations[j]
    ensures frame.Idle? ==>
              forall j :: 0 <= j < |s.animations| && j != r.animIndex ==>
                r.animations[j] == s.animations[j]
  {
    var s1 := if frame.Fired? then Frame(s, frame.dt, draw).(t0 := frame.next) else s;
    if rotation.Fired? then Shift(s1).(at0 := rotation.next) else s1
  }

  /** `loop()` as written, polled at clock reading `now`; `draw` stands for the
      value `random(7)` would return if the colour array needs one. */
  function Loop(s: State, now: int, draw: int): (r: State)
    requires s.Valid() && 0 <= draw < PaletteSize
    ensures r.Valid() && |r.animations| == |s.animations|
    ensures s.Displays() ==> r.Displays()
    // frame timer: fires exactly when a frame period has passed, and then
    // puts its reference one overshoot past now; otherwise leaves it alone
    ensures r.t0 != s.t0 <==> now - s.t0 >= FramePeriodUs
    ensures r.t0 != s.t0 ==> r.t0 >= now && r.t0 - now == now - s.t0 - FramePeriodUs
    // rotation timer, independently of the frame timer
    ensures r.at0 != s.at0 <==> now - s.at0 >= ShiftPeriodUs
    ensures r.at0 != s.at0 ==> r.at0 >= now && r.at0 - now == now - s.at0 - ShiftPeriodUs
    ensures r.animIndex == (if now - s.at0 >= ShiftPeriodUs && |s.animations| > 1
                            then (s.animIndex + 1) % |s.animations| else s.animIndex)
    // the frame block runs first and steps the animation that was active,
    // with the whole elapsed time
    ensures now - s.t0 >= FramePeriodUs && r.animIndex != s.animIndex ==>
              r.animations[s.animIndex]
                == Step(s.Active(), now - s.t0, s.colors, draw).anim
    ensures now - s.t0 >= FramePeriodUs && r.animIndex == s.animIndex ==>
              r.Active() == Step(s.Active(), now - s.t0, s.colors, draw).anim
              && r.colors == Step(s.Active(), now - s.t0, s.colors, draw).colors
    // no frame due: the animations are only touched by a rotation's start
    ensures now - s.t0 < FramePeriodUs && r.animIndex == s.animIndex ==>
              r.animations == s.animations && r.colors == s.colors
    // a rotation starts the animation it moves to and ends with its colours
    ensures r.animIndex != s.animIndex ==>
              r.Active() == Start(s.animations[r.animIndex]).anim
              && r.colors == Start(s.animations[r.animIndex]).colors
    // every animation that was neither active nor activated keeps its state
    ensures forall j :: 0 <= j < |s.animations| && j != s.animIndex && j != r.animIndex ==>
              r.animations[j] == s.animations[j]
    // with no frame due, the animation left by a rotation keeps its state too:
    // only the newly activated one changes
    ensures now - s.t0 < FramePeriodUs ==>
              forall j :: 0 <= j < |s.animations| && j != r.animIndex ==>
                r.animations[j] == s.animations[j]
  {
    Tick(s, draw, Timer.Poll(s.t0, now, FramePeriodUs),
         Timer.Poll(s.at0, now, ShiftPeriodUs))
  }

  /** `loop()` with the carry-forward timers: identical except that each
      reference advances by exactly one period when its timer fires. */
  function LoopCarry(s: State, now: int, draw: int): (r: State)
    requires s.Valid() && 0 <= draw < PaletteSize
    ensures r.Valid() && |r.animations| == |s.animations|
    ensures s.Displays() ==> r.Displays()
    ensures r.t0 == (if now - s.t0 >= FramePeriodUs then s.t0 + FramePeriodUs else s.t0)
    ensures r.at0 == (if now - s.at0 >= ShiftPeriodUs then s.at0 + ShiftPeriodUs else s.at0)
    ensures r.t0 <= now || r.t0 == s.t0
    ensures r.animIndex == (if now - s.at0 >= ShiftPeriodUs && |s.animations| > 1
                            then (s.animIndex + 1) % |s.animations| else s.animIndex)
    ensures Loop(s, now, draw).animations == r.animations
    ensures Loop(s, now, draw).colors == r.colors
  {
    Tick(s, draw, Timer.PollCarry(s.t0, now, FramePeriodUs),
         Timer.PollCarry(s.at0, now, ShiftPeriodUs))
  }

  // ---------------------------------------------------------------------
  // Properties over several calls

  /** The frame period is one second divided by the frame rate, truncated
      to whole microseconds as the `(long)` cast does: frames come slightly
      more often than 60 per second. */
  lemma FramePeriodTruncates()
    ensures FramePeriodUs == (1000000.0 / FPS as real).Floor
    ensures FramePeriodUs * FPS < 1000000 < (FramePeriodUs + 1) * FPS
  {
  }

  /** `n` rotations in a row. */
  function ShiftN(s: State, n: nat): (r: State)
    requires s.Valid()
    ensures r.Valid() && |r.animations| == |s.animations|
    decreases n
  {
    if n == 0 then s else ShiftN(Shift(s), n - 1)
  }

  /** The cursor moves round the shipped four-entry playlist: after `n`
      rotations it is `n` places on, modulo 4, so it returns to where it was
      after four rotations. */
  lemma ShiftCursor(s: State, n: nat)
    requires s.Valid() && |s.animations| == 4
    ensures ShiftN(s, n).animIndex == (s.animIndex + n) % 4
  {
    ShiftFollowsCursor(s, n);
    CursorIsSum(s.animIndex, n);
  }

  /** The cursor position after `n` single steps round four places. */
  function Cursor(i: int, n: nat): int
    decreases n
  {
    if n == 0 then i else Cursor((i + 1) % 4, n - 1)
  }

  lemma {:induction false} ShiftFollowsCursor(s: State, n: nat)
    requires s.Valid() && |s.animations| == 4
    ensures ShiftN(s, n).animIndex == Cursor(s.animIndex, n)
    decreases n
  {
    if n > 0 {
      ShiftFollowsCursor(Shift(s), n - 1);
    }
  }

  lemma {:induction false} CursorIsSum(i: int, n: nat)
    requires 0 <= i < 4
    ensures Cursor(i, n) == (i + n) % 4
    decreases n
  {
    if n > 0 {
      CursorIsSum((i + 1) % 4, n - 1);
    }
  }

  /** The shipped playlist visits hue rotation, strobe, white fade and colour
      array in turn and comes back to the hue rotation after four rotations. */
  lemma PlaylistOrder(t0: int, at0: int, e: int)
    ensures var s := Setup(t0, at0, e);
            && ShiftN(s, 1).Active().Strobe?
            && ShiftN(s, 2).Active().WhiteFade?
            && ShiftN(s, 3).Active().ColorArray?
            && ShiftN(s, 4).Active().HueRotation?
            && ShiftN(s, 4).animIndex == 0
  {
  }

  /** Start-up: the hue rotation is active and `COLORS` is blue; when the
      rotation timer fires first (no frame due), the strobe becomes active and
      `COLORS` becomes black. The pins follow only at the next frame. */
  lemma FirstRotation(t0: int, at0: int, e: int, now: int, draw: int)
    requires 0 <= draw < PaletteSize
    requires now - at0 >= ShiftPeriodUs && now - t0 < FramePeriodUs
    ensures var s := Setup(t0, at0, e);
            var r := Loop(s, now, draw);
            && s.colors == Rgb(0, 0, 255)
            && r.animIndex == 1 && r.Active().Strobe? && !r.Active().on
            && r.colors == Rgb(0, 0, 0)
  {
  }
}
