/** The poll-and-carry timer the main loop uses twice: once against the frame
    period and once against the playlist rotation period. Each poll reads the
    clock, and if at least one period has passed since the reference time it
    fires and moves the reference. */
module Timer {

  /** What one poll does: nothing, or fire with the elapsed time `dt` handed
      to the action and `next` as the new reference time. */
  datatype Outcome = Idle | Fired(dt: int, next: int)

  /** The new reference time after a poll. */
  function NextRef(ref: int, o: Outcome): int
  {
    if o.Fired? then o.next else ref
  }

  /** The timer as the sketch writes it: on firing, the new reference is
      `now + (dt - period)`, that is the poll time plus the overshoot. */
  function Poll(ref: int, now: int, period: int): (o: Outcome)
    ensures o.Fired? <==> now - ref >= period
    ensures o.Fired? ==> o.dt == now - ref
    // the reference lands at or after the poll time, one overshoot later
    ensures o.Fired? ==> o.next >= now && o.next - now == o.dt - period
    // measured from where the reference should be, the overshoot counts twice
    ensures o.Fired? ==> o.next == (ref + period) + 2 * (o.dt - period)
  {
    var dt := now - ref;
    if dt >= period then Fired(dt, now + (dt - period)) else Idle
  }

  /** The carry-forward timer the `dt - period` term evidently aims at: on
      firing, the new reference is exactly one period after the old one, so
      the overshoot is carried into the next interval instead of being added
      to it. */
  function PollCarry(ref: int, now: int, period: int): (o: Outcome)
    ensures o.Fired? <==> now - ref >= period
    ensures o.Fired? ==> o.dt == now - ref
    ensures o.Fired? ==> o.next == ref + period && o.next <= now
    ensures o.Fired? ==> now - o.next == o.dt - period
  {
    var dt := now - ref;
    if dt >= period then Fired(dt, now - (dt - period)) else Idle
  }

  /** One poll of either timer. */
  function PollWith(carry: bool, ref: int, now: int, period: int): Outcome
  {
    if carry then PollCarry(ref, now, period) else Poll(ref, now, period)
  }

  /** Bookkeeping of a run of polls: the final reference time, how often
      the timer fired, and the sum of the overshoots `dt - period` at the
      firings. */
  datatype Run = Run(ref: int, fires: nat, overshoot: int)

  /** Polls the timer at each of the clock readings `nows` in turn. */
  function RunPolls(carry: bool, ref: int, nows: seq<int>, period: int): Run
    decreases |nows|
  {
    if |nows| == 0 then Run(ref, 0, 0)
    else
      var o := PollWith(carry, ref, nows[0], period);
      var rest := RunPolls(carry, NextRef(ref, o), nows[1..], period);
      if o.Fired? then Run(rest.ref, rest.fires + 1, rest.overshoot + (o.dt - period))
      else rest
  }

  /** As written, every overshoot is added twice to the schedule: after `k`
      firings the reference is `k` periods plus twice the total overshoot past
      the start, so the timer falls further behind at every late poll. */
  lemma {:induction false} PollDrift(ref: int, nows: seq<int>, period: int)
    ensures var r := RunPolls(false, ref, nows, period);
            && r.overshoot >= 0
            && r.ref == ref + r.fires * period + 2 * r.overshoot
    decreases |nows|
  {
    if |nows| > 0 {
      var o := Poll(ref, nows[0], period);
      PollDrift(NextRef(ref, o), nows[1..], period);
    }
  }

  /** With the carry-forward timer the reference after `k` firings is exactly
      `k` periods past the start, whatever the poll times: no drift. */
  lemma {:induction false} PollCarryNoDrift(ref: int, nows: seq<int>, period: int)
    ensures var r := RunPolls(true, ref, nows, period);
            r.ref == ref + r.fires * period
    decreases |nows|
  {
    if |nows| > 0 {
      var o := PollCarry(ref, nows[0], period);
      PollCarryNoDrift(NextRef(ref, o), nows[1..], period);
    }
  }

  /** A concrete late frame at the sketch's 16666 us period: firing 3334 us
      late at 20000 moves the reference to 23334 rather than 16666, so a poll
      at 36000 (more than a period after the intended 16666) does not fire,
      while the carry-forward timer does. */
  lemma LateFrameDelaysNext()
    ensures Poll(0, 20000, 16666) == Fired(20000, 23334)
    ensures Poll(23334, 36000, 16666).Idle?
    ensures PollCarry(0, 20000, 16666) == Fired(20000, 16666)
    ensures PollCarry(16666, 36000, 16666).Fired?
  {
  }
}
