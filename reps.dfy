/** The per-frame squat repetition logic: combining the two legs' knee
    angles and the two-phase state machine with hysteresis. */
module Reps {
  import opened Options

  /** Smoothed angle below which the squat is "down" (`squat_down_angle`). */
  const SquatDownAngle: real := 110.0
  /** Smoothed angle above which the squat is "up" (`squat_up_angle`). */
  const SquatUpAngle: real := 160.0
  /** Seconds that must pass between two counted reps. */
  const MinRepInterval: real := 1.0

  /** The two states of the machine ("up" and "down" in the source). */
  datatype Phase = Up | Down

  /** The fields of the counter the state machine reads and writes. */
  datatype Machine = Machine(counter: nat, phase: Phase, lastRepTime: real)

  /** The state after a reset: no reps, standing, no rep yet. */
  const Start: Machine := Machine(0, Up, 0.0)

  /** One knee angle for the frame: the mean of both legs when both are
      known, the one known leg otherwise, and none when neither is. */
  function CombineLegs(left: Option<real>, right: Option<real>): (a: Option<real>)
    ensures a.None? <==> left.None? && right.None?
    ensures left.Some? && right.Some? ==>
      a.value - left.value == right.value - a.value
    ensures left.Some? && right.None? ==> a == left
    ensures left.None? && right.Some? ==> a == right
  {
    if left.Some? && right.Some? then Some((left.value + right.value) / 2.0)
    else if left.Some? then left
    else if right.Some? then right
    else None
  }

  /** The combined angle lies between the two legs' angles and does not
      depend on which leg is called left. */
  lemma CombineLegsBetween(left: real, right: real)
    ensures CombineLegs(Some(left), Some(right)) == CombineLegs(Some(right), Some(left))
    ensures var a := CombineLegs(Some(left), Some(right)).value;
      (left <= a <= right) || (right <= a <= left)
  {
  }

  /** One step of the state machine for a smoothed angle seen at time now. */
  function Next(m: Machine, angle: real, now: real): (n: Machine)
    // the counter never falls and rises by at most one
    ensures n.counter == m.counter || n.counter == m.counter + 1
    // it rises exactly on a down-to-up move more than MinRepInterval after the last rep
    ensures n.counter == m.counter + 1 <==>
      m.phase == Down && angle > SquatUpAngle && now - m.lastRepTime > MinRepInterval
    // the time of the last rep changes exactly when a rep is counted, and becomes now
    ensures n.lastRepTime != m.lastRepTime <==> n.counter != m.counter
    ensures n.counter != m.counter ==> n.lastRepTime == now
    // going down needs an angle under SquatDownAngle ...
    ensures m.phase == Up ==> (n.phase == Down <==> angle < SquatDownAngle)
    // ... and coming up an angle over SquatUpAngle
    ensures m.phase == Down ==> (n.phase == Up <==> angle > SquatUpAngle)
    // angles inside the hysteresis band change nothing
    ensures SquatDownAngle <= angle <= SquatUpAngle ==> n == m
    // coming up too soon after the last rep returns to Up and loses that descent
    ensures m.phase == Down && angle > SquatUpAngle && now - m.lastRepTime <= MinRepInterval ==>
      n == m.(phase := Up)
  {
    if m.phase == Up && angle < SquatDownAngle then
      m.(phase := Down)
    else if m.phase == Down && angle > SquatUpAngle then
      if now - m.lastRepTime > MinRepInterval then
        Machine(m.counter + 1, Up, now)
      else
        m.(phase := Up)
    else
      m
  }

  /** One frame's input to the state machine: the smoothed angle and the
      time it was seen. */
  datatype Reading = Reading(angle: real, time: real)

  /** The machine after a sequence of readings. */
  function Run(m: Machine, rs: seq<Reading>): Machine
    decreases |rs|
  {
    if rs == [] then m else Run(Next(m, rs[0].angle, rs[0].time), rs[1..])
  }

  /** The number of up-to-down moves during a run. */
  function Descents(m: Machine, rs: seq<Reading>): nat
    decreases |rs|
  {
    if rs == [] then 0
    else
      var n := Next(m, rs[0].angle, rs[0].time);
      (if m.phase == Up && n.phase == Down then 1 else 0) + Descents(n, rs[1..])
  }

  function InDown(m: Machine): nat {
    if m.phase == Down then 1 else 0
  }

  /** Over a run the counter never falls and gains at most one per reading. */
  lemma {:induction false} RunCounterBounds(m: Machine, rs: seq<Reading>)
    ensures m.counter <= Run(m, rs).counter <= m.counter + |rs|
    decreases |rs|
  {
    if rs != [] {
      RunCounterBounds(Next(m, rs[0].angle, rs[0].time), rs[1..]);
    }
  }

  /** Every counted rep is paid for by its own descent: the reps counted
      during a run, plus one if the run ends down, never exceed the
      descents made, plus one if it started down. */
  lemma {:induction false} RepsNeedDescents(m: Machine, rs: seq<Reading>)
    ensures Run(m, rs).counter - m.counter + InDown(Run(m, rs)) <= Descents(m, rs) + InDown(m)
    decreases |rs|
  {
    if rs != [] {
      RepsNeedDescents(Next(m, rs[0].angle, rs[0].time), rs[1..]);
    }
  }

  /** Counted reps are more than MinRepInterval apart: k reps during a run
      move the time of the last rep forward by more than k intervals, and
      a run that counts nothing leaves it where it was. */
  lemma {:induction false} RepsAreSpaced(m: Machine, rs: seq<Reading>)
    ensures var e := Run(m, rs);
      e.counter >= m.counter &&
      (e.counter == m.counter ==> e.lastRepTime == m.lastRepTime) &&
      (e.counter > m.counter ==>
        e.lastRepTime - m.lastRepTime > (e.counter - m.counter) as real * MinRepInterval)
    decreases |rs|
  {
    if rs != [] {
      RepsAreSpaced(Next(m, rs[0].angle, rs[0].time), rs[1..]);
    }
  }
}
