/** The squat counter object: its state fields, the smoothing window it
    updates in place, and one frame of the processing loop. */
module Counter {
  import opened Options
  import opened Medians
  import opened Smoothing
  import opened Pose
  import opened Reps

  /** What a frame reports: the status the processing loop publishes,
      without its text formatting. */
  datatype Label = PhaseLabel(phase: Phase) | CountedLabel
  datatype Status = NoPerson | InvalidPosition | Ready | Report(angle: real, tag: Label)

  /** One camera frame as the pose detector sees it: no person, or the
      landmarks together with each leg's knee angle (none stands for an
      angle that could not be computed; the source always computes both). */
  datatype Frame =
    | NoPose
    | Detected(landmarks: seq<Landmark>, leftAngle: Option<real>, rightAngle: Option<real>)

  /** The label of the status for a frame whose smoothed angle moved the
      machine from m to n. */
  function LabelFor(m: Machine, n: Machine): Label {
    if n.counter != m.counter then CountedLabel
    else if m.phase == Up && n.phase == Down then PhaseLabel(Down)
    else PhaseLabel(m.phase)
  }

  class SquatCounter {
    var counter: nat
    var state: Phase
    var lastRepTime: real
    var history: seq<real>
    /** Every angle fed to the window since the last reset, oldest first. */
    ghost var received: seq<real>

    /** The window holds the most recent HistorySize angles received; the
        bound on its length follows, and is kept so callers see it directly. */
    ghost predicate Valid()
      reads this
    {
      |history| <= HistorySize && history == LastN(received, HistorySize)
    }

    /** The fields the state machine works on. */
    function Current(): Machine
      reads this
    {
      Machine(counter, state, lastRepTime)
    }

    constructor ()
      ensures Valid()
      ensures Current() == Start && history == [] && received == []
    {
      counter := 0;
      state := Up;
      lastRepTime := 0.0;
      history := [];
      received := [];
    }

    /** Reset done when processing starts. */
    method Reset()
      modifies this
      ensures Valid()
      ensures Current() == Start && history == [] && received == []
    {
      counter := 0;
      state := Up;
      lastRepTime := 0.0;
      history := [];
      received := [];
    }

    /** Feed one angle to the window and return the window's median; an
        absent angle changes nothing and gives no value. */
    method SmoothedAngle(newAngle: Option<real>) returns (smoothed: Option<real>)
      requires Valid()
      modifies this
      ensures Valid()
      ensures Current() == old(Current())
      ensures newAngle.None? ==> smoothed.None? && unchanged(this)
      ensures newAngle.Some? ==>
        received == old(received) + [newAngle.value] &&
        history == Push(old(history), newAngle.value) &&
        smoothed == Some(Median(history))
    {
      if newAngle.None? {
        return None;
      }
      PushKeepsLatest(received, newAngle.value);
      received := received + [newAngle.value];
      history := history + [newAngle.value];
      if |history| > HistorySize {
        history := history[1..];
      }
      smoothed := Some(Median(history));
    }

    /** One step of the rep state machine for the frame's combined knee
        angle, seen at time now. */
    method Step(angle: Option<real>, now: real) returns (status: Status)
      requires Valid()
      modifies this
      ensures Valid()
      ensures angle.None? ==> status == Ready && unchanged(this)
      ensures angle.Some? ==>
        received == old(received) + [angle.value] &&
        history == Push(old(history), angle.value) &&
        Current() == Next(old(Current()), Median(history), now) &&
        status == Report(Median(history), LabelFor(old(Current()), Current()))
    {
      var smoothed := SmoothedAngle(angle);
      status := Ready;
      if smoothed.Some? {
        var a := smoothed.value;
        status := Report(a, PhaseLabel(state));
        var sinceLastRep := now - lastRepTime;
        if state == Up && a < SquatDownAngle {
          state := Down;
          status := Report(a, PhaseLabel(Down));
        } else if state == Down && a > SquatUpAngle {
          if sinceLastRep > MinRepInterval {
            counter := counter + 1;
            lastRepTime := now;
            status := Report(a, CountedLabel);
          }
          state := Up;
        }
      }
    }

    /** One iteration of the processing loop for a detected frame: only a
        vertical body reaches the state machine. */
    method ProcessFrame(frame: Frame, now: real) returns (status: Status)
      requires Valid()
      requires frame.Detected? ==> HasKeyPoints(frame.landmarks)
      modifies this
      ensures Valid()
      ensures frame.NoPose? ==> status == NoPerson && unchanged(this)
      ensures frame.Detected? && BodyOrientation(frame.landmarks) == Invalid ==>
        status == InvalidPosition && unchanged(this)
      ensures frame.Detected? && BodyOrientation(frame.landmarks) == Vertical ==>
        var angle := CombineLegs(frame.leftAngle, frame.rightAngle);
        (angle.None? ==> status == Ready && unchanged(this)) &&
        (angle.Some? ==>
          received == old(received) + [angle.value] &&
          history == Push(old(history), angle.value) &&
          Current() == Next(old(Current()), Median(history), now) &&
          status == Report(Median(history), LabelFor(old(Current()), Current())))
    {
      if frame.NoPose? {
        return NoPerson;
      }
      if BodyOrientation(frame.landmarks) != Vertical {
        return InvalidPosition;
      }
      var angle := CombineLegs(frame.leftAngle, frame.rightAngle);
      status := Step(angle, now);
    }
  }
}
