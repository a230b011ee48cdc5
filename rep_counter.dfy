/** The rep state machine: the `state`, `counter` and `feedback` variables the
    frame loop updates once per frame, the no-body reset, and the loop itself. */
module RepCounter {
  import opened Geometry
  import opened Feedback
  import opened Landmarks

  /** The four values the `state` variable takes: 'get_ready', 'ready', 'up', 'down'. */
  datatype Phase = GetReady | Ready | Up | Down

  /** What the pose model delivers for one frame: the ten landmarks, or nothing. */
  datatype Frame = Detected(landmarks: LandmarkSet) | NotDetected

  /** The variables that live across frames. */
  datatype TrainerState = TrainerState(phase: Phase, counter: nat, feedback: string)

  const Initial: TrainerState := TrainerState(GetReady, 0, "")

  const ReadyBackAngleMin: real := 145.0
  const ReadyElbowAngleMin: real := 155.0
  const DownElbowAngleMax: real := 90.0
  const UpElbowAngleMin: real := 155.0

  /** The plank test that lets the machine leave 'get_ready'. */
  predicate InPlank(f: Features)
  {
    f.visible && f.backAngle > ReadyBackAngleMin && f.elbowAngle > ReadyElbowAngleMin
  }

  /** The if/elif chain run on a detected frame. It has no branch for 'ready',
      so in that phase nothing changes. */
  function Transition(s: TrainerState, f: Features): TrainerState
  {
    match s.phase
    case GetReady =>
      if InPlank(f) then s.(phase := Ready, feedback := f.form)
      else s.(feedback := GetIntoPlank)
    case Up =>
      if f.elbowAngle < DownElbowAngleMax then s.(phase := Down, feedback := f.form)
      else s.(feedback := f.form)
    case Down =>
      if f.elbowAngle > UpElbowAngleMin then TrainerState(Ready, s.counter + 1, RepCounted)
      else s.(feedback := f.form)
    case Ready => s
  }

  /** One iteration of the frame loop: the detected branch, or the reset that the
      exception handler performs when no body was found. */
  function Next(s: TrainerState, frame: Frame, atan2: Bearing): TrainerState
  {
    match frame
    case NotDetected => s.(phase := GetReady, feedback := NoBodyDetected)
    case Detected(lms) => Transition(s, Extract(lms, atan2))
  }

  /** The state after the loop has processed `frames` in order. */
  function RunFrames(s: TrainerState, frames: seq<Frame>, atan2: Bearing): TrainerState
    decreases |frames|
  {
    if frames == [] then s else RunFrames(Next(s, frames[0], atan2), frames[1..], atan2)
  }

  /** The trainer's loop variables, updated in place once per frame. */
  class Trainer {
    var state: Phase
    var counter: nat
    var feedback: string

    function Snapshot(): TrainerState
      reads this
    {
      TrainerState(state, counter, feedback)
    }

    constructor ()
      ensures Snapshot() == Initial
    {
      counter := 0;
      state := GetReady;
      feedback := "";
    }

    /** Processes one frame. */
    method Step(frame: Frame, atan2: Bearing)
      modifies this
      ensures Snapshot() == Next(old(Snapshot()), frame, atan2)
    {
      match frame {
        case NotDetected =>
          state := GetReady;
          feedback := NoBodyDetected;
        case Detected(lms) =>
          var isBodyVisible := BodyVisible(lms);
          var avgElbowAngle := AvgElbowAngle(lms, atan2);
          var avgBackAngle := AvgBackAngle(lms, atan2);
          var formFeedback := FormFeedback(lms, atan2);
          if state == GetReady {
            if isBodyVisible && avgBackAngle > ReadyBackAngleMin && avgElbowAngle > ReadyElbowAngleMin {
              state := Ready;
              feedback := formFeedback;
            } else {
              feedback := GetIntoPlank;
            }
          } else if state == Up {
            feedback := formFeedback;
            if avgElbowAngle < DownElbowAngleMax {
              state := Down;
            }
          } else if state == Down {
            feedback := formFeedback;
            if avgElbowAngle > UpElbowAngleMin {
              counter := counter + 1;
              state := Ready;
              feedback := RepCounted;
            }
          }
      }
    }

    /** The frame loop, over the frames the camera delivers before it stops. */
    method ProcessFrames(frames: seq<Frame>, atan2: Bearing)
      modifies this
      ensures Snapshot() == RunFrames(old(Snapshot()), frames, atan2)
    {
      var i := 0;
      while i < |frames|
        invariant 0 <= i <= |frames|
        invariant RunFrames(Snapshot(), frames[i..], atan2) == RunFrames(old(Snapshot()), frames, atan2)
      {
        assert frames[i..][1..] == frames[i + 1..];
        Step(frames[i], atan2);
        i := i + 1;
      }
    }
  }

  // ----- one frame -----

  /** A frame without a body, from any phase, resets to 'get_ready' with the
      counter kept and "NO BODY DETECTED" shown. */
  lemma NoDetectionReset(s: TrainerState, atan2: Bearing)
    ensures Next(s, NotDetected, atan2) == TrainerState(GetReady, s.counter, NoBodyDetected)
  {
  }

  /** On a detected frame in 'ready' nothing changes: state, counter and feedback
      are all left as they were. */
  lemma ReadyIsInert(s: TrainerState, lms: LandmarkSet, atan2: Bearing)
    requires s.phase == Ready
    ensures Next(s, Detected(lms), atan2) == s
  {
  }

  /** Leaving 'get_ready': the machine moves to 'ready' with the form verdict
      exactly when the body is visible, the back angle is above 145 and the elbow
      angle above 155; otherwise it stays and asks for the plank. */
  lemma GetReadyStep(s: TrainerState, lms: LandmarkSet, atan2: Bearing)
    requires s.phase == GetReady
    ensures var t := Next(s, Detected(lms), atan2);
      && t.counter == s.counter
      && (t.phase == Ready <==>
            BodyVisible(lms) && AvgBackAngle(lms, atan2) > 145.0 && AvgElbowAngle(lms, atan2) > 155.0)
      && (t.phase == Ready ==> t.feedback == FormFeedback(lms, atan2))
      && (t.phase != Ready ==> t.phase == GetReady && t.feedback == GetIntoPlank)
  {
  }

  /** One gated landmark at or below the threshold keeps the machine in
      'get_ready', whatever the angles. */
  lemma VisibilityGate(s: TrainerState, lms: LandmarkSet, atan2: Bearing)
    requires s.phase == GetReady
    requires lms.leftShoulder.visibility <= 0.8 || lms.leftElbow.visibility <= 0.8 || lms.leftHip.visibility <= 0.8
          || lms.rightShoulder.visibility <= 0.8 || lms.rightElbow.visibility <= 0.8 || lms.rightHip.visibility <= 0.8
    ensures Next(s, Detected(lms), atan2) == s.(feedback := GetIntoPlank)
  {
    BodyVisibleIff(lms);
  }

  /** In 'up' the feedback is the form verdict and the machine goes down exactly
      when the elbow angle drops below 90. */
  lemma UpStep(s: TrainerState, lms: LandmarkSet, atan2: Bearing)
    requires s.phase == Up
    ensures var t := Next(s, Detected(lms), atan2);
      && t.counter == s.counter && t.feedback == FormFeedback(lms, atan2)
      && t.phase == (if AvgElbowAngle(lms, atan2) < 90.0 then Down else Up)
  {
  }

  /** In 'down' a rep is counted exactly when the elbow angle rises above 155;
      otherwise the feedback is the form verdict and the phase stays. */
  lemma DownStep(s: TrainerState, lms: LandmarkSet, atan2: Bearing)
    requires s.phase == Down
    ensures var t := Next(s, Detected(lms), atan2);
      if AvgElbowAngle(lms, atan2) > 155.0 then t == TrainerState(Ready, s.counter + 1, RepCounted)
      else t == s.(feedback := FormFeedback(lms, atan2))
  {
  }

  /** The counter never decreases, and it moves only on a detected frame in
      'down' whose elbow angle is above 155, and then by exactly one. */
  lemma CounterStep(s: TrainerState, frame: Frame, atan2: Bearing)
    ensures var t := Next(s, frame, atan2);
      && s.counter <= t.counter <= s.counter + 1
      && (t.counter != s.counter <==>
            frame.Detected? && s.phase == Down && AvgElbowAngle(frame.landmarks, atan2) > 155.0)
      && (t.counter != s.counter ==> t.phase == Ready && t.feedback == RepCounted)
  {
  }

  /** The feedback variable only ever holds one of the six known strings. */
  lemma FeedbackStaysProduced(s: TrainerState, frame: Frame, atan2: Bearing)
    requires Produced(s.feedback)
    ensures Produced(Next(s, frame, atan2).feedback)
  {
    match frame
    case NotDetected =>
    case Detected(lms) =>
      var f := Extract(lms, atan2);
      assert f.form == GoodForm || f.form == TuckElbows;
      var t := Transition(s, f);
      assert t.feedback in {s.feedback, f.form, GetIntoPlank, RepCounted};
  }

  // ----- many frames -----

  /** Over any run the counter never decreases and rises at most once per frame. */
  lemma {:induction false} RunCounterMonotone(s: TrainerState, frames: seq<Frame>, atan2: Bearing)
    ensures s.counter <= RunFrames(s, frames, atan2).counter <= s.counter + |frames|
    decreases |frames|
  {
    if frames != [] {
      CounterStep(s, frames[0], atan2);
      RunCounterMonotone(Next(s, frames[0], atan2), frames[1..], atan2);
    }
  }

  /** 'get_ready' and 'ready' are closed under every frame: no detected frame
      leads out of them to 'up' or 'down', and a missing body leads back to
      'get_ready'. So a machine in either never counts again. */
  lemma {:induction false} StuckBeforeUp(s: TrainerState, frames: seq<Frame>, atan2: Bearing)
    requires s.phase == GetReady || s.phase == Ready
    ensures var t := RunFrames(s, frames, atan2);
      && (t.phase == GetReady || t.phase == Ready)
      && t.counter == s.counter
      && (s.feedback != RepCounted ==> t.feedback != RepCounted)
    decreases |frames|
  {
    if frames != [] {
      var s' := Next(s, frames[0], atan2);
      assert s.feedback != RepCounted ==> s'.feedback != RepCounted by {
        DistinctMessages();
      }
      StuckBeforeUp(s', frames[1..], atan2);
    }
  }

  /** From the start of a session the counter stays 0 forever, the machine only
      ever sits in 'get_ready' or 'ready', and "REP COUNTED!" is never shown. */
  lemma SessionNeverCounts(frames: seq<Frame>, atan2: Bearing)
    ensures var t := RunFrames(Initial, frames, atan2);
      && (t.phase == GetReady || t.phase == Ready)
      && t.counter == 0
      && t.feedback != RepCounted
  {
    StuckBeforeUp(Initial, frames, atan2);
    DistinctMessages();
  }

  // ----- the evidently intended machine -----

  /** The transition with 'ready' read as 'up' at the two places that enter it
      (after the plank test and after a counted rep). */
  function CorrectedTransition(s: TrainerState, f: Features): TrainerState
  {
    match s.phase
    case GetReady =>
      if InPlank(f) then s.(phase := Up, feedback := f.form)
      else s.(feedback := GetIntoPlank)
    case Up =>
      if f.elbowAngle < DownElbowAngleMax then s.(phase := Down, feedback := f.form)
      else s.(feedback := f.form)
    case Down =>
      if f.elbowAngle > UpElbowAngleMin then TrainerState(Up, s.counter + 1, RepCounted)
      else s.(feedback := f.form)
    case Ready => s
  }

  /** In the corrected machine every descent below 90 followed by an extension
      above 155 counts one rep and leaves the machine ready for the next. */
  lemma CorrectedRepCycle(s: TrainerState, bent: Features, extended: Features)
    requires s.phase == Up
    requires bent.elbowAngle < 90.0 && extended.elbowAngle > 155.0
    ensures CorrectedTransition(CorrectedTransition(s, bent), extended)
      == TrainerState(Up, s.counter + 1, RepCounted)
  {
  }

  /** The corrected machine keeps the counter invariant of the original: it never
      decreases and rises only from 'down', by one. */
  lemma CorrectedCounterStep(s: TrainerState, f: Features)
    ensures var t := CorrectedTransition(s, f);
      && s.counter <= t.counter <= s.counter + 1
      && (t.counter != s.counter <==> s.phase == Down && f.elbowAngle > 155.0)
  {
  }

  /** A plank frame, a bent-arm frame and an extended-arm frame. */
  const PlankFrame: Features := Features(true, 160.0, 150.0, GoodForm)
  const BentFrame: Features := Features(true, 80.0, 150.0, GoodForm)

  /** As written: a full push-up from the start of a session is not counted; the
      machine is left in 'ready'. */
  lemma AsWrittenMissesRep()
    ensures Transition(Transition(Transition(Initial, PlankFrame), BentFrame), PlankFrame)
      == TrainerState(Ready, 0, GoodForm)
  {
  }

  /** Corrected: the same three frames count one rep. */
  lemma CorrectedCountsRep()
    ensures CorrectedTransition(CorrectedTransition(CorrectedTransition(Initial, PlankFrame), BentFrame), PlankFrame)
      == TrainerState(Up, 1, RepCounted)
  {
    CorrectedRepCycle(CorrectedTransition(Initial, PlankFrame), BentFrame, PlankFrame);
  }
}
