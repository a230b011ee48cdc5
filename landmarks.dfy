/** Per-frame feature extraction: the visibility gate over six key landmarks,
    the bilateral elbow and back angles, and the elbow-tuck form verdict. */
module Landmarks {
  import opened Geometry
  import opened Feedback

  /** One pose landmark: normalised image coordinates and the pose model's
      confidence that the point is present. */
  datatype Landmark = Landmark(x: real, y: real, visibility: real)

  /** The ten landmarks the trainer reads from the pose model's output. */
  datatype LandmarkSet = LandmarkSet(
    leftShoulder: Landmark, leftElbow: Landmark, leftWrist: Landmark, leftHip: Landmark, leftAnkle: Landmark,
    rightShoulder: Landmark, rightElbow: Landmark, rightWrist: Landmark, rightHip: Landmark, rightAnkle: Landmark)

  /** What one detected frame contributes to the state machine. */
  datatype Features = Features(visible: bool, elbowAngle: real, backAngle: real, form: string)

  const VisibilityThreshold: real := 0.8
  const TuckAngleMax: real := 65.0

  function Pos(lm: Landmark): Point
  {
    Point(lm.x, lm.y)
  }

  /** The landmarks whose visibility gates the body, in the order the source lists them. */
  function Gated(lms: LandmarkSet): seq<Landmark>
  {
    [lms.leftShoulder, lms.leftElbow, lms.leftHip, lms.rightShoulder, lms.rightElbow, lms.rightHip]
  }

  /** `all(lm.visibility > threshold for lm in landmarks)`. */
  function AllVisible(landmarks: seq<Landmark>, threshold: real): (r: bool)
    ensures r <==> forall i :: 0 <= i < |landmarks| ==> landmarks[i].visibility > threshold
  {
    if landmarks == [] then true
    else landmarks[0].visibility > threshold && AllVisible(landmarks[1..], threshold)
  }

  function BodyVisible(lms: LandmarkSet): bool
  {
    AllVisible(Gated(lms), VisibilityThreshold)
  }

  /** The body counts as visible exactly when all six of the shoulders, elbows and
      hips are strictly above the threshold. */
  lemma BodyVisibleIff(lms: LandmarkSet)
    ensures BodyVisible(lms) <==>
      && lms.leftShoulder.visibility > 0.8 && lms.leftElbow.visibility > 0.8 && lms.leftHip.visibility > 0.8
      && lms.rightShoulder.visibility > 0.8 && lms.rightElbow.visibility > 0.8 && lms.rightHip.visibility > 0.8
  {
    var g := Gated(lms);
    assert g[0] == lms.leftShoulder && g[1] == lms.leftElbow && g[2] == lms.leftHip;
    assert g[3] == lms.rightShoulder && g[4] == lms.rightElbow && g[5] == lms.rightHip;
  }

  /** Wrist and ankle visibility is never consulted: any change to it leaves the
      gate as it was. */
  lemma WristAnkleNotGated(lms: LandmarkSet, lw: real, la: real, rw: real, ra: real)
    ensures BodyVisible(lms) == BodyVisible(lms.(
      leftWrist := lms.leftWrist.(visibility := lw), leftAnkle := lms.leftAnkle.(visibility := la),
      rightWrist := lms.rightWrist.(visibility := rw), rightAnkle := lms.rightAnkle.(visibility := ra)))
  {
    var other := lms.(
      leftWrist := lms.leftWrist.(visibility := lw), leftAnkle := lms.leftAnkle.(visibility := la),
      rightWrist := lms.rightWrist.(visibility := rw), rightAnkle := lms.rightAnkle.(visibility := ra));
    assert Gated(other) == Gated(lms);
  }

  /** Average of the left and right shoulder-elbow-wrist angles. */
  function AvgElbowAngle(lms: LandmarkSet, atan2: Bearing): (r: real)
    ensures 0.0 <= r <= 180.0
  {
    (Angle(Pos(lms.leftShoulder), Pos(lms.leftElbow), Pos(lms.leftWrist), atan2)
      + Angle(Pos(lms.rightShoulder), Pos(lms.rightElbow), Pos(lms.rightWrist), atan2)) / 2.0
  }

  /** Average of the left and right shoulder-hip-ankle angles. */
  function AvgBackAngle(lms: LandmarkSet, atan2: Bearing): (r: real)
    ensures 0.0 <= r <= 180.0
  {
    (Angle(Pos(lms.leftShoulder), Pos(lms.leftHip), Pos(lms.leftAnkle), atan2)
      + Angle(Pos(lms.rightShoulder), Pos(lms.rightHip), Pos(lms.rightAnkle), atan2)) / 2.0
  }

  /** The hip-shoulder-elbow angle of one side. */
  function LeftTuckAngle(lms: LandmarkSet, atan2: Bearing): real
  {
    Angle(Pos(lms.leftHip), Pos(lms.leftShoulder), Pos(lms.leftElbow), atan2)
  }

  function RightTuckAngle(lms: LandmarkSet, atan2: Bearing): real
  {
    Angle(Pos(lms.rightHip), Pos(lms.rightShoulder), Pos(lms.rightElbow), atan2)
  }

  /** "GOOD FORM", overridden by "TUCK ELBOWS" when either side flares. */
  function FormFeedback(lms: LandmarkSet, atan2: Bearing): string
  {
    if LeftTuckAngle(lms, atan2) > TuckAngleMax || RightTuckAngle(lms, atan2) > TuckAngleMax
    then TuckElbows else GoodForm
  }

  /** The form verdict is "TUCK ELBOWS" exactly when one side's tuck angle is above
      65 degrees, and "GOOD FORM" exactly when neither is; nothing else is produced. */
  lemma FormFeedbackIff(lms: LandmarkSet, atan2: Bearing)
    ensures FormFeedback(lms, atan2) == TuckElbows <==>
      LeftTuckAngle(lms, atan2) > 65.0 || RightTuckAngle(lms, atan2) > 65.0
    ensures FormFeedback(lms, atan2) == GoodForm <==>
      LeftTuckAngle(lms, atan2) <= 65.0 && RightTuckAngle(lms, atan2) <= 65.0
  {
    DistinctMessages();
  }

  /** The features of one detected frame (pushup_trainer.py:67-78). */
  function Extract(lms: LandmarkSet, atan2: Bearing): (f: Features)
    ensures 0.0 <= f.elbowAngle <= 180.0 && 0.0 <= f.backAngle <= 180.0
    ensures f.form == GoodForm || f.form == TuckElbows
  {
    Features(BodyVisible(lms), AvgElbowAngle(lms, atan2), AvgBackAngle(lms, atan2), FormFeedback(lms, atan2))
  }
}
