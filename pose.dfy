/** Pose landmarks and the check that the body is upright enough to count
    squats. */
module Pose {

  /** One pose landmark: normalised image coordinates (y grows downwards)
      and the detector's visibility score. */
  datatype Landmark = Landmark(x: real, y: real, visibility: real)

  /** Indices of the landmarks used, in the pose model's numbering. */
  const LeftShoulder: nat := 11
  const RightShoulder: nat := 12
  const LeftHip: nat := 23
  const RightHip: nat := 24
  const LeftKnee: nat := 25
  const RightKnee: nat := 26
  const LeftAnkle: nat := 27
  const RightAnkle: nat := 28

  /** The eight landmarks that must all be visible, in the order checked. */
  const KeyPoints: seq<nat> :=
    [LeftShoulder, LeftHip, LeftKnee, LeftAnkle,
     RightShoulder, RightHip, RightKnee, RightAnkle]

  /** Minimum visibility score of a key landmark (`min_visibility`). */
  const MinVisibility: real := 0.5

  /** How far the mean hip must lie below the mean shoulder. */
  const VerticalMargin: real := 0.1

  datatype Orientation = Vertical | Invalid

  predicate Visible(l: Landmark) {
    l.visibility >= MinVisibility
  }

  /** A landmark list that holds every landmark the check reads. */
  predicate HasKeyPoints(lm: seq<Landmark>) {
    RightAnkle < |lm|
  }

  /** The guard loop over the key points: false as soon as one of them is
      below the visibility threshold. */
  function AllVisible(lm: seq<Landmark>, points: seq<nat>): (ok: bool)
    requires forall i :: 0 <= i < |points| ==> points[i] < |lm|
    ensures ok <==> forall i :: 0 <= i < |points| ==> Visible(lm[points[i]])
  {
    if points == [] then true
    else if lm[points[0]].visibility < MinVisibility then false
    else
      assert forall i :: 1 <= i < |points| ==> points[i] == points[1..][i - 1];
      AllVisible(lm, points[1..])
  }

  function MeanY(a: Landmark, b: Landmark): real {
    (a.y + b.y) / 2.0
  }

  /** The orientation of the body: Vertical exactly when all eight key
      landmarks are visible and the mean hip is more than VerticalMargin
      below the mean shoulder; any landmark under the visibility threshold
      makes it Invalid whatever the coordinates. */
  function BodyOrientation(lm: seq<Landmark>): (o: Orientation)
    requires HasKeyPoints(lm)
    ensures o == Vertical <==>
      (forall i :: 0 <= i < |KeyPoints| ==> Visible(lm[KeyPoints[i]])) &&
      MeanY(lm[LeftHip], lm[RightHip]) - MeanY(lm[LeftShoulder], lm[RightShoulder]) > VerticalMargin
    ensures (exists i :: 0 <= i < |KeyPoints| && !Visible(lm[KeyPoints[i]])) ==> o == Invalid
  {
    if !AllVisible(lm, KeyPoints) then Invalid
    else
      var shoulderY := MeanY(lm[LeftShoulder], lm[RightShoulder]);
      var hipY := MeanY(lm[LeftHip], lm[RightHip]);
      if hipY - shoulderY > VerticalMargin then Vertical else Invalid
  }

  /** Only the eight key landmarks matter: two landmark lists that agree on
      them give the same orientation, whatever the other landmarks hold. */
  lemma OrientationUsesKeyPointsOnly(lm: seq<Landmark>, other: seq<Landmark>)
    requires HasKeyPoints(lm) && HasKeyPoints(other)
    requires forall i :: 0 <= i < |KeyPoints| ==> lm[KeyPoints[i]] == other[KeyPoints[i]]
    ensures BodyOrientation(lm) == BodyOrientation(other)
  {
    assert KeyPoints[0] == LeftShoulder && KeyPoints[4] == RightShoulder;
    assert KeyPoints[1] == LeftHip && KeyPoints[5] == RightHip;
  }
}
