/** The gesture side of the conductor: deciding from pose keypoints whether a
    musician raised a hand or touched their head (multimodal_equilibrium.py), the
    simpler "hand above head" test of the camera scripts, the CrowdPose landmark
    selection, and which chord quality a gesture asks for. Image coordinates grow
    downwards, so "above" means a smaller y. */
module Gestures {
  import opened Wrappers

  /** A keypoint's image coordinates. */
  datatype Point = Point(x: real, y: real)

  /** How far (in pixels) a wrist must be above the nose to count as raised. */
  const HandRaiseThreshold: real := 50.0

  /** How close (in pixels) a wrist must be to the nose to count as touching the head. */
  const HeadProximityThreshold: real := 100.0

  /** The square of the Euclidean distance between two keypoints. */
  function SquaredDistance(a: Point, b: Point): (d: real)
    ensures d >= 0.0
  {
    (a.x - b.x) * (a.x - b.x) + (a.y - b.y) * (a.y - b.y)
  }

  /** The squared distance is at least the squared vertical offset. */
  lemma SquaredDistanceCovers(a: Point, b: Point)
    ensures SquaredDistance(a, b) >= (a.y - b.y) * (a.y - b.y)
  {
    var dx := a.x - b.x;
    if dx < 0.0 {
      assert dx * dx == (-dx) * (-dx);
    }
  }

  /** A wrist is near the nose when it lies closer than the proximity threshold;
      comparing squares keeps the test exact without a square root. */
  predicate NearNose(wrist: Point, nose: Point)
  {
    SquaredDistance(wrist, nose) < HeadProximityThreshold * HeadProximityThreshold
  }

  /** What `detect_gestures` reports for one person. */
  datatype Detection = Detection(handRaised: bool, handToHead: bool)

  /** A whole-body pose puts the nose at keypoint 0 and the left and right wrists
      at keypoints 9 and 10. */
  function DetectGestures(keypoints: seq<Point>): Detection
    requires |keypoints| > 10
  {
    var nose := keypoints[0];
    var leftWrist := keypoints[9];
    var rightWrist := keypoints[10];
    Detection(
      leftWrist.y < nose.y - HandRaiseThreshold || rightWrist.y < nose.y - HandRaiseThreshold,
      NearNose(leftWrist, nose) || NearNose(rightWrist, nose))
  }

  /** The gesture a person's detection decides, if any: exactly one of the two
      gestures must be seen. */
  function Decide(d: Detection): Option<string>
  {
    if d.handRaised && !d.handToHead then Some("Hand Raised")
    else if d.handToHead && !d.handRaised then Some("Hand to Head")
    else None
  }

  /** "Hand Raised" is decided exactly when a hand is raised and neither wrist is at
      the head, "Hand to Head" exactly in the opposite case, and nothing when both
      or neither are seen. */
  lemma DecideSpec(d: Detection)
    ensures Decide(d) == Some("Hand Raised") <==> d.handRaised && !d.handToHead
    ensures Decide(d) == Some("Hand to Head") <==> d.handToHead && !d.handRaised
    ensures Decide(d) == None <==> d.handRaised == d.handToHead
  {
  }

  /** A wrist raised clear of the head (more than the proximity threshold above
      the nose) with the other wrist away from the head is a "Hand Raised". */
  lemma RaisedClearOfHead(keypoints: seq<Point>)
    requires |keypoints| > 10
    requires keypoints[9].y < keypoints[0].y - HeadProximityThreshold
    requires !NearNose(keypoints[10], keypoints[0])
    ensures Decide(DetectGestures(keypoints)) == Some("Hand Raised")
  {
    var wrist, nose := keypoints[9], keypoints[0];
    var up := nose.y - wrist.y;
    assert up * up > HeadProximityThreshold * HeadProximityThreshold by {
      assert up * up > HeadProximityThreshold * up;
    }
    SquaredDistanceCovers(wrist, nose);
    assert (wrist.y - nose.y) * (wrist.y - nose.y) == up * up;
  }

  /** The people of one frame, in order: the first one whose detection decides a
      gesture ends the search with that gesture; if none does, the frame yields
      nothing. */
  method FrameGesture(people: seq<seq<Point>>) returns (gesture: Option<string>)
    requires forall i :: 0 <= i < |people| ==> |people[i]| > 10
    ensures gesture.None? <==> forall i :: 0 <= i < |people| ==> Decide(DetectGestures(people[i])).None?
    ensures gesture.Some? ==>
      exists i :: 0 <= i < |people| && Decide(DetectGestures(people[i])) == gesture && forall j :: 0 <= j < i ==> Decide(DetectGestures(people[j])).None?
  {
    for i := 0 to |people|
      invariant forall j :: 0 <= j < i ==> Decide(DetectGestures(people[j])).None?
    {
      var detection := DetectGestures(people[i]);
      if detection.handRaised && !detection.handToHead {
        return Some("Hand Raised");
      } else if detection.handToHead && !detection.handRaised {
        return Some("Hand to Head");
      }
    }
    return None;
  }

  /** The chord quality a detected gesture asks for: a raised hand asks for major,
      anything else for minor. */
  function DesiredQuality(gesture: string): (quality: string)
    ensures quality == "Major" <==> gesture == "Hand Raised"
    ensures quality == "Minor" <==> gesture != "Hand Raised"
  {
    if gesture == "Hand Raised" then "Major" else "Minor"
  }

  /** The three landmarks the camera scripts keep for a person. */
  datatype Landmarks = Landmarks(nose: Point, leftWrist: Point, rightWrist: Point)

  /** Either wrist is strictly above the nose. */
  predicate IsHandAboveHead(person: Landmarks)
  {
    person.leftWrist.y < person.nose.y || person.rightWrist.y < person.nose.y
  }

  /** A raised hand in the sense of `detect_gestures` is a hand above the head, but
      not the other way round: a wrist only slightly above the nose is above the
      head without being raised. */
  lemma RaisedIsAboveHead(keypoints: seq<Point>)
    requires |keypoints| > 10
    ensures DetectGestures(keypoints).handRaised ==> IsHandAboveHead(Landmarks(keypoints[0], keypoints[9], keypoints[10]))
  {
  }

  lemma AboveHeadNotRaised()
    ensures var keypoints := seq(11, i => if i == 9 then Point(0.0, 90.0) else Point(0.0, 100.0));
      IsHandAboveHead(Landmarks(keypoints[0], keypoints[9], keypoints[10])) && !DetectGestures(keypoints).handRaised
  {
  }

  /** The CrowdPose layout puts the nose at keypoint 12 and the left and right wrists
      at keypoints 4 and 5. */
  function CrowdPoseLandmarks(keypoints: seq<Point>): Landmarks
    requires |keypoints| > 12
  {
    Landmarks(keypoints[12], keypoints[4], keypoints[5])
  }

  /** One landmark record per detected person, in detection order. */
  method ExtractLandmarks(poses: seq<seq<Point>>) returns (all: seq<Landmarks>)
    requires forall i :: 0 <= i < |poses| ==> |poses[i]| > 12
    ensures |all| == |poses|
    ensures forall i :: 0 <= i < |poses| ==> all[i] == CrowdPoseLandmarks(poses[i])
  {
    all := [];
    for i := 0 to |poses|
      invariant |all| == i
      invariant forall j :: 0 <= j < i ==> all[j] == CrowdPoseLandmarks(poses[j])
    {
      var keypoints := poses[i];
      var personLandmarks := Landmarks(keypoints[12], keypoints[4], keypoints[5]);
      all := all + [personLandmarks];
    }
  }

  /** A person's hand is above their head in the CrowdPose landmarks exactly when
      keypoint 4 or 5 lies above keypoint 12. */
  lemma ExtractedHandAboveHead(poses: seq<seq<Point>>, all: seq<Landmarks>, i: int)
    requires forall k :: 0 <= k < |poses| ==> |poses[k]| > 12
    requires |all| == |poses| && forall k :: 0 <= k < |poses| ==> all[k] == CrowdPoseLandmarks(poses[k])
    requires 0 <= i < |poses|
    ensures IsHandAboveHead(all[i]) <==> poses[i][4].y < poses[i][12].y || poses[i][5].y < poses[i][12].y
  {
  }

  /** The tracking camera pans toward a nose right of the middle of a 1920-pixel
      frame, and otherwise (the middle included) to the left. */
  function PanDirection(noseX: real): (direction: string)
    ensures direction == "right" <==> noseX > 960.0
    ensures direction == "left" <==> noseX <= 960.0
  {
    if noseX > 1920.0 / 2.0 then "right" else "left"
  }
}
