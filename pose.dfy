/**
 * The arm-raise test that turns one pose estimate into a yes/no signal
 * (`checkArmRaised` in script.js).
 *
 * A pose is a list of named keypoints with a confidence score and a position
 * in canvas coordinates. The origin is the top-left corner, so a wrist that is
 * HIGHER than its shoulder has the SMALLER y.
 */
module Pose {
  import opened Wrappers

  datatype Position = Position(x: real, y: real)

  /** One body landmark reported by the pose estimator. */
  datatype Keypoint = Keypoint(part: string, score: real, position: Position)

  /** The `pose` object of one estimate; its keypoint list may be absent. */
  datatype Pose = Pose(keypoints: Option<seq<Keypoint>>)

  /** One element of the estimator's result list; its `pose` may be absent. */
  datatype PoseEstimate = PoseEstimate(pose: Option<Pose>)

  datatype Side = Left | Right

  /** A keypoint below or at this score is not trusted. */
  const MinConfidence: real := 0.2

  function WristPart(side: Side): string
  {
    match side
    case Left => "leftWrist"
    case Right => "rightWrist"
  }

  function ShoulderPart(side: Side): string
  {
    match side
    case Left => "leftShoulder"
    case Right => "rightShoulder"
  }

  /** `i` is the position of the first keypoint named `part`. */
  ghost predicate IsFirstWithPart(kps: seq<Keypoint>, part: string, i: int)
  {
    0 <= i < |kps| && kps[i].part == part &&
    forall j :: 0 <= j < i ==> kps[j].part != part
  }

  /** The first keypoint named `part`, or None when there is none. */
  function FindPart(kps: seq<Keypoint>, part: string): (r: Option<Keypoint>)
    ensures r.None? <==> forall i :: 0 <= i < |kps| ==> kps[i].part != part
    ensures r.Some? ==> exists i :: IsFirstWithPart(kps, part, i) && kps[i] == r.value
  {
    if |kps| == 0 then None
    else if kps[0].part == part then
      assert IsFirstWithPart(kps, part, 0);
      Some(kps[0])
    else
      FindPart(kps[1..], part)
  }

  /**
   * One side, stated over the keypoint list: the first wrist and the first
   * shoulder of that side both exist, both scores are strictly above the
   * threshold, and the wrist is strictly higher on screen than the shoulder.
   */
  ghost predicate SideRaised(kps: seq<Keypoint>, side: Side)
  {
    exists w, s ::
      IsFirstWithPart(kps, WristPart(side), w) &&
      IsFirstWithPart(kps, ShoulderPart(side), s) &&
      kps[w].score > MinConfidence && kps[s].score > MinConfidence &&
      kps[w].position.y < kps[s].position.y
  }

  /** The test applied to one side's looked-up wrist and shoulder. */
  function SideCheck(wrist: Option<Keypoint>, shoulder: Option<Keypoint>): (raised: bool)
    ensures raised ==> wrist.Some? && shoulder.Some?
    ensures wrist.Some? && wrist.value.score <= MinConfidence ==> !raised
    ensures shoulder.Some? && shoulder.value.score <= MinConfidence ==> !raised
  {
    wrist.Some? && shoulder.Some? &&
    wrist.value.score > MinConfidence && shoulder.value.score > MinConfidence &&
    wrist.value.position.y < shoulder.value.position.y
  }

  /** Looking both keypoints up by name and testing them decides exactly `SideRaised`. */
  lemma SideCheckMeaning(kps: seq<Keypoint>, side: Side)
    ensures SideCheck(FindPart(kps, WristPart(side)), FindPart(kps, ShoulderPart(side)))
            <==> SideRaised(kps, side)
  {
  }

  /**
   * `checkArmRaised(pose)`: looks up both wrists and both shoulders by name
   * and tests the left side, then the right side. An absent pose or an
   * absent keypoint list is never a raised arm.
   */
  function CheckArmRaised(pose: Option<Pose>): (r: bool)
    ensures r ==> pose.Some? && pose.value.keypoints.Some?
  {
    match pose
    case None => false
    case Some(p) =>
      match p.keypoints
      case None => false
      case Some(kps) =>
        var leftWrist := FindPart(kps, "leftWrist");
        var leftShoulder := FindPart(kps, "leftShoulder");
        var rightWrist := FindPart(kps, "rightWrist");
        var rightShoulder := FindPart(kps, "rightShoulder");
        SideCheck(leftWrist, leftShoulder) || SideCheck(rightWrist, rightShoulder)
  }

  /**
   * What `CheckArmRaised` decides: true exactly when the pose and its
   * keypoint list are present and the left side or the right side is
   * raised, each side judged on its own.
   */
  lemma CheckArmRaisedMeaning(pose: Option<Pose>)
    ensures CheckArmRaised(pose) <==>
            pose.Some? && pose.value.keypoints.Some? &&
            (SideRaised(pose.value.keypoints.value, Left) || SideRaised(pose.value.keypoints.value, Right))
  {
  }

  /** A side whose first wrist or first shoulder scores at most the threshold (0.2 included) is never raised. */
  lemma LowConfidenceSideNotRaised(kps: seq<Keypoint>, side: Side, w: int, s: int)
    requires IsFirstWithPart(kps, WristPart(side), w)
    requires IsFirstWithPart(kps, ShoulderPart(side), s)
    requires kps[w].score <= MinConfidence || kps[s].score <= MinConfidence
    ensures !SideRaised(kps, side)
  {
  }

  /** A wrist level with or below its shoulder (equal y included) does not count as raised. */
  lemma WristNotAboveNotRaised(kps: seq<Keypoint>, side: Side, w: int, s: int)
    requires IsFirstWithPart(kps, WristPart(side), w)
    requires IsFirstWithPart(kps, ShoulderPart(side), s)
    requires kps[w].position.y >= kps[s].position.y
    ensures !SideRaised(kps, side)
  {
  }

  /** Lookup in a longer list: a name found in the front part is answered by the front part alone. */
  lemma {:induction false} FindPartAppend(front: seq<Keypoint>, back: seq<Keypoint>, part: string)
    ensures FindPart(front + back, part) ==
            if FindPart(front, part).Some? then FindPart(front, part) else FindPart(back, part)
  {
    if |front| > 0 {
      assert (front + back)[0] == front[0];
      if front[0].part != part {
        assert (front + back)[1..] == front[1..] + back;
        FindPartAppend(front[1..], back, part);
      }
    } else {
      assert front + back == back;
    }
  }

  /** Appending keypoints whose names all occur already leaves every lookup unchanged. */
  lemma FindPartIgnoresDuplicates(kps: seq<Keypoint>, extra: seq<Keypoint>, part: string)
    requires forall k :: 0 <= k < |extra| ==> FindPart(kps, extra[k].part).Some?
    ensures FindPart(kps + extra, part) == FindPart(kps, part)
  {
    FindPartAppend(kps, extra, part);
    if FindPart(extra, part).Some? {
      var k :| 0 <= k < |extra| && extra[k].part == part;
      assert FindPart(kps, extra[k].part).Some?;
    }
  }

  /**
   * Later duplicates are ignored: appending keypoints whose names all occur
   * already never changes whether an arm is raised.
   */
  lemma LaterDuplicatesIgnored(kps: seq<Keypoint>, extra: seq<Keypoint>)
    requires forall k :: 0 <= k < |extra| ==> FindPart(kps, extra[k].part).Some?
    ensures CheckArmRaised(Some(Pose(Some(kps + extra)))) == CheckArmRaised(Some(Pose(Some(kps))))
  {
    FindPartIgnoresDuplicates(kps, extra, "leftWrist");
    FindPartIgnoresDuplicates(kps, extra, "leftShoulder");
    FindPartIgnoresDuplicates(kps, extra, "rightWrist");
    FindPartIgnoresDuplicates(kps, extra, "rightShoulder");
  }

  /** A wrist at y = 100 above a shoulder at y = 150, both scored 0.5, is a raised arm. */
  lemma RaisedExample()
    ensures CheckArmRaised(Some(Pose(Some([
              Keypoint("leftWrist", 0.5, Position(0.0, 100.0)),
              Keypoint("leftShoulder", 0.5, Position(0.0, 150.0))]))))
  {
  }

  /** The same arm with the wrist scored 0.1 is not raised. */
  lemma LowScoreExample()
    ensures !CheckArmRaised(Some(Pose(Some([
              Keypoint("leftWrist", 0.1, Position(0.0, 100.0)),
              Keypoint("leftShoulder", 0.5, Position(0.0, 150.0))]))))
  {
  }
}
