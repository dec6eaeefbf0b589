/**
 * The caption rule of `updateMessage` in script.js: which captions are
 * candidates given the latest detections, in which order, and how the random
 * draw picks one of them.
 */
module Caption {
  import opened Wrappers
  import Pose

  /** One result of the object detector (its `label` is `objectLabel` here, `label` being a Dafny keyword); only the label is consulted. */
  datatype ObjectDetection = ObjectDetection(objectLabel: string, score: real)

  /** The caption shown before the first update. */
  const InitialMessage: string := "카메라를 바라보세요"
  /** Always a candidate. */
  const DefaultMessage: string := "카메라가 당신을 보고 있습니다."
  const HatMessage: string := "모자를 쓴 민지"
  const SunglassesMessage: string := "선글라스를 쓴 민지."
  const HandMessage: string := "손을 번쩍 든 민지!"
  const HandMessageAlt: string := "손을 들고 있는 민지"
  const TwoPeopleMessage: string := "두 명의 민지"

  /** `objects.some(obj => obj.label === wanted)`: an exact, case-sensitive label match with no score threshold. */
  function AnyLabeled(objects: seq<ObjectDetection>, wanted: string): (r: bool)
    ensures r <==> exists i :: 0 <= i < |objects| && objects[i].objectLabel == wanted
  {
    if |objects| == 0 then false
    else if objects[0].objectLabel == wanted then true
    else
      var r := AnyLabeled(objects[1..], wanted);
      assert forall i :: 1 <= i < |objects| ==> objects[i] == objects[1..][i - 1];
      r
  }

  /** The signals read from the latest detections when the caption is updated. */
  datatype Conditions = Conditions(
    wearingHat: bool,
    wearingSunglasses: bool,
    raisingHand: bool,
    faceCount: nat)

  /** The signals of script.js:115-117 and 130: hand-raise looks at the first pose estimate only. */
  function ConditionsOf(objects: seq<ObjectDetection>, poses: seq<Pose.PoseEstimate>, faceCount: nat): (c: Conditions)
    ensures c.faceCount == faceCount
    ensures c.raisingHand ==> |poses| > 0 && poses[0].pose.Some?
    ensures !c.wearingHat ==> forall i :: 0 <= i < |objects| ==> objects[i].objectLabel != "hat"
  {
    Conditions(
      AnyLabeled(objects, "hat"),
      AnyLabeled(objects, "sunglasses"),
      |poses| > 0 && Pose.CheckArmRaised(poses[0].pose),
      faceCount)
  }

  function Count(b: bool): nat { if b then 1 else 0 }

  /** `list` with `items` pushed on when `condition` holds. */
  function PushIf(list: seq<string>, condition: bool, items: seq<string>): seq<string>
  {
    if condition then list + items else list
  }

  /** The candidate captions, in the order in which script.js pushes them. */
  function Candidates(c: Conditions): (ms: seq<string>)
    ensures |ms| >= 1 && ms[0] == DefaultMessage
    ensures |ms| <= 6
  {
    var withHat := PushIf([DefaultMessage], c.wearingHat, [HatMessage]);
    var withSunglasses := PushIf(withHat, c.wearingSunglasses, [SunglassesMessage]);
    var withHand := PushIf(withSunglasses, c.raisingHand, [HandMessage, HandMessageAlt]);
    PushIf(withHand, c.faceCount > 1, [TwoPeopleMessage])
  }

  /** The list starts with the default caption and has one entry per condition that holds (two for a raised hand). */
  lemma CandidatesShape(c: Conditions)
    ensures |Candidates(c)| == 1 + Count(c.wearingHat) + Count(c.wearingSunglasses)
                               + 2 * Count(c.raisingHand) + Count(c.faceCount > 1)
    ensures Candidates(c)[0] == DefaultMessage
  {
  }

  /** Each optional caption is a candidate exactly when its condition holds. */
  lemma CandidateMembership(c: Conditions)
    ensures DefaultMessage in Candidates(c)
    ensures HatMessage in Candidates(c) <==> c.wearingHat
    ensures SunglassesMessage in Candidates(c) <==> c.wearingSunglasses
    ensures HandMessage in Candidates(c) <==> c.raisingHand
    ensures HandMessageAlt in Candidates(c) <==> c.raisingHand
    ensures TwoPeopleMessage in Candidates(c) <==> c.faceCount > 1
  {
    var ms := Candidates(c);
    assert ms[0] == DefaultMessage;
    assert DefaultMessage != HatMessage && DefaultMessage != SunglassesMessage;
    assert DefaultMessage != HandMessage && DefaultMessage != HandMessageAlt;
    assert DefaultMessage != TwoPeopleMessage && HatMessage != SunglassesMessage;
    assert HatMessage != HandMessage && HatMessage != HandMessageAlt && HatMessage != TwoPeopleMessage;
    assert SunglassesMessage != HandMessage && SunglassesMessage != HandMessageAlt;
    assert SunglassesMessage != TwoPeopleMessage && HandMessage != TwoPeopleMessage;
    assert HandMessageAlt != TwoPeopleMessage;
  }

  /** Where each present caption sits: default, hat, sunglasses, the two hand captions, then two people last. */
  lemma CandidatePositions(c: Conditions)
    ensures c.wearingHat ==> Candidates(c)[1] == HatMessage
    ensures c.wearingSunglasses ==> Candidates(c)[1 + Count(c.wearingHat)] == SunglassesMessage
    ensures c.raisingHand ==>
      var k := 1 + Count(c.wearingHat) + Count(c.wearingSunglasses);
      Candidates(c)[k] == HandMessage && Candidates(c)[k + 1] == HandMessageAlt
    ensures c.faceCount > 1 ==> Candidates(c)[|Candidates(c)| - 1] == TwoPeopleMessage
  {
    CandidatesShape(c);
  }

  /**
   * The candidate list stated directly over the detections: a hat or
   * sunglasses caption exactly when some object carries that exact label, the
   * hand captions exactly when the first pose estimate shows a raised arm on
   * either side, the two-people caption exactly when more than one face was
   * found.
   */
  lemma CandidatesForDetections(objects: seq<ObjectDetection>, poses: seq<Pose.PoseEstimate>, faceCount: nat)
    ensures var ms := Candidates(ConditionsOf(objects, poses, faceCount));
      && (HatMessage in ms <==> exists i :: 0 <= i < |objects| && objects[i].objectLabel == "hat")
      && (SunglassesMessage in ms <==> exists i :: 0 <= i < |objects| && objects[i].objectLabel == "sunglasses")
      && (HandMessage in ms <==>
            |poses| > 0 && poses[0].pose.Some? && poses[0].pose.value.keypoints.Some? &&
            (Pose.SideRaised(poses[0].pose.value.keypoints.value, Pose.Left) ||
             Pose.SideRaised(poses[0].pose.value.keypoints.value, Pose.Right)))
      && (TwoPeopleMessage in ms <==> faceCount > 1)
  {
    CandidateMembership(ConditionsOf(objects, poses, faceCount));
    if |poses| > 0 {
      Pose.CheckArmRaisedMeaning(poses[0].pose);
    }
  }

  /** `Math.floor(random * n)` for a draw `0 <= random < 1`: always a valid index. */
  function PickIndex(n: nat, random: real): (i: nat)
    requires 0 < n && 0.0 <= random < 1.0
    ensures i < n
  {
    assert random * n as real < 1.0 * n as real;
    (random * n as real).Floor
  }

  /** Every index can be drawn: the draw `i / n` picks index `i`. */
  lemma EveryIndexReachable(n: nat, i: nat)
    requires i < n
    ensures 0.0 <= i as real / n as real < 1.0
    ensures PickIndex(n, i as real / n as real) == i
  {
    var r := i as real / n as real;
    assert r * n as real == i as real;
  }

  /** The caption chosen for a draw is one of the candidates, and the default can always be chosen. */
  lemma PickedIsCandidate(c: Conditions, random: real)
    requires 0.0 <= random < 1.0
    ensures |Candidates(c)| > 0
    ensures Candidates(c)[PickIndex(|Candidates(c)|, random)] in Candidates(c)
    ensures PickIndex(|Candidates(c)|, 0.0) == 0 && Candidates(c)[0] == DefaultMessage
  {
  }

  /** Only the first pose estimate matters for the hand signal. */
  lemma OnlyFirstPoseCounts(objects: seq<ObjectDetection>, poses: seq<Pose.PoseEstimate>,
                            more: seq<Pose.PoseEstimate>, faceCount: nat)
    requires |poses| > 0
    ensures ConditionsOf(objects, poses + more, faceCount) == ConditionsOf(objects, poses, faceCount)
  {
    assert (poses + more)[0] == poses[0];
  }

  /** A label that differs only in case does not match. */
  lemma LabelMatchIsCaseSensitive()
    ensures !AnyLabeled([ObjectDetection("Hat", 0.99)], "hat")
  {
  }
}
