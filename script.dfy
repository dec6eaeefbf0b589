/**
 * The page's shared state (the globals of script.js) and the two periodic
 * procedures that read it: the caption update and the drawing tick. The
 * detection callbacks only overwrite their own list, so they appear here as
 * the three Publish methods; what the detectors compute is an input.
 */
module Script {
  import opened Wrappers
  import Pose
  import Caption
  import Render

  class PageState {
    var faceDetections: seq<Render.FaceDetection>
    var objectDetections: seq<Caption.ObjectDetection>
    var poses: seq<Pose.PoseEstimate>
    var currentMessage: string
    /** Absent until detection starts. */
    var canvas: Render.Canvas?
    /** Whether the loading message is hidden (`display === 'none'`). */
    var loadingHidden: bool

    /** The state at script start: no detections, no canvas, the initial caption. */
    constructor (loadingHidden: bool)
      ensures faceDetections == [] && objectDetections == [] && poses == []
      ensures currentMessage == Caption.InitialMessage
      ensures canvas == null
      ensures this.loadingHidden == loadingHidden
    {
      faceDetections := [];
      objectDetections := [];
      poses := [];
      currentMessage := Caption.InitialMessage;
      canvas := null;
      this.loadingHidden := loadingHidden;
    }

    /** Creates the canvas over the video, sized like it. */
    method AttachCanvas(width: nat, height: nat)
      modifies this`canvas
      ensures canvas != null && fresh(canvas)
      ensures canvas.width == width && canvas.height == height && canvas.ops == []
    {
      canvas := new Render.Canvas(width, height);
    }

    /** The face feed stores its latest (already rescaled) result list. */
    method PublishFaces(detections: seq<Render.FaceDetection>)
      modifies this`faceDetections
      ensures faceDetections == detections
    {
      faceDetections := detections;
    }

    /** The object feed stores its results; a call without results (an error) stores the empty list. */
    method PublishObjects(results: Option<seq<Caption.ObjectDetection>>)
      modifies this`objectDetections
      ensures objectDetections == if results.Some? then results.value else []
    {
      objectDetections := if results.Some? then results.value else [];
    }

    /** The pose feed overwrites the pose list with each new estimate. */
    method PublishPoses(results: seq<Pose.PoseEstimate>)
      modifies this`poses
      ensures poses == results
    {
      poses := results;
    }

    /**
     * `updateMessage`, with `random` standing for the value of `Math.random()`:
     * collects the candidate captions for the current detections and stores
     * the one at index `floor(random * count)`. The detections are unchanged.
     */
    method UpdateMessage(random: real)
      requires 0.0 <= random < 1.0
      modifies this`currentMessage
      ensures var candidates := Caption.Candidates(Caption.ConditionsOf(objectDetections, poses, |faceDetections|));
              currentMessage == candidates[Caption.PickIndex(|candidates|, random)]
      ensures currentMessage in Caption.Candidates(Caption.ConditionsOf(objectDetections, poses, |faceDetections|))
    {
      var possibleMessages := [Caption.DefaultMessage];

      var isWearingHat := Caption.AnyLabeled(objectDetections, "hat");
      var isRaisingHand := |poses| > 0 && Pose.CheckArmRaised(poses[0].pose);
      var isWearingSunglasses := Caption.AnyLabeled(objectDetections, "sunglasses");
      ghost var signals := Caption.ConditionsOf(objectDetections, poses, |faceDetections|);
      assert signals == Caption.Conditions(isWearingHat, isWearingSunglasses, isRaisingHand, |faceDetections|);

      ghost var before := possibleMessages;
      if isWearingHat {
        possibleMessages := possibleMessages + [Caption.HatMessage];
      }
      assert possibleMessages == Caption.PushIf(before, signals.wearingHat, [Caption.HatMessage]);
      before := possibleMessages;
      if isWearingSunglasses {
        possibleMessages := possibleMessages + [Caption.SunglassesMessage];
      }
      assert possibleMessages == Caption.PushIf(before, signals.wearingSunglasses, [Caption.SunglassesMessage]);
      before := possibleMessages;
      if isRaisingHand {
        possibleMessages := possibleMessages + [Caption.HandMessage];
        possibleMessages := possibleMessages + [Caption.HandMessageAlt];
        assert possibleMessages == before + [Caption.HandMessage, Caption.HandMessageAlt];
      }
      assert possibleMessages == Caption.PushIf(before, signals.raisingHand, [Caption.HandMessage, Caption.HandMessageAlt]);
      before := possibleMessages;
      if |faceDetections| > 1 {
        possibleMessages := possibleMessages + [Caption.TwoPeopleMessage];
      }
      assert possibleMessages == Caption.PushIf(before, signals.faceCount > 1, [Caption.TwoPeopleMessage]);
      assert possibleMessages == Caption.Candidates(signals);

      currentMessage := possibleMessages[Caption.PickIndex(|possibleMessages|, random)];
    }

    /**
     * `drawLoop`: nothing without a canvas; otherwise the canvas receives
     * exactly the calls of one frame for the current faces, loading state and
     * caption.
     */
    method DrawLoop()
      modifies canvas
      ensures canvas != null ==>
              canvas.ops == old(canvas.ops) + Render.FrameOps(canvas.width, canvas.height, faceDetections,
                                                              loadingHidden, currentMessage)
    {
      if canvas == null {
        return;
      }
      var ctx := canvas;
      ctx.ClearRect(Render.Box(0.0, 0.0, ctx.width as real, ctx.height as real));

      if |faceDetections| > 0 {
        var box := faceDetections[0].box;
        ctx.FillRect(Render.Box(box.x - 10.0, box.y - 40.0, box.width + 20.0, 35.0));
        ctx.FillText(currentMessage, box.x + box.width / 2.0, box.y - 15.0);
      } else if loadingHidden {
        ctx.FillText(currentMessage, ctx.width as real / 2.0, ctx.height as real / 2.0);
      }
    }
  }
}
