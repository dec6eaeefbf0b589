/**
 * The drawing surface and what one tick of `drawLoop` in script.js paints on
 * it. Only the geometry and the text are modelled; colours, fonts and text
 * alignment are not.
 */
module Render {

  /** An axis-aligned rectangle in canvas coordinates (origin top-left, y grows downwards). */
  datatype Box = Box(x: real, y: real, width: real, height: real)

  /** One face found by the face detector, already scaled to the canvas (its `detection.box`). */
  datatype FaceDetection = FaceDetection(box: Box)

  /** The drawing calls a tick makes on the 2D context, in order. */
  datatype DrawOp =
    | ClearRect(area: Box)
    | FillRect(area: Box)
    | FillText(text: string, x: real, y: real)

  /** The canvas laid over the video; `ops` records every drawing call made on it. */
  class Canvas {
    const width: nat
    const height: nat
    var ops: seq<DrawOp>

    constructor (width: nat, height: nat)
      ensures this.width == width && this.height == height
      ensures ops == []
    {
      this.width := width;
      this.height := height;
      ops := [];
    }

    method ClearRect(area: Box)
      modifies this
      ensures ops == old(ops) + [DrawOp.ClearRect(area)]
    {
      ops := ops + [DrawOp.ClearRect(area)];
    }

    method FillRect(area: Box)
      modifies this
      ensures ops == old(ops) + [DrawOp.FillRect(area)]
    {
      ops := ops + [DrawOp.FillRect(area)];
    }

    method FillText(text: string, x: real, y: real)
      modifies this
      ensures ops == old(ops) + [DrawOp.FillText(text, x, y)]
    {
      ops := ops + [DrawOp.FillText(text, x, y)];
    }
  }

  /** The translucent label box drawn above a face (script.js:150). */
  function CaptionBackground(face: Box): Box
  {
    Box(face.x - 10.0, face.y - 40.0, face.width + 20.0, 35.0)
  }

  /** Where the caption text is anchored for a face (script.js:155). */
  function CaptionAnchorX(face: Box): real { face.x + face.width / 2.0 }
  function CaptionAnchorY(face: Box): real { face.y - 15.0 }

  /**
   * The label box overhangs the face by 10 on each side, ends 5 above the
   * face's top edge, and the caption is horizontally centred in it with its
   * baseline strictly inside it.
   */
  lemma CaptionGeometry(face: Box)
    ensures CaptionBackground(face).x == face.x - 10.0
    ensures CaptionBackground(face).x + CaptionBackground(face).width == face.x + face.width + 10.0
    ensures CaptionBackground(face).y + CaptionBackground(face).height == face.y - 5.0
    ensures CaptionBackground(face).y + CaptionBackground(face).height < face.y
    ensures CaptionAnchorX(face) == CaptionBackground(face).x + CaptionBackground(face).width / 2.0
    ensures CaptionBackground(face).y < CaptionAnchorY(face) < CaptionBackground(face).y + CaptionBackground(face).height
  {
  }

  /**
   * The calls one tick makes on a canvas of the given size: clear everything,
   * then either the label box and caption at the first face, or the caption
   * centred when no face is present and the loading message is hidden.
   */
  function FrameOps(width: nat, height: nat, faces: seq<FaceDetection>, loadingHidden: bool,
                    message: string): (ops: seq<DrawOp>)
    ensures 1 <= |ops| <= 3
    ensures ops[0] == ClearRect(Box(0.0, 0.0, width as real, height as real))
  {
    [ClearRect(Box(0.0, 0.0, width as real, height as real))]
    + if |faces| > 0 then
        var face := faces[0].box;
        [FillRect(CaptionBackground(face)), FillText(message, CaptionAnchorX(face), CaptionAnchorY(face))]
      else if loadingHidden then
        [FillText(message, width as real / 2.0, height as real / 2.0)]
      else
        []
  }

  /** Every tick first clears the whole canvas, and whatever text it draws is the current caption. */
  lemma FrameClearsThenDrawsCaption(width: nat, height: nat, faces: seq<FaceDetection>,
                                    loadingHidden: bool, message: string)
    ensures |FrameOps(width, height, faces, loadingHidden, message)| >= 1
    ensures FrameOps(width, height, faces, loadingHidden, message)[0]
            == ClearRect(Box(0.0, 0.0, width as real, height as real))
    ensures forall op :: op in FrameOps(width, height, faces, loadingHidden, message) && op.FillText?
                         ==> op.text == message
  {
  }

  /**
   * With a face present only the first face decides the drawing and the
   * loading message is irrelevant; the text sits on the label box.
   */
  lemma FrameWithFace(width: nat, height: nat, faces: seq<FaceDetection>, loadingHidden: bool,
                      message: string)
    requires |faces| > 0
    ensures FrameOps(width, height, faces, loadingHidden, message)
            == FrameOps(width, height, [faces[0]], !loadingHidden, message)
    ensures |FrameOps(width, height, faces, loadingHidden, message)| == 3
    ensures FrameOps(width, height, faces, loadingHidden, message)[1] == FillRect(CaptionBackground(faces[0].box))
    ensures FrameOps(width, height, faces, loadingHidden, message)[2].FillText?
    ensures var t := FrameOps(width, height, faces, loadingHidden, message)[2];
            var bg := CaptionBackground(faces[0].box);
            t.x == bg.x + bg.width / 2.0 && bg.y < t.y < bg.y + bg.height
  {
    CaptionGeometry(faces[0].box);
  }

  /** Without a face the caption is centred on the canvas only once loading is over; otherwise the tick only clears. */
  lemma FrameWithoutFace(width: nat, height: nat, loadingHidden: bool, message: string)
    ensures |FrameOps(width, height, [], loadingHidden, message)| == if loadingHidden then 2 else 1
    ensures loadingHidden ==>
            FrameOps(width, height, [], loadingHidden, message)[1]
            == FillText(message, width as real / 2.0, height as real / 2.0)
  {
  }
}
