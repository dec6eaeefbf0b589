# Webcam caption overlay: caption rule and drawing tick

The page in `script.js` shows a live webcam feed with a caption drawn over it.
Three detectors run beside it: a face detector, an object detector and a pose
estimator. Each one overwrites its own global list of results. Every 3 seconds
`updateMessage` builds a list of candidate captions from those lists and picks
one at random. Every 100 ms `drawLoop` paints the current caption above the
first face, or in the middle of the canvas when no face is found.

This project models that core in Dafny:

- `pose.dfy` (module `Pose`): `checkArmRaised`. It looks up the first
  keypoint of each name. Each side counts only when both of its keypoints score
  strictly above 0.2, and it is raised when the wrist is strictly higher than
  the shoulder (smaller y, origin top-left). The result is proved equivalent
  to `SideRaised`, a definition stated over the keypoint list (lemma
  `CheckArmRaisedMeaning`).
- `caption.dfy` (module `Caption`): the signals read by `updateMessage`
  (exact, case-sensitive label match; the first pose estimate only; more than
  one face). It also holds the candidate list in push order and the index
  `floor(random * n)` that picks from it.
- `render.dfy` (module `Render`): the canvas as a log of drawing calls. It
  gives the calls one tick makes and the geometry of the label box above a face.
- `script.dfy` (module `Script`): class `PageState` holds the globals of the
  script. Its methods are `UpdateMessage` and `DrawLoop`, plus the stores done
  by the detection callbacks and the canvas creation.
- `wrappers.dfy` (module `Wrappers`): `Option`, which stands for JavaScript's
  `undefined` (a failed `find`, an absent field).

The code has no expression detection and no clock. `updateMessage` collects
every matching caption after a fixed default and picks one at random
(script.js:112-135). With no face, `drawLoop` draws `currentMessage`, whose
initial value is the "look at the camera" text (script.js:21, 161). More than
one face adds the two-people caption (script.js:130-132).

## Model

| member | source | states |
|---|---|---|
| `Pose.FindPart` | script.js:173-176 | `find` by part name returns None exactly when no keypoint has that name; otherwise it returns the keypoint at the first position with that name |
| `Pose.FindPartAppend` | script.js:173-176 | a lookup in `front + back` is answered by `front` whenever `front` has the name, so later duplicates are never seen |
| `Pose.SideCheck` | script.js:178-185 | the test of one side on its looked-up wrist and shoulder: never true with a keypoint missing or scoring at most 0.2; its full meaning is `Pose.SideCheckMeaning` |
| `Pose.SideCheckMeaning` | script.js:178-186 | testing the looked-up wrist and shoulder of one side holds exactly when `SideRaised`: both first keypoints exist, both score > 0.2, and the wrist y < the shoulder y |
| `Pose.CheckArmRaised` | script.js:168-169 | a missing pose or a missing keypoint list never gives true |
| `Pose.CheckArmRaisedMeaning` | script.js:168-189 | the result is true iff pose and keypoints are present and the left side or the right side is raised, each side judged on its own |
| `Pose.LowConfidenceSideNotRaised` | script.js:171-184 | a side whose first wrist or first shoulder scores at most 0.2 (exactly 0.2 included) is not raised |
| `Pose.WristNotAboveNotRaised` | script.js:180-185 | a wrist level with its shoulder or below it (equal y included) is not raised |
| `Pose.FindPartIgnoresDuplicates` | script.js:173-176 | appending keypoints whose names all occur already leaves every lookup unchanged |
| `Pose.LaterDuplicatesIgnored` | script.js:173-189 | appending keypoints whose names all occur already never changes the arm-raise result |
| `Pose.RaisedExample` | script.js:178-181 | wrist at y 100 over shoulder at y 150, both scored 0.5, gives true |
| `Pose.LowScoreExample` | script.js:178-181 | the same arm with the wrist scored 0.1 gives false |
| `Caption.AnyLabeled` | script.js:115-117 | `some(obj => obj.label === l)` holds iff some object's label equals `l` exactly; the score is not consulted |
| `Caption.LabelMatchIsCaseSensitive` | script.js:115 | an object labelled "Hat" does not count as a hat |
| `Caption.OnlyFirstPoseCounts` | script.js:116 | pose estimates after the first never change the signals |
| `Caption.ConditionsOf` | script.js:115-130 | the four signals read from the detections: the face count is passed through, a raised hand needs a first pose, no hat signal without a "hat" label; stated over the detections in `Caption.CandidatesForDetections` |
| `Caption.Candidates` | script.js:112-132 | the candidate list in push order: it always starts with the default caption and has at most six entries; `Caption.CandidatesShape`, `Caption.CandidateMembership` and `Caption.CandidatePositions` fix every entry |
| `Caption.CandidatesShape` | script.js:112-132 | the list starts with the default caption and its length is 1 + [hat] + [sunglasses] + 2·[hand] + [faces > 1] |
| `Caption.CandidateMembership` | script.js:112-132 | the default caption is always a candidate; each other caption is a candidate iff its condition holds |
| `Caption.CandidatePositions` | script.js:120-132 | present captions stand in the order default, hat, sunglasses, the two hand captions, two people last |
| `Caption.CandidatesForDetections` | script.js:115-132 | each caption's presence, stated over the raw detections: exact labels, a raised arm in the first pose, more than one face |
| `Caption.PickIndex` | script.js:135 | `floor(random * n)` for 0 ≤ random < 1 and n > 0 is a valid index below n |
| `Caption.EveryIndexReachable` | script.js:135 | every index i < n is picked by the draw i / n, so every candidate can be shown |
| `Caption.PickedIsCandidate` | script.js:112-135 | the list is never empty, the picked caption is one of the candidates, and a draw of 0 picks the default |
| `Script.PageState.constructor` | script.js:4-21 | at start there are no detections and no canvas, and the caption is the initial "look at the camera" text |
| `Script.PageState.AttachCanvas` | script.js:64-67 | a new, empty canvas sized to the video is attached |
| `Script.PageState.PublishFaces` | script.js:84 | the face feed replaces the face list |
| `Script.PageState.PublishObjects` | script.js:93-94 | the object feed replaces the object list; a callback without results stores the empty list |
| `Script.PageState.PublishPoses` | script.js:104-106 | the pose feed replaces the pose list |
| `Script.PageState.UpdateMessage` | script.js:111-136 | the new caption is the candidate at `floor(random * n)` in the list for the current detections, so it is a candidate; only the caption changes |
| `Script.PageState.DrawLoop` | script.js:139-163 | with no canvas nothing changes; otherwise the canvas receives exactly one frame of calls for the current faces, loading state and caption |
| `Render.Canvas.ClearRect` | script.js:143 | the clear call is appended to the canvas log |
| `Render.Canvas.FillRect` | script.js:150 | the fill-rect call is appended to the canvas log |
| `Render.Canvas.FillText` | script.js:155-161 | the fill-text call with its text and anchor is appended to the canvas log |
| `Render.FrameOps` | script.js:143-161 | the calls of one tick on a canvas: one to three calls, the first a clear of the whole canvas; `Render.FrameClearsThenDrawsCaption`, `Render.FrameWithFace` and `Render.FrameWithoutFace` carry the rest |
| `Render.CaptionGeometry` | script.js:150-155 | the label box overhangs the face by 10 on each side and ends 5 above it; the text is centred in the box with its baseline inside it |
| `Render.FrameClearsThenDrawsCaption` | script.js:142-161 | every tick first clears the whole canvas, and any text it draws is the current caption |
| `Render.FrameWithFace` | script.js:145-155 | with a face, only the first face matters and the loading state does not; the tick draws the label box, then the caption centred in it |
| `Render.FrameWithoutFace` | script.js:156-161 | with no face, the tick draws the caption at the canvas centre when loading is hidden; otherwise it only clears |

## Left out

- Model loading, webcam access, `main` and the loading-message texts (script.js:25-59, 192-209) are left out. They are I/O over face-api, ml5 and `getUserMedia`. Whether the loading message is hidden is an input flag of `PageState`. Its initial value comes from the HTML page, which is not part of this model.
- The detectors themselves and their scheduling are left out (`detectAllFaces`, `objectDetector.detect`, `poseNet.on`, `requestAnimationFrame`, the self-calling object loop, both `setInterval` timers, script.js:70-108). Their results are inputs, stored through the three Publish methods. The interleaving of these callbacks is not modelled.
- Script.PageState.DrawLoop, Render.FrameWithFace: every face result is assumed to carry a `detection.box` (script.js:147). That shape comes from the face-api library, which is not part of this model. If a plain `detectAllFaces` result has `box` but no `detection`, line 147 throws after the clear at line 143 and nothing is drawn over the face; that throwing case is not modelled.
- `faceapi.resizeResults` (script.js:84) is left out. Face boxes arrive already scaled to the canvas.
- `console.log` and `console.error` calls are left out.
- `Math.random` is replaced by a parameter `random` with 0 ≤ random < 1.
- Canvas styling is left out (`fillStyle`, `font`, `textAlign`, `getContext`). The canvas is modelled as a log of its clear, fill-rect and fill-text calls.
- Coordinates, sizes and scores are `real`, not IEEE doubles. The code only compares them, adds constant offsets and halves, so rounding is not modelled.
- A keypoint always has a score and a position. In JavaScript a missing score makes `score > 0.2` false; that case is not represented.
- A detected object's `label` field is called `objectLabel`, because `label` is a Dafny keyword. A face's `detection.box` is flattened to `box`.
- `messageTimer` (script.js:22, 78) is never read and is not modelled.
