# InsideOut drawing: emotion controller, smoothing buffer and hand-detection throttle

InsideOut is a webcam drawing toy. A face-expression detector and a hand-pose detector
feed a p5 sketch, and what the user draws is painted with a p5.brush brush and a colour
chosen by an "emotion controller". This project models the decision logic of that
program and proves properties of the model. It has five modules:

- `Emotion` (emotion.dfy): the controller that runs in each frame of the p5 `draw` loop of
  `src/App.js`, written as pure functions over a state value, `Mood`. A frame has two
  phases:
  - Observed phase: when a face is detected, the first highest of its five expression
    scores (happy, sad, angry, disgusted, fearful) picks a brush and a colour from a
    fixed table.
  - Synthetic phase: ten independent checks run in source order. Each check fires when its
    random draw is below its probability (0.3 for anxiety, 0.02 for the others) and
    strictly more than 3000 ms have passed since that emotion last fired. A firing check
    stamps its own timestamp and `lastTriggerTime`, and may also pick a brush and set a
    colour.
- `Controller` (controller.dfy): the same state as an object. Its fields are the ten
  timestamps, `lastTriggerTime`, the brush and the colour, and methods update them step by
  step. Every method is proved to compute the matching function of `Emotion`.
- `Drawing` (drawing.dfy) covers two in-place buffers:
  - `smoothPosition`: a sliding window of the last five fingertip positions, returning
    their mean.
  - `drawLine`: an append-only history of drawn segments.
- `HandSketch` (handsketch.dfy) covers the hand-tracking sketch of
  `a_folder_to_delete/script.js`:
  - A detection request throttled to at most one per 200 ms.
  - The `preload`, `modelReady` and `getHandsData` callbacks that overwrite the sketch's
    module-level state.
  - The pinch gate that draws a fixed-size ellipse.
- `Wrappers` (wrappers.dfy): the `Option` type.

Randomness, time and detector output are parameters:
- Each `Math.random()` draw of the synthetic phase is an input, one per check.
- `Date.now()` and `millis()` are inputs too: one `now` per frame.
- The detected faces and hands are input values.

Behaviour of the code that a reader might expect otherwise:
- The ten synthetic checks are independent `if` statements, not a first-match-wins chain.
  Several can fire in one frame, and the last writer of the brush and of the colour wins.
- Synthetic picks overwrite the observed pick of the same frame; observed emotions have no
  priority.
- There is no global 5000 ms gate. `triggerCooldown` is never read, and `emotionTriggered`
  is never set, so the observed phase runs on every frame with a face.
- The cooldown test is a strict `>`, not `>=`.
- There are ten synthetic emotions. The disgust and fear checks are commented out.

## Model

| member | source | states |
|---|---|---|
| Emotion.Max | src/App.js:439 | `Math.max` of a non-empty list is one of its elements and is at least every element. |
| Emotion.IndexOf | src/App.js:439 | `indexOf` is -1 exactly when the value is absent. Otherwise it is an index holding the value with no earlier occurrence. |
| Emotion.ObservedIndex | src/App.js:430-439 | Over the scores listed in the fixed order happy, sad, angry, disgusted, fearful, the switch index is the first index holding the maximum score: every score is at most it, and every earlier score is strictly below it (ties go to the earlier-listed emotion). |
| Emotion.ObservedPick | src/App.js:439-462 | The switch picks a (brush, colour) pair exactly for indices 0 to 4; any other index (the default case) picks nothing. |
| Emotion.ObservedPhase | src/App.js:429-463 | The observed phase never touches the timestamps or `lastTriggerTime`, and with no detected face it changes nothing. |
| Emotion.ObservedPhaseFollowsFirstMax | src/App.js:429-462 | With a face whose first maximum is at k, the brush and colour become exactly the table entry for k, and nothing else changes. |
| Emotion.PerEmotion.Set | src/App.js:380-414 | Writing one emotion's timestamp sets it and leaves the other nine as they were. |
| Emotion.Apply | src/App.js:471-472 | A firing's effect on brush and colour never touches a timestamp. |
| Emotion.OrderIsDistinct | src/App.js:466-583 | The ten checks are pairwise distinct, and every synthetic emotion has a check. |
| Emotion.StepStamps | src/App.js:466-475 | A check that does not fire changes nothing. A check that fires sets its own timestamp and `lastTriggerTime` to now, fires only when more than 3000 ms have passed, and leaves every other timestamp unchanged. |
| Emotion.StepBrush | src/App.js:466-475 | One check leaves the brush alone unless it fires and has a brush to pick (envy, boredom and schadenfreude have none), in which case it sets that brush. |
| Emotion.StepColor | src/App.js:500-524 | One check leaves the colour alone unless it fires and has a colour to set (envy has none), in which case it sets that colour. |
| Emotion.RunPrefix | src/App.js:466-583 | Proof helper for Tick's loop, not a property of the program: running one more check of the sequence is one more step after the checks before it. |
| Emotion.RunTimestamps | src/App.js:466-583 | After the checks run, each emotion's timestamp is now exactly when its own check fired against the timestamp the frame started from; otherwise it is unchanged. |
| Emotion.StepDecidesFromStart | src/App.js:466-583 | Each check sees its own timestamp as the frame started with: no earlier check of the frame has changed it. |
| Emotion.RunLastTrigger | src/App.js:466-583 | `lastTriggerTime` becomes now exactly when at least one check fired, and is otherwise unchanged. |
| Emotion.RunBrushKept | src/App.js:466-583 | When no check picks a brush, the brush is the one the checks started with. |
| Emotion.RunBrushLastWriter | src/App.js:466-583 | When check i is the last one that picks a brush, the brush is check i's. |
| Emotion.RunColorKept | src/App.js:466-583 | When no check sets a colour, the colour is the one the checks started with. |
| Emotion.RunColorLastWriter | src/App.js:466-583 | When check i is the last one that sets a colour, the colour is check i's. |
| Emotion.RunQuiet | src/App.js:466-583 | With every draw at or above its probability, no check changes anything. |
| Emotion.SameDecisions | src/App.js:429-583 | The observed phase does not change which synthetic checks fire, because it leaves the timestamps alone. |
| Emotion.FrameTimestamps | src/App.js:416-583 | After one frame, an emotion's timestamp is now exactly when the webcam was ready and its check fired; otherwise it is unchanged. |
| Emotion.FrameKeepsObservedBrush | src/App.js:429-583 | In a ready frame with a face, where no synthetic check picks a brush, the brush is the observed first-maximum pick. |
| Emotion.FrameKeepsObservedColor | src/App.js:429-583 | In a ready frame with a face, where no synthetic check sets a colour, the colour is the observed first-maximum pick. |
| Emotion.FrameBrushLastWriter | src/App.js:429-583 | In a ready frame, the brush is that of the last synthetic check that picks one, overriding any observed pick. |
| Emotion.FrameColorLastWriter | src/App.js:429-583 | In a ready frame, the colour is that of the last synthetic check that sets one, overriding any observed pick. |
| Emotion.QuietFrameUnchanged | src/App.js:416-583 | A frame with no face and no draw below its probability leaves the whole state unchanged. |
| Emotion.QuietFramesUnchanged | src/App.js:416-583 | Any run of frames with no face and no draw below its probability leaves the whole state unchanged. |
| Emotion.FiringsSpaced | src/App.js:380-414 | Over any run of frames, an emotion's first firing comes more than 3000 ms after its starting timestamp. Two consecutive firings are more than 3000 ms apart, and the timestamp holds the latest firing. |
| Controller.EmotionController.constructor | src/App.js:28-414 | All timestamps and `lastTriggerTime` start at 0 (lines 376-414), no brush is picked, and the colour is the initial "ffba59" of the `useState` at line 28. |
| Controller.EmotionController.Observe | src/App.js:429-463 | Updating the fields in place gives exactly the observed phase of the old state. |
| Controller.EmotionController.Check | src/App.js:466-475 | One in-place check gives exactly one step of the old state. |
| Controller.EmotionController.Tick | src/App.js:416-583 | One in-place frame (webcam readiness, observed phase, then the ten checks in order) gives exactly one frame of the old state. |
| Drawing.Slide | src/App.js:62-68 | After push-then-shift, the buffer is non-empty, holds at most 5 positions and ends with the new one. A buffer with room just grows; a full one drops its oldest position. |
| Drawing.Window | src/App.js:62-68 | Sliding any sequence of positions in never makes the buffer longer than 5. |
| Drawing.WindowIsLatest | src/App.js:62-68 | The buffer always holds the most recent min(n, 5) positions pushed, oldest first. |
| Drawing.WindowSnoc | src/App.js:62-68 | Proof helper for SmoothPosition, not a property of the program: pushing one more position slides it into the buffer of all earlier pushes. |
| Drawing.AccumulateIsScaledSum | src/App.js:70-76 | The reduce that adds each coordinate divided by n gives the componentwise sum divided by n. |
| Drawing.AverageIsMean | src/App.js:70-78 | With n the buffer's length, the reduce is the arithmetic mean of the buffer. |
| Drawing.SumWithin | src/App.js:70-76 | The sum of positions inside a box lies between the box's corners scaled by the number of positions. |
| Drawing.MeanWithin | src/App.js:62-78 | The smoothed position stays inside the bounding box of the positions it averages. |
| Drawing.PositionSmoother.constructor | src/App.js:23 | The buffer starts empty. |
| Drawing.PositionSmoother.SmoothPosition | src/App.js:62-79 | The buffer slides the new position in and stays the window of every position pushed. The result is the arithmetic mean of the latest (at most 5) positions. |
| Drawing.DrawingHistory.constructor | src/App.js:21 | The history starts empty. |
| Drawing.DrawingHistory.DrawLine | src/App.js:81-95 | The history grows by exactly one record: the segment with the context's stroke style and width. Earlier records are unchanged. |
| HandSketch.RequestsSpaced | a_folder_to_delete/script.js:46-50 | Over any frames, the first detection request comes more than 200 ms after the starting time. Consecutive requests are more than 200 ms apart, and `lastDetectionTime` holds the latest request. |
| HandSketch.RequestsAreDueFrames | a_folder_to_delete/script.js:46-50 | The requests are the times of exactly those frames whose throttle test passed against the `lastDetectionTime` left by the earlier frames, taken in frame order with at most one per frame (strictly increasing frame indices). |
| HandSketch.PinchEllipse | a_folder_to_delete/script.js:52-68 | An ellipse is drawn exactly when `hands` is non-empty and the first hand's middle fingertip is closer than 100 to its thumb tip (later hands are never looked at), and its diameter is always 100. |
| HandSketch.PinchEllipseMeaning | a_folder_to_delete/script.js:52-62 | A drawn ellipse means the middle-to-thumb offset is under 100 on each axis, and the ellipse sits halfway between the index fingertip and the thumb tip. |
| HandSketch.Sketch.constructor | a_folder_to_delete/script.js:1-7 | `hands` starts empty, `loading` false and `lastDetectionTime` 0, with no request made. |
| HandSketch.Sketch.Preload | a_folder_to_delete/script.js:9-12 | `loading` becomes true, and nothing else changes. |
| HandSketch.Sketch.ModelReady | a_folder_to_delete/script.js:75-77 | `loading` becomes false, and nothing else changes. |
| HandSketch.Sketch.GetHandsData | a_folder_to_delete/script.js:71-73 | `hands` is replaced wholesale by the results, and nothing else changes. |
| HandSketch.Sketch.Draw | a_folder_to_delete/script.js:38-69 | A detection is requested exactly when `currentTime - lastDetectionTime > 200`. `lastDetectionTime` then becomes `currentTime` and is otherwise unchanged. Requests stay more than 200 ms apart. The ellipse is the pinch gate's, and `hands` and `loading` are unchanged. |
| HandSketch.RunFrames | a_folder_to_delete/script.js:38-50 | Calling `draw` on a fresh sketch once per frame makes exactly the requests `Requests` describes and leaves the `lastDetectionTime` that `LastDetection` describes, so RequestsSpaced and RequestsAreDueFrames (frame i requests exactly when its throttle test passes) hold of the running sketch. |

## Left out

- Face and hand inference, webcam capture and model loading (face-api, handpose, ml5) are foreign libraries. Their results are inputs: the faces, the hands, and the moments at which the callbacks run.
- `Math.random()` is not modelled. Each synthetic check's draw is a parameter.
- `Date.now()` is read once per frame. The source reads it again for each comparison and assignment, so within one frame it may return several values.
- `millis()` is a parameter of `Draw`.
- The p5.brush registry and all rendering are an external library. Brushes are modelled by name only: `brush.add`, `brush.pick`'s visual effect, the brush `rect` calls, ellipse fill and stroke, and the canvas `arc` and `clearRect` overlays. No brush picked yet stands for the library's default brush.
- Floating-point numbers are modelled as mathematical reals, so rounding is not captured.
  - Scores and their comparisons follow from this.
  - So do the mean's divisions and the ellipse midpoint.
  - A NaN score is not modelled either. It would make `Math.max` NaN, `indexOf` -1, and the switch take its default case; `ObservedPick` does model that default case, for every index outside 0 to 4.
- Emotion.FiringsSpaced and HandSketch.RequestsSpaced describe runs of frames with arbitrary `now` values. They do not assume the clock is monotonic.
- The `draw` of `src/App.js` is `async` and awaits the detectors. One frame is modelled as atomic: nothing else runs between its steps.
- React state semantics are not modelled. `setColor` is taken as an immediate write; React applies it on the next render. The model assumes the ten `last*Time` timestamps and `lastTriggerTime` persist between frames; in the code as written they are `let` variables scoped to one render of `App`, so a re-render (for example the one `setFaceDetections` causes) creates them again at 0 and restarts every cooldown, and Emotion.FiringsSpaced holds only across frames run by one `draw` closure.
- The webcam check `readyState === 4` is the boolean `ready` of a frame.
- The hand branch of `src/App.js` (lines 585-645) is left out. It holds the 2D fingertip distances (`calculateFingerDistance`, lines 113-118; `calculate3DDistance` is never called), the `thumbIndexDistance < 40 && indexMiddleDistance > 30` gate, `p5.map` mirroring, and the brush rectangle at the smoothed position. This is floating-point geometry around a rendering call. `smoothPosition` itself is modelled.
- The mouse-press painting branch (`src/App.js:656-664`) is left out: it is a rendering call.
- `drawLine` is called only from commented-out code. It is modelled as an operation on its own, with the canvas context reduced to the stroke style and width it records. `redrawHistory` is commented out and not modelled.
- The commented-out disgust and fear synthetic checks are not modelled.
- The ten `last*Time` variables are grouped into one record field of the controller, one entry per emotion.
- The ten written-out checks run as one loop over the source order. Each iteration performs the same test and updates as the corresponding `if` block, with the constants tabulated by `Probability`, `Cooldown` and `EffectOf`.
- In `a_folder_to_delete/script.js`, `loading` is undefined before `preload`. It is modelled as false, since it is only ever read as a truth value.
- The sketch's `setup` is not modelled beyond the state it leaves: canvas creation, capture and `handpose.on` registration.
- The overlay p5 instance of that file, which draws circles and the loading text, is not modelled either.
- The detection request itself (`handpose.detect`) is reported as the `detect` result of `Draw`. Its reply arrives later through `GetHandsData`.
- The sketch files `script.js`, `creative-coding-final-project-insideout/script.js`, `p5brush/script.js` and `a_folder_to_delete/p5brush/script.js` are not part of this model: they hold rendering glue only.
