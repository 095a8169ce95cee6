# Detection overlay pipeline: a Dafny model

This project models the geometry and bookkeeping of an Android app that shows the
detections of a camera-fed neural network on a screen overlay. The model covers four parts:

- **Native post-processing** (`NativeRun`, from `cpp/src/internal/main.cpp`):
  - The 640x480 camera frame is letterboxed into a 640x640 buffer filled with 114.
  - Each network output row is decoded by mode. Mode 1 decodes a box: normalised corners become a rotated, mirrored and scaled pixel box. Mode 2 finds keypoints: an argmax over 8400 grid cells picks the cell, and its 8 keypoints are un-padded and rotated. Any other mode passes the raw row through.
- **The camera activity** (`CameraActivity`, from `kotlin/com/computer/vision/Act.kt`):
  - The frame-drop gate `processImage` is a class with a busy flag.
  - The coordinate remap `resize` is a pure function. Kotlin's `Float.toInt()` is written out as saturating truncation toward zero.
- **The overlay view** (`AccessibilityOverlay`, from `kotlin/com/computer/vision/Accessibility.kt`):
  - `DetectionsView` holds the records, the class-to-colour map and the colour counter. `onDraw` becomes a method that returns the drawing commands it issues.
  - Also modelled: `onDetachedFromWindow`, and the service's `drawDetections`.
- **The dataset tool** (`LabelLetterbox`, from `tools/letterbox.py`):
  - The padding arithmetic of `letterbox_image`.
  - `adjust_label_line`, which splits, parses and renormalises one YOLO label line.
  - The line filter of `process_set`.

`CrossChecks` ties the layers together in three ways:
- The native pad equals the tool's `pad_top` for a 640x480 image.
- The native un-padding undoes the tool's padding.
- For box corners on whole pixels of a 640x480 source, the native box decode gives exactly the real-valued box that Kotlin's `resize` computes before `toInt()` truncates it.

Floating point values are modelled as mathematical reals. These are parameters of the model:
- the network output `out`;
- the text measurement of `Paint.getTextBounds`;
- Python's `float()`;
- the `f"{v:.6f}"` formatter.

Some behaviours of the code are easy to misread:
- **The remap worked through.** On a 1080x1920 frame shown on a 1080x2220 view, `resize` maps the record [1, 100, 200, 50, 80] as follows. x' = (1920 - 200 - 80) * 1080 / 1920 = 922.5 and h' = 50 * 2220 / 1080 ≈ 102.78. After truncation the record is [1, 922, 205, 45, 102] (`CameraActivity.ExampleFrame`).
- **Keypoint axes.** `main.cpp` swaps and mirrors keypoints the same way it does boxes, after removing the 80-row pad.
- **Zero frame sizes.** `Act.kt` does not check for a zero frame size. It divides in Float arithmetic, which gives infinities or NaN, and `toInt()` then saturates or yields 0. The model does not cover this case (see Left out).
- **Keypoint drawing.** `DetectionsView.onDraw` has no keypoint path. It draws every record of five or more entries as a box.

## Model

| member | source | states |
|---|---|---|
| NativeRun.ScaleX | cpp/src/internal/main.cpp:93 | the x scale factor times 480 is the view width params[1] |
| NativeRun.ScaleY | cpp/src/internal/main.cpp:94 | the y scale factor times 640 is the view height params[2] |
| NativeRun.KeypointRow | cpp/src/internal/main.cpp:133-148 | the keypoint row is either cleared or holds exactly 2 * 8 values |
| NativeRun.LevelBound | cpp/src/internal/main.cpp:114-121 | each grid level's cells follow the previous levels' cells, and all levels end at or before 8400 |
| NativeRun.NumCellsIsSumOfLevels | cpp/src/internal/main.cpp:114-121 | the scan covers 80^2 + 40^2 + 20^2 = 8400 positions |
| NativeRun.Letterbox | cpp/src/internal/main.cpp:71-81 | the result is a fresh 3x640x640 buffer; for every channel, row y + 80 equals source row y, and rows 0..79 and 560..639 hold 114 |
| NativeRun.DecodeBox | cpp/src/internal/main.cpp:99-108 | five values come out and the class id is shifted down by 1; the frame's left/right edges become the top/bottom edges scaled by params[2]/640; the bottom/top edges become the left/right edges, mirrored about 480 and scaled by params[1]/480 |
| NativeRun.DecodeBoxArea | cpp/src/internal/main.cpp:100-107 | rw * rh = w * h * scaleX * scaleY |
| NativeRun.Scan | cpp/src/internal/main.cpp:116-125 | the running best is either 0 (nothing taken) or the confidence of an earlier scanned cell that reaches 0.7 |
| NativeRun.ScanIsFirstMax | cpp/src/internal/main.cpp:119-132 | the scan finds nothing iff no cell reaches 0.7; otherwise it selects the first cell whose confidence is maximal among those reaching 0.7 |
| NativeRun.KeypointsAt | cpp/src/internal/main.cpp:126-129 | sixteen values; pair k of cell p is (out[5+2k][p], out[6+2k][p]) |
| NativeRun.RotateKeypoints | cpp/src/internal/main.cpp:137-144 | pair k becomes ((480 - (ky - 80)) * scaleX, kx * scaleY) |
| NativeRun.KeypointRowMeaning | cpp/src/internal/main.cpp:109-148 | the keypoint row is empty iff no confidence reaches 0.7; otherwise it comes from the first maximal cell, has 16 values, and pair k is ((480 - (ky - 80)) * scaleX, kx * scaleY) |
| NativeRun.CopyKeypoints | cpp/src/internal/main.cpp:126-129 | the best_kps buffer ends up holding exactly the 16 keypoint values of the given cell |
| NativeRun.VisitCell | cpp/src/internal/main.cpp:122-129 | one loop step advances the argmax state exactly as one more cell of the scan, and keeps best_kps equal to the best cell's keypoints |
| NativeRun.RotateBest | cpp/src/internal/main.cpp:133-145 | the push_back loop builds exactly the rotated keypoint list |
| NativeRun.ExtractKeypoints | cpp/src/internal/main.cpp:110-151 | the triple loop over levels and grid rows/columns (pos 0..8399 in order) returns the keypoint row of the first best cell, or an empty row |
| NativeRun.Run | cpp/src/internal/main.cpp:92-160 | one output row per network row; mode 1 decodes every row as a box; mode 2 puts the keypoint row in row 0 and leaves every other row empty; any other mode passes rows through unchanged |
| CameraActivity.ToInt | kotlin/com/computer/vision/Act.kt:169-172 | Float.toInt(): truncation toward zero inside the Int range, saturation outside it |
| CameraActivity.RemapReal | kotlin/com/computer/vision/Act.kt:162-172 | before truncation, the record's bottom/top edges become the left/right edges (mirrored about srcH, scaled by viewW/srcH) and its left/right edges become the top/bottom edges (scaled by viewH/srcW) |
| CameraActivity.RemapArea | kotlin/com/computer/vision/Act.kt:165-172 | the remapped area is the record's area times both scale factors |
| CameraActivity.RemapRecord | kotlin/com/computer/vision/Act.kt:163-173 | five entries, the class id passed through, then the truncated remapped x, y, w, h |
| CameraActivity.Resize | kotlin/com/computer/vision/Act.kt:159-175 | one five-entry record per input record, in order, with the class id unchanged; requires every record to have at least five entries |
| CameraActivity.ExampleFrame | kotlin/com/computer/vision/Act.kt:159-175 | on a 1080x1920 frame and a 1080x2220 view, [1, 100, 200, 50, 80] becomes [1, 922, 205, 45, 102] |
| CameraActivity.Frame.constructor | kotlin/com/computer/vision/Act.kt:135 | a frame carries its width and height and starts open |
| CameraActivity.Frame.Close | kotlin/com/computer/vision/Act.kt:137 | the frame is handed back |
| CameraActivity.FrameProcessor.constructor | kotlin/com/computer/vision/Act.kt:61 | the busy flag starts false |
| CameraActivity.FrameProcessor.ProcessImage | kotlin/com/computer/vision/Act.kt:135-157 | a frame is admitted iff the flag was clear; a dropped frame is closed and nothing else changes; an admitted frame is always closed; the flag is clear at the end, whether inference returns or throws; the overlay's records become the resized detections only when inference returned well-formed records and an overlay is registered, and are untouched otherwise |
| AccessibilityOverlay.Label | kotlin/com/computer/vision/Accessibility.kt:58-63 | the class name for ids 0..3, and "unknown" iff the id is not one of them |
| AccessibilityOverlay.LayoutLabel | kotlin/com/computer/vision/Accessibility.kt:91-106 | the background is 16 wider and taller than the text bounds and starts at x; it sits directly above the box when it fits and is pinned to y = 0 otherwise, so its top is never negative; the text is inset by 8 |
| AccessibilityOverlay.RecordOps | kotlin/com/computer/vision/Accessibility.kt:72-107 | three commands: the box (x, y, x + w, y + h) stroked in the class colour; the label background filled in that colour, with exactly the rectangle LayoutLabel places for the record's x, y and label; and the label text at LayoutLabel's text anchor |
| AccessibilityOverlay.Assign | kotlin/com/computer/vision/Accessibility.kt:77-79 | getOrPut: a known class keeps its colour and the counter stays; a new class gets Palette[counter % 9] and the counter advances by one; other entries are unchanged |
| AccessibilityOverlay.Drawable | kotlin/com/computer/vision/Accessibility.kt:70-71 | a record is kept iff it is in the input and has at least five entries; the kept records are no more than the input's |
| AccessibilityOverlay.PaintStep | kotlin/com/computer/vision/Accessibility.kt:70-107 | a record of fewer than five entries changes nothing; otherwise the class joins the colour map, old colours stay, and exactly the record's three commands are appended after the earlier ones |
| AccessibilityOverlay.Paint | kotlin/com/computer/vision/Accessibility.kt:70-108 | drawing a list keeps every known class and its colour, never decreases the counter, and issues at most three commands per record |
| AccessibilityOverlay.ShortRecordsSkipped | kotlin/com/computer/vision/Accessibility.kt:70-71 | drawing a list is the same as drawing only its records of five or more entries, with three commands for each |
| AccessibilityOverlay.NewClasses | kotlin/com/computer/vision/Accessibility.kt:77-79 | the classes seen for the first time are classes of the input that were not already in the map |
| AccessibilityOverlay.AssignAll | kotlin/com/computer/vision/Accessibility.kt:70-79 | after assignment the map holds exactly the old classes and the drawn ones, old colours unchanged, and the counter never decreases |
| AccessibilityOverlay.PaintAssignsClassIds | kotlin/com/computer/vision/Accessibility.kt:66-111 | drawing records changes the colour map and counter exactly as assigning their class ids in order |
| AccessibilityOverlay.ColorsByFirstAppearance | kotlin/com/computer/vision/Accessibility.kt:34-44 | the k-th class new to the map gets Palette[(n + k) % 9], where n is the starting counter, and the counter advances once per new class |
| AccessibilityOverlay.ColorStabilityExample | kotlin/com/computer/vision/Accessibility.kt:77-79 | classes first drawn in the order 3, 1, 3, 2 get red, green and blue, and the counter ends at 3 |
| AccessibilityOverlay.MalformedRecordExample | kotlin/com/computer/vision/Accessibility.kt:71 | a three-entry record is skipped and the next record is drawn in red |
| AccessibilityOverlay.DetectionsView.constructor | kotlin/com/computer/vision/Accessibility.kt:32-57 | empty records, empty colour map, counter 0 |
| AccessibilityOverlay.DetectionsView.OnDraw | kotlin/com/computer/vision/Accessibility.kt:66-111 | a clear, then the commands of every drawable record in order; the new colour map and counter are those of painting the records |
| AccessibilityOverlay.DetectionsView.OnDetachedFromWindow | kotlin/com/computer/vision/Accessibility.kt:113-117 | records and colour map are emptied; the counter is not reset |
| AccessibilityOverlay.AccessibilityService.constructor | kotlin/com/computer/vision/Accessibility.kt:135 | the service owns a fresh, empty view |
| AccessibilityOverlay.AccessibilityService.DrawDetections | kotlin/com/computer/vision/Accessibility.kt:150-156 | the view's records become exactly the given records, in order; colours and counter are untouched |
| LabelLetterbox.IsSpace | tools/letterbox.py:31 | space, tab, newline and carriage return are whitespace; no printable ASCII character is |
| LabelLetterbox.WordLength | tools/letterbox.py:31 | the length of the leading run of non-whitespace characters, ending at whitespace or at the end |
| LabelLetterbox.Split | tools/letterbox.py:31 | `strip().split()` yields non-empty fields without whitespace |
| LabelLetterbox.Join | tools/letterbox.py:72 | the joined line starts with the first field, followed by a space when more fields come |
| LabelLetterbox.SplitAtSpace | tools/letterbox.py:31 | splitting at any whitespace character splits the two sides independently, so repeated whitespace is one separator and leading or trailing whitespace adds no field |
| LabelLetterbox.WordLengthExtend | tools/letterbox.py:31 | text appended after a finished word does not lengthen it |
| LabelLetterbox.SplitDropsNewline | tools/letterbox.py:31 | the newline ending each line read by `readlines()` does not change the fields |
| LabelLetterbox.SplitJoin | tools/letterbox.py:72 | a single-space join of fields splits back into the same fields |
| LabelLetterbox.LetterboxGeometry | tools/letterbox.py:16-25 | the scale is min(640 / w, 640 / h); new_w and new_h are w * scale and h * scale truncated; the scale is positive; the resized image fits in 640x640 and fills one side; pad_top <= pad_bottom <= pad_top + 1; new_h + pad_top + pad_bottom = 640 |
| LabelLetterbox.CameraFrameGeometry | tools/letterbox.py:17-24 | for a 640x480 image: scale 1, size 640x480, 80 rows of padding above and below |
| LabelLetterbox.ParseAll | tools/letterbox.py:36 | `map(float, ...)` succeeds iff every token parses, and then yields their values in order |
| LabelLetterbox.AdjustValue | tools/letterbox.py:39-69 | at scale 1 with no padding every x value is unchanged; a non-negative value stays non-negative for a non-negative scale and padding |
| LabelLetterbox.AdjustValues | tools/letterbox.py:58-70 | one renormalised value per input value |
| LabelLetterbox.AdjustParts | tools/letterbox.py:31-72 | invalid iff fewer than 5 fields; ValueError iff some numeric field does not parse; IndexError iff every field parses but the number of keypoint values is odd; otherwise the class field is copied and each value is renormalised by its position |
| LabelLetterbox.AdjustedValues | tools/letterbox.py:39-69 | x, w and every keypoint x only scale; y and every keypoint y scale and are shifted by pad_top/640; h scales by 480/640 |
| LabelLetterbox.AdjustRoundTrip | tools/letterbox.py:39-69 | renormalising a value is undone by the inverse map, for every positive scale and every padding |
| LabelLetterbox.CameraLabelsInBand | tools/letterbox.py:39-69 | for a camera frame, normalised labels stay in [0, 1], and every y lands in the unpadded band [0.125, 0.875] |
| LabelLetterbox.OutputFieldCount | tools/letterbox.py:58-72 | a rewritten line has as many fields as the input line |
| LabelLetterbox.AdjustLabelLine | tools/letterbox.py:30-72 | the step-by-step renormalisation gives exactly the AdjustParts result: None, the raised error, or the rewritten line |
| LabelLetterbox.AdjustBoxFields | tools/letterbox.py:38-56 | the denormalise, scale, pad and normalise steps give the renormalised x, y, w and h |
| LabelLetterbox.AdjustPartsParsed | tools/letterbox.py:36-72 | once every field parses, the line raises IndexError iff the keypoint count is odd, and is otherwise the class followed by the renormalised values |
| LabelLetterbox.AssembleValues | tools/letterbox.py:58-70 | the renormalised box followed by the renormalised keypoints is the renormalised value list |
| LabelLetterbox.KeypointPairValues | tools/letterbox.py:64-67 | the kx and ky updates of one pass are the renormalisation of the pair's two values |
| LabelLetterbox.AppendPair | tools/letterbox.py:68 | appending the renormalised pair extends the renormalised prefix by two values |
| LabelLetterbox.Render | tools/letterbox.py:72 | the written line starts with the class field verbatim, followed by a space when values follow |
| LabelLetterbox.AdjustKeypointList | tools/letterbox.py:61-70 | the pairwise loop fails iff the count is odd; otherwise each keypoint is renormalised by its position |
| LabelLetterbox.Step | tools/letterbox.py:94-98 | a failed file stays failed; a raising line fails the file with its error; an invalid line changes nothing; kept lines stay kept, at most one line is added, and an adjusted line is added last |
| LabelLetterbox.KeptLines | tools/letterbox.py:94-98 | never more lines are written back than were read |
| LabelLetterbox.KeptLinesNext | tools/letterbox.py:95-97 | filtering one more line is one more Step on the filter of the lines before it |
| LabelLetterbox.KeptLinesFailAt | tools/letterbox.py:95-97 | a line that raises after lines that were all handled fails the whole file with its error |
| LabelLetterbox.KeptLinesAppend | tools/letterbox.py:94-98 | filtering a concatenation keeps the kept lines of both parts, in order |
| LabelLetterbox.KeptSingle | tools/letterbox.py:95-98 | one line is kept iff it is adjusted, dropped iff invalid, and stops the file iff it raises |
| LabelLetterbox.KeptLinesStopsAtError | tools/letterbox.py:95-98 | after a line raises, later lines change nothing |
| LabelLetterbox.KeptLinesFailsAfter | tools/letterbox.py:95-98 | a file raises if any later part of it raises |
| LabelLetterbox.KeptLinesFilter | tools/letterbox.py:94-98 | when no line raises, exactly the adjusted lines are kept, in original order; otherwise the file raises |
| LabelLetterbox.ProcessLines | tools/letterbox.py:94-98 | the `new_lines` loop computes exactly the filter's outcome |
| CrossChecks.PaddingAgrees | tools/letterbox.py:23-25 | `pad_top` for a 640x480 image is the 80-row pad of the native letterbox, and the two pads and the image fill 640 rows |
| CrossChecks.KeypointPaddingInverts | cpp/src/internal/main.cpp:139 | subtracting the native pad from a tool-adjusted keypoint y, in model-input pixels, gives the y in pixels of the 480-row frame |
| CrossChecks.BoxRotationAgrees | kotlin/com/computer/vision/Act.kt:165-172 | for corners on whole pixels of a 640x480 source, the native box decode equals the real-valued Kotlin remap before `toInt()` truncation |

## Left out

- `load` (ncnn and Vulkan configuration and model loading): foreign calls outside the model.
- The ncnn calls inside `run`: pixel conversion, mean/normalise, and the extractor. The network output `out` is an input.
- JNI array plumbing: get, release and new.
- The mismatch between the Kotlin declaration of the native call (integer arrays) and the exported function (float rows): each side is modelled on its own terms.
- NativeRun.ConfThreshold: the float literal 0.7f is modelled as the real 0.7. Float rounding and denormal flushing are not modelled; all arithmetic is exact over the reals.
- NativeRun.Run: mode 3 (instance segmentation) has an empty branch in the source, so it passes the raw row through like any unrecognised mode.
- CameraActivity.FrameProcessor.ProcessImage: requires positive frame sizes. With a zero size, Kotlin Float division produces an infinity or NaN that `toInt()` turns into a saturated value or 0; reals cannot express that.
- CameraActivity.RemapReal: requires positive frame sizes, for the same reason.
- CameraActivity.RemapRecord: requires positive frame sizes, for the same reason.
- CameraActivity.Resize: requires positive frame sizes, for the same reason.
- CameraActivity.FrameProcessor.ProcessImage: reading the frame's bytes is left out, and inference is a parameter (returned records, or threw).
- Concurrency: two frames can both be admitted, because the busy check and `set(true)` are separated by a coroutine launch. Also, `drawDetections` clears outside `synchronized`. The model is sequential and claims no mutual exclusion.
- AccessibilityOverlay.DetectionsView.OnDraw: canvas painting and the actual Paint objects are out of scope; the method returns the commands they would receive.
- AccessibilityOverlay.DetectionsView.OnDraw: text measurement is a parameter.
- AccessibilityOverlay.DetectionsView.OnDraw: colours are plain ARGB values, not Kotlin's signed Ints.
- AccessibilityOverlay.DetectionsView.OnDraw: the colour map is keyed by the class id, while the source keys by its decimal string. Int.toString is injective, so the two maps behave identically.
- AccessibilityOverlay.Assign: the counter is an unbounded `nat`. The source's AtomicInteger would wrap to negative after 2^31 new classes, and the `%` would then give a negative palette index.
- `postInvalidate`, the overlay window attachment, service lifecycle flags, the camera setup, the Compose UI and permission dialogs: Android framework code.
- `download` and `App.kt`: file I/O and declarations only.
- LabelLetterbox.LetterboxGeometry: requires positive image sizes. Python would raise ZeroDivisionError for an empty image; the tool only reads real image files.
- LabelLetterbox.Render: `f"{v:.6f}"` is a parameter. Its only assumed property is that each number formats as a single field.
- LabelLetterbox.AdjustLabelLine: `float()` is a parameter. The model does not pin down which strings Python accepts.
- cv2 resize, border, imread and imwrite; file reads and writes; the directory walk of `process_set`; `print`.
- `tools/visualize.py`: a UI viewer outside the model.
- `cpp/include/internal/main.h` holds only includes and a logging macro.
