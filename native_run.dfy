/**
 * Post-processing done by the native `run` entry point (cpp/src/internal/main.cpp):
 * the 640x480 camera frame is letterboxed into a 640x640 buffer, the network is run
 * (not modelled: its output `out` is an input here), and every output row is turned
 * into one float row according to the mode in params[0]:
 *   1 = object detection (normalised corners -> rotated, scaled pixel box),
 *   2 = keypoint detection (best grid cell -> 8 rotated keypoints in row 0),
 *   anything else = the raw row.
 * Floats are modelled as mathematical reals.
 */
module NativeRun {

  // ---------------------------------------------------------------------------
  // Constants of the native code
  // ---------------------------------------------------------------------------

  const Channels: nat := 3
  const FrameW: nat := 640        // width of the camera frame and of the model input
  const FrameH: nat := 480        // height of the camera frame
  const InputH: nat := 640        // height of the square model input
  const Pad: nat := (640 - 480) / 2
  const FillValue: real := 114.0

  const NumKeypoints: nat := 8
  const NumLevels: nat := 3
  const LevelSizes: seq<nat> := [80, 40, 20]
  /** The float literal 0.7f; float rounding is not modelled. */
  const ConfThreshold: real := 0.7
  /** Row of `out` holding the per-cell confidence; keypoint rows follow it. */
  const ConfRow: nat := 4

  /** Number of grid cells of all levels before level `level`. */
  function LevelStart(level: nat): (n: nat)
    requires level <= NumLevels
  {
    if level == 0 then 0 else LevelStart(level - 1) + LevelSizes[level - 1] * LevelSizes[level - 1]
  }

  /** Number of grid cells scanned in keypoint mode: 80^2 + 40^2 + 20^2. */
  const NumCells: nat := 8400

  lemma LevelBound(level: nat)
    requires level < NumLevels
    ensures LevelStart(level) + LevelSizes[level] * LevelSizes[level] == LevelStart(level + 1) <= NumCells
  {
  }

  lemma NumCellsIsSumOfLevels()
    ensures NumCells == LevelStart(NumLevels)
    ensures NumCells == LevelSizes[0] * LevelSizes[0] + LevelSizes[1] * LevelSizes[1] + LevelSizes[2] * LevelSizes[2]
  {
  }

  // ---------------------------------------------------------------------------
  // Letterbox copy
  // ---------------------------------------------------------------------------

  /** The value the letterboxed buffer must hold at (c, y, x). */
  ghost function LetterboxedAt(original: array3<real>, c: nat, y: nat, x: nat): real
    reads original
    requires c < original.Length0 && x < original.Length2 && original.Length1 == FrameH
  {
    if Pad <= y < Pad + FrameH then original[c, y - Pad, x] else FillValue
  }

  /**
   * Fills a 3x640x640 buffer with 114 and copies every row y of every channel of
   * the 3x480x640 frame into row y + Pad.
   */
  method Letterbox(original: array3<real>) returns (letterboxed: array3<real>)
    requires original.Length0 == Channels && original.Length1 == FrameH && original.Length2 == FrameW
    ensures fresh(letterboxed)
    ensures letterboxed.Length0 == Channels && letterboxed.Length1 == InputH && letterboxed.Length2 == FrameW
    ensures forall c, y, x :: 0 <= c < Channels && 0 <= y < FrameH && 0 <= x < FrameW ==>
              letterboxed[c, y + Pad, x] == original[c, y, x]
    ensures forall c, y, x :: 0 <= c < Channels && 0 <= x < FrameW && (0 <= y < Pad || Pad + FrameH <= y < InputH) ==>
              letterboxed[c, y, x] == FillValue
  {
    letterboxed := new real[Channels, InputH, FrameW]((c, y, x) => FillValue);
    for c := 0 to Channels
      invariant forall c', y', x' :: 0 <= c' < c && 0 <= y' < InputH && 0 <= x' < FrameW ==>
                  letterboxed[c', y', x'] == LetterboxedAt(original, c', y', x')
      invariant forall c', y', x' :: c <= c' < Channels && 0 <= y' < InputH && 0 <= x' < FrameW ==>
                  letterboxed[c', y', x'] == FillValue
    {
      for y := 0 to FrameH
        invariant forall c', y', x' :: 0 <= c' < c && 0 <= y' < InputH && 0 <= x' < FrameW ==>
                    letterboxed[c', y', x'] == LetterboxedAt(original, c', y', x')
        invariant forall c', y', x' :: c < c' < Channels && 0 <= y' < InputH && 0 <= x' < FrameW ==>
                    letterboxed[c', y', x'] == FillValue
        invariant forall y', x' :: 0 <= y' < Pad + y && 0 <= x' < FrameW ==>
                    letterboxed[c, y', x'] == LetterboxedAt(original, c, y', x')
        invariant forall y', x' :: Pad + y <= y' < InputH && 0 <= x' < FrameW ==>
                    letterboxed[c, y', x'] == FillValue
      {
        // the memcpy of one 640-float row
        forall x | 0 <= x < FrameW {
          letterboxed[c, y + Pad, x] := original[c, y, x];
        }
      }
    }
  }

  // ---------------------------------------------------------------------------
  // Box mode
  // ---------------------------------------------------------------------------

  /** scaleX = params[1] / 480 and scaleY = params[2] / 640. */
  function ScaleX(params: seq<int>): (s: real)
    requires |params| >= 3
    // the 480 rows of the frame span the params[1] pixels of the view's width
    ensures s * 480.0 == params[1] as real
  {
    params[1] as real / FrameH as real
  }

  function ScaleY(params: seq<int>): (s: real)
    requires |params| >= 3
    // the 640 columns of the frame span the params[2] pixels of the view's height
    ensures s * 640.0 == params[2] as real
  {
    params[2] as real / FrameW as real
  }

  /**
   * Box decode of one output row [class+1, score, x1, y1, x2, y2] (corners normalised
   * to the 640x480 frame): the pixel box is rotated by 90 degrees, mirrored and scaled,
   * and the class id is shifted down by one.
   */
  function DecodeBox(row: seq<real>, scaleX: real, scaleY: real): (r: seq<real>)
    requires |row| >= 6
    ensures |r| == 5
    ensures r[0] == row[0] - 1.0
    // the frame's left edge (x1) becomes the top edge, its right edge (x2) the bottom edge
    ensures r[2] == row[2] * FrameW as real * scaleY
    ensures r[2] + r[4] == row[4] * FrameW as real * scaleY
    // the frame's top edge (y1) becomes the right edge, the bottom edge (y2) the left edge
    ensures r[1] + r[3] == (FrameH as real - row[3] * FrameH as real) * scaleX
    ensures r[1] == (FrameH as real - row[5] * FrameH as real) * scaleX
  {
    var x := row[2] * 640.0;
    var y := row[3] * 480.0;
    var w := row[4] * 640.0 - x;
    var h := row[5] * 480.0 - y;
    var rx := (480.0 - y - h) * scaleX;
    var ry := x * scaleY;
    var rw := h * scaleX;
    var rh := w * scaleY;
    [row[0] - 1.0, rx, ry, rw, rh]
  }

  /** The decoded box's area is the pixel box's area times both scale factors. */
  lemma DecodeBoxArea(row: seq<real>, scaleX: real, scaleY: real)
    requires |row| >= 6
    ensures var w := row[4] * 640.0 - row[2] * 640.0;
            var h := row[5] * 480.0 - row[3] * 480.0;
            var r := DecodeBox(row, scaleX, scaleY);
            r[3] * r[4] == w * h * scaleX * scaleY
  {
  }

  // ---------------------------------------------------------------------------
  // Keypoint mode
  // ---------------------------------------------------------------------------

  /** `out` has the keypoint head's shape: a confidence row and 16 keypoint rows over all cells. */
  predicate KeypointShaped(out: seq<seq<real>>)
  {
    |out| >= ConfRow + 1 + 2 * NumKeypoints &&
    forall r :: ConfRow <= r < ConfRow + 1 + 2 * NumKeypoints ==> |out[r]| >= NumCells
  }

  /**
   * State of the argmax scan after the first n cells: the best confidence so far
   * (0 while nothing qualified) and the cell it came from. A cell is taken when its
   * confidence is above the best so far and at least the threshold.
   */
  function Scan(conf: seq<real>, n: nat): (best: (real, nat))
    requires n <= |conf|
    ensures best.0 == 0.0 || (best.1 < n && best.0 == conf[best.1] && best.0 >= ConfThreshold)
  {
    if n == 0 then (0.0, 0)
    else
      var prev := Scan(conf, n - 1);
      if conf[n - 1] <= prev.0 || conf[n - 1] < ConfThreshold then prev else (conf[n - 1], n - 1)
  }

  /** p is the first of the first n cells whose confidence is maximal among those reaching the threshold. */
  ghost predicate IsFirstMax(conf: seq<real>, n: nat, p: nat)
    requires n <= |conf|
  {
    && p < n
    && conf[p] >= ConfThreshold
    && (forall q :: 0 <= q < n && conf[q] >= ConfThreshold ==> conf[q] <= conf[p])
    && (forall q :: 0 <= q < p && conf[q] >= ConfThreshold ==> conf[q] < conf[p])
  }

  /** The scan finds nothing exactly when no cell reaches the threshold, and otherwise the first maximum. */
  lemma {:induction false} ScanIsFirstMax(conf: seq<real>, n: nat)
    requires n <= |conf|
    ensures Scan(conf, n).0 == 0.0 <==> forall q :: 0 <= q < n ==> conf[q] < ConfThreshold
    ensures Scan(conf, n).0 != 0.0 ==> IsFirstMax(conf, n, Scan(conf, n).1) && Scan(conf, n).0 == conf[Scan(conf, n).1]
  {
    if n > 0 {
      ScanIsFirstMax(conf, n - 1);
    }
  }

  /** The 16 keypoint values of cell p: best_kps[j] = out.row(5 + j)[p]. */
  function KeypointsAt(out: seq<seq<real>>, p: nat): (kps: seq<real>)
    requires KeypointShaped(out) && p < NumCells
    ensures |kps| == 2 * NumKeypoints
    ensures forall k :: 0 <= k < NumKeypoints ==>
              kps[2 * k] == out[ConfRow + 1 + 2 * k][p] && kps[2 * k + 1] == out[ConfRow + 2 + 2 * k][p]
  {
    seq(2 * NumKeypoints, j requires 0 <= j < 2 * NumKeypoints => out[ConfRow + 1 + j][p])
  }

  /** Keypoint k = (kx, ky) in the padded frame becomes ((480 - (ky - Pad)) * scaleX, kx * scaleY). */
  function RotateKeypoints(kps: seq<real>, scaleX: real, scaleY: real): (r: seq<real>)
    requires |kps| == 2 * NumKeypoints
    ensures |r| == 2 * NumKeypoints
    ensures forall k :: 0 <= k < NumKeypoints ==>
              r[2 * k] == (FrameH as real - (kps[2 * k + 1] - Pad as real)) * scaleX && r[2 * k + 1] == kps[2 * k] * scaleY
  {
    seq(2 * NumKeypoints, j requires 0 <= j < 2 * NumKeypoints =>
      if j % 2 == 0 then (FrameH as real - (kps[j + 1] - Pad as real)) * scaleX else kps[j - 1] * scaleY)
  }

  /** Row 0 of the keypoint-mode output. */
  ghost function KeypointRow(out: seq<seq<real>>, scaleX: real, scaleY: real): (r: seq<real>)
    requires KeypointShaped(out)
    ensures r == [] || |r| == 2 * NumKeypoints
  {
    var best := Scan(out[ConfRow], NumCells);
    if best.0 > 0.0 then RotateKeypoints(KeypointsAt(out, best.1), scaleX, scaleY) else []
  }

  /** The keypoint row is empty when no cell is confident enough, else the rotated keypoints of the first best cell. */
  lemma KeypointRowMeaning(out: seq<seq<real>>, scaleX: real, scaleY: real)
    requires KeypointShaped(out)
    ensures KeypointRow(out, scaleX, scaleY) == [] <==> forall q :: 0 <= q < NumCells ==> out[ConfRow][q] < ConfThreshold
    ensures var row := KeypointRow(out, scaleX, scaleY);
            var p := Scan(out[ConfRow], NumCells).1;
            row != [] ==>
              && IsFirstMax(out[ConfRow], NumCells, p)
              && |row| == 2 * NumKeypoints
              && forall k :: 0 <= k < NumKeypoints ==>
                   row[2 * k] == (FrameH as real - (out[ConfRow + 2 + 2 * k][p] - Pad as real)) * scaleX &&
                   row[2 * k + 1] == out[ConfRow + 1 + 2 * k][p] * scaleY
  {
    ScanIsFirstMax(out[ConfRow], NumCells);
    var best := Scan(out[ConfRow], NumCells);
    if best.0 > 0.0 {
      assert KeypointRow(out, scaleX, scaleY) == RotateKeypoints(KeypointsAt(out, best.1), scaleX, scaleY);
    }
  }

  lemma GridStep(base: nat, gy: nat, gx: nat, s: nat)
    requires gy < s && gx < s
    ensures base + gy * s + gx < base + s * s
    ensures base + gy * s + s == base + (gy + 1) * s
  {
  }

  /** best_kps[j] := out.row(5 + j)[pos] for the 16 keypoint values of cell pos. */
  method CopyKeypoints(out: seq<seq<real>>, pos: nat, bestKps: array<real>)
    requires KeypointShaped(out) && pos < NumCells && bestKps.Length == 2 * NumKeypoints
    modifies bestKps
    ensures bestKps[..] == KeypointsAt(out, pos)
  {
    for k := 0 to NumKeypoints
      invariant forall j :: 0 <= j < 2 * k ==> bestKps[j] == out[ConfRow + 1 + j][pos]
    {
      bestKps[k * 2] := out[ConfRow + 1 + k * 2][pos];
      bestKps[k * 2 + 1] := out[ConfRow + 2 + k * 2][pos];
    }
  }

  /**
   * One step of the scan at cell pos: the cell is skipped when its confidence is at
   * most the best so far or below the threshold, else it becomes the best.
   */
  method VisitCell(out: seq<seq<real>>, pos: nat, bestConf: real, bestKps: array<real>, ghost bestPos: nat)
    returns (newConf: real, ghost newPos: nat)
    requires KeypointShaped(out) && pos < NumCells && bestKps.Length == 2 * NumKeypoints
    requires (bestConf, bestPos) == Scan(out[ConfRow], pos)
    requires bestConf > 0.0 ==> bestPos < NumCells && bestKps[..] == KeypointsAt(out, bestPos)
    modifies bestKps
    ensures (newConf, newPos) == Scan(out[ConfRow], pos + 1)
    ensures newConf > 0.0 ==> newPos < NumCells && bestKps[..] == KeypointsAt(out, newPos)
  {
    var conf := out[ConfRow][pos];
    newConf, newPos := bestConf, bestPos;
    if conf <= bestConf || conf < ConfThreshold {
      return;
    }
    newConf, newPos := conf, pos;
    CopyKeypoints(out, pos, bestKps);
  }

  /** keypoints.push_back((480 - (ky - pad)) * scaleX, kx * scaleY) for the 8 keypoints. */
  method RotateBest(bestKps: seq<real>, scaleX: real, scaleY: real) returns (keypoints: seq<real>)
    requires |bestKps| == 2 * NumKeypoints
    ensures keypoints == RotateKeypoints(bestKps, scaleX, scaleY)
  {
    keypoints := [];
    for k := 0 to NumKeypoints
      invariant |keypoints| == 2 * k
      invariant forall j :: 0 <= j < 2 * k ==> keypoints[j] == RotateKeypoints(bestKps, scaleX, scaleY)[j]
    {
      var px := bestKps[k * 2];
      var py := bestKps[k * 2 + 1] - Pad as real;
      var rotatedX := (480.0 - py) * scaleX;
      var rotatedY := px * scaleY;
      keypoints := keypoints + [rotatedX, rotatedY];
    }
  }

  /**
   * The keypoint branch for output row 0: scans all 80x80 + 40x40 + 20x20 cells in
   * order (pos counts 0 .. 8399) keeping the best confident cell's keypoints, then
   * rotates them; the row is empty when no cell qualified.
   */
  method ExtractKeypoints(out: seq<seq<real>>, scaleX: real, scaleY: real) returns (processed: seq<real>)
    requires KeypointShaped(out)
    ensures processed == KeypointRow(out, scaleX, scaleY)
  {
    var bestConf := 0.0;
    var bestKps := new real[2 * NumKeypoints];
    ghost var bestPos: nat := 0;
    var pos: nat := 0;
    for level := 0 to NumLevels
      invariant pos == LevelStart(level) <= NumCells
      invariant (bestConf, bestPos) == Scan(out[ConfRow], pos)
      invariant bestConf > 0.0 ==> bestPos < NumCells && bestKps[..] == KeypointsAt(out, bestPos)
    {
      var s := LevelSizes[level];
      LevelBound(level);
      for gy := 0 to s
        invariant pos == LevelStart(level) + gy * s
        invariant (bestConf, bestPos) == Scan(out[ConfRow], pos)
        invariant bestConf > 0.0 ==> bestPos < NumCells && bestKps[..] == KeypointsAt(out, bestPos)
      {
        for gx := 0 to s
          invariant pos == LevelStart(level) + gy * s + gx
          invariant (bestConf, bestPos) == Scan(out[ConfRow], pos)
          invariant bestConf > 0.0 ==> bestPos < NumCells && bestKps[..] == KeypointsAt(out, bestPos)
        {
          GridStep(LevelStart(level), gy, gx, s);
          bestConf, bestPos := VisitCell(out, pos, bestConf, bestKps, bestPos);
          pos := pos + 1;
        }
        GridStep(LevelStart(level), gy, 0, s);
      }
    }
    NumCellsIsSumOfLevels();
    if bestConf > 0.0 {
      processed := RotateBest(bestKps[..], scaleX, scaleY);
    } else {
      processed := [];
    }
  }

  // ---------------------------------------------------------------------------
  // Mode dispatch and row packing
  // ---------------------------------------------------------------------------

  /** What each mode reads from `out` without checking. */
  predicate WellShaped(out: seq<seq<real>>, mode: int)
  {
    && (mode == 1 ==> forall i :: 0 <= i < |out| ==> |out[i]| >= 6)
    && (mode == 2 && |out| > 0 ==> KeypointShaped(out))
  }

  /**
   * The per-row loop of `run`: one float row for each of the out.h rows of the
   * network output, chosen by the mode in params[0].
   */
  method Run(out: seq<seq<real>>, params: seq<int>) returns (rows: seq<seq<real>>)
    requires |params| >= 3
    requires WellShaped(out, params[0])
    ensures |rows| == |out|
    ensures params[0] == 1 ==> forall i :: 0 <= i < |out| ==> rows[i] == DecodeBox(out[i], ScaleX(params), ScaleY(params))
    ensures params[0] == 2 && |out| > 0 ==> rows[0] == KeypointRow(out, ScaleX(params), ScaleY(params))
    ensures params[0] == 2 ==> forall i :: 0 < i < |out| ==> rows[i] == []
    ensures params[0] != 1 && params[0] != 2 ==> rows == out
  {
    rows := [];
    var scaleX := ScaleX(params);
    var scaleY := ScaleY(params);
    for i := 0 to |out|
      invariant |rows| == i
      invariant params[0] == 1 ==> forall j :: 0 <= j < i ==> rows[j] == DecodeBox(out[j], scaleX, scaleY)
      invariant params[0] == 2 && i > 0 ==> rows[0] == KeypointRow(out, scaleX, scaleY)
      invariant params[0] == 2 ==> forall j :: 0 < j < i ==> rows[j] == []
      invariant params[0] != 1 && params[0] != 2 ==> rows == out[..i]
    {
      var processed := out[i];
      if params[0] == 1 {
        processed := DecodeBox(out[i], scaleX, scaleY);
      } else if params[0] == 2 {
        if i == 0 {
          processed := ExtractKeypoints(out, scaleX, scaleY);
        } else {
          processed := [];
        }
      } else if params[0] == 3 {
        // instance segmentation: the raw row is passed through
      }
      rows := rows + [processed];
    }
    assert params[0] != 1 && params[0] != 2 ==> out[..|out|] == out;
  }
}
