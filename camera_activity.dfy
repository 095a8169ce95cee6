/**
 * The camera activity's per-frame path (kotlin/com/computer/vision/Act.kt):
 * `processImage` drops a frame while a previous one is being processed, otherwise
 * runs inference on it, remaps the integer box records from the sensor frame onto
 * the preview surface with `resize`, and hands them to the overlay, closing the frame
 * and clearing the busy flag whether inference succeeded or threw.
 *
 * Kotlin Float arithmetic is modelled with reals; `Float.toInt()` is modelled exactly
 * (truncation toward zero, saturating at the 32-bit bounds).
 */
module CameraActivity {
  import AccessibilityOverlay

  // ---------------------------------------------------------------------------
  // Float.toInt()
  // ---------------------------------------------------------------------------

  const IntMin: int := -0x8000_0000
  const IntMax: int := 0x7FFF_FFFF

  /** Kotlin Float.toInt(): rounds toward zero and saturates at Int.MIN_VALUE / Int.MAX_VALUE. */
  function ToInt(v: real): (n: int)
    ensures IntMin <= n <= IntMax
    ensures IntMin as real < v < IntMax as real ==> (v >= 0.0 ==> n as real <= v < n as real + 1.0)
    ensures IntMin as real < v < IntMax as real ==> (v < 0.0 ==> n as real - 1.0 < v <= n as real)
    ensures v >= IntMax as real ==> n == IntMax
    ensures v <= IntMin as real ==> n == IntMin
  {
    if v >= IntMax as real then IntMax
    else if v <= IntMin as real then IntMin
    else if v >= 0.0 then v.Floor
    else -((-v).Floor)
  }

  // ---------------------------------------------------------------------------
  // resize
  // ---------------------------------------------------------------------------

  /** A box over the reals: left, top, width, height. */
  datatype Box = Box(x: real, y: real, w: real, h: real)

  /**
   * The geometry of resize before truncation for a record d = [classId, x, y, w, h]
   * of a srcW x srcH sensor frame shown on a viewW x viewH preview: the frame is
   * turned a quarter turn, so the record's height runs along the preview's x axis.
   */
  function RemapReal(d: seq<int>, srcW: int, srcH: int, viewW: int, viewH: int): (b: Box)
    requires |d| >= 5 && srcW > 0 && srcH > 0
    // the record's bottom edge becomes the left edge, its top edge the right edge
    ensures b.x == (srcH as real - (d[2] + d[4]) as real) * (viewW as real / srcH as real)
    ensures b.x + b.w == (srcH as real - d[2] as real) * (viewW as real / srcH as real)
    // the record's left edge becomes the top edge, its right edge the bottom edge
    ensures b.y == d[1] as real * (viewH as real / srcW as real)
    ensures b.y + b.h == (d[1] + d[3]) as real * (viewH as real / srcW as real)
  {
    var sourceHeight := srcH as real;
    var scaleX := viewW as real / sourceHeight;
    var scaleY := viewH as real / srcW as real;
    Box((sourceHeight - d[2] as real - d[4] as real) * scaleX,
        d[1] as real * scaleY,
        d[4] as real * scaleX,
        d[3] as real * scaleY)
  }

  /** The remapped box's area is the record's area times both scale factors. */
  lemma RemapArea(d: seq<int>, srcW: int, srcH: int, viewW: int, viewH: int)
    requires |d| >= 5 && srcW > 0 && srcH > 0
    ensures var b := RemapReal(d, srcW, srcH, viewW, viewH);
            b.w * b.h == (d[3] * d[4]) as real * (viewW as real / srcH as real) * (viewH as real / srcW as real)
  {
  }

  /** The integer record resize produces from one detection. */
  function RemapRecord(d: seq<int>, srcW: int, srcH: int, viewW: int, viewH: int): (r: seq<int>)
    requires |d| >= 5 && srcW > 0 && srcH > 0
    ensures |r| == 5 && r[0] == d[0]
    ensures var b := RemapReal(d, srcW, srcH, viewW, viewH);
            r[1..] == [ToInt(b.x), ToInt(b.y), ToInt(b.w), ToInt(b.h)]
  {
    var b := RemapReal(d, srcW, srcH, viewW, viewH);
    [d[0], ToInt(b.x), ToInt(b.y), ToInt(b.w), ToInt(b.h)]
  }

  /** resize: one five-entry record per detection, in the same order. */
  function Resize(ds: seq<seq<int>>, srcW: int, srcH: int, viewW: int, viewH: int): (r: seq<seq<int>>)
    requires srcW > 0 && srcH > 0
    requires AccessibilityOverlay.AllDrawable(ds)
    ensures |r| == |ds|
    ensures forall i :: 0 <= i < |r| ==> |r[i]| == 5 && r[i][0] == ds[i][0]
    ensures forall i :: 0 <= i < |r| ==> r[i] == RemapRecord(ds[i], srcW, srcH, viewW, viewH)
  {
    seq(|ds|, i requires 0 <= i < |ds| => RemapRecord(ds[i], srcW, srcH, viewW, viewH))
  }

  /**
   * A 1080 x 1920 sensor frame on a 1080 x 2220 preview: [1, 100, 200, 50, 80] becomes
   * (1920 - 200 - 80) * 1080/1920 = 922.5, 100 * 2220/1080 = 205.5..., 80 * 1080/1920 = 45
   * and 50 * 2220/1080 = 102.7..., truncated.
   */
  lemma ExampleFrame()
    ensures Resize([[1, 100, 200, 50, 80]], 1080, 1920, 1080, 2220) == [[1, 922, 205, 45, 102]]
  {
    var d := [1, 100, 200, 50, 80];
    var b := RemapReal(d, 1080, 1920, 1080, 2220);
    assert b.x == 922.5;
    assert b.w == 45.0;
    assert 205.0 <= b.y < 206.0;
    assert 102.0 <= b.h < 103.0;
    assert Resize([d], 1080, 1920, 1080, 2220)[0] == [1, 922, 205, 45, 102];
  }

  // ---------------------------------------------------------------------------
  // processImage
  // ---------------------------------------------------------------------------

  /** A camera frame (ImageProxy): its size and whether it has been handed back. */
  class Frame {
    const width: int
    const height: int
    var closed: bool

    constructor (width: int, height: int)
      ensures this.width == width && this.height == height && !closed
    {
      this.width := width;
      this.height := height;
      closed := false;
    }

    method Close()
      modifies this
      ensures closed
    {
      closed := true;
    }
  }

  /** What the native inference call did: returned detection records, or threw. */
  datatype Inference = Returned(detections: seq<seq<int>>) | Threw

  /** Whether processing a frame ends with records handed to the overlay. */
  predicate Delivers(inference: Inference)
  {
    inference.Returned? && AccessibilityOverlay.AllDrawable(inference.detections)
  }

  class FrameProcessor {
    var isProcessing: bool

    constructor ()
      ensures !isProcessing
    {
      isProcessing := false;
    }

    /**
     * processImage: a frame arriving while busy is closed and nothing else happens.
     * Otherwise the busy flag is set, inference runs, and when it returns, the overlay
     * (if one is registered) gets the resized records; a record too short for resize
     * throws, which is caught like an inference failure. On every admitted path the
     * frame is closed and the busy flag cleared at the end.
     */
    method ProcessImage(frame: Frame, viewW: int, viewH: int, inference: Inference,
                        overlay: AccessibilityOverlay.AccessibilityService?) returns (admitted: bool)
      requires frame.width > 0 && frame.height > 0
      modifies this, frame, if overlay == null then {} else {overlay.view}
      ensures admitted == !old(isProcessing)
      ensures frame.closed
      ensures admitted ==> !isProcessing
      ensures !admitted ==> isProcessing == old(isProcessing)
      ensures overlay != null ==>
                && overlay.view.colorMap == old(overlay.view.colorMap)
                && overlay.view.colorIndex == old(overlay.view.colorIndex)
      ensures overlay != null && admitted && Delivers(inference) ==>
                overlay.view.detections == Resize(inference.detections, frame.width, frame.height, viewW, viewH)
      ensures overlay != null && !(admitted && Delivers(inference)) ==>
                overlay.view.detections == old(overlay.view.detections)
    {
      if isProcessing {
        frame.Close();
        return false;
      }
      admitted := true;
      isProcessing := true;
      // try
      match inference {
        case Threw =>
          // caught and logged
        case Returned(detections) =>
          if overlay != null {
            // `accessibility.get()?.drawDetections(resize(...))`: resize reads entries 0..4
            // of every record and throws on a shorter one
            if AccessibilityOverlay.AllDrawable(detections) {
              var resized := Resize(detections, frame.width, frame.height, viewW, viewH);
              overlay.DrawDetections(resized);
            }
          }
      }
      // finally
      frame.Close();
      isProcessing := false;
    }
  }
}
