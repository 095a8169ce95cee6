/**
 * Facts that tie the three layers together: the native decoder, the Kotlin remap
 * and the dataset tool all describe the same 640x480 camera frame letterboxed into a
 * 640x640 model input.
 */
module CrossChecks {
  import NativeRun
  import CameraActivity
  import LabelLetterbox

  /** The padding the native decoder removes is the padding the dataset tool adds. */
  lemma PaddingAgrees()
    ensures LabelLetterbox.LetterboxGeometry(NativeRun.FrameW, NativeRun.FrameH).padTop == NativeRun.Pad
    ensures LabelLetterbox.LetterboxGeometry(NativeRun.FrameW, NativeRun.FrameH).newH + 2 * NativeRun.Pad == NativeRun.InputH
  {
  }

  /**
   * A keypoint y written by the dataset tool for a camera frame, read back in pixels
   * of the model input, loses exactly the padding the native decoder subtracts before
   * rotating: what is left is the y in pixels of the 480-row frame.
   */
  lemma KeypointPaddingInverts(j: nat, v: real)
    requires j > 3 && j % 2 == 1
    ensures LabelLetterbox.AdjustValue(j, v, 1.0, NativeRun.Pad) * NativeRun.InputH as real - NativeRun.Pad as real
            == v * NativeRun.FrameH as real
  {
  }

  /**
   * The native box rotation and the Kotlin resize are the same quarter-turn map:
   * a detection whose corners lie on whole pixels of the 640x480 frame, decoded with
   * the view-size parameters, gives exactly the real-valued box resize computes for the
   * integer record [class, x, y, w, h] of a 640x480 source shown on that view.
   */
  lemma BoxRotationAgrees(row: seq<real>, d: seq<int>, viewW: int, viewH: int)
    requires |row| >= 6 && |d| >= 5
    requires row[2] * 640.0 == d[1] as real
    requires row[3] * 480.0 == d[2] as real
    requires row[4] * 640.0 - row[2] * 640.0 == d[3] as real
    requires row[5] * 480.0 - row[3] * 480.0 == d[4] as real
    ensures var r := NativeRun.DecodeBox(row, viewW as real / NativeRun.FrameH as real, viewH as real / NativeRun.FrameW as real);
            var b := CameraActivity.RemapReal(d, NativeRun.FrameW, NativeRun.FrameH, viewW, viewH);
            r[1..] == [b.x, b.y, b.w, b.h]
  {
    var sx := viewW as real / NativeRun.FrameH as real;
    var sy := viewH as real / NativeRun.FrameW as real;
    var r := NativeRun.DecodeBox(row, sx, sy);
    var b := CameraActivity.RemapReal(d, NativeRun.FrameW, NativeRun.FrameH, viewW, viewH);
    assert r[1] == (480.0 - d[2] as real - d[4] as real) * sx;
    assert r[3] == d[4] as real * sx;
    assert r[4] == d[3] as real * sy;
    assert r[2] == d[1] as real * sy;
    assert b.x == r[1] && b.y == r[2] && b.w == r[3] && b.h == r[4];
    assert r[1..] == [r[1], r[2], r[3], r[4]];
  }
}
