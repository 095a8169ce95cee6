/**
 * The always-on-top overlay of the accessibility service
 * (kotlin/com/computer/vision/Accessibility.kt): `DetectionsView` keeps the current
 * detection records, a lazily built class -> colour map and a colour counter, and on
 * each draw turns every record with at least five entries [classId, x, y, w, h] into a
 * stroked box, a filled label background and a label text. `AccessibilityService`
 * replaces the view's records wholesale.
 *
 * Canvas painting is modelled by the list of drawing commands it would issue;
 * measuring the label text is a parameter.
 */
module AccessibilityOverlay {

  // ---------------------------------------------------------------------------
  // Constants of the view
  // ---------------------------------------------------------------------------

  /** android.graphics.Color constants as 32-bit ARGB values. */
  const Red: int := 0xFFFF_0000
  const Green: int := 0xFF00_FF00
  const Blue: int := 0xFF00_00FF
  const Yellow: int := 0xFFFF_FF00
  const Cyan: int := 0xFF00_FFFF
  const Magenta: int := 0xFFFF_00FF
  const White: int := 0xFFFF_FFFF
  const LightGray: int := 0xFFCC_CCCC
  const DarkGray: int := 0xFF44_4444

  /** The cyclic palette new classes take their colours from. */
  const Palette: seq<int> := [Red, Green, Blue, Yellow, Cyan, Magenta, White, LightGray, DarkGray]

  const ClassNames: map<int, string> := map[0 := "steve", 1 := "sword", 2 := "dirt", 3 := "enderman"]
  const UnknownLabel: string := "unknown"

  /** Padding added around the measured text, and the text's inset inside it. */
  const LabelPadding: real := 16.0
  const TextInset: real := 8.0

  /** Minimum number of entries a record needs to be drawn. */
  const BoxFields: nat := 5

  // ---------------------------------------------------------------------------
  // Drawing commands
  // ---------------------------------------------------------------------------

  datatype Rect = Rect(left: real, top: real, right: real, bottom: real)

  /** The pixel bounds `Paint.getTextBounds` reports for a label. */
  datatype TextBounds = TextBounds(width: int, height: int)

  datatype DrawOp =
    | Clear                                   // drawColor(TRANSPARENT, CLEAR)
    | StrokeRect(rect: Rect, color: int)      // the detection box
    | FillRect(rect: Rect, color: int)        // the label background
    | DrawText(text: string, x: real, y: real) // the label, at its baseline anchor

  /** The label shown for a class id: its name, or "unknown" for an unrecognised id. */
  function Label(classId: int): (name: string)
    ensures classId in ClassNames ==> name == ClassNames[classId]
    ensures name == UnknownLabel <==> classId !in ClassNames
  {
    if classId in ClassNames then ClassNames[classId] else UnknownLabel
  }

  datatype LabelLayout = LabelLayout(background: Rect, textX: real, textY: real)

  /**
   * Where the label of a box whose top-left corner is (x, y) goes: a background
   * 16 pixels wider and taller than the text, just above the box but never above
   * the top of the surface, with the text inset by 8 pixels.
   */
  function LayoutLabel(x: real, y: real, bounds: TextBounds): (l: LabelLayout)
    ensures l.background.left == x
    ensures l.background.right - l.background.left == bounds.width as real + LabelPadding
    ensures l.background.bottom - l.background.top == bounds.height as real + LabelPadding
    ensures l.background.top >= 0.0
    // directly above the box when it fits, else pinned to the top edge
    ensures y >= bounds.height as real + LabelPadding ==> l.background.bottom == y
    ensures y < bounds.height as real + LabelPadding ==> l.background.top == 0.0
    ensures l.textX == l.background.left + TextInset && l.textY == l.background.bottom - TextInset
  {
    var textWidth := bounds.width as real + 16.0;
    var textHeight := bounds.height as real + 16.0;
    var labelY := if y - textHeight < 0.0 then 0.0 else y - textHeight;
    LabelLayout(Rect(x, labelY, x + textWidth, labelY + textHeight), x + 8.0, labelY + textHeight - 8.0)
  }

  /** The three commands that draw one record of at least five entries in colour `color`. */
  function RecordOps(d: seq<int>, color: int, measure: string -> TextBounds): (ops: seq<DrawOp>)
    requires |d| >= BoxFields
    ensures |ops| == 3
    ensures ops[0].StrokeRect? && ops[0].color == color
    ensures ops[0].rect.left == d[1] as real && ops[0].rect.top == d[2] as real
    ensures ops[0].rect.right - ops[0].rect.left == d[3] as real
    ensures ops[0].rect.bottom - ops[0].rect.top == d[4] as real
    ensures ops[1].FillRect? && ops[1].color == color && ops[1].rect.top >= 0.0
    ensures ops[2].DrawText? && ops[2].text == Label(d[0])
    // the label background and text go where LayoutLabel puts them for the measured label
    ensures var l := LayoutLabel(d[1] as real, d[2] as real, measure(Label(d[0])));
            ops[1].rect == l.background && ops[2].x == l.textX && ops[2].y == l.textY
  {
    var x := d[1] as real;
    var y := d[2] as real;
    var name := Label(d[0]);
    var layout := LayoutLabel(x, y, measure(name));
    [StrokeRect(Rect(x, y, x + d[3] as real, y + d[4] as real), color),
     FillRect(layout.background, color),
     DrawText(name, layout.textX, layout.textY)]
  }

  // ---------------------------------------------------------------------------
  // Lazy colour assignment
  // ---------------------------------------------------------------------------

  datatype Assignment = Assignment(colors: map<int, int>, nextIndex: nat, color: int)

  /** getOrPut on the colour map, taking colors[colorIndex++ % 9] for a class seen first. */
  function Assign(colors: map<int, int>, nextIndex: nat, classId: int): (a: Assignment)
    ensures a.colors.Keys == colors.Keys + {classId}
    ensures a.color == a.colors[classId]
    ensures forall id :: id in colors ==> a.colors[id] == colors[id]
    ensures classId in colors ==> a.nextIndex == nextIndex
    ensures classId !in colors ==> a.nextIndex == nextIndex + 1 && a.color == Palette[nextIndex % |Palette|]
  {
    if classId in colors then Assignment(colors, nextIndex, colors[classId])
    else
      var c := Palette[nextIndex % |Palette|];
      Assignment(colors[classId := c], nextIndex + 1, c)
  }

  /** The class-to-colour map and the colour counter. */
  datatype ColorState = ColorState(colors: map<int, int>, nextIndex: nat)

  datatype PaintState = PaintState(ops: seq<DrawOp>, colors: map<int, int>, nextIndex: nat)

  /** Drawing one more record d after state s. */
  function PaintStep(s: PaintState, d: seq<int>, measure: string -> TextBounds): (r: PaintState)
    ensures |d| < BoxFields ==> r == s
    ensures |d| >= BoxFields ==> r.colors.Keys == s.colors.Keys + {d[0]}
    // a drawn record appends its three commands, in the colour its class now has
    ensures |d| >= BoxFields ==>
              && |r.ops| == |s.ops| + 3 && r.ops[..|s.ops|] == s.ops
              && r.ops[|s.ops|..] == RecordOps(d, r.colors[d[0]], measure)
    ensures forall id :: id in s.colors ==> r.colors[id] == s.colors[id]
  {
    if |d| < BoxFields then s
    else
      var a := Assign(s.colors, s.nextIndex, d[0]);
      PaintState(s.ops + RecordOps(d, a.color, measure), a.colors, a.nextIndex)
  }

  /** The effect of drawing the records ds in order, starting from a colour map and counter. */
  function Paint(ds: seq<seq<int>>, colors: map<int, int>, nextIndex: nat, measure: string -> TextBounds): (r: PaintState)
    ensures colors.Keys <= r.colors.Keys
    ensures forall id :: id in colors ==> r.colors[id] == colors[id]
    ensures r.nextIndex >= nextIndex
    ensures |r.ops| <= 3 * |ds|
  {
    if ds == [] then PaintState([], colors, nextIndex)
    else PaintStep(Paint(ds[..|ds| - 1], colors, nextIndex, measure), ds[|ds| - 1], measure)
  }

  /** The records that are drawn: those with at least five entries, in order. */
  function Drawable(ds: seq<seq<int>>): (r: seq<seq<int>>)
    ensures AllDrawable(r)
    ensures forall d :: d in r <==> d in ds && |d| >= BoxFields
    ensures |r| <= |ds|
  {
    if ds == [] then []
    else if |ds[|ds| - 1]| < BoxFields then Drawable(ds[..|ds| - 1])
    else Drawable(ds[..|ds| - 1]) + [ds[|ds| - 1]]
  }

  /** Short records are skipped: drawing ds is the same as drawing only its well-formed records. */
  lemma {:induction false} ShortRecordsSkipped(ds: seq<seq<int>>, colors: map<int, int>, nextIndex: nat, measure: string -> TextBounds)
    ensures Paint(ds, colors, nextIndex, measure) == Paint(Drawable(ds), colors, nextIndex, measure)
    ensures |Paint(ds, colors, nextIndex, measure).ops| == 3 * |Drawable(ds)|
  {
    if ds != [] {
      var init := ds[..|ds| - 1];
      ShortRecordsSkipped(init, colors, nextIndex, measure);
      var d := ds[|ds| - 1];
      if |d| >= BoxFields {
        var dr := Drawable(init) + [d];
        assert dr[..|dr| - 1] == Drawable(init);
      }
    }
  }

  /** The class ids of ids that are not in `seen`, each once, in order of first appearance. */
  function NewClasses(ids: seq<int>, seen: set<int>): (r: seq<int>)
    ensures forall id :: id in r ==> id in ids && id !in seen
  {
    if ids == [] then []
    else
      var prev := NewClasses(ids[..|ids| - 1], seen);
      var id := ids[|ids| - 1];
      if id in seen || id in prev then prev else prev + [id]
  }

  /** Every record has the five entries [classId, x, y, w, h]. */
  predicate AllDrawable(ds: seq<seq<int>>)
  {
    forall i :: 0 <= i < |ds| ==> |ds[i]| >= BoxFields
  }

  /** The class ids of the records that are drawn, in order. */
  function ClassIds(ds: seq<seq<int>>): (ids: seq<int>)
    requires AllDrawable(ds)
    ensures |ids| == |ds|
    ensures forall i :: 0 <= i < |ds| ==> ids[i] == ds[i][0]
  {
    seq(|ds|, i requires 0 <= i < |ds| => ds[i][0])
  }

  /** The colour map and counter after assigning colours to ids in order. */
  function AssignAll(ids: seq<int>, colors: map<int, int>, nextIndex: nat): (a: ColorState)
    ensures forall id :: id in a.colors <==> id in colors || id in ids
    ensures forall id :: id in colors ==> a.colors[id] == colors[id]
    ensures a.nextIndex >= nextIndex
  {
    if ids == [] then ColorState(colors, nextIndex)
    else
      var prev := AssignAll(ids[..|ids| - 1], colors, nextIndex);
      assert forall id :: id in ids <==> id in ids[..|ids| - 1] || id == ids[|ids| - 1];
      var a := Assign(prev.colors, prev.nextIndex, ids[|ids| - 1]);
      ColorState(a.colors, a.nextIndex)
  }

  /** Drawing records changes the colour map and counter exactly as assigning their class ids in order. */
  lemma {:induction false} PaintAssignsClassIds(ds: seq<seq<int>>, colors: map<int, int>, nextIndex: nat, measure: string -> TextBounds)
    requires AllDrawable(ds)
    ensures Paint(ds, colors, nextIndex, measure).colors == AssignAll(ClassIds(ds), colors, nextIndex).colors
    ensures Paint(ds, colors, nextIndex, measure).nextIndex == AssignAll(ClassIds(ds), colors, nextIndex).nextIndex
  {
    if ds != [] {
      var init := ds[..|ds| - 1];
      var d := ds[|ds| - 1];
      PaintAssignsClassIds(init, colors, nextIndex, measure);
      var ids := ClassIds(ds);
      assert ids[..|ids| - 1] == ClassIds(init);
      assert ids[|ids| - 1] == d[0];
      var prev := Paint(init, colors, nextIndex, measure);
      assert Paint(ds, colors, nextIndex, measure) == PaintStep(prev, d, measure);
      var prevA := AssignAll(ClassIds(init), colors, nextIndex);
      var step := Assign(prevA.colors, prevA.nextIndex, d[0]);
      assert AssignAll(ids, colors, nextIndex) == ColorState(step.colors, step.nextIndex);
    }
  }

  /** Every id of ids is either already seen or among the new classes. */
  lemma {:induction false} NewClassesCovers(ids: seq<int>, seen: set<int>)
    ensures forall id :: id in ids ==> id in seen || id in NewClasses(ids, seen)
  {
    if ids != [] {
      NewClassesCovers(ids[..|ids| - 1], seen);
      assert forall id :: id in ids ==> id in ids[..|ids| - 1] || id == ids[|ids| - 1];
    }
  }

  /** The k-th new class got colour Palette[(nextIndex + k) % 9] and the counter moved once per new class. */
  ghost predicate PaletteInFirstAppearanceOrder(a: ColorState, newIds: seq<int>, nextIndex: nat)
  {
    && a.nextIndex == nextIndex + |newIds|
    && forall k :: 0 <= k < |newIds| ==> newIds[k] in a.colors && a.colors[newIds[k]] == Palette[(nextIndex + k) % |Palette|]
  }

  /**
   * Colours are handed out in order of first appearance: the k-th class id not yet in
   * the map gets colour Palette[(n + k) % 9] where n is the initial counter, and the
   * counter advances once per new class (colours already assigned never change, as
   * AssignAll states).
   */
  lemma {:induction false} ColorsByFirstAppearance(ids: seq<int>, colors: map<int, int>, nextIndex: nat)
    ensures PaletteInFirstAppearanceOrder(AssignAll(ids, colors, nextIndex), NewClasses(ids, colors.Keys), nextIndex)
  {
    if ids != [] {
      var init := ids[..|ids| - 1];
      var id := ids[|ids| - 1];
      ColorsByFirstAppearance(init, colors, nextIndex);
      NewClassesCovers(init, colors.Keys);
      var prev := AssignAll(init, colors, nextIndex);
      var prevNew := NewClasses(init, colors.Keys);
      var a := AssignAll(ids, colors, nextIndex);
      var newIds := NewClasses(ids, colors.Keys);
      var step := Assign(prev.colors, prev.nextIndex, id);
      assert a == ColorState(step.colors, step.nextIndex);
      if id in colors || id in prevNew {
        assert newIds == prevNew;
        assert id in prev.colors;
      } else {
        assert id !in init;
        NewClassStep(prev, prevNew, id, nextIndex);
        assert newIds == prevNew + [id];
      }
    }
  }

  /** Assigning a colour to a class not seen before extends the first-appearance order by it. */
  lemma NewClassStep(prev: ColorState, prevNew: seq<int>, id: int, nextIndex: nat)
    requires PaletteInFirstAppearanceOrder(prev, prevNew, nextIndex)
    requires id !in prev.colors
    ensures var a := Assign(prev.colors, prev.nextIndex, id);
            PaletteInFirstAppearanceOrder(ColorState(a.colors, a.nextIndex), prevNew + [id], nextIndex)
  {
  }

  // ---------------------------------------------------------------------------
  // The view and the service
  // ---------------------------------------------------------------------------

  class DetectionsView {
    var detections: seq<seq<int>>
    var colorMap: map<int, int>
    var colorIndex: nat

    constructor ()
      ensures detections == [] && colorMap == map[] && colorIndex == 0
    {
      detections := [];
      colorMap := map[];
      colorIndex := 0;
    }

    /**
     * onDraw: clears the surface, then draws every record with at least five entries,
     * assigning colours to classes seen for the first time.
     */
    method OnDraw(measure: string -> TextBounds) returns (ops: seq<DrawOp>)
      modifies this
      ensures detections == old(detections)
      ensures var s := Paint(old(detections), old(colorMap), old(colorIndex), measure);
              ops == [Clear] + s.ops && colorMap == s.colors && colorIndex == s.nextIndex
    {
      ops := [Clear];
      ghost var colors0, index0 := colorMap, colorIndex;
      for i := 0 to |detections|
        invariant detections == old(detections)
        invariant var s := Paint(detections[..i], colors0, index0, measure);
                  ops == [Clear] + s.ops && colorMap == s.colors && colorIndex == s.nextIndex
      {
        var detection := detections[i];
        assert detections[..i + 1][..i] == detections[..i];
        if |detection| >= BoxFields {
          var a := Assign(colorMap, colorIndex, detection[0]);
          colorMap, colorIndex := a.colors, a.nextIndex;
          ops := ops + RecordOps(detection, a.color, measure);
        }
      }
      assert detections[..|detections|] == detections;
    }

    /** onDetachedFromWindow: forgets the records and the colour map, but not the counter. */
    method OnDetachedFromWindow()
      modifies this
      ensures detections == [] && colorMap == map[] && colorIndex == old(colorIndex)
    {
      detections := [];
      colorMap := map[];
    }
  }

  class AccessibilityService {
    const view: DetectionsView

    /** onServiceConnected creates the view that is attached to the overlay window. */
    constructor ()
      ensures fresh(view) && view.detections == [] && view.colorMap == map[] && view.colorIndex == 0
    {
      view := new DetectionsView();
    }

    /** drawDetections: replaces the view's records by copies of ds, in order. */
    method DrawDetections(ds: seq<seq<int>>)
      modifies view
      ensures view.detections == ds
      ensures view.colorMap == old(view.colorMap) && view.colorIndex == old(view.colorIndex)
    {
      view.detections := [];
      for i := 0 to |ds|
        invariant view.detections == ds[..i]
        invariant view.colorMap == old(view.colorMap) && view.colorIndex == old(view.colorIndex)
      {
        view.detections := view.detections + [ds[i]];
      }
      assert ds[..|ds|] == ds;
    }
  }

  /** The palette order for classes first seen in the order 3, 1, 3, 2 on a fresh view. */
  lemma ColorStabilityExample(measure: string -> TextBounds)
    ensures var s := Paint([[3, 0, 0, 1, 1], [1, 0, 0, 1, 1], [3, 0, 0, 1, 1], [2, 0, 0, 1, 1]], map[], 0, measure);
            s.colors == map[3 := Red, 1 := Green, 2 := Blue] && s.nextIndex == 3
  {
    var d3: seq<int>, d1: seq<int>, d2: seq<int> := [3, 0, 0, 1, 1], [1, 0, 0, 1, 1], [2, 0, 0, 1, 1];
    var ds: seq<seq<int>> := [d3, d1, d3, d2];
    assert [d3][..0] == [];
    assert [d3, d1][..1] == [d3];
    assert [d3, d1, d3][..2] == [d3, d1];
    assert ds[..3] == [d3, d1, d3];
    var s0 := Paint([d3][..0], map[], 0, measure);
    assert s0 == PaintState([], map[], 0);
    var s1 := Paint([d3], map[], 0, measure);
    assert s1 == PaintStep(s0, d3, measure);
    var a1 := Assign(map[], 0, 3);
    assert a1.colors == map[3 := Red];
    assert s1.colors == map[3 := Red] && s1.nextIndex == 1;
    var s2 := Paint([d3, d1], map[], 0, measure);
    assert s2.colors == map[3 := Red, 1 := Green] && s2.nextIndex == 2;
    var s3 := Paint([d3, d1, d3], map[], 0, measure);
    assert s3.colors == s2.colors && s3.nextIndex == 2;
  }

  /** A three-entry record next to a five-entry one: only the latter is drawn. */
  lemma MalformedRecordExample(measure: string -> TextBounds)
    ensures var s := Paint([[7, 1, 2], [0, 10, 20, 30, 40]], map[], 0, measure);
            |s.ops| == 3 && s.ops[0] == StrokeRect(Rect(10.0, 20.0, 40.0, 60.0), Red)
  {
  }
}
